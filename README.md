# NEuler's deterministic core, in Dafny

NEuler is a browser console for the Neo4j Graph Data Science (GDS) library. Every graph
algorithm runs inside the database; the console picks the procedure to call, sends its
queries, turns the returned records into rows, and draws them as tables, graphs and
t-SNE scatter plots. This project models the rules the console itself applies and proves
what they promise:

- **The algorithm dictionary** (`algorithms_dictionary.dfy`, module `AlgorithmsDictionary`).
  - Which centrality algorithms a GDS version offers.
  - The definition a name resolves to: procedure, stream and store queries, parameter
    defaults and so on.
  - The choice between the old `gds.alpha.*` procedures and the new ones, by the
    version's minor number.
  - The in-place overwrite of the four shared definition objects (a `class` whose
    fields a lookup assigns).
- **The graph store of the visualiser** (`neovis.dfy`, module `NeoVis`).
  - How a Neo4j node or relationship becomes a vis.js node or edge: size, caption,
    group, tooltip, thickness.
  - How every field of a result record lands in the id-keyed node and edge maps (last
    write wins).
  - Clearing the maps.
- **The results panel** (`algo_results.dfy`, module `AlgoResults`).
  - The pager over the task list.
  - The tab bar and its active tab.
  - The start of a run: which queries are recorded, which parameters go to the
    service, and the in-place deletion of the similarity-only keys.
- **The centrality service** (`centralities.dfy`, module `Centralities`).
  - Stream-only or store-then-fetch runs.
  - Parsing records into rows, an aligned id list and the distinct labels in
    first-occurrence order.
- **The t-SNE view** (`tsne_visualizer.dfy`, module `TsneVisualizer`).
  - The caption fallback.
  - Grouping points into one series per first label, in first-appearance order.
  - The per-task cache of grouped layouts.
  - The hidden-series toggle and the plotted/legend series.
- **The centrality result panes** (`centrality_panes.dfy`, module `CentralityPanes`).
  - The Table/Code/Vis panes of a task.
  - The `:param key => value;` lines of the Code pane.
- **The asset path** (`groups_menu.dfy`, module `GroupsMenu`): `publicPathTo`.

Two modules state the JavaScript semantics the others rely on, once:

- `js_values.dfy` (module `JsValues`):
  - values, truthiness, `||` and `String(v)`;
  - objects as ordered property lists with get, spread/put and `delete`;
  - `[...new Set(xs)]`.
- `js_strings.dfy` (module `JsStrings`): `indexOf`/`includes`, `split`, decimal text
  and the global `parseInt`.

Each source file that changes state in place keeps that form:

- Classes with `modifies` clauses:
  - the dictionary's shared objects;
  - the visualiser's maps;
  - the pager and the tab component;
  - the t-SNE component and its cache;
  - a task's parameter object.
- Methods with loops, each proved equal to a specification function:
  - the tooltip loop;
  - the per-record dispatch, as written (its array loop tests the array, not the element);
  - the grouping `reduce`.

The parts that only compute are functions.

## Model

| member | source | states |
|---|---|---|
| AlgorithmsDictionary.Merge | src/components/Centralities/algorithmsDictionary.js:180 | `Object.assign({}, base, variant)`: for each of the ten keys, a key the variant sets wins and a key it leaves out keeps the base's value |
| AlgorithmsDictionary.SpreadKeepsKeyOrder | src/components/Centralities/algorithmsDictionary.js:28-31 | an object spread keeps every key of the base in its place, at the front |
| AlgorithmsDictionary.SpreadGet | src/components/Centralities/algorithmsDictionary.js:28-31 | a key the spread properties do not mention reads back the base's value |
| AlgorithmsDictionary.SpreadOfFreshKeys | src/components/Centralities/algorithmsDictionary.js:28-31 | spreading properties whose keys are all new appends them in their order |
| AlgorithmsDictionary.ExtendsCommon | src/components/Centralities/algorithmsDictionary.js:15-20 | defaults spread over the common ones start with label, relationshipType, persist, direction. These read "*", "*" and false, and direction reads 'Natural' unless the extras set it |
| AlgorithmsDictionary.ParametersExtendCommon | src/components/Centralities/algorithmsDictionary.js:28-151 | no definition's extra defaults touch label, relationshipType or persist |
| AlgorithmsDictionary.OnlyDegreeSetsDirection | src/components/Centralities/algorithmsDictionary.js:123-126 | of all the extra default sets, exactly Degree's sets a direction |
| AlgorithmsDictionary.DegreeReverses | src/components/Centralities/algorithmsDictionary.js:123-126 | Degree's defaults read direction 'Reverse' |
| AlgorithmsDictionary.AppendedDefaults | src/components/Centralities/algorithmsDictionary.js:28-31 | extra defaults with distinct keys, none of them common, come after the four common ones unchanged |
| AlgorithmsDictionary.DefaultsAreSpreads | src/components/Centralities/algorithmsDictionary.js:28-151 | every default set except Degree's is the common defaults followed by its own extras |
| AlgorithmsDictionary.DegreeDefaultsAreSpread | src/components/Centralities/algorithmsDictionary.js:123-126 | Degree's spread overrides direction in its fourth place and appends its other extras |
| AlgorithmsDictionary.Harmonic | src/components/Centralities/algorithmsDictionary.js:69-81 | the corrected Harmonic runs `gds.alpha.harmonic` and stores with the write call of that procedure. Every other field is the written definition's (see Findings) |
| AlgorithmsDictionary.HarmonicStoreQueryOnlyStreams | src/components/Centralities/algorithmsDictionary.js:77 | as written, Harmonic's store query is the stream call of its procedure, not the write call |
| AlgorithmsDictionary.StoreQueryRule | src/components/Centralities/algorithmsDictionary.js:42-81 | Page Rank, Closeness and the corrected Harmonic store with the write call of the procedure their stream query calls. The Harmonic definition as written breaks that rule |
| AlgorithmsDictionary.MinorOfVersionText | src/components/Centralities/algorithmsDictionary.js:159-164 | for a version "major.minor" or "major.minor.rest", the parsed minor version is minor |
| AlgorithmsDictionary.NoDotNoMinor | src/components/Centralities/algorithmsDictionary.js:159-164 | a version without a dot parses to NaN |
| AlgorithmsDictionary.AlgorithmList | src/components/Centralities/algorithmsDictionary.js:158-162 | the seven base names in their fixed order, then "HITS" exactly when the minor version is at least 5 (never for NaN) |
| AlgorithmsDictionary.HitsOfferedFromMinorFive | src/components/Centralities/algorithmsDictionary.js:158-162 | for a version written in digits, HITS is offered exactly from minor 5 |
| AlgorithmsDictionary.ListedNamesResolve | src/components/Centralities/algorithmsDictionary.js:158-232 | every name the list offers resolves to a definition, whatever the version |
| AlgorithmsDictionary.OverwriteKeepsTheRest | src/components/Centralities/algorithmsDictionary.js:173-226 | a lookup overwrites only the queries, the procedure name and Eigenvector's form. Service, result view, defaults, builder, fetch query and description are kept |
| AlgorithmsDictionary.OverwriteIsConsistent | src/components/Centralities/algorithmsDictionary.js:166-228 | the store query is the write call and the stream query starts with the stream call of one procedure. That procedure is the `gds.alpha.*` one exactly below the switch-over (minor above 2 for Betweenness, at least 6 for the others) |
| AlgorithmsDictionary.ApproxBetweenness | src/components/Centralities/algorithmsDictionary.js:94-181 | the merge is runnable. It keeps the base's service, result view, parameters builder, description and fetch query. Above minor 2 it takes the `gds.betweenness` stream and write queries, the new defaults and NewApproxBetweennessForm; otherwise the `gds.alpha.betweenness.sampled` queries, the old defaults and ApproxBetweennessForm |
| AlgorithmsDictionary.ApproxVariantDefaults | src/components/Centralities/algorithmsDictionary.js:106-114 | the new variant samples 100 nodes; the old one uses the random strategy |
| AlgorithmsDictionary.TableDefinitionsRunnable | src/components/Centralities/algorithmsDictionary.js:22-82 | every definition of the static table, as written, has a service, defaults, both queries and a fetch query |
| AlgorithmsDictionary.Dictionary.TableEntry | src/components/Centralities/algorithmsDictionary.js:231-232 | the static lookup is defined exactly for HITS, Page Rank, Closeness and Harmonic |
| AlgorithmsDictionary.Dictionary.constructor | src/components/Centralities/algorithmsDictionary.js:15-155 | the module as loaded: each object holds the definition written for it. Harmonic keeps its stream call as the store query |
| AlgorithmsDictionary.Dictionary.AlgorithmDefinitions | src/components/Centralities/algorithmsDictionary.js:163-234 | defined iff the name resolves, and then runnable; a name that does not resolve gives undefined (see Left out for `Object.prototype` names). A versioned name returns its shared object, overwritten for the version. Approx Betweenness returns a fresh merge. Table names return their unchanged object. No other shared object changes |
| NeoVis.FirstLabel | src/components/visualisation/neovis.js:59 | the first label, or undefined exactly for a node without labels |
| NeoVis.LabelSettings | src/components/visualisation/neovis.js:61-64 | the settings under the label's property key ("undefined" for an unlabelled node), or no settings |
| NeoVis.NodeSize | src/components/visualisation/neovis.js:70-110 | no size when a size query is set. Otherwise, in order: a numeric setting; a truthy numeric property; a safe-range Integer property converted; else 1.0 |
| NeoVis.PropertySizes | src/components/visualisation/neovis.js:94-109 | a size read from a property is never NaN. A JavaScript zero or a missing property gives 1.0; an Integer zero keeps 0 |
| NeoVis.NodeCaption | src/components/visualisation/neovis.js:113-118 | the configured function applied to the node, else the caption property, else the first label, else "" |
| NeoVis.CaptionFallback | src/components/visualisation/neovis.js:117 | the caption is the property, the label or "". It is "" exactly when neither the property nor the label is truthy |
| NeoVis.NodeGroup | src/components/visualisation/neovis.js:122-139 | the first label without a community key. With one, an Integer community property gives its value when non-zero, else the first label, else 0; a community property that is not an Integer gives 0 |
| NeoVis.GroupIsNumberOrLabel | src/components/visualisation/neovis.js:125-136 | with a community key the group is a number or the first label. A plain JavaScript number community (where `toNumber` throws) lands in group 0; a non-zero Integer gives its value |
| NeoVis.TooltipConcat | src/components/visualisation/neovis.js:143-146 | the tooltip of two property lists one after the other is their two tooltips concatenated |
| NeoVis.TooltipLength | src/components/visualisation/neovis.js:143-146 | the tooltip is empty exactly when there are no properties |
| NeoVis.BuildTitle | src/components/visualisation/neovis.js:143-146 | the accumulating loop yields one `<strong>key:</strong> value<br>` line per property, in property order |
| NeoVis.BuildNodeVisObject | src/components/visualisation/neovis.js:55-148 | the vis node's id is the identity; its size, caption, group and title follow the rules above |
| NeoVis.EdgeThickness | src/components/visualisation/neovis.js:172-178 | a truthy string setting scales that property; a truthy number scales itself; anything else gives the thinnest edge |
| NeoVis.BuildEdgeVisObject | src/components/visualisation/neovis.js:155-197 | id, from and to come from identity, start and end. The title is the tooltip, the value is the thickness and the label is always "" |
| NeoVis.SegmentsGrow | src/components/visualisation/neovis.js:243-248 | adding a path's segments never removes a stored entry |
| NeoVis.ArrayGrows | src/components/visualisation/neovis.js:251-272 | adding an array's elements never removes a stored entry |
| NeoVis.AbsorbGrows | src/components/visualisation/neovis.js:214-272 | absorbing one record field never removes a stored entry, with the array branch as written and as corrected |
| NeoVis.AbsorbAllGrows | src/components/visualisation/neovis.js:212-275 | absorbing a record as written never removes a stored entry |
| NeoVis.SegmentsStored | src/components/visualisation/neovis.js:243-248 | afterwards every segment's start node, end node and relationship is stored |
| NeoVis.PathStored | src/components/visualisation/neovis.js:236-250 | after a path, its start and end nodes and every segment's nodes and relationship are stored |
| NeoVis.ArrayIgnoredAsWritten | src/components/visualisation/neovis.js:251-272 | as written, an array field leaves the store unchanged whatever it holds. An array holding a new node leaves it unstored; the corrected branch stores it (see Findings) |
| NeoVis.ArrayTestingNothing | src/components/visualisation/neovis.js:251-272 | when the value tested is neither a node nor a relationship, the loop adds nothing, however many elements it visits |
| NeoVis.AgreeWithoutArrays | src/components/visualisation/neovis.js:212-275 | on a record without array fields, the dispatch as written and the corrected one give the same store |
| NeoVis.ArrayStored | src/components/visualisation/neovis.js:251-272 | with the corrected test, every node and relationship of an array is stored afterwards |
| NeoVis.RecordStored | src/components/visualisation/neovis.js:212-275 | as written, every node and relationship field of a record is stored afterwards |
| NeoVis.LastNodeWins | src/components/visualisation/neovis.js:40-42 | as written, the node added last under an id is the one kept. The edges and every other node are as before |
| NeoVis.NeoVisView.constructor | src/components/visualisation/neovis.js:23-35 | the configuration and query are kept; both maps start empty and there is no network yet |
| NeoVis.NeoVisView.AddNode | src/components/visualisation/neovis.js:40-42 | the node is stored under its id, replacing an earlier one; nothing else changes |
| NeoVis.NeoVisView.AddEdge | src/components/visualisation/neovis.js:44-46 | the edge is stored under its id, replacing an earlier one; nothing else changes |
| NeoVis.NeoVisView.AddNodeOf | src/components/visualisation/neovis.js:215-222 | a node field is built and stored |
| NeoVis.NeoVisView.AddEdgeOf | src/components/visualisation/neovis.js:225-234 | a relationship field is built and stored |
| NeoVis.NeoVisView.AbsorbValue | src/components/visualisation/neovis.js:214-272 | one record field changes the store as the dispatch as written says; an array field changes nothing |
| NeoVis.NeoVisView.AddSegments | src/components/visualisation/neovis.js:243-248 | the `forEach` over segments stores each start node, end node and relationship in turn |
| NeoVis.NeoVisView.AddArray | src/components/visualisation/neovis.js:251-272 | the array loop tests the array itself, not each element, so it adds nothing and the store is unchanged |
| NeoVis.NeoVisView.AddTested | src/components/visualisation/neovis.js:252-271 | one pass of the loop body: the element is stored when the tested value is a node and the element a node, or both are relationships. Otherwise nothing changes |
| NeoVis.NeoVisView.OnNext | src/components/visualisation/neovis.js:212-275 | a record's fields are absorbed in order with the dispatch as written; the store only grows |
| NeoVis.NeoVisView.OnCompleted | src/components/visualisation/neovis.js:276-361 | a network is created over the store, which is unchanged |
| NeoVis.NeoVisView.ClearNetwork | src/components/visualisation/neovis.js:372-376 | both maps are emptied. The call fails exactly when no network exists yet |
| NeoVis.NeoVisView.RenderWithCypher | src/components/visualisation/neovis.js:423-431 | the store is cleared first. The query is replaced only when clearing did not throw |
| AlgoResults.Tabs | src/components/AlgoResults.js:121-185 | a failed run shows Error and Code only. Any other run starts with Table and ends with Code |
| AlgoResults.TabsShown | src/components/AlgoResults.js:121-185 | Error iff failed; Table iff not failed; Chart iff not failed and Centralities; Visualisation iff not failed and neither Path Finding nor Similarity |
| AlgoResults.Panes | src/components/AlgoResults.js:226-253 | the panes laid out are exactly the tabs shown |
| AlgoResults.Displayed | src/components/AlgoResults.js:110-117 | a pane is displayed exactly when it is the active one |
| AlgoResults.OnePaneDisplayed | src/components/AlgoResults.js:110-117 | at most one pane is displayed at a time |
| AlgoResults.DisplayedUnique | src/components/AlgoResults.js:110-117 | among distinct pane names, the active one is the only one displayed |
| AlgoResults.NextActiveItem | src/components/AlgoResults.js:91-97 | the next tab is Error exactly when the task has an error. Without an error, Error gives way to Table and any other tab stays |
| AlgoResults.AlgoTab.constructor | src/components/AlgoResults.js:79-81 | the first tab is Error when the component is created with an error, else Table |
| AlgoResults.AlgoTab.DidMount | src/components/AlgoResults.js:85-89 | a task with an error opens on Error |
| AlgoResults.AlgoTab.Click | src/components/AlgoResults.js:83 | the clicked tab becomes active |
| AlgoResults.AlgoTab.ReceiveProps | src/components/AlgoResults.js:91-97 | the active tab follows the transition above |
| AlgoResults.ResultPager.constructor | src/components/AlgoResults.js:262-264 | the pager starts on page 0 |
| AlgoResults.ResultPager.PrevResult | src/components/AlgoResults.js:266-268 | the page becomes max(0, page - 1) and stays in range. When the view enables prev, the page moves back exactly one; when it disables prev, the page stays |
| AlgoResults.ResultPager.NextResult | src/components/AlgoResults.js:270-273 | the page becomes min(length - 1, page + 1) and stays in range. When the view enables next, the page moves on exactly one; when it disables next, the page stays |
| AlgoResults.ResultPager.ReceiveTasks | src/components/AlgoResults.js:275-283 | a list of another length resets the page to 0, and its first task is run exactly when its status is ADDED. A list of the same length keeps the page |
| AlgoResults.ResultPager.View | src/components/AlgoResults.js:206-350 | nothing for an empty list. Otherwise the current task, shown as page number page + 1 of the list length; prev is disabled on the first page and next on the last |
| AlgoResults.ParametersAfterRun | src/components/AlgoResults.js:295-307 | a Similarity run drops itemLabel, relationshipType and categoryLabel and keeps every other property, in its order; other groups keep all |
| AlgoResults.DeletesFilter | src/components/AlgoResults.js:304-306 | the three deletes in a row are one filter that drops the three similarity keys and keeps the rest in order |
| AlgoResults.RecordedQueries | src/components/AlgoResults.js:327-330 | the store and fetch queries when persisted, else the stream query |
| AlgoResults.OnRunAlgo | src/components/AlgoResults.js:285-331 | a Similarity run whose parameters hold no config object stops with a TypeError and leaves the parameters untouched. Otherwise the parameter object is edited in place. The service gets the queries (built from the three similarity keys for Similarity), the parameters plus `limit` and the persisted flag. The recorded queries are chosen as above |
| AlgoResults.ServiceParameters | src/components/AlgoResults.js:304-313 | the service's `limit` is the setting. After a Similarity run the three keys read undefined; every other key reads as before the run |
| Centralities.RowOf | src/services/centralities.js:29-37 | a row carries the node's parsed properties, identity and labels, with `score` or, for HITS, `hubScore` and `authScore` |
| Centralities.AllLabels | src/services/centralities.js:42 | the flattened labels hold exactly the labels of the rows |
| Centralities.Parse | src/services/centralities.js:27-90 | one row per record in record order, with ids aligned to the rows and the distinct labels. A result without records throws an Error whose message is the text of its error, or no message when the error is undefined |
| Centralities.ParsedLabels | src/services/centralities.js:42 | the labels hold every label of every row exactly once, in first-occurrence order |
| Centralities.ParsersAgree | src/services/centralities.js:27-90 | the two parsers give the same ids and labels, and rows that differ only in their scores |
| Centralities.Wrap | src/services/centralities.js:4-7 | the rethrown Error's message is the text of the original error |
| Centralities.RunAlgorithm | src/services/centralities.js:9-25 | without persisting only the stream query runs; with persisting the store query runs first |
| Centralities.PersistedRun | src/services/centralities.js:14-24 | the fetch query runs exactly when the store query succeeds. A failed store query rejects with its own error; otherwise the outcome is the fetched result's parse |
| Centralities.RunResolves | src/services/centralities.js:9-25 | a run resolves exactly when the query whose result is parsed answers with records, and then with that answer's parse |
| Centralities.StreamFailureWrapped | src/services/centralities.js:4-13 | a stream run resolves with the parse of the stream answer when that parse succeeds. Its failure is the database's or the parser's Error wrapped once in an Error, whose message is the text of the one wrapped |
| Centralities.UndefinedErrorMessage | src/services/centralities.js:4-90 | a stream answer without records and without an error throws an Error with no message, so the run fails with the message "Error" |
| TsneVisualizer.Caption | src/components/visualisation/TSNEVisualizer.js:38-53 | the first truthy of the name, title and id properties, else the identity |
| TsneVisualizer.CaptionFallback | src/components/visualisation/TSNEVisualizer.js:38-53 | the caption is one of the four candidates, and it is falsy only when all four are |
| TsneVisualizer.Items | src/components/visualisation/TSNEVisualizer.js:136-140 | item i takes row i's first label and caption and the coordinates of layout row i |
| TsneVisualizer.FindSeries | src/components/visualisation/TSNEVisualizer.js:142-143 | finds a series with the label exactly when one exists |
| TsneVisualizer.InsertIds | src/components/visualisation/TSNEVisualizer.js:141-147 | one `reduce` step keeps the series ids, adding the label at the end when it is new |
| TsneVisualizer.InsertData | src/components/visualisation/TSNEVisualizer.js:141-147 | one step adds the point to the series of its label and to no other |
| TsneVisualizer.InsertTotal | src/components/visualisation/TSNEVisualizer.js:141-147 | one step adds exactly one point |
| TsneVisualizer.GroupIds | src/components/visualisation/TSNEVisualizer.js:139-147 | one series per distinct first label, in first-appearance order |
| TsneVisualizer.GroupData | src/components/visualisation/TSNEVisualizer.js:139-147 | each series holds exactly the points with its label, in input order |
| TsneVisualizer.GroupTotal | src/components/visualisation/TSNEVisualizer.js:139-147 | the series hold as many points as there are rows |
| TsneVisualizer.GroupByLabel | src/components/visualisation/TSNEVisualizer.js:139-147 | the pushing `reduce` computes the grouping, so the grouping lemmas apply to it |
| TsneVisualizer.Without | src/components/visualisation/TSNEVisualizer.js:246 | the filter keeps exactly the hidden entries not equal to the clicked id |
| TsneVisualizer.UnlabelledNeverHidden | src/components/visualisation/TSNEVisualizer.js:243-248 | as written, the unlabelled series is never hidden, and a click on it leaves "undefined" in the hidden list for good (see Findings) |
| TsneVisualizer.LiftHidden | src/components/visualisation/TSNEVisualizer.js:169 | `hiddenIds.includes(id)` over the list of strings holds exactly for a string id with an entry of the same text |
| TsneVisualizer.UnlabelledAlwaysPlotted | src/components/visualisation/TSNEVisualizer.js:169-230 | as written, whatever the hidden list holds, the unlabelled series is plotted and its legend entry is not greyed |
| TsneVisualizer.ToggleAsWrittenTwice | src/components/visualisation/TSNEVisualizer.js:243-248 | as written, for a string id one click hides the series and a second click restores the list |
| TsneVisualizer.Toggle | src/components/visualisation/TSNEVisualizer.js:243-248 | the corrected toggle removes a hidden id and appends a shown one |
| TsneVisualizer.ToggleFlips | src/components/visualisation/TSNEVisualizer.js:243-248 | a click flips whether that series is hidden, for every id, and no other series changes. Two clicks on a shown series restore the list |
| TsneVisualizer.Visible | src/components/visualisation/TSNEVisualizer.js:169 | the plotted series are exactly the series not hidden |
| TsneVisualizer.VisibleAppend | src/components/visualisation/TSNEVisualizer.js:169 | the filter distributes over concatenation, so the plotted series keep their order |
| TsneVisualizer.VisibleNothingHidden | src/components/visualisation/TSNEVisualizer.js:169 | with none of their ids hidden, all series are plotted as they are |
| TsneVisualizer.Legend | src/components/visualisation/TSNEVisualizer.js:222-230 | one legend entry per series in order, greyed exactly when the series is hidden |
| TsneVisualizer.TsneView.constructor | src/components/visualisation/TSNEVisualizer.js:55-57 | no data, nothing hidden, captions off |
| TsneVisualizer.TsneView.LoadTask | src/components/visualisation/TSNEVisualizer.js:131-153 | a cached task's series are reused as they are. Otherwise the rows are laid out and grouped, then cached under the task and shown |
| TsneVisualizer.TsneView.LegendClick | src/components/visualisation/TSNEVisualizer.js:243-248 | the hidden list is toggled as written: the text of the id is appended, or the entries equal to the id are filtered out. A click on the unlabelled series leaves it plotted |
| TsneVisualizer.TsneView.ToggleCaptions | src/components/visualisation/TSNEVisualizer.js:126-128 | the caption switch flips, and with it whether the plot draws node captions; the data and the hidden list are kept |
| TsneVisualizer.TsneView.Render | src/components/visualisation/TSNEVisualizer.js:34-230 | nothing exactly when the task has not completed; a loader exactly when there is no data yet. Otherwise the series not hidden by the string list, a legend of all of them, and node captions exactly when the caption switch is on |
| TsneVisualizer.ReloadUsesCache | src/components/visualisation/TSNEVisualizer.js:131-153 | a second load of a task shows the first load's series, whatever rows and layout come with it |
| CentralityPanes.Table | src/components/Centralities/AlgoResults.js:10-25 | the result table is shown exactly for Page Rank, Article Rank, Betweenness, Approx Betweenness, Closeness and Harmonic |
| CentralityPanes.OfferedTables | src/components/Centralities/AlgoResults.js:10-25 | of the algorithms a version offers, exactly Degree, Eigenvector and HITS have no table |
| CentralityPanes.ParamTextByTruthiness | src/components/Centralities/AlgoResults.js:37-41 | a falsy value (0, NaN, false, "", null, undefined) reads null. A truthy string is quoted; any other truthy value is written as its text, so an Integer zero reads 0 |
| CentralityPanes.ParamLines | src/components/Centralities/AlgoResults.js:35-43 | one `:param key =>` line per key, in key order, each with the value read back by that key |
| CentralityPanes.ParamLinesShowProperties | src/components/Centralities/AlgoResults.js:35-43 | line k shows the k-th property with its own value |
| CentralityPanes.CodeLines | src/components/Centralities/AlgoResults.js:29-49 | the parameter lines when the task has parameters, and always the query last |
| CentralityPanes.NoParametersStillShowsQuery | src/components/Centralities/AlgoResults.js:32-48 | with no parameters no `:param` line appears, but the query is shown |
| CentralityPanes.Vis | src/components/Centralities/AlgoResults.js:53 | the visualiser gets the task's label, relationship type and write property. A task without parameters throws |
| CentralityPanes.AlgoPanesInOrder | src/components/Centralities/AlgoResults.js:7-54 | the panes are Table, Code and Vis in that order. The table is shown exactly for the table algorithms, and the code pane ends with the query |
| CentralityPanes.ResultPanes | src/components/Centralities/AlgoResults.js:56-61 | one result pane per task, in task order, with that task's panes |
| CentralityPanes.ResultPanesFollowTasks | src/components/Centralities/AlgoResults.js:56-61 | pane k's menu item starts with task k's algorithm, and its code pane ends with task k's query |
| GroupsMenu.PublicPathTo | src/components/AlgorithmGroupsMenu.js:14-17 | over HTTP(S), "/" + append. Otherwise protocol + "//" + the pathname before its first "/dist/" + "/dist/" + append |
| GroupsMenu.EndsWithAppend | src/components/AlgorithmGroupsMenu.js:15-16 | the path always ends with append |
| GroupsMenu.DiskPathPrefix | src/components/AlgorithmGroupsMenu.js:16 | off HTTP the directory holds no "/dist/". A pathname without one is used whole; otherwise the pathname starts with the directory and "/dist/" |
| JsValues.Or | src/components/visualisation/neovis.js:117 | `a \|\| b` is a when a is truthy, else b, and is truthy iff either is |
| JsValues.GetPut | src/components/AlgoResults.js:313 | after `{...p, [key]: v}` the key reads v and every other key reads as before |
| JsValues.GetDelete | src/components/AlgoResults.js:304-306 | after `delete p[key]` the key reads undefined and every other key reads as before |
| JsValues.Member | src/components/AlgoResults.js:300 | `v.key` throws exactly on undefined and null; on an object it reads that property |
| JsValues.GetWithoutKeys | src/components/AlgoResults.js:304-306 | through the filter a dropped key reads undefined and every other key reads as before |
| JsValues.DeleteWithoutKeys | src/components/AlgoResults.js:304-306 | a `delete` after a filter is the filter with one more key, so the remaining properties keep their order |
| JsValues.SignificandKeepsValue | src/components/visualisation/neovis.js:143 | moving trailing zeros into the exponent does not change the number written |
| JsValues.MagnitudePlain | src/components/visualisation/neovis.js:143 | a number's text has an exponent marker exactly when its decimal point falls outside 10^-6 up to 10^21 |
| JsValues.MagnitudeExponent | src/components/visualisation/neovis.js:143 | outside that range the text is the exponent form of the significant digits |
| JsValues.PositiveNumberText | src/components/visualisation/neovis.js:143 | a positive number is written without a sign |
| JsValues.LargePowerText | src/components/visualisation/neovis.js:143 | from 10^21 on, a power of ten is written in the exponent form |
| JsValues.WholeNumberText | src/components/Centralities/AlgoResults.js:40 | whole numbers below 10^21 are plain digits: 1200 reads "1200" and 1.000 reads "1" |
| JsValues.FractionText | src/components/Centralities/AlgoResults.js:40 | down to 10^-6 a fraction reads with "0." and leading zeros: 0.85 and 0.000001 |
| JsValues.SmallNumberText | src/components/Centralities/AlgoResults.js:40 | below 10^-6 the exponent form takes over: 10^-7 reads "1e-7" |
| JsValues.NegativeNumberText | src/components/Centralities/AlgoResults.js:40 | a negative number is its magnitude after a minus sign: "-2.5" |
| JsValues.ExponentWithFraction | src/components/Centralities/AlgoResults.js:40 | in the exponent form, several digits keep a point after the first: 2.5 x 10^-7 reads "2.5e-7" |
| JsValues.Distinct | src/services/centralities.js:42 | `[...new Set(xs)]` holds exactly the elements of xs |
| JsValues.DistinctNoDuplicates | src/services/centralities.js:42 | no element appears twice |
| JsValues.DistinctInOrder | src/services/centralities.js:42 | the elements come in the order of their first occurrence |
| JsStrings.BeforeFirst | src/components/AlgorithmGroupsMenu.js:16 | `s.split(sep)[0]`: all of s when sep does not occur, else the text before its first occurrence |
| JsStrings.BeforeFirstHasNoSeparator | src/components/AlgorithmGroupsMenu.js:16 | that prefix never contains the separator |
| JsStrings.JoinSplit | src/components/Centralities/algorithmsDictionary.js:159 | joining the pieces of a split on the same character gives the string back |
| JsStrings.ParseIntOfNatText | src/components/Centralities/algorithmsDictionary.js:159-164 | `parseInt` reads back the decimal text of a number, whether it ends the string or is followed by a character that is neither a digit nor an x |

## Left out

- Neo4j driver I/O is not modelled: `session.run`, `subscribe` and the driver's `runCypher`. The database is a function from a query and its parameters to records or a thrown error.
- NeoVis.NodeSize: the asynchronous `sizeCypher` branch (neovis.js:70-88) is left out, because its size arrives later from a second query. The model records only that no size is set synchronously.
- NeoVis.EdgeThickness: the thickness is stated before the floating-point `* 0.2` scaling. It says which value is scaled, not the product.
- The driver's Integer methods are modelled as plain integers: `toInt` and `toNumber` are the identity and `inSafeRange` is the bound 2^53 - 1. The driver's 32-bit truncation in `toInt` is not modelled.
- The vis.js network is not modelled: its construction, options, `setData`, `setSize`, `redraw`, `stopSimulation` and the timers. `onCompleted` and `clearNetwork` only record whether a network exists, since `setData` on a missing network throws.
- The t-SNE layout (`generateTSNELayout`) is floating-point numerics in a foreign library. It is a parameter: the positions it returns, one per row. TsneVisualizer.Items requires at least as many positions as rows, which that library guarantees.
- `parseProperties`, `streamQueryOutline`, `getFetchCypher` and `getFetchHITSCypher` live in files that are not part of this model. They are parameters or opaque constructors.
- The algorithm descriptions are JSX and text. They are an enumeration, and the HITS stream query is a named constant rather than its Cypher text.
- The form components and result views appear in definitions only as names.
- The Redux state, `connect`, dispatching `runTask`/`completeTask` and the service's promise are not modelled. AlgoResults.OnRunAlgo returns the service call and the recorded queries as values.
- The screenshot button (`html2canvas` printing) is not modelled, nor `toLocaleString`/`toLocaleTimeString` of the start time. A pane's start time is given as text.
- AlgoResults.ResultPager.ReceiveTasks: when the new list is empty, the source reads the status of a missing first task and throws. The model returns `ResetOnEmpty` and does not model the exception.
- AlgoResults.ResultPager.Valid only bounds the page while the list is non-empty. `nextResult` on an empty list sets the page to -1, which the source allows too.
- The dictionary's `Form` field names the form for the Eigenvector switch; the React components themselves are not modelled.
- Centralities.RowOf: `identity.toNumber()` is the identity on the integer.
- JSX layout, styles, colours and semantic-ui components are not modelled.
- AlgorithmsDictionary.Dictionary.AlgorithmDefinitions: the default branch reads `algorithms[algorithm]` from an object literal, so a name of an `Object.prototype` member ("constructor", "toString", "__proto__", ...) gives that function or object rather than undefined. The model returns null for every name that does not resolve; the names `algorithmList` offers never reach that branch.
- JsValues.Put: `Object.keys` and `for...in` list integer-like keys ("0", "17") first, in numeric order, before the other keys. The model keeps insertion order for every key, since the parameter and property keys these files read are names.
- Numbers: a JavaScript number is a decimal `mantissa x 10^-scale` held exactly, not a double. Rounding to the nearest double and the shortest round-tripping digits of `Number::toString` are not modelled; the layout of the digits (plain, with a point, "0.000", or the exponent form) is.
- `src/services/queries.test.js` exercises `src/services/queries.js`, which is not part of this model.

## Findings

| source | as written | input that shows it | evidently intended | confidence | as-written member | corrected member |
|---|---|---|---|---|---|---|
| src/components/Centralities/algorithmsDictionary.js:77 | Harmonic's `storeQuery` is `CALL gds.alpha.harmonic.stream($config)` | run Harmonic with "persist" set: the store step only streams, so nothing is written for the fetch query to read | `CALL gds.alpha.harmonic.write($config)`, as every other definition's store query | not executed; high | AlgorithmsDictionary.HarmonicStoreQueryOnlyStreams | AlgorithmsDictionary.Harmonic |
| src/components/visualisation/neovis.js:253,262 | the array branch tests `v instanceof neo4j.types.Node` (the array) instead of `obj` (the element) | a record field that is a list of nodes, such as `RETURN collect(n)`: no element is ever added | test each element `obj`, adding nodes and relationships of the list | not executed; high | NeoVis.ArrayIgnoredAsWritten | NeoVis.ArrayStored |
| src/components/visualisation/TSNEVisualizer.js:169,245-248 | the toggle looks for `String(id)` but filters out entries `!== id`, and the plot tests `includes(item.id)` | rows without labels form a series with id undefined. A click on it appends "undefined", which never matches undefined: the series stays plotted and "undefined" is never removed | hide and show every series, whatever its id | not executed; medium | TsneVisualizer.UnlabelledNeverHidden | TsneVisualizer.ToggleFlips |
