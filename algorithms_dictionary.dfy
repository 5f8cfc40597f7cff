/**
 * The centrality algorithm dictionary: which algorithms a GDS version offers
 * and, for each, its definition (procedure name, stream and store queries,
 * parameter defaults, form, service, result view). Four definitions are
 * shared module-level objects whose query fields are overwritten in place on
 * every lookup, according to the minor version of GDS.
 */
module AlgorithmsDictionary {
  import opened JsStrings
  import opened JsValues

  // ---------------------------------------------------------------------------
  // What a definition refers to
  // ---------------------------------------------------------------------------

  /** The React form components, by the name the dictionary imports them under. */
  datatype Form =
    | PageRankForm | BetweennesForm | DegreeForm | ApproxBetweennessForm
    | ClosenessCentralityForm | NewApproxBetweennessForm | HITSForm | EigenvectorForm

  /** The service that runs the queries (services/centralities.js). */
  datatype Service = RunAlgorithm | RunHITSAlgorithm

  datatype ResultView = CentralityResult | HITSResult

  /** Builders and fetch-query makers live in services/queries.js; only their identity is modelled. */
  datatype ParametersBuilder = CentralityParams

  datatype FetchQuery = GetFetchCypher | GetFetchHITSCypher

  /** A stream query as the dictionary writes it: the literal HITS query (its text is
      `HitsStream`), or `streamQueryOutline(call)`, whose expansion (in services/queries.js)
      is not part of this model. */
  datatype StreamQuery = HitsQuery | Outline(call: string)

  /** The descriptions shown with each algorithm; their texts are `DescriptionText`. */
  datatype Description =
    | HitsText | TransitiveText | ClosenessText | HarmonicText | BetweennessText
    | ApproxBetweennessText | DegreeText | ArticleRankText

  /** A definition object. Every field is optional because the JavaScript objects leave
      some keys out: Betweenness and Approx Betweenness have no `algorithmName`, and the
      Eigenvector object has no `Form` until its first lookup. */
  datatype Def = Def(
    algorithmName: Option<string>,
    form: Option<Form>,
    service: Option<Service>,
    resultView: Option<ResultView>,
    parameters: Option<Props>,
    parametersBuilder: Option<ParametersBuilder>,
    streamQuery: Option<StreamQuery>,
    storeQuery: Option<string>,
    getFetchQuery: Option<FetchQuery>,
    description: Option<Description>)

  const Empty := Def(None, None, None, None, None, None, None, None, None, None)

  /** Everything a run needs: a service, defaults, both queries and a fetch query. */
  predicate Runnable(d: Def) {
    && d.service.Some? && d.resultView.Some? && d.parameters.Some?
    && d.streamQuery.Some? && d.storeQuery.Some? && d.getFetchQuery.Some?
  }

  /** `Object.assign({}, base, over)`: every key of `over` wins, the other keys of `base` stay. */
  function Merge(base: Def, over: Def): (r: Def)
    ensures over.form.Some? ==> r.form == over.form
    ensures over.form.None? ==> r.form == base.form
    ensures over.parameters.Some? ==> r.parameters == over.parameters
    ensures over.parameters.None? ==> r.parameters == base.parameters
    ensures over.streamQuery.Some? ==> r.streamQuery == over.streamQuery
    ensures over.streamQuery.None? ==> r.streamQuery == base.streamQuery
    ensures over.storeQuery.Some? ==> r.storeQuery == over.storeQuery
    ensures over.storeQuery.None? ==> r.storeQuery == base.storeQuery
    ensures over.service.Some? ==> r.service == over.service
    ensures over.service.None? ==> r.service == base.service
    ensures over.resultView.Some? ==> r.resultView == over.resultView
    ensures over.resultView.None? ==> r.resultView == base.resultView
    ensures over.parametersBuilder.Some? ==> r.parametersBuilder == over.parametersBuilder
    ensures over.parametersBuilder.None? ==> r.parametersBuilder == base.parametersBuilder
    ensures over.description.Some? ==> r.description == over.description
    ensures over.description.None? ==> r.description == base.description
    ensures over.getFetchQuery.Some? ==> r.getFetchQuery == over.getFetchQuery
    ensures over.getFetchQuery.None? ==> r.getFetchQuery == base.getFetchQuery
    ensures over.algorithmName.Some? ==> r.algorithmName == over.algorithmName
    ensures over.algorithmName.None? ==> r.algorithmName == base.algorithmName
  {
    Def(
      Pick(base.algorithmName, over.algorithmName),
      Pick(base.form, over.form),
      Pick(base.service, over.service),
      Pick(base.resultView, over.resultView),
      Pick(base.parameters, over.parameters),
      Pick(base.parametersBuilder, over.parametersBuilder),
      Pick(base.streamQuery, over.streamQuery),
      Pick(base.storeQuery, over.storeQuery),
      Pick(base.getFetchQuery, over.getFetchQuery),
      Pick(base.description, over.description))
  }

  function Pick<T>(base: Option<T>, over: Option<T>): Option<T> {
    if over.Some? then over else base
  }

  // ---------------------------------------------------------------------------
  // Parameter defaults
  // ---------------------------------------------------------------------------

  /** `{...base, ...extra}`: the properties of `extra` put in one by one. */
  function Spread(base: Props, extra: Props): Props
    decreases |extra|
  {
    if |extra| == 0 then base else Spread(Put(base, extra[0].0, extra[0].1), extra[1..])
  }

  /** Spreading keeps every earlier key in its place. */
  lemma {:induction false} SpreadKeepsKeyOrder(base: Props, extra: Props)
    ensures |Spread(base, extra)| >= |base|
    ensures Keys(Spread(base, extra))[..|base|] == Keys(base)
    decreases |extra|
  {
    if |extra| > 0 {
      var b := Put(base, extra[0].0, extra[0].1);
      PutKeepsKeys(base, extra[0].0, extra[0].1);
      SpreadKeepsKeyOrder(b, extra[1..]);
      assert Keys(b)[..|base|] == Keys(base);
      assert Keys(Spread(b, extra[1..]))[..|base|] == Keys(Spread(b, extra[1..]))[..|b|][..|base|];
    }
  }

  /** A key that `extra` does not mention reads back from `base`. */
  lemma {:induction false} SpreadGet(base: Props, extra: Props, key: string)
    requires Avoids(extra, key)
    ensures Get(Spread(base, extra), key) == Get(base, key)
    decreases |extra|
  {
    if |extra| > 0 {
      var b := Put(base, extra[0].0, extra[0].1);
      SpreadGet(b, extra[1..], key);
      GetPut(base, extra[0].0, extra[0].1, key);
    }
  }

  /** Defaults shared by every centrality algorithm. */
  const CommonParameters: Props :=
    [("label", Str("*")), ("relationshipType", Str("*")), ("persist", Bool(false)), ("direction", Str("Natural"))]

  const One := Num(Dec(1, 0))
  const Twenty := Num(Dec(20, 0))
  const DampingFactor := Num(Dec(85, 2))

  const HitsExtra: Props :=
    [("writeProperty", Str("pregel_")), ("hitsIterations", Twenty), ("defaultValue", One),
     ("relationshipWeightProperty", Null)]
  const PageRankExtra: Props :=
    [("writeProperty", Str("pagerank")), ("dampingFactor", DampingFactor), ("maxIterations", Twenty),
     ("defaultValue", One), ("relationshipWeightProperty", Null)]
  const ClosenessExtra: Props := [("writeProperty", Str("closeness"))]
  const HarmonicExtra: Props := [("writeProperty", Str("harmonic"))]
  const BetweennessExtra: Props := [("writeProperty", Str("betweenness"))]
  const OldApproxExtra: Props :=
    [("strategy", Str("random")), ("maxDepth", Null), ("probability", Null),
     ("writeProperty", Str("approxBetweenness"))]
  const NewApproxExtra: Props :=
    [("samplingSize", Num(Dec(100, 0))), ("writeProperty", Str("approxBetweenness"))]
  const DegreeExtra: Props :=
    [("direction", Str("Reverse")), ("writeProperty", Str("degree")), ("defaultValue", One),
     ("relationshipWeightProperty", Null)]
  const EigenvectorExtra: Props :=
    [("writeProperty", Str("eigenvector")), ("maxIterations", Twenty), ("defaultValue", One)]
  const ArticleExtra: Props :=
    [("writeProperty", Str("articlerank")), ("dampingFactor", DampingFactor), ("maxIterations", Twenty),
     ("defaultValue", One), ("relationshipWeightProperty", Null)]

  /** The extra defaults of every definition in the dictionary. */
  const AllExtras: seq<Props> :=
    [HitsExtra, PageRankExtra, ClosenessExtra, HarmonicExtra, BetweennessExtra,
     OldApproxExtra, NewApproxExtra, DegreeExtra, EigenvectorExtra, ArticleExtra]

  /** A parameter set that spreads extra defaults over the common ones starts with the four
      common keys in their order, keeps label "*", relationshipType "*" and persist false,
      and keeps direction 'Natural' unless the extra defaults set it. */
  lemma ExtendsCommon(extra: Props)
    requires Avoids(extra, "label") && Avoids(extra, "relationshipType") && Avoids(extra, "persist")
    ensures var p := Spread(CommonParameters, extra);
      && |p| >= 4 && Keys(p)[..4] == ["label", "relationshipType", "persist", "direction"]
      && Get(p, "label") == Str("*") && Get(p, "relationshipType") == Str("*")
      && Get(p, "persist") == Bool(false)
      && (Avoids(extra, "direction") ==> Get(p, "direction") == Str("Natural"))
  {
    SpreadKeepsKeyOrder(CommonParameters, extra);
    assert Keys(CommonParameters) == ["label", "relationshipType", "persist", "direction"];
    SpreadGet(CommonParameters, extra, "label");
    SpreadGet(CommonParameters, extra, "relationshipType");
    SpreadGet(CommonParameters, extra, "persist");
    if Avoids(extra, "direction") {
      SpreadGet(CommonParameters, extra, "direction");
    }
  }

  /** The extra defaults leave label, relationshipType and persist alone. */
  predicate KeepsCommon(x: Props) {
    Avoids(x, "label") && Avoids(x, "relationshipType") && Avoids(x, "persist")
  }

  /** Every default parameter set of the dictionary extends the common defaults. */
  lemma ParametersExtendCommon()
    ensures forall i :: 0 <= i < |AllExtras| ==> KeepsCommon(AllExtras[i])
  {
    forall i | 0 <= i < |AllExtras| ensures KeepsCommon(AllExtras[i]) {
      var x := AllExtras[i];
      forall k | 0 <= k < |x| ensures x[k].0 != "label" && x[k].0 != "relationshipType" && x[k].0 != "persist" {
        assert |x[k].0| != 5 && |x[k].0| != 7 && |x[k].0| != 16;
      }
    }
  }

  /** Only Degree (index 7) sets a direction, and sets it to 'Reverse'. */
  lemma OnlyDegreeSetsDirection()
    ensures forall i :: 0 <= i < |AllExtras| ==> (Avoids(AllExtras[i], "direction") <==> i != 7)
    ensures AllExtras[7] == DegreeExtra
  {
    forall i | 0 <= i < |AllExtras| && i != 7 ensures Avoids(AllExtras[i], "direction") {
      var x := AllExtras[i];
      forall k | 0 <= k < |x| ensures x[k].0 != "direction" {
        assert |x[k].0| != 9;
      }
    }
    assert DegreeExtra[0].0 == "direction";
  }

  /** Degree's defaults, spread over the common ones, read direction 'Reverse'. */
  lemma DegreeReverses()
    ensures Get(Spread(CommonParameters, DegreeExtra), "direction") == Str("Reverse")
  {
    DirectionOfSpread(CommonParameters, DegreeExtra);
  }

  /** Degree's reversal, over names for its two literals. */
  lemma DirectionOfSpread(base: Props, extra: Props)
    requires base == CommonParameters && extra == DegreeExtra
    ensures Get(Spread(base, extra), "direction") == Str("Reverse")
  {
    var later := extra[1..];
    assert Avoids(later, "direction") by {
      forall k | 0 <= k < |later| ensures later[k].0 != "direction" {
        assert |later[k].0| != 9;
      }
    }
    assert extra == [extra[0]] + later;
    SpreadOfFresh(base, later, "direction", Str("Reverse"));
  }

  /** Each property of `extra`, in turn, has a key not seen before: not in `base`, not
      earlier in `extra`. */
  predicate FreshKeys(base: Props, extra: Props)
    decreases |extra|
  {
    |extra| == 0 || (Avoids(base, extra[0].0) && FreshKeys(base + [extra[0]], extra[1..]))
  }

  /** Moving the first extra property onto the base leaves the concatenation as it was. */
  lemma ConsAppend(base: Props, extra: Props)
    requires |extra| > 0
    ensures (base + [extra[0]]) + extra[1..] == base + extra
  {
    assert extra == [extra[0]] + extra[1..];
  }

  /** Spreading properties with fresh keys appends them in their order. */
  lemma {:induction false} SpreadOfFreshKeys(base: Props, extra: Props)
    requires FreshKeys(base, extra)
    ensures Spread(base, extra) == base + extra
    decreases |extra|
  {
    if |extra| > 0 {
      var e, rest := extra[0], extra[1..];
      assert Avoids(base, e.0) && FreshKeys(base + [e], rest);
      PutNew(base, e.0, e.1);
      assert Spread(base, extra) == Spread(base + [e], rest);
      SpreadOfFreshKeys(base + [e], rest);
      ConsAppend(base, extra);
    }
  }

  /** No key of `base` is a key of `extra`. */
  predicate DisjointKeys(base: Props, extra: Props) {
    forall j, k :: 0 <= j < |base| && 0 <= k < |extra| ==> base[j].0 != extra[k].0
  }

  /** Keys that are all different and none in the base are fresh one after the other. */
  lemma {:induction false} DistinctFresh(base: Props, extra: Props)
    requires DisjointKeys(base, extra) && UniqueKeys(extra)
    ensures FreshKeys(base, extra)
    decreases |extra|
  {
    if |extra| > 0 {
      var b := base + [extra[0]];
      var rest := extra[1..];
      forall j | 0 <= j < |base| ensures base[j].0 != extra[0].0 {
      }
      forall j, k | 0 <= j < |b| && 0 <= k < |rest| ensures b[j].0 != rest[k].0 {
        assert rest[k] == extra[k + 1];
        if j < |base| { assert b[j] == base[j]; } else { assert b[j] == extra[0]; }
      }
      forall j, k | 0 <= j < k < |rest| ensures rest[j].0 != rest[k].0 {
        assert rest[j] == extra[j + 1] && rest[k] == extra[k + 1];
      }
      DistinctFresh(b, rest);
    }
  }

  /** Degree's defaults as the spread leaves them: direction keeps its fourth place with 'Reverse'. */
  const DegreeDefaults: Props := CommonParameters[..3] + DegreeExtra

  /** Extra defaults with their own keys, none of them common, are appended by the spread. */
  lemma AppendedDefaults(x: Props)
    requires KeepsCommon(x) && Avoids(x, "direction")
    requires UniqueKeys(x)
    ensures Spread(CommonParameters, x) == CommonParameters + x
  {
    CommonKeysFresh(CommonParameters, x);
    DistinctFresh(CommonParameters, x);
    SpreadOfFreshKeys(CommonParameters, x);
  }

  /** Extra defaults that avoid the four common keys are fresh over the common defaults. */
  lemma CommonKeysFresh(base: Props, x: Props)
    requires base == CommonParameters
    requires KeepsCommon(x) && Avoids(x, "direction")
    ensures DisjointKeys(base, x)
  {
    forall j, k | 0 <= j < |base| && 0 <= k < |x| ensures base[j].0 != x[k].0 {
      assert base[j].0 in {"label", "relationshipType", "persist", "direction"};
    }
  }

  /** No extra defaults repeat a key. */
  lemma ExtraKeysDistinct()
    ensures forall i :: 0 <= i < |AllExtras| ==> UniqueKeys(AllExtras[i])
  {
    forall i, j, k | 0 <= i < |AllExtras| && 0 <= j < k < |AllExtras[i]|
      ensures AllExtras[i][j].0 != AllExtras[i][k].0
    {
      var x := AllExtras[i];
      if |x[j].0| == |x[k].0| {
        assert x[j].0[0] != x[k].0[0];
      }
    }
  }

  /** The defaults each definition holds are the spread of its extra defaults over the common
      ones: every extra key is new except Degree's direction, which is overridden in place. */
  lemma DefaultsAreSpreads()
    ensures forall i :: 0 <= i < |AllExtras| && i != 7 ==>
      Spread(CommonParameters, AllExtras[i]) == CommonParameters + AllExtras[i]
  {
    ParametersExtendCommon();
    OnlyDegreeSetsDirection();
    ExtraKeysDistinct();
    forall i | 0 <= i < |AllExtras| && i != 7
      ensures Spread(CommonParameters, AllExtras[i]) == CommonParameters + AllExtras[i]
    {
      AppendedDefaults(AllExtras[i]);
    }
  }

  /** Degree's spread overrides direction in place. */
  lemma DegreeDefaultsAreSpread()
    ensures Spread(CommonParameters, DegreeExtra) == DegreeDefaults
  {
    DegreeSpread(CommonParameters, DegreeExtra);
  }

  /** The spread for Degree, over names for its two literals. */
  lemma DegreeSpread(base: Props, extra: Props)
    requires base == CommonParameters && extra == DegreeExtra
    ensures Spread(base, extra) == DegreeDefaults
  {
    var p := base[..3] + [extra[0]];
    DegreeDirectionPut();
    assert Spread(base, extra) == Spread(p, extra[1..]);
    DegreeTailFresh();
    SpreadOfFreshKeys(p, extra[1..]);
    ConsAppend(base[..3], extra);
  }

  /** Degree's first extra property replaces the common direction in its place. */
  lemma DegreeDirectionPut()
    ensures Put(CommonParameters, "direction", Str("Reverse")) == CommonParameters[..3] + [DegreeExtra[0]]
  {
  }

  /** Degree's other extra properties all have new keys. */
  lemma DegreeTailFresh()
    ensures FreshKeys(CommonParameters[..3] + [DegreeExtra[0]], DegreeExtra[1..])
  {
    var p, x := CommonParameters[..3] + [DegreeExtra[0]], DegreeExtra[1..];
    assert DisjointKeys(p, x) && UniqueKeys(x);
    DistinctFresh(p, x);
  }

  /** A key put in first and never mentioned again reads back as put. */
  lemma SpreadOfFresh(base: Props, later: Props, key: string, v: Value)
    requires Avoids(later, key)
    ensures Get(Spread(base, [(key, v)] + later), key) == v
  {
    var b := Put(base, key, v);
    assert ([(key, v)] + later)[1..] == later;
    SpreadGet(b, later, key);
    GetPut(base, key, v, key);
  }

  // ---------------------------------------------------------------------------
  // The static table and the base objects, as the module defines them
  // ---------------------------------------------------------------------------

  function StreamCall(procedure: string): string { "CALL " + procedure + ".stream($config)" }
  function WriteCall(procedure: string): string { "CALL " + procedure + ".write($config)" }

  const HitsStream :=
    "CALL gds.alpha.hits.stream($config) YIELD nodeId, values\n"
    + "WITH gds.util.asNode(nodeId) AS node, values.auth AS authScore, values.hub AS hubScore\n"
    + "RETURN node, authScore, hubScore\n"
    + "ORDER BY authScore DESC\n"
    + "LIMIT toInteger($limit)"

  function DescriptionText(d: Description): string {
    match d
    case HitsText => "link analysis algorithm that rates nodes based on two scores, a hub score and an authority score."
    case TransitiveText => "Measures the transitive influence or connectivity of nodes"
    case ClosenessText => "detect nodes that are able to spread information very efficiently through a graph"
    case HarmonicText =>
      "a variant of closeness centrality, that was invented to solve the problem the original\n"
      + "-                  formula had when dealing with unconnected graphs."
    case BetweennessText => "a way of detecting the amount of influence a node has over the flow of information in a graph"
    case ApproxBetweennessText =>
      "calculates shortest paths between a subset of nodes, unlike Betweenness which considers all pairs of nodes"
    case DegreeText => "detects the number of direct connections a node has"
    case ArticleRankText => "a variant of the PageRank algorithm"
  }

  function Hits(): Def {
    Def(Some("gds.alpha.hits.stream"), Some(HITSForm), Some(RunHITSAlgorithm), Some(HITSResult),
        Some(CommonParameters + HitsExtra), Some(CentralityParams),
        Some(HitsQuery), Some(WriteCall("gds.alpha.hits")), Some(GetFetchHITSCypher), Some(HitsText))
  }

  function PageRank(): Def {
    Def(Some("gds.pageRank"), Some(PageRankForm), Some(RunAlgorithm), Some(CentralityResult),
        Some(CommonParameters + PageRankExtra), Some(CentralityParams),
        Some(Outline(StreamCall("gds.pageRank") + " YIELD nodeId, score")), Some(WriteCall("gds.pageRank")),
        Some(GetFetchCypher), Some(TransitiveText))
  }

  function Closeness(): Def {
    Def(Some("gds.alpha.closeness"), Some(ClosenessCentralityForm), Some(RunAlgorithm), Some(CentralityResult),
        Some(CommonParameters + ClosenessExtra), Some(CentralityParams),
        Some(Outline(StreamCall("gds.alpha.closeness") + " YIELD nodeId, centrality AS score")),
        Some(WriteCall("gds.alpha.closeness")), Some(GetFetchCypher), Some(ClosenessText))
  }

  /** Harmonic as the module writes it: its store query calls the STREAM procedure. */
  function HarmonicAsWritten(): Def {
    Def(Some("gds.alpha.harmonic"), Some(ClosenessCentralityForm), Some(RunAlgorithm), Some(CentralityResult),
        Some(CommonParameters + HarmonicExtra), Some(CentralityParams),
        Some(Outline(StreamCall("gds.alpha.harmonic") + " YIELD nodeId, centrality AS score")),
        Some(StreamCall("gds.alpha.harmonic")), Some(GetFetchCypher), Some(HarmonicText))
  }

  /** Harmonic with the store query every other definition has: the write procedure. */
  function Harmonic(): (d: Def)
    ensures d.algorithmName == Some("gds.alpha.harmonic")
    ensures d.storeQuery == Some(WriteCall(d.algorithmName.value))
    ensures d.(storeQuery := HarmonicAsWritten().storeQuery) == HarmonicAsWritten()
  {
    HarmonicAsWritten().(storeQuery := Some(WriteCall("gds.alpha.harmonic")))
  }

  /** `t` begins with `prefix`. */
  predicate StartsWith(t: string, prefix: string) {
    |t| >= |prefix| && t[..|prefix|] == prefix
  }

  /** A definition whose store query writes what its stream query streams: both call the
      procedure the definition names, `.stream` to read the scores and `.write` to store them. */
  predicate WritesWhatItStreams(d: Def) {
    && d.algorithmName.Some?
    && d.storeQuery == Some(WriteCall(d.algorithmName.value))
    && d.streamQuery.Some? && d.streamQuery.value.Outline?
    && StartsWith(d.streamQuery.value.call, StreamCall(d.algorithmName.value))
  }

  /** Page Rank, Closeness and the corrected Harmonic follow the same store-query rule; the
      Harmonic definition as written breaks it. */
  lemma StoreQueryRule()
    ensures WritesWhatItStreams(PageRank())
    ensures WritesWhatItStreams(Closeness())
    ensures WritesWhatItStreams(Harmonic())
    ensures !WritesWhatItStreams(HarmonicAsWritten())
  {
    var pr, cl, hm := StreamCall("gds.pageRank"), StreamCall("gds.alpha.closeness"), StreamCall("gds.alpha.harmonic");
    assert (pr + " YIELD nodeId, score")[..|pr|] == pr;
    assert (cl + " YIELD nodeId, centrality AS score")[..|cl|] == cl;
    assert (hm + " YIELD nodeId, centrality AS score")[..|hm|] == hm;
    HarmonicStoreQueryOnlyStreams();
  }

  /** As written, persisting a Harmonic run only streams: the store query is the stream call,
      not the write call of the same procedure, so nothing is written for the fetch to read. */
  lemma HarmonicStoreQueryOnlyStreams()
    ensures HarmonicAsWritten().storeQuery == Some(StreamCall(HarmonicAsWritten().algorithmName.value))
    ensures HarmonicAsWritten().storeQuery != Some(WriteCall(HarmonicAsWritten().algorithmName.value))
  {
    var s := StreamCall("gds.alpha.harmonic");
    var w := WriteCall("gds.alpha.harmonic");
    assert s[24] == 's' && w[24] == 'w';
  }

  const BaseBetweenness :=
    Empty.(form := Some(BetweennesForm), service := Some(RunAlgorithm), resultView := Some(CentralityResult),
           parameters := Some(CommonParameters + BetweennessExtra), parametersBuilder := Some(CentralityParams),
           getFetchQuery := Some(GetFetchCypher),
           description := Some(BetweennessText))

  const BaseApproxBetweenness :=
    Empty.(service := Some(RunAlgorithm), resultView := Some(CentralityResult),
           parametersBuilder := Some(CentralityParams), getFetchQuery := Some(GetFetchCypher),
           description := Some(ApproxBetweennessText))

  const OldApproxBetweenness :=
    Empty.(form := Some(ApproxBetweennessForm), parameters := Some(CommonParameters + OldApproxExtra),
           streamQuery := Some(Outline(StreamCall("gds.alpha.betweenness.sampled") + " YIELD nodeId, centrality AS score")),
           storeQuery := Some(WriteCall("gds.alpha.betweenness.sampled")))

  const NewApproxBetweenness :=
    Empty.(form := Some(NewApproxBetweennessForm), parameters := Some(CommonParameters + NewApproxExtra),
           streamQuery := Some(Outline(StreamCall("gds.betweenness") + " YIELD nodeId, score")),
           storeQuery := Some(WriteCall("gds.betweenness")))

  const BaseDegree :=
    Empty.(form := Some(DegreeForm), service := Some(RunAlgorithm), resultView := Some(CentralityResult),
           parameters := Some(DegreeDefaults), parametersBuilder := Some(CentralityParams),
           getFetchQuery := Some(GetFetchCypher), description := Some(DegreeText))

  const BaseEigenvector :=
    Empty.(service := Some(RunAlgorithm), resultView := Some(CentralityResult),
           parameters := Some(CommonParameters + EigenvectorExtra), parametersBuilder := Some(CentralityParams),
           getFetchQuery := Some(GetFetchCypher), description := Some(TransitiveText))

  const BaseArticle :=
    Empty.(form := Some(PageRankForm), service := Some(RunAlgorithm), resultView := Some(CentralityResult),
           parameters := Some(CommonParameters + ArticleExtra), parametersBuilder := Some(CentralityParams),
           getFetchQuery := Some(GetFetchCypher), description := Some(ArticleRankText))

  // ---------------------------------------------------------------------------
  // Versions
  // ---------------------------------------------------------------------------

  /** `parseInt(gdsVersion.split(".")[1])`; None stands for NaN (no second piece, or no digits). */
  function MinorVersion(gdsVersion: string): Option<int> {
    match Piece(gdsVersion, '.', 1)
    case None => None
    case Some(p) => ParseInt(p)
  }

  /** `version >= k` (also written `version >= "k"`): false for NaN. */
  predicate AtLeast(version: Option<int>, k: int) {
    version.Some? && version.value >= k
  }

  /** `version > k`: false for NaN. */
  predicate Above(version: Option<int>, k: int) {
    version.Some? && version.value > k
  }

  lemma {:induction false} SplitAfterPiece(a: string, rest: string, c: char)
    requires c !in a
    ensures Split(a + [c] + rest, c) == [a] + Split(rest, c)
  {
    var s := a + [c] + rest;
    assert s[|a|] == c;
    var i := FirstIndex(s, c);
    assert s[..|a|] == a;
    assert i == |a|;
    assert s[..i] == a;
    assert s[i + 1..] == rest;
  }

  /** The second piece of "a.b" or "a.b.rest" split on dots is b. */
  lemma SecondPiece(a: string, b: string, suffix: string)
    requires '.' !in a && '.' !in b
    requires suffix == [] || suffix[0] == '.'
    ensures Piece(a + "." + b + suffix, '.', 1) == Some(b)
  {
    var tail := b + suffix;
    assert a + "." + b + suffix == a + ['.'] + tail;
    SplitAfterPiece(a, tail, '.');
    FirstPiece(b, suffix);
  }

  /** The first piece of "b" or "b.rest" split on dots is b. */
  lemma FirstPiece(b: string, suffix: string)
    requires '.' !in b
    requires suffix == [] || suffix[0] == '.'
    ensures Split(b + suffix, '.')[0] == b
  {
    if suffix == [] {
      assert b + suffix == b;
    } else {
      assert b + suffix == b + ['.'] + suffix[1..];
      SplitAfterPiece(b, suffix[1..], '.');
    }
  }

  /** For a version written "major.minor" or "major.minor.patch…", the minor is the second number. */
  lemma MinorOfVersionText(major: nat, minor: nat, suffix: string)
    requires suffix == [] || suffix[0] == '.'
    ensures MinorVersion(NatText(major) + "." + NatText(minor) + suffix) == Some(minor)
  {
    var a := NatText(major);
    var b := NatText(minor);
    assert '.' !in a && '.' !in b;
    SecondPiece(a, b, suffix);
    ParseIntOfNatText(minor, "");
    assert b + "" == b;
  }

  /** A version string without a dot has no minor version (NaN). */
  lemma NoDotNoMinor(gdsVersion: string)
    requires '.' !in gdsVersion
    ensures MinorVersion(gdsVersion) == None
  {
    assert Split(gdsVersion, '.') == [gdsVersion];
  }

  // ---------------------------------------------------------------------------
  // algorithmList
  // ---------------------------------------------------------------------------

  const BaseNames: seq<string> :=
    ["Degree", "Eigenvector", "Page Rank", "Article Rank", "Betweenness", "Approx Betweenness", "Closeness"]

  /** The algorithms offered for a GDS version: the seven base names, then "HITS" from minor 5. */
  function AlgorithmList(gdsVersion: string): (r: seq<string>)
    ensures |r| >= 7 && r[..7] == BaseNames
    ensures |r| == 8 <==> AtLeast(MinorVersion(gdsVersion), 5)
    ensures |r| == 7 || r[7] == "HITS"
  {
    if AtLeast(MinorVersion(gdsVersion), 5) then BaseNames + ["HITS"] else BaseNames
  }

  /** With a version written out in digits, HITS is offered exactly from minor version 5. */
  lemma HitsOfferedFromMinorFive(major: nat, minor: nat, suffix: string)
    requires suffix == [] || suffix[0] == '.'
    ensures "HITS" in AlgorithmList(NatText(major) + "." + NatText(minor) + suffix) <==> minor >= 5
  {
    MinorOfVersionText(major, minor, suffix);
    var r := AlgorithmList(NatText(major) + "." + NatText(minor) + suffix);
    if minor < 5 {
      assert r == BaseNames;
    }
  }

  // ---------------------------------------------------------------------------
  // algorithmDefinitions
  // ---------------------------------------------------------------------------

  /** The names the switch handles itself. */
  const SwitchNames: set<string> := {"Betweenness", "Approx Betweenness", "Degree", "Eigenvector", "Article Rank"}

  /** The names whose shared object a lookup overwrites according to the version. */
  const VersionedNames: set<string> := {"Betweenness", "Degree", "Eigenvector", "Article Rank"}

  /** The names of the static table the switch falls through to. */
  const TableNames: set<string> := {"HITS", "Page Rank", "Closeness", "Harmonic"}

  /** The names the dictionary resolves to a definition. Any other name that is not a member
      of `Object.prototype` gives undefined. */
  predicate Resolves(name: string) {
    name in SwitchNames || name in TableNames
  }

  /** Every name algorithmList offers resolves to a definition, whatever the version. */
  lemma ListedNamesResolve(gdsVersion: string)
    ensures forall n :: n in AlgorithmList(gdsVersion) ==> Resolves(n)
  {
    var r := AlgorithmList(gdsVersion);
    forall n | n in r ensures Resolves(n) {
      var k :| 0 <= k < |r| && r[k] == n;
      if k < 7 { assert r[k] == BaseNames[k]; }
    }
  }

  /** Whether a lookup picks the new procedures: above minor 2 for Betweenness, from minor 6
      for Degree, Eigenvector and Article Rank. */
  predicate PicksNew(name: string, version: Option<int>) {
    if name == "Betweenness" then Above(version, 2) else AtLeast(version, 6)
  }

  /** The procedure a lookup points a shared object at. */
  function Procedure(name: string, version: Option<int>): string {
    var newer := PicksNew(name, version);
    if name == "Betweenness" then (if newer then "gds.betweenness" else "gds.alpha.betweenness")
    else if name == "Degree" then (if newer then "gds.degree" else "gds.alpha.degree")
    else if name == "Eigenvector" then (if newer then "gds.eigenvector" else "gds.alpha.eigenvector")
    else (if newer then "gds.articleRank" else "gds.alpha.articleRank")
  }

  /** A procedure of the old `gds.alpha.*` tier. */
  predicate IsAlpha(proc: string) {
    |proc| >= 10 && proc[..10] == "gds.alpha."
  }

  /** What a lookup leaves in one of the four shared objects: the procedure name, queries
      and (for Eigenvector) form of the old `gds.alpha.*` procedures or of the new ones. */
  function Overwrite(name: string, version: Option<int>, prior: Def): (d: Def)
    requires name in VersionedNames
  {
    var proc := Procedure(name, version);
    if name == "Betweenness" then
      var columns := if PicksNew(name, version) then " YIELD nodeId, score" else " YIELD nodeId, centrality AS score";
      prior.(streamQuery := Some(Outline(StreamCall(proc) + columns)), storeQuery := Some(WriteCall(proc)))
    else
      var d := prior.(algorithmName := Some(proc),
                      streamQuery := Some(Outline(StreamCall(proc) + " YIELD nodeId, score")),
                      storeQuery := Some(WriteCall(proc)));
      if name == "Eigenvector" then
        d.(form := Some(if PicksNew(name, version) then EigenvectorForm else PageRankForm))
      else d
  }

  /** The overwrite touches only the query fields, the procedure name and Eigenvector's form:
      service, result view, parameters, builder, fetch query and description are kept. */
  lemma OverwriteKeepsTheRest(name: string, version: Option<int>, prior: Def)
    requires name in VersionedNames
    ensures var d := Overwrite(name, version, prior);
      && d.service == prior.service && d.resultView == prior.resultView
      && d.parameters == prior.parameters && d.parametersBuilder == prior.parametersBuilder
      && d.getFetchQuery == prior.getFetchQuery && d.description == prior.description
      && (name != "Eigenvector" ==> d.form == prior.form)
      && (name == "Betweenness" ==> d.algorithmName == prior.algorithmName)
  {
  }

  /** The stream and store queries a lookup leaves call one procedure, which is also the
      definition's procedure name (except Betweenness, which has none); that procedure is a
      `gds.alpha.*` one exactly when the version is below the switch-over. */
  lemma OverwriteIsConsistent(name: string, version: Option<int>, prior: Def)
    requires name in VersionedNames
    ensures var d := Overwrite(name, version, prior);
      var proc := Procedure(name, version);
      && d.storeQuery == Some(WriteCall(proc))
      && d.streamQuery.Some? && d.streamQuery.value.Outline?
      && |d.streamQuery.value.call| >= |StreamCall(proc)|
      && d.streamQuery.value.call[..|StreamCall(proc)|] == StreamCall(proc)
      && (name != "Betweenness" ==> d.algorithmName == Some(proc))
      && (IsAlpha(proc) <==> !PicksNew(name, version))
  {
    var d := Overwrite(name, version, prior);
    var proc := Procedure(name, version);
    var call := d.streamQuery.value.call;
    assert call[..|StreamCall(proc)|] == StreamCall(proc);
    if PicksNew(name, version) {
      assert proc[..10][5] == proc[5] != 'l';
    } else {
      assert proc[..10] == "gds.alpha.";
    }
  }

  /** Approx Betweenness merges the base with the new variant from minor 3, else the old one. */
  function ApproxBetweenness(version: Option<int>): (d: Def)
    ensures Runnable(d) && d.algorithmName.None?
    ensures d.service == BaseApproxBetweenness.service && d.description == BaseApproxBetweenness.description
    ensures d.getFetchQuery == BaseApproxBetweenness.getFetchQuery
    ensures d.resultView == BaseApproxBetweenness.resultView
    ensures d.parametersBuilder == BaseApproxBetweenness.parametersBuilder
    ensures Above(version, 2) ==> d.storeQuery == Some(WriteCall("gds.betweenness"))
                                  && d.parameters == Some(CommonParameters + NewApproxExtra)
                                  && d.streamQuery == Some(Outline(StreamCall("gds.betweenness") + " YIELD nodeId, score"))
                                  && d.form == Some(NewApproxBetweennessForm)
    ensures !Above(version, 2) ==> d.storeQuery == Some(WriteCall("gds.alpha.betweenness.sampled"))
                                   && d.parameters == Some(CommonParameters + OldApproxExtra)
                                   && d.streamQuery == Some(Outline(StreamCall("gds.alpha.betweenness.sampled") + " YIELD nodeId, centrality AS score"))
                                   && d.form == Some(ApproxBetweennessForm)
  {
    Merge(BaseApproxBetweenness, if Above(version, 2) then NewApproxBetweenness else OldApproxBetweenness)
  }

  /** The new variant samples 100 nodes; the old one samples at random. */
  lemma ApproxVariantDefaults(version: Option<int>)
    ensures var p := ApproxBetweenness(version).parameters.value;
      && (Above(version, 2) ==> Get(p, "samplingSize") == Num(Dec(100, 0)))
      && (!Above(version, 2) ==> Get(p, "strategy") == Str("random"))
  {
    if Above(version, 2) {
      GetAppend(CommonParameters, NewApproxExtra, "samplingSize");
    } else {
      GetAppend(CommonParameters, OldApproxExtra, "strategy");
    }
  }

  /** A definition object of the dictionary; fields are updated in place. */
  class Definition {
    var algorithmName: Option<string>
    var form: Option<Form>
    var service: Option<Service>
    var resultView: Option<ResultView>
    var parameters: Option<Props>
    var parametersBuilder: Option<ParametersBuilder>
    var streamQuery: Option<StreamQuery>
    var storeQuery: Option<string>
    var getFetchQuery: Option<FetchQuery>
    var description: Option<Description>

    /** The object's current keys and values. */
    function Snapshot(): Def
      reads this
    {
      Def(algorithmName, form, service, resultView, parameters, parametersBuilder,
          streamQuery, storeQuery, getFetchQuery, description)
    }

    constructor (d: Def)
      ensures Snapshot() == d
    {
      algorithmName, form, service, resultView := d.algorithmName, d.form, d.service, d.resultView;
      parameters, parametersBuilder := d.parameters, d.parametersBuilder;
      streamQuery, storeQuery, getFetchQuery, description := d.streamQuery, d.storeQuery, d.getFetchQuery, d.description;
    }
  }

  /** Every definition of the static table can be run. */
  lemma TableDefinitionsRunnable()
    ensures Runnable(Hits()) && Runnable(PageRank()) && Runnable(Closeness()) && Runnable(HarmonicAsWritten())
  {
  }

  /** A shared object has what its base gives it for a run: service, result view, defaults
      and fetch query (no lookup overwrites these). */
  ghost predicate HasBase(o: Definition)
    reads o
  {
    o.service.Some? && o.resultView.Some? && o.parameters.Some? && o.getFetchQuery.Some?
  }

  /** The module's state: the four objects of the static table and the four shared base objects. */
  class Dictionary {
    const hits: Definition
    const pageRank: Definition
    const closeness: Definition
    const harmonic: Definition
    const betweenness: Definition
    const degree: Definition
    const eigenvector: Definition
    const article: Definition

    ghost function Shared(): set<Definition> {
      {betweenness, degree, eigenvector, article}
    }

    ghost function Table(): set<Definition> {
      {hits, pageRank, closeness, harmonic}
    }

    /** The static table's object for a name, or null (undefined) for any other name. */
    function TableEntry(name: string): (d: Definition?)
      ensures d != null <==> name in TableNames
      ensures d != null ==> d in Table()
    {
      if name == "HITS" then hits else if name == "Page Rank" then pageRank
      else if name == "Closeness" then closeness else if name == "Harmonic" then harmonic
      else null
    }

    /** The table objects are apart from the shared ones, every object of the static table
        can be run, and every shared object has what its base gives it for a run. */
    ghost predicate Valid()
      reads Shared(), Table()
    {
      && hits != betweenness && hits != degree && hits != eigenvector && hits != article
      && pageRank != betweenness && pageRank != degree && pageRank != eigenvector && pageRank != article
      && closeness != betweenness && closeness != degree && closeness != eigenvector && closeness != article
      && harmonic != betweenness && harmonic != degree && harmonic != eigenvector && harmonic != article
      && TableIntact() && SharedKeepBase()
    }

    ghost predicate TableIntact()
      reads Table()
    {
      && Runnable(hits.Snapshot()) && Runnable(pageRank.Snapshot())
      && Runnable(closeness.Snapshot()) && Runnable(harmonic.Snapshot())
    }

    ghost predicate SharedKeepBase()
      reads Shared()
    {
      HasBase(betweenness) && HasBase(degree) && HasBase(eigenvector) && HasBase(article)
    }

    /** The module as loaded: the table objects and the shared objects as the module defines them. */
    constructor ()
      ensures Valid()
      ensures hits.Snapshot() == Hits() && pageRank.Snapshot() == PageRank()
      ensures closeness.Snapshot() == Closeness() && harmonic.Snapshot() == HarmonicAsWritten()
      ensures betweenness.Snapshot() == BaseBetweenness && degree.Snapshot() == BaseDegree
      ensures eigenvector.Snapshot() == BaseEigenvector && article.Snapshot() == BaseArticle
    {
      hits := new Definition(Hits());
      pageRank := new Definition(PageRank());
      closeness := new Definition(Closeness());
      harmonic := new Definition(HarmonicAsWritten());
      betweenness := new Definition(BaseBetweenness);
      degree := new Definition(BaseDegree);
      eigenvector := new Definition(BaseEigenvector);
      article := new Definition(BaseArticle);
      TableDefinitionsRunnable();
    }

    /** The shared object a versioned name is looked up in. */
    function SharedObject(name: string): (o: Definition)
      requires name in VersionedNames
      ensures o in Shared()
    {
      if name == "Betweenness" then betweenness else if name == "Degree" then degree
      else if name == "Eigenvector" then eigenvector else article
    }

    /** `algorithmDefinitions(algorithm, gdsVersion)`. The four shared objects are updated in
        place and returned; Approx Betweenness is a fresh merged object; the other names come
        from the static table; any other name gives undefined (null), which holds for every
        name that is not a member of `Object.prototype`. */
    method AlgorithmDefinitions(name: string, gdsVersion: string) returns (d: Definition?)
      requires Valid()
      modifies Shared()
      ensures Valid()
      ensures d != null <==> Resolves(name)
      ensures d != null ==> Runnable(d.Snapshot())
      ensures name in VersionedNames ==>
        d == SharedObject(name) && d.Snapshot() == Overwrite(name, MinorVersion(gdsVersion), old(d.Snapshot()))
      ensures name == "Approx Betweenness" ==>
        fresh(d) && d.Snapshot() == ApproxBetweenness(MinorVersion(gdsVersion))
      ensures name in TableNames ==> d == TableEntry(name) && unchanged(d)
      ensures forall o :: o in Shared() && o != d ==> unchanged(o)
    {
      var version := MinorVersion(gdsVersion);
      if name in VersionedNames {
        d := SharedObject(name);
        SwitchVersion(d, name, version);
        OverwriteKeepsTheRest(name, version, old(d.Snapshot()));
      } else if name == "Approx Betweenness" {
        d := new Definition(ApproxBetweenness(version));
      } else {
        d := TableEntry(name);
      }
    }

    /** The switch's case for a shared object: Betweenness changes its queries and their
        score column, the others their procedure and queries, and Eigenvector its form too. */
    static method SwitchVersion(o: Definition, name: string, version: Option<int>)
      requires name in VersionedNames
      modifies o
      ensures o.Snapshot() == Overwrite(name, version, old(o.Snapshot()))
    {
      if name == "Betweenness" {
        var proc := if Above(version, 2) then "gds.betweenness" else "gds.alpha.betweenness";
        var columns := if Above(version, 2) then " YIELD nodeId, score" else " YIELD nodeId, centrality AS score";
        o.streamQuery := Some(Outline(StreamCall(proc) + columns));
        o.storeQuery := Some(WriteCall(proc));
      } else if name == "Degree" {
        SetProcedure(o, if AtLeast(version, 6) then "gds.degree" else "gds.alpha.degree");
      } else if name == "Eigenvector" {
        SetProcedure(o, if AtLeast(version, 6) then "gds.eigenvector" else "gds.alpha.eigenvector");
        o.form := Some(if AtLeast(version, 6) then EigenvectorForm else PageRankForm);
      } else {
        SetProcedure(o, if AtLeast(version, 6) then "gds.articleRank" else "gds.alpha.articleRank");
      }
    }

    /** Points a shared object at one procedure: its name, stream query and store query. */
    static method SetProcedure(o: Definition, proc: string)
      modifies o
      ensures o.Snapshot() == old(o.Snapshot()).(algorithmName := Some(proc),
        streamQuery := Some(Outline(StreamCall(proc) + " YIELD nodeId, score")), storeQuery := Some(WriteCall(proc)))
    {
      o.algorithmName := Some(proc);
      o.streamQuery := Some(Outline(StreamCall(proc) + " YIELD nodeId, score"));
      o.storeQuery := Some(WriteCall(proc));
    }
  }
}
