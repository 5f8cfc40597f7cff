/**
 * The results panel: a pager over the task list (one task per page, newest
 * first), the tab bar of the task shown, and the start of a run, which picks the
 * queries to record and hands the parameters to the algorithm's service.
 *
 * React's `setState` is modelled as assignment to the component's fields, and a
 * change of props as a method call. The service's promise, the Redux dispatch and
 * the screenshot button's `html2canvas` are not modelled: starting a run returns the
 * service call and the recorded queries as values.
 */
module AlgoResults {
  import opened JsStrings
  import opened JsValues

  datatype Status = Added | Running | Completed | Failed

  /** The parameter object of a task, which a run of a similarity algorithm edits in place. */
  class TaskParameters {
    var props: Props

    constructor(p: Props)
      ensures props == p
    {
      props := p;
    }
  }

  datatype Task = Task(taskId: string, group: string, algorithm: string, status: Status,
                       completed: bool, error: Value, persisted: bool, parameters: TaskParameters)

  // ---------------------------------------------------------------------------
  // The tab bar of one task
  // ---------------------------------------------------------------------------

  const ErrorTab := "Error"
  const TableTab := "Table"
  const ChartTab := "Chart"
  const VisualisationTab := "Visualisation"
  const CodeTab := "Code"

  /** The named tabs a task shows (the screenshot button aside): a failed run shows its error and its code; any other run
      shows its table, a chart for centralities, a visualisation unless it found paths or
      similarities, and its code. */
  function Tabs(completed: bool, status: Status, group: string): (tabs: seq<string>)
    ensures CodeTab in tabs
    ensures completed && status == Failed ==> tabs == [ErrorTab, CodeTab]
    ensures !(completed && status == Failed) ==> |tabs| >= 2 && tabs[0] == TableTab && tabs[|tabs| - 1] == CodeTab
  {
    if completed && status == Failed then [ErrorTab, CodeTab]
    else
      [TableTab]
      + (if group == "Centralities" then [ChartTab] else [])
      + (if !(group == "Path Finding" || group == "Similarity") then [VisualisationTab] else [])
      + [CodeTab]
  }

  /** Which tabs appear, as conditions on the task. */
  lemma TabsShown(completed: bool, status: Status, group: string)
    ensures var tabs := Tabs(completed, status, group);
      var failed := completed && status == Failed;
      (ErrorTab in tabs <==> failed) &&
      (TableTab in tabs <==> !failed) &&
      (ChartTab in tabs <==> !failed && group == "Centralities") &&
      (VisualisationTab in tabs <==> !failed && group != "Path Finding" && group != "Similarity")
  {
  }

  /** The panes under the tab bar, in the order they are laid out. */
  function Panes(completed: bool, status: Status, group: string): (panes: seq<string>)
    ensures multiset(panes) == multiset(Tabs(completed, status, group))
  {
    if completed && status == Failed then [ErrorTab, CodeTab]
    else
      var vis := if !(group == "Path Finding" || group == "Similarity") then [VisualisationTab] else [];
      var chart := if group == "Centralities" then [ChartTab] else [];
      [TableTab, CodeTab] + vis + chart
  }

  /** `getStyle`: a pane is displayed exactly when it is the active tab's. */
  function Displayed(panes: seq<string>, activeItem: string): (shown: seq<string>)
    ensures forall k :: 0 <= k < |shown| ==> shown[k] == activeItem
    ensures activeItem in panes <==> |shown| > 0
  {
    if |panes| == 0 then []
    else (if panes[0] == activeItem then [panes[0]] else []) + Displayed(panes[1..], activeItem)
  }

  /** At most one pane is displayed, as the pane names are all different. */
  lemma OnePaneDisplayed(completed: bool, status: Status, group: string, activeItem: string)
    ensures |Displayed(Panes(completed, status, group), activeItem)| <= 1
  {
    var p := Panes(completed, status, group);
    assert |p| <= 4;
    if activeItem in p {
      var k :| 0 <= k < |p| && p[k] == activeItem;
      DisplayedUnique(p, activeItem, k);
    }
  }

  lemma {:induction false} DisplayedUnique(p: seq<string>, a: string, k: nat)
    requires k < |p| && p[k] == a
    requires forall i, j :: 0 <= i < j < |p| ==> p[i] != p[j]
    ensures Displayed(p, a) == [a]
    decreases |p|
  {
    if k == 0 {
      assert a !in p[1..] by {
        forall i | 0 <= i < |p[1..]| ensures p[1..][i] != a {
          assert p[1..][i] == p[i + 1];
        }
      }
      assert |Displayed(p[1..], a)| == 0;
    } else {
      assert p[0] != a;
      assert p[1..][k - 1] == a;
      DisplayedUnique(p[1..], a, k - 1);
    }
  }

  /** The next active tab when the task shown changes: 'Error' while the task has an error,
      back to 'Table' when an error goes away, otherwise as it was. */
  function NextActiveItem(activeItem: string, taskError: Value): (next: string)
    ensures next == ErrorTab <==> Truthy(taskError)
    ensures activeItem == ErrorTab && !Truthy(taskError) ==> next == TableTab
    ensures activeItem != ErrorTab && !Truthy(taskError) ==> next == activeItem
  {
    if Truthy(taskError) then ErrorTab
    else if activeItem == ErrorTab then TableTab
    else activeItem
  }

  class AlgoTab {
    var activeItem: string

    /** The first tab: 'Error' when the component is created with an error, else 'Table'. */
    constructor(propsError: Value)
      ensures activeItem == (if Truthy(propsError) then ErrorTab else TableTab)
    {
      activeItem := if Truthy(propsError) then ErrorTab else TableTab;
    }

    /** `componentDidMount`: a task that already has an error opens on its error. */
    method DidMount(taskError: Value)
      modifies this
      ensures activeItem == (if Truthy(taskError) then ErrorTab else old(activeItem))
    {
      if Truthy(taskError) {
        activeItem := ErrorTab;
      }
    }

    /** `handleMenuItemClick`: the clicked tab becomes active. */
    method Click(name: string)
      modifies this
      ensures activeItem == name
    {
      activeItem := name;
    }

    /** `componentWillReceiveProps`. */
    method ReceiveProps(taskError: Value)
      modifies this
      ensures activeItem == NextActiveItem(old(activeItem), taskError)
      ensures activeItem == ErrorTab <==> Truthy(taskError)
    {
      if Truthy(taskError) {
        activeItem := ErrorTab;
      } else if activeItem == ErrorTab {
        activeItem := TableTab;
      }
    }
  }

  // ---------------------------------------------------------------------------
  // The pager over the task list
  // ---------------------------------------------------------------------------

  /** What the pager renders for the current task. */
  datatype PageView = PageView(task: Task, currentPage: int, totalPages: int, prevDisabled: bool, nextDisabled: bool)

  /** What a change of the task list leads to. */
  datatype Reception =
    | Kept            // same length: the page stays
    | Reset           // new length: back to the first page
    | ResetAndRun     // new length and the first task is new: it is run
    | ResetOnEmpty    // new length of zero: reading the first task's status throws

  class ResultPager {
    var page: int
    var tasks: seq<Task>

    /** The page points at a task whenever there is one. */
    predicate Valid()
      reads this
    {
      |tasks| > 0 ==> 0 <= page < |tasks|
    }

    constructor(ts: seq<Task>)
      ensures Valid()
      ensures page == 0 && tasks == ts
    {
      page := 0;
      tasks := ts;
    }

    /** `prevResult`: one page back, not before the first. */
    method PrevResult()
      requires Valid()
      modifies this
      ensures Valid()
      ensures page == if old(page) - 1 > 0 then old(page) - 1 else 0
      ensures old(View()).Some? && !old(View()).value.prevDisabled ==> page == old(page) - 1
      ensures old(View()).Some? && old(View()).value.prevDisabled ==> page == old(page)
      ensures tasks == old(tasks)
    {
      page := if page - 1 > 0 then page - 1 else 0;
    }

    /** `nextResult`: one page on, not past the last. */
    method NextResult()
      requires Valid()
      modifies this
      ensures Valid()
      ensures page == if |tasks| - 1 < old(page) + 1 then |tasks| - 1 else old(page) + 1
      ensures old(View()).Some? && !old(View()).value.nextDisabled ==> page == old(page) + 1
      ensures old(View()).Some? && old(View()).value.nextDisabled ==> page == old(page)
      ensures tasks == old(tasks)
    {
      var length := |tasks|;
      page := if length - 1 < page + 1 then length - 1 else page + 1;
    }

    /** `componentWillReceiveProps`: a list of another length resets the page and runs its
        first task when that task was just added. */
    method ReceiveTasks(next: seq<Task>) returns (r: Reception)
      requires Valid()
      modifies this
      ensures Valid()
      ensures tasks == next
      ensures page == if |next| != |old(tasks)| then 0 else old(page)
      ensures r == Kept <==> |next| == |old(tasks)|
      ensures r == ResetOnEmpty <==> |next| != |old(tasks)| && |next| == 0
      ensures r == ResetAndRun <==> |next| != |old(tasks)| && |next| > 0 && next[0].status == Added
    {
      r := Kept;
      if |next| != |tasks| {
        page := 0;
        if |next| == 0 {
          r := ResetOnEmpty;
        } else if next[0].status == Added {
          r := ResetAndRun;
        } else {
          r := Reset;
        }
      }
      tasks := next;
    }

    /** `render`: the current task with its page number and the buttons' state, or nothing
        for an empty list. */
    function View(): (v: Option<PageView>)
      requires Valid()
      reads this
      ensures v.None? <==> |tasks| == 0
      ensures v.Some? ==>
        v.value.task == tasks[page] && v.value.totalPages == |tasks| &&
        v.value.currentPage == page + 1 && 1 <= v.value.currentPage <= v.value.totalPages
      ensures v.Some? ==> (v.value.prevDisabled <==> page == 0) && (v.value.nextDisabled <==> page == |tasks| - 1)
    {
      if |tasks| > 0 then
        Some(PageView(tasks[page], page + 1, |tasks|, page + 1 == 1, page + 1 == |tasks|))
      else None
    }
  }

  // ---------------------------------------------------------------------------
  // Starting a run
  // ---------------------------------------------------------------------------

  /** A query of an algorithm definition: a text, or, for similarity algorithms, a builder
      taking the item label, relationship type and category label. */
  datatype Query = Text(s: string) | Builder(f: (Value, Value, Value) -> string)

  /** The parts of an algorithm definition a run uses. `getFetchQuery` takes a label (and,
      for similarity algorithms, the written relationship type). */
  datatype RunDefinition = RunDefinition(streamQuery: Query, storeQuery: Query, getFetchQuery: (Value, Value) -> string)

  datatype ServiceCall = ServiceCall(streamCypher: string, storeCypher: string, fetchCypher: string,
                                     parameters: Props, persisted: bool)

  const SimilarityOnly := ["itemLabel", "relationshipType", "categoryLabel"]

  /** The parameter object after a run has started: similarity runs drop the three keys their
      queries were built from. */
  function ParametersAfterRun(group: string, p: Props): (r: Props)
    ensures group != "Similarity" ==> r == p
    ensures group == "Similarity" ==> forall k :: 0 <= k < |r| ==> r[k].0 !in SimilarityOnly
    ensures group == "Similarity" ==> forall x :: x in r <==> x in p && x.0 !in SimilarityOnly
    ensures group == "Similarity" ==> r == WithoutKeys(p, SimilarityOnly)
  {
    if group == "Similarity" then
      DeletesFilter(p);
      Delete(Delete(Delete(p, "itemLabel"), "relationshipType"), "categoryLabel")
    else p
  }

  /** The three deletes of a similarity run are one filter over the similarity-only keys. */
  lemma DeletesFilter(p: Props)
    ensures Delete(Delete(Delete(p, "itemLabel"), "relationshipType"), "categoryLabel") == WithoutKeys(p, SimilarityOnly)
  {
    WithoutNoKeys(p);
    DeleteWithoutKeys(p, [], "itemLabel");
    assert [] + ["itemLabel"] == ["itemLabel"];
    DeleteWithoutKeys(p, ["itemLabel"], "relationshipType");
    assert ["itemLabel"] + ["relationshipType"] == ["itemLabel", "relationshipType"];
    DeleteWithoutKeys(p, ["itemLabel", "relationshipType"], "categoryLabel");
    assert ["itemLabel", "relationshipType"] + ["categoryLabel"] == SimilarityOnly;
  }

  /** The queries a run records: the store and fetch queries when the result is persisted,
      the stream query otherwise. */
  function RecordedQueries(persisted: bool, stream: string, store: string, fetch: string): (qs: seq<string>)
    ensures persisted ==> qs == [store, fetch]
    ensures !persisted ==> qs == [stream]
  {
    if persisted then [store, fetch] else [stream]
  }

  /** How starting a run ends: the service is called and the queries recorded, or reading
      `parameters.config.writeRelationshipType` of a similarity task without a `config`
      throws a TypeError before anything changes. */
  datatype RunStart = Started(call: ServiceCall, recorded: seq<string>) | ConfigTypeError

  /** `onRunAlgo`: builds the queries (similarity queries from three parameters, which are
      then deleted from the parameter object), calls the service with the parameters and the
      row limit, and records the queries. */
  method OnRunAlgo(task: Task, def: RunDefinition, limit: Value) returns (r: RunStart)
    requires task.group == "Similarity" ==> def.streamQuery.Builder? && def.storeQuery.Builder?
    requires task.group != "Similarity" ==> def.streamQuery.Text? && def.storeQuery.Text?
    modifies task.parameters
    ensures r.ConfigTypeError? <==>
      task.group == "Similarity" && Member(Get(old(task.parameters.props), "config"), "writeRelationshipType").None?
    ensures r.ConfigTypeError? ==> task.parameters.props == old(task.parameters.props)
    ensures r.Started? ==> task.parameters.props == ParametersAfterRun(task.group, old(task.parameters.props))
    ensures r.Started? ==> r.call.parameters == Put(task.parameters.props, "limit", limit)
    ensures r.Started? ==> r.call.persisted == task.persisted
    ensures r.Started? ==>
      r.recorded == RecordedQueries(task.persisted, r.call.streamCypher, r.call.storeCypher, r.call.fetchCypher)
    ensures r.Started? && task.group != "Similarity" ==>
      r.call.streamCypher == def.streamQuery.s && r.call.storeCypher == def.storeQuery.s &&
      r.call.fetchCypher == def.getFetchQuery(Get(old(task.parameters.props), "label"), Undefined)
    ensures r.Started? && task.group == "Similarity" ==>
      var p := old(task.parameters.props);
      var args := (Get(p, "itemLabel"), Get(p, "relationshipType"), Get(p, "categoryLabel"));
      r.call.streamCypher == def.streamQuery.f(args.0, args.1, args.2) &&
      r.call.storeCypher == def.storeQuery.f(args.0, args.1, args.2) &&
      r.call.fetchCypher == def.getFetchQuery(args.0, Member(Get(p, "config"), "writeRelationshipType").value)
  {
    var parameters := task.parameters;
    var fetchCypher := def.getFetchQuery(Get(parameters.props, "label"), Undefined);
    var streamQuery, storeQuery;
    if task.group == "Similarity" {
      var itemLabel := Get(parameters.props, "itemLabel");
      var relationshipType := Get(parameters.props, "relationshipType");
      var categoryLabel := Get(parameters.props, "categoryLabel");
      streamQuery := def.streamQuery.f(itemLabel, relationshipType, categoryLabel);
      storeQuery := def.storeQuery.f(itemLabel, relationshipType, categoryLabel);
      var writeRelationshipType := Member(Get(parameters.props, "config"), "writeRelationshipType");
      if writeRelationshipType.None? {
        return ConfigTypeError;
      }
      fetchCypher := def.getFetchQuery(itemLabel, writeRelationshipType.value);
      parameters.props := Delete(parameters.props, "itemLabel");
      parameters.props := Delete(parameters.props, "relationshipType");
      parameters.props := Delete(parameters.props, "categoryLabel");
    } else {
      streamQuery := def.streamQuery.s;
      storeQuery := def.storeQuery.s;
    }
    var call := ServiceCall(streamQuery, storeQuery, fetchCypher, Put(parameters.props, "limit", limit), task.persisted);
    r := Started(call, if task.persisted then [storeQuery, fetchCypher] else [streamQuery]);
  }

  /** What one key of the service's parameters reads. */
  lemma ServiceParameter(group: string, p: Props, limit: Value, key: string)
    ensures Get(Put(ParametersAfterRun(group, p), "limit", limit), key) ==
      if key == "limit" then limit
      else if group == "Similarity" && key in SimilarityOnly then Undefined
      else Get(p, key)
  {
    var r := ParametersAfterRun(group, p);
    GetPut(r, "limit", limit, key);
    if group == "Similarity" {
      GetWithoutKeys(p, SimilarityOnly, key);
    }
  }

  /** The service receives the parameters with the row limit added: `limit` reads as the
      limit, a similarity run's three query keys read as undefined, and every other key reads
      as it did in the task's parameters before the run. */
  lemma ServiceParameters(group: string, p: Props, limit: Value)
    ensures var q := Put(ParametersAfterRun(group, p), "limit", limit);
      Get(q, "limit") == limit &&
      (group == "Similarity" ==> forall key :: key in SimilarityOnly ==> Get(q, key) == Undefined) &&
      (forall key :: key != "limit" && (group == "Similarity" ==> key !in SimilarityOnly) ==>
        Get(q, key) == Get(p, key))
  {
    var q := Put(ParametersAfterRun(group, p), "limit", limit);
    ServiceParameter(group, p, limit, "limit");
    forall key | group == "Similarity" && key in SimilarityOnly
      ensures Get(q, key) == Undefined
    {
      ServiceParameter(group, p, limit, key);
    }
    forall key | key != "limit" && (group == "Similarity" ==> key !in SimilarityOnly)
      ensures Get(q, key) == Get(p, key)
    {
      ServiceParameter(group, p, limit, key);
    }
  }
}
