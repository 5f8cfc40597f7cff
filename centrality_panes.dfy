/**
 * The results panel of the centrality algorithms: one pane per task, and within a
 * task the Table, Code and Vis panes. The Code pane lists the task's parameters as
 * `:param key => value;` lines, formatting each value by its truthiness and type,
 * and then the query.
 *
 * React rendering becomes data: a pane is its menu item and what it shows. The
 * start time's `toLocaleString()` depends on the locale, so it is given as text.
 */
module CentralityPanes {
  import opened JsStrings
  import opened JsValues
  import AlgorithmsDictionary

  /** A task of the results panel, as far as the panes read it. A task without parameters
      has `None`. */
  datatype Task = Task(taskId: string, algorithm: string, startTime: string, parameters: Option<Props>, query: string)

  /** The Table pane shows the centrality result table or nothing. */
  datatype TableView = CentralityResult | NoTable

  /** What the Vis pane hands to the graph visualiser; reading `label` of missing parameters
      throws a TypeError. */
  datatype VisView = Visualiser(taskId: string, nodeLabel: Value, relationshipType: Value, writeProperty: Value) | TypeError

  datatype Content = TableContent(table: TableView) | CodeContent(lines: seq<string>) | VisContent(vis: VisView)

  datatype Pane = Pane(menuItem: string, content: Content)

  /** The algorithms whose results have a table. */
  const TableAlgorithms: seq<string> :=
    ["Page Rank", "Article Rank", "Betweenness", "Approx Betweenness", "Closeness", "Harmonic"]

  /** The Table pane's `switch` on the algorithm name. */
  function Table(algorithm: string): (v: TableView)
    ensures v == CentralityResult <==> algorithm in TableAlgorithms
  {
    match algorithm
    case "Page Rank" => CentralityResult
    case "Article Rank" => CentralityResult
    case "Betweenness" => CentralityResult
    case "Approx Betweenness" => CentralityResult
    case "Closeness" => CentralityResult
    case "Harmonic" => CentralityResult
    case _ => NoTable
  }

  /** Of the algorithms offered for any GDS version, only Degree, Eigenvector and HITS
      show no table. */
  lemma OfferedTables(gdsVersion: string)
    ensures forall k :: 0 <= k < |AlgorithmsDictionary.AlgorithmList(gdsVersion)| ==>
      var name := AlgorithmsDictionary.AlgorithmList(gdsVersion)[k];
      (Table(name) == NoTable <==> name == "Degree" || name == "Eigenvector" || name == "HITS")
  {
    var names := AlgorithmsDictionary.AlgorithmList(gdsVersion);
    forall k | 0 <= k < |names|
      ensures Table(names[k]) == NoTable <==> names[k] == "Degree" || names[k] == "Eigenvector" || names[k] == "HITS"
    {
      if k < 7 {
        assert names[k] == names[..7][k] == AlgorithmsDictionary.BaseNames[k];
      }
    }
  }

  // ---------------------------------------------------------------------------
  // The Code pane
  // ---------------------------------------------------------------------------

  /** How a parameter value is written: quoted when it is a truthy string, as its text when
      it is any other truthy value, and as null when it is falsy. */
  function ParamText(v: Value): string {
    if !Truthy(v) then " null"
    else if v.Str? then " '" + v.s + "'"
    else " " + ToText(v)
  }

  /** Every falsy value (0, NaN, false, "", null, undefined) reads as null; a non-empty
      string keeps its quotes; every other value is written as its text, so a Neo4j Integer
      zero, an object, reads as 0. */
  lemma ParamTextByTruthiness(s: string, i: int)
    requires s != "" && i != 0
    ensures forall v :: !Truthy(v) ==> ParamText(v) == " null"
    ensures ParamText(Num(Dec(0, 0))) == ParamText(Num(NaN)) == ParamText(Bool(false)) == " null"
    ensures ParamText(Str("")) == ParamText(Null) == ParamText(Undefined) == " null"
    ensures ParamText(Str(s)) == " '" + s + "'"
    ensures forall v :: Truthy(v) && !v.Str? ==> ParamText(v) == " " + ToText(v)
    ensures ParamText(Int(0)) == " 0"
    ensures ParamText(Num(Dec(i, 0))) == " " + NumberText(Dec(i, 0))
  {
  }

  /** One line of the Code pane. */
  function ParamLine(key: string, v: Value): string {
    ":param " + key + " =>" + ParamText(v) + ";"
  }

  /** `Object.keys(parameters).map(key => ... parameters[key] ...)`: one line per key, in key
      order, each reading its value back by key. */
  function ParamLines(p: Props): (lines: seq<string>)
    ensures |lines| == |p|
    ensures forall k :: 0 <= k < |p| ==> lines[k] == ParamLine(Keys(p)[k], Get(p, Keys(p)[k]))
  {
    seq(|p|, k requires 0 <= k < |p| => ParamLine(Keys(p)[k], Get(p, Keys(p)[k])))
  }

  /** In an object, whose keys are unique, reading a property back by its key gives its own
      value. */
  lemma {:induction false} GetOwnKey(p: Props, k: nat)
    requires UniqueKeys(p) && k < |p|
    ensures Get(p, p[k].0) == p[k].1
    decreases k
  {
    if k > 0 {
      assert p[0].0 != p[k].0;
      assert UniqueKeys(p[1..]) by {
        forall i, j | 0 <= i < j < |p[1..]| ensures p[1..][i].0 != p[1..][j].0 {
          assert p[i + 1].0 != p[j + 1].0;
        }
      }
      GetOwnKey(p[1..], k - 1);
    }
  }

  /** The `k`th line shows the `k`th property with its own value. */
  lemma ParamLinesShowProperties(p: Props)
    requires UniqueKeys(p)
    ensures forall k :: 0 <= k < |p| ==> ParamLines(p)[k] == ParamLine(p[k].0, p[k].1)
  {
    forall k | 0 <= k < |p| ensures ParamLines(p)[k] == ParamLine(p[k].0, p[k].1) {
      GetOwnKey(p, k);
    }
  }

  /** The Code pane: the parameter lines when the task has parameters, then the query. */
  function CodeLines(task: Task): (lines: seq<string>)
    ensures |lines| >= 1 && lines[|lines| - 1] == task.query
    ensures task.parameters.None? ==> lines == [task.query]
    ensures task.parameters.Some? ==> lines[..|lines| - 1] == ParamLines(task.parameters.value)
  {
    match task.parameters
    case None => [task.query]
    case Some(p) => ParamLines(p) + [task.query]
  }

  /** With empty parameters there are no `:param` lines, but the query is still shown. */
  lemma NoParametersStillShowsQuery(task: Task)
    requires task.parameters == None || task.parameters == Some([])
    ensures CodeLines(task) == [task.query]
  {
  }

  /** The Vis pane hands over the label, relationship type and write property parameters. */
  function Vis(task: Task): (v: VisView)
    ensures task.parameters.None? <==> v == TypeError
    ensures task.parameters.Some? ==>
      v == Visualiser(task.taskId, Get(task.parameters.value, "label"),
                      Get(task.parameters.value, "relationshipType"), Get(task.parameters.value, "writeProperty"))
  {
    match task.parameters
    case None => TypeError
    case Some(p) => Visualiser(task.taskId, Get(p, "label"), Get(p, "relationshipType"), Get(p, "writeProperty"))
  }

  // ---------------------------------------------------------------------------
  // Panes
  // ---------------------------------------------------------------------------

  /** `getAlgoPanes`: Table, Code and Vis, in that order. */
  function AlgoPanes(task: Task): seq<Pane> {
    [Pane("Table", TableContent(Table(task.algorithm))),
     Pane("Code", CodeContent(CodeLines(task))),
     Pane("Vis", VisContent(Vis(task)))]
  }

  /** The panes come as Table, Code and Vis; the table is shown exactly for the six table
      algorithms; the code pane ends with the query. */
  lemma AlgoPanesInOrder(task: Task)
    ensures var panes := AlgoPanes(task);
      |panes| == 3 &&
      panes[0].menuItem == "Table" && panes[1].menuItem == "Code" && panes[2].menuItem == "Vis" &&
      (panes[0].content == TableContent(CentralityResult) <==> task.algorithm in TableAlgorithms) &&
      panes[1].content.CodeContent? && panes[1].content.lines[|panes[1].content.lines| - 1] == task.query
  {
  }

  /** A task's entry in the results menu: its algorithm and start time, and its own panes. */
  datatype ResultPane = ResultPane(menuItem: string, panes: seq<Pane>)

  function ResultMenuItem(task: Task): string {
    task.algorithm + ". Started at: " + task.startTime
  }

  /** `getResultPanes`: one pane per task, in task order. */
  function ResultPanes(tasks: seq<Task>): (r: seq<ResultPane>)
    ensures |r| == |tasks|
    ensures forall k :: 0 <= k < |tasks| ==> r[k] == ResultPane(ResultMenuItem(tasks[k]), AlgoPanes(tasks[k]))
  {
    seq(|tasks|, k requires 0 <= k < |tasks| => ResultPane(ResultMenuItem(tasks[k]), AlgoPanes(tasks[k])))
  }

  /** Each result pane's menu item names its task's algorithm, and its code pane ends with
      that task's query. */
  lemma ResultPanesFollowTasks(tasks: seq<Task>)
    ensures forall k :: 0 <= k < |tasks| ==>
      var r := ResultPanes(tasks)[k];
      var code := r.panes[1].content.lines;
      r.menuItem[..|tasks[k].algorithm|] == tasks[k].algorithm &&
      code[|code| - 1] == tasks[k].query
  {
  }
}
