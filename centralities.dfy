/**
 * The centrality service: it runs an algorithm's queries against Neo4j and turns
 * the returned records into result rows, the node ids of those rows and the
 * distinct labels found among them.
 *
 * The database is a parameter: `runCypher` becomes a function from a query and
 * its parameters to an answer or a thrown error. A run's promise becomes the list
 * of queries it ran and what it resolves or rejects with. The driver's
 * `parseProperties` is a parameter too.
 */
module Centralities {
  import opened JsStrings
  import opened JsValues

  // ---------------------------------------------------------------------------
  // Records and rows
  // ---------------------------------------------------------------------------

  /** The `node` column of a record. */
  datatype GraphNode = GraphNode(properties: Props, labels: seq<string>, identity: int)

  /** A record of an algorithm's result, with the columns the two parsers read. */
  datatype Record = Record(node: GraphNode, score: Value, hubScore: Value, authScore: Value)

  /** A query's result: its records, or a result without records and with an error. */
  datatype QueryResult = Records(records: seq<Record>) | NoRecords(error: Value)

  /** What was thrown: an `Error` with its name and message. */
  datatype Thrown = Thrown(name: string, message: string)

  /** `String(error)` for a thrown error: its name, then ": " and the message if there is one. */
  function ThrownText(t: Thrown): string {
    if t.message == "" then t.name else t.name + ": " + t.message
  }

  /** The message `new Error(message)` keeps: none when the message is undefined, otherwise
      `String(message)`. */
  function ErrorMessage(e: Value): (m: string)
    ensures e.Undefined? ==> m == ""
    ensures !e.Undefined? ==> m == ToText(e)
  {
    if e.Undefined? then "" else ToText(e)
  }

  /** The general parser reads `score`; the HITS parser reads `hubScore` and `authScore`. */
  datatype Variant = Centrality | Hits

  datatype Scores = Score(score: Value) | HitsScores(hubScore: Value, authScore: Value)

  datatype Row = Row(properties: Props, identity: int, labels: seq<string>, scores: Scores)

  datatype Parsed = Parsed(rows: seq<Row>, ids: seq<int>, labels: seq<string>)

  function RowOf(variant: Variant, parseProperties: Props -> Props, r: Record): (row: Row)
    ensures row.identity == r.node.identity && row.labels == r.node.labels
    ensures row.properties == parseProperties(r.node.properties)
    ensures variant == Centrality ==> row.scores == Score(r.score)
    ensures variant == Hits ==> row.scores == HitsScores(r.hubScore, r.authScore)
  {
    Row(parseProperties(r.node.properties), r.node.identity, r.node.labels,
        match variant
        case Centrality => Score(r.score)
        case Hits => HitsScores(r.hubScore, r.authScore))
  }

  /** All labels of all rows, row after row (`flatMap`). */
  function AllLabels(rows: seq<Row>): (ls: seq<string>)
    ensures forall l :: l in ls <==> exists k :: 0 <= k < |rows| && l in rows[k].labels
    decreases |rows|
  {
    if |rows| == 0 then []
    else
      var init := AllLabels(rows[..|rows| - 1]);
      assert forall k :: 0 <= k < |rows| - 1 ==> rows[..|rows| - 1][k] == rows[k];
      init + rows[|rows| - 1].labels
  }

  /** `parseResultStream` / `parseHITSResultStream`: one row per record in record order, the
      rows' ids in the same order, and the distinct labels of all rows; a result without
      records throws an `Error` carrying the result's error. */
  function Parse(variant: Variant, parseProperties: Props -> Props, result: QueryResult): (r: Result<Parsed>)
    ensures result.NoRecords? ==> r == Fail(Thrown("Error", ErrorMessage(result.error)))
    ensures result.Records? ==> (
      r.Ok? &&
      |r.value.rows| == |r.value.ids| == |result.records| &&
      (forall k :: 0 <= k < |result.records| ==>
        r.value.rows[k] == RowOf(variant, parseProperties, result.records[k]) &&
        r.value.ids[k] == r.value.rows[k].identity) &&
      r.value.labels == Distinct(AllLabels(r.value.rows)))
  {
    match result
    case NoRecords(e) => Fail(Thrown("Error", ErrorMessage(e)))
    case Records(records) =>
      var rows := seq(|records|, k requires 0 <= k < |records| => RowOf(variant, parseProperties, records[k]));
      var ids := seq(|rows|, k requires 0 <= k < |rows| => rows[k].identity);
      Ok(Parsed(rows, ids, Distinct(AllLabels(rows))))
  }

  /** The labels of a parse hold every label of every row exactly once, in the order of
      first occurrence. */
  lemma ParsedLabels(variant: Variant, parseProperties: Props -> Props, records: seq<Record>)
    ensures var p := Parse(variant, parseProperties, Records(records)).value;
      NoDuplicates(p.labels) &&
      (forall l :: l in p.labels <==> exists k :: 0 <= k < |records| && l in records[k].node.labels) &&
      forall i, j :: 0 <= i < j < |p.labels| ==>
        FirstOccurrence(AllLabels(p.rows), p.labels[i]) < FirstOccurrence(AllLabels(p.rows), p.labels[j])
  {
    var p := Parse(variant, parseProperties, Records(records)).value;
    DistinctNoDuplicates(AllLabels(p.rows));
    DistinctInOrder(AllLabels(p.rows));
    forall l ensures l in p.labels <==> exists k :: 0 <= k < |records| && l in records[k].node.labels {
      if l in p.labels {
        var k :| 0 <= k < |p.rows| && l in p.rows[k].labels;
        assert l in records[k].node.labels;
      }
      if exists k :: 0 <= k < |records| && l in records[k].node.labels {
        var k :| 0 <= k < |records| && l in records[k].node.labels;
        assert l in p.rows[k].labels;
      }
    }
  }

  /** The two parsers differ only in the scores a row carries. */
  lemma ParsersAgree(parseProperties: Props -> Props, records: seq<Record>)
    ensures var a := Parse(Centrality, parseProperties, Records(records)).value;
      var b := Parse(Hits, parseProperties, Records(records)).value;
      a.ids == b.ids && a.labels == b.labels && |a.rows| == |b.rows| &&
      forall k :: 0 <= k < |a.rows| ==> a.rows[k].(scores := b.rows[k].scores) == b.rows[k]
  {
    var a := Parse(Centrality, parseProperties, Records(records)).value;
    var b := Parse(Hits, parseProperties, Records(records)).value;
    assert forall k :: 0 <= k < |a.rows| ==> a.rows[k].labels == b.rows[k].labels;
    AllLabelsOfSameLabels(a.rows, b.rows);
  }

  lemma {:induction false} AllLabelsOfSameLabels(a: seq<Row>, b: seq<Row>)
    requires |a| == |b| && forall k :: 0 <= k < |a| ==> a[k].labels == b[k].labels
    ensures AllLabels(a) == AllLabels(b)
    decreases |a|
  {
    if |a| > 0 {
      AllLabelsOfSameLabels(a[..|a| - 1], b[..|b| - 1]);
    }
  }

  // ---------------------------------------------------------------------------
  // Running an algorithm
  // ---------------------------------------------------------------------------

  datatype Result<T> = Ok(value: T) | Fail(error: Thrown)

  /** The call the results panel makes. */
  datatype Call = Call(streamCypher: string, storeCypher: string, fetchCypher: string, parameters: Props, persisted: bool)

  /** A run: the queries sent to the database, in order, and how the promise settles. */
  datatype Run = Run(queries: seq<string>, outcome: Result<Parsed>)

  /** `handleException`: the error is thrown again wrapped in a new `Error` whose message is
      the text of the original. */
  function Wrap(t: Thrown): (w: Thrown)
    ensures w.name == "Error" && w.message == ThrownText(t)
  {
    Thrown("Error", ThrownText(t))
  }

  /** `runAlgorithm` / `runHITSAlgorithm`. Not persisted: the stream query, whose parse or
      failure is wrapped by `handleException`. Persisted: the store query, then, if it
      succeeds, the fetch query, whose parse resolves the promise; any failure rejects it
      unchanged. */
  function RunAlgorithm(variant: Variant, parseProperties: Props -> Props,
                        runCypher: (string, Props) -> Result<QueryResult>, call: Call): (run: Run)
    ensures !call.persisted ==> run.queries == [call.streamCypher]
    ensures call.persisted ==> |run.queries| >= 1 && run.queries[0] == call.storeCypher
  {
    if !call.persisted then
      var answer := runCypher(call.streamCypher, call.parameters);
      var outcome := match answer
        case Fail(e) => Fail(Wrap(e))
        case Ok(result) =>
          match Parse(variant, parseProperties, result)
          case Fail(e) => Fail(Wrap(e))
          case Ok(p) => Ok(p);
      Run([call.streamCypher], outcome)
    else
      match runCypher(call.storeCypher, call.parameters)
      case Fail(e) => Run([call.storeCypher], Fail(e))
      case Ok(_) =>
        var fetched := runCypher(call.fetchCypher, call.parameters);
        var outcome := match fetched
          case Fail(e) => Fail(e)
          case Ok(result) => Parse(variant, parseProperties, result);
        Run([call.storeCypher, call.fetchCypher], outcome)
  }

  /** A persisted run sends the fetch query exactly when the store query succeeds, and a
      failed store query rejects the promise with its own error. */
  lemma PersistedRun(variant: Variant, parseProperties: Props -> Props,
                     runCypher: (string, Props) -> Result<QueryResult>, call: Call)
    requires call.persisted
    ensures var run := RunAlgorithm(variant, parseProperties, runCypher, call);
      var store := runCypher(call.storeCypher, call.parameters);
      (store.Fail? ==> run == Run([call.storeCypher], Fail(store.error))) &&
      (store.Ok? ==> run.queries == [call.storeCypher, call.fetchCypher]) &&
      (store.Ok? && runCypher(call.fetchCypher, call.parameters).Ok? ==>
        run.outcome == Parse(variant, parseProperties, runCypher(call.fetchCypher, call.parameters).value))
  {
  }

  /** A run resolves exactly when the query whose result is parsed answers with records;
      the rows are then that result's parse. */
  lemma RunResolves(variant: Variant, parseProperties: Props -> Props,
                    runCypher: (string, Props) -> Result<QueryResult>, call: Call)
    ensures var run := RunAlgorithm(variant, parseProperties, runCypher, call);
      var last := runCypher(run.queries[|run.queries| - 1], call.parameters);
      (run.outcome.Ok? <==> (
        last.Ok? && last.value.Records? && (call.persisted ==> |run.queries| == 2))) &&
      (run.outcome.Ok? ==> last.Ok? && run.outcome == Parse(variant, parseProperties, last.value))
  {
  }

  /** A stream run resolves with the parse of the stream query's answer; a failure is always
      wrapped once, its message the text of the database's error or of the parse error. */
  lemma StreamFailureWrapped(variant: Variant, parseProperties: Props -> Props,
                             runCypher: (string, Props) -> Result<QueryResult>, call: Call)
    requires !call.persisted
    ensures var run := RunAlgorithm(variant, parseProperties, runCypher, call);
      var answer := runCypher(call.streamCypher, call.parameters);
      (answer.Fail? ==> run.outcome == Fail(Wrap(answer.error))) &&
      (answer.Ok? && answer.value.NoRecords? ==>
        run.outcome == Fail(Wrap(Thrown("Error", ErrorMessage(answer.value.error))))) &&
      (answer.Ok? && Parse(variant, parseProperties, answer.value).Ok? ==>
        run.outcome == Parse(variant, parseProperties, answer.value)) &&
      (run.outcome.Fail? ==> run.outcome.error.name == "Error")
  {
  }

  /** A result without records and without an error throws an `Error` with no message, whose
      text is just "Error"; a stream run then fails with the message "Error". */
  lemma UndefinedErrorMessage(variant: Variant, parseProperties: Props -> Props,
                              runCypher: (string, Props) -> Result<QueryResult>, call: Call)
    requires !call.persisted
    requires runCypher(call.streamCypher, call.parameters) == Ok(NoRecords(Undefined))
    ensures Parse(variant, parseProperties, NoRecords(Undefined)) == Fail(Thrown("Error", ""))
    ensures RunAlgorithm(variant, parseProperties, runCypher, call).outcome == Fail(Thrown("Error", "Error"))
  {
    StreamFailureWrapped(variant, parseProperties, runCypher, call);
  }
}
