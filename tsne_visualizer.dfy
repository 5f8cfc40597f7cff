/**
 * The t-SNE view of a node-embedding run: each result row becomes a point of the
 * scatter plot, captioned by the node's name, title or id, and points are grouped
 * into one series per first label. Layouts are cached per task. Clicking a legend
 * entry hides or shows its series.
 *
 * The t-SNE layout itself (floating-point numerics in a foreign library) is a
 * parameter: the sequence of 2-D positions it returns, one per row. React state
 * hooks become the fields of a class, and the module-level cache another.
 */
module TsneVisualizer {
  import opened JsStrings
  import opened JsValues

  /** A result row of an embedding run. */
  datatype Row = Row(properties: Props, identity: Value, labels: seq<string>)

  /** A position computed by the layout. */
  datatype Position = Position(x: real, y: real)

  datatype Point = Point(x: real, y: real, caption: Value)

  /** A plotted series: the points of one first label. */
  datatype Series = Series(id: Value, data: seq<Point>)

  /** `getCaption`: the first truthy of the `name`, `title` and `id` properties, else the
      node's identity. */
  function Caption(row: Row): (c: Value)
    ensures Truthy(Get(row.properties, "name")) ==> c == Get(row.properties, "name")
    ensures !Truthy(Get(row.properties, "name")) && Truthy(Get(row.properties, "title")) ==>
      c == Get(row.properties, "title")
    ensures !Truthy(Get(row.properties, "name")) && !Truthy(Get(row.properties, "title")) ==>
      c == Or(Get(row.properties, "id"), row.identity)
  {
    var p := row.properties;
    if Truthy(Get(p, "name")) then Get(p, "name")
    else if Truthy(Get(p, "title")) then Get(p, "title")
    else if Truthy(Get(p, "id")) then Get(p, "id")
    else row.identity
  }

  /** A caption is one of the four candidates, and is falsy only when all four are. */
  lemma CaptionFallback(row: Row)
    ensures var c := Caption(row);
      var p := row.properties;
      (c == Get(p, "name") || c == Get(p, "title") || c == Get(p, "id") || c == row.identity) &&
      (!Truthy(c) <==> !Truthy(Get(p, "name")) && !Truthy(Get(p, "title")) && !Truthy(Get(p, "id")) && !Truthy(row.identity))
  {
  }

  /** `row.labels[0]`: a row without labels has an undefined series id. */
  function SeriesId(row: Row): Value {
    if |row.labels| == 0 then Undefined else Str(row.labels[0])
  }

  /** A labelled point: the row's series id and its point at the layout's position. */
  datatype Item = Item(seriesId: Value, point: Point)

  /** Row `i` takes the `i`th position of the layout. */
  function Items(rows: seq<Row>, layout: seq<Position>): (items: seq<Item>)
    requires |layout| >= |rows|
    ensures |items| == |rows|
    ensures forall i :: 0 <= i < |rows| ==>
      items[i] == Item(SeriesId(rows[i]), Point(layout[i].x, layout[i].y, Caption(rows[i])))
  {
    seq(|rows|, i requires 0 <= i < |rows| => Item(SeriesId(rows[i]), Point(layout[i].x, layout[i].y, Caption(rows[i]))))
  }

  // ---------------------------------------------------------------------------
  // Grouping into series
  // ---------------------------------------------------------------------------

  function Labels(items: seq<Item>): (ls: seq<Value>)
    ensures |ls| == |items|
    decreases |items|
  {
    if |items| == 0 then [] else Labels(items[..|items| - 1]) + [items[|items| - 1].seriesId]
  }

  function Ids(series: seq<Series>): (ids: seq<Value>)
    ensures |ids| == |series| && forall k :: 0 <= k < |series| ==> ids[k] == series[k].id
  {
    seq(|series|, k requires 0 <= k < |series| => series[k].id)
  }

  /** The points of the items with the given label, in item order. */
  function PointsWith(items: seq<Item>, id: Value): seq<Point>
    decreases |items|
  {
    if |items| == 0 then []
    else
      var last := items[|items| - 1];
      PointsWith(items[..|items| - 1], id) + (if last.seriesId == id then [last.point] else [])
  }

  /** `result.find(element => element.id === label)`: the first series with that id. */
  function FindSeries(acc: seq<Series>, id: Value): (k: Option<nat>)
    ensures k.None? <==> id !in Ids(acc)
    ensures k.Some? ==> k.value < |acc| && acc[k.value].id == id
    decreases |acc|
  {
    if |acc| == 0 then None
    else if acc[0].id == id then Some(0)
    else
      match FindSeries(acc[1..], id)
      case None => None
      case Some(k) => Some(k + 1)
  }

  /** One step of the `reduce`: the point joins the series of its label, or starts a new
      series at the end. */
  function Insert(acc: seq<Series>, item: Item): seq<Series> {
    match FindSeries(acc, item.seriesId)
    case Some(k) => acc[k := acc[k].(data := acc[k].data + [item.point])]
    case None => acc + [Series(item.seriesId, [item.point])]
  }

  /** The whole `reduce`, item by item. */
  function Group(items: seq<Item>): seq<Series>
    decreases |items|
  {
    if |items| == 0 then [] else Insert(Group(items[..|items| - 1]), items[|items| - 1])
  }

  function TotalPoints(series: seq<Series>): nat
    decreases |series|
  {
    if |series| == 0 then 0 else TotalPoints(series[..|series| - 1]) + |series[|series| - 1].data|
  }

  lemma {:induction false} TotalPointsUpdate(series: seq<Series>, k: nat, s: Series)
    requires k < |series|
    ensures TotalPoints(series[k := s]) == TotalPoints(series) - |series[k].data| + |s.data|
    decreases |series|
  {
    var n := |series| - 1;
    if k < n {
      assert series[k := s][..n] == series[..n][k := s];
      TotalPointsUpdate(series[..n], k, s);
    } else {
      assert series[k := s][..n] == series[..n];
    }
  }

  /** One `reduce` step keeps the ids, adding the item's label at the end when it is new. */
  lemma InsertIds(acc: seq<Series>, item: Item)
    ensures item.seriesId in Ids(acc) ==> Ids(Insert(acc, item)) == Ids(acc)
    ensures item.seriesId !in Ids(acc) ==> Ids(Insert(acc, item)) == Ids(acc) + [item.seriesId]
  {
  }

  /** One `reduce` step adds the item's point to the series of its label and to no other. */
  lemma InsertData(acc: seq<Series>, item: Item)
    requires NoDuplicates(Ids(acc))
    ensures |Insert(acc, item)| >= |acc|
    ensures forall j :: 0 <= j < |acc| ==> (Insert(acc, item)[j].id == acc[j].id &&
      Insert(acc, item)[j].data == acc[j].data + (if acc[j].id == item.seriesId then [item.point] else []))
    ensures item.seriesId !in Ids(acc) ==> Insert(acc, item)[|acc|] == Series(item.seriesId, [item.point])
  {
    match FindSeries(acc, item.seriesId)
    case Some(k) =>
      forall j | 0 <= j < |acc| && j != k ensures acc[j].id != item.seriesId {
        assert Ids(acc)[j] != Ids(acc)[k];
      }
    case None =>
  }

  /** One `reduce` step adds exactly one point. */
  lemma InsertTotal(acc: seq<Series>, item: Item)
    ensures TotalPoints(Insert(acc, item)) == TotalPoints(acc) + 1
  {
    match FindSeries(acc, item.seriesId)
    case Some(k) =>
      TotalPointsUpdate(acc, k, acc[k].(data := acc[k].data + [item.point]));
    case None =>
      assert (acc + [Series(item.seriesId, [item.point])])[..|acc|] == acc;
  }

  /** Grouping gives one series per distinct label, in order of first appearance. */
  lemma {:induction false} GroupIds(items: seq<Item>)
    ensures Ids(Group(items)) == Distinct(Labels(items))
    decreases |items|
  {
    if |items| > 0 {
      var n := |items| - 1;
      GroupIds(items[..n]);
      assert Labels(items)[..n] == Labels(items[..n]);
      InsertIds(Group(items[..n]), items[n]);
    }
  }

  /** Each series holds exactly the points with its label, in item order. */
  lemma {:induction false} GroupData(items: seq<Item>)
    ensures forall k :: 0 <= k < |Group(items)| ==> Group(items)[k].data == PointsWith(items, Group(items)[k].id)
    decreases |items|
  {
    if |items| > 0 {
      var n := |items| - 1;
      var init := items[..n];
      GroupData(init);
      GroupIds(init);
      DistinctNoDuplicates(Labels(init));
      GroupDataStep(init, items[n], items);
    }
  }

  /** The inductive step of `GroupData`: grouping one more item. */
  lemma GroupDataStep(init: seq<Item>, it: Item, items: seq<Item>)
    requires items == init + [it]
    requires NoDuplicates(Ids(Group(init)))
    requires forall k :: 0 <= k < |Group(init)| ==> Group(init)[k].data == PointsWith(init, Group(init)[k].id)
    ensures forall k :: 0 <= k < |Group(items)| ==> Group(items)[k].data == PointsWith(items, Group(items)[k].id)
  {
    var acc := Group(init);
    assert items[..|items| - 1] == init;
    var g := Insert(acc, it);
    assert Group(items) == g;
    InsertData(acc, it);
    InsertIds(acc, it);
    if it.seriesId !in Ids(acc) {
      assert it.seriesId !in Labels(init) by {
        GroupIds(init);
      }
      PointsWithAbsent(init, it.seriesId);
    }
    forall k | 0 <= k < |g| ensures g[k].data == PointsWith(items, g[k].id) {
      assert PointsWith(items, g[k].id) == PointsWith(init, g[k].id) + (if it.seriesId == g[k].id then [it.point] else []);
    }
  }

  /** Grouping loses no point. */
  lemma {:induction false} GroupTotal(items: seq<Item>)
    ensures TotalPoints(Group(items)) == |items|
    decreases |items|
  {
    if |items| > 0 {
      GroupTotal(items[..|items| - 1]);
      InsertTotal(Group(items[..|items| - 1]), items[|items| - 1]);
    }
  }

  /** A label no item carries has no points. */
  lemma {:induction false} PointsWithAbsent(items: seq<Item>, id: Value)
    requires id !in Labels(items)
    ensures PointsWith(items, id) == []
    decreases |items|
  {
    if |items| > 0 {
      assert Labels(items) == Labels(items[..|items| - 1]) + [items[|items| - 1].seriesId];
      PointsWithAbsent(items[..|items| - 1], id);
    }
  }

  /** The accumulating `reduce` of the component, over a series list it pushes into. */
  method GroupByLabel(items: seq<Item>) returns (result: seq<Series>)
    ensures result == Group(items)
    ensures Ids(result) == Distinct(Labels(items))
    ensures TotalPoints(result) == |items|
  {
    result := [];
    var i := 0;
    while i < |items|
      invariant 0 <= i <= |items|
      invariant result == Group(items[..i])
    {
      var item := items[i];
      assert items[..i + 1][..i] == items[..i];
      var found := FindSeries(result, item.seriesId);
      if found.Some? {
        var k := found.value;
        result := result[k := result[k].(data := result[k].data + [item.point])];
      } else {
        result := result + [Series(item.seriesId, [item.point])];
      }
      i := i + 1;
    }
    assert items[..i] == items;
    GroupIds(items);
    GroupTotal(items);
  }

  // ---------------------------------------------------------------------------
  // Hiding series from the legend
  // ---------------------------------------------------------------------------

  /** `state.filter(item => item !== id)`: the hidden ids other than `id`. */
  function Without(state: seq<string>, id: Value): (r: seq<string>)
    ensures forall s :: s in r <==> s in state && Str(s) != id
    decreases |state|
  {
    if |state| == 0 then []
    else
      var rest := Without(state[..|state| - 1], id);
      assert forall s :: s in state <==> s in state[..|state| - 1] || s == state[|state| - 1];
      if Str(state[|state| - 1]) != id then rest + [state[|state| - 1]] else rest
  }

  /** The legend's click handler as written: it looks for `String(id)` but removes entries
      equal to `id` itself. */
  function ToggleAsWritten(state: seq<string>, id: Value): seq<string> {
    if ToText(id) in state then Without(state, id) else state + [ToText(id)]
  }

  /** The plot's test as written: `hiddenIds.includes(item.id)`, which an undefined id never
      satisfies. */
  predicate HiddenAsWritten(state: seq<string>, id: Value) {
    id.Str? && id.s in state
  }

  /** As written, the series of unlabelled rows can never be hidden, and a click on it adds
      "undefined" to the hidden list, where it stays. */
  lemma UnlabelledNeverHidden(state: seq<string>)
    ensures !HiddenAsWritten(ToggleAsWritten(state, Undefined), Undefined)
    ensures "undefined" in ToggleAsWritten(state, Undefined)
    ensures "undefined" !in state ==> ToggleAsWritten(ToggleAsWritten(state, Undefined), Undefined) == state + ["undefined"]
  {
    if "undefined" !in state {
      var s1 := state + ["undefined"];
      WithoutNothing(s1, Undefined);
    } else {
      WithoutNothing(state, Undefined);
    }
  }

  /** As written, a string id is handled consistently: one click hides a shown series and a
      second click restores the hidden list. */
  lemma ToggleAsWrittenTwice(state: seq<string>, s: string)
    requires s !in state
    ensures HiddenAsWritten(ToggleAsWritten(state, Str(s)), Str(s))
    ensures ToggleAsWritten(ToggleAsWritten(state, Str(s)), Str(s)) == state
  {
    var s1 := state + [s];
    assert ToText(Str(s)) == s;
    assert s1[..|s1| - 1] == state;
    WithoutAbsent(state, s);
  }

  /** The hidden list as the values `includes` compares the series ids with: string entries
      are equal only to a string id with the same text. */
  function Lift(state: seq<string>): (r: seq<Value>)
    ensures |r| == |state|
    ensures forall k :: 0 <= k < |state| ==> r[k] == Str(state[k])
  {
    seq(|state|, k requires 0 <= k < |state| => Str(state[k]))
  }

  /** `hiddenIds.includes(id)` over the string list is membership in its lifted form, so the
      plot and the legend can be read through `Hidden`. */
  lemma LiftHidden(state: seq<string>, id: Value)
    ensures Hidden(Lift(state), id) <==> HiddenAsWritten(state, id)
  {
    var r := Lift(state);
    if HiddenAsWritten(state, id) {
      var k :| 0 <= k < |state| && state[k] == id.s;
      assert r[k] == id;
    }
  }

  /** As written, the series of unlabelled rows stays plotted and its legend entry is never
      greyed, whatever the hidden list holds. */
  lemma UnlabelledAlwaysPlotted(series: seq<Series>, state: seq<string>)
    ensures forall s :: s in series && s.id == Undefined ==> s in Visible(series, Lift(state))
    ensures forall k :: 0 <= k < |series| && series[k].id == Undefined ==> !Legend(series, Lift(state))[k].greyed
  {
    LiftHidden(state, Undefined);
  }

  /** Filtering out a string that is absent keeps everything. */
  lemma {:induction false} WithoutAbsent(state: seq<string>, s: string)
    requires s !in state
    ensures Without(state, Str(s)) == state
    decreases |state|
  {
    if |state| > 0 {
      WithoutAbsent(state[..|state| - 1], s);
    }
  }

  /** Filtering out an id that is not a string keeps everything. */
  lemma {:induction false} WithoutNothing(state: seq<string>, id: Value)
    requires !id.Str?
    ensures Without(state, id) == state
    decreases |state|
  {
    if |state| > 0 {
      WithoutNothing(state[..|state| - 1], id);
    }
  }

  /** The toggle as intended: the hidden list holds the series' own id values, so looking an
      id up and filtering it out compare the same thing. */
  function Toggle(state: seq<Value>, id: Value): (r: seq<Value>)
    ensures id in state ==> forall v :: v in r <==> v in state && v != id
    ensures id !in state ==> r == state + [id]
  {
    if id in state then Remove(state, id) else state + [id]
  }

  function Remove(state: seq<Value>, id: Value): (r: seq<Value>)
    ensures forall v :: v in r <==> v in state && v != id
    ensures id !in state ==> r == state
    decreases |state|
  {
    if |state| == 0 then []
    else
      var rest := Remove(state[..|state| - 1], id);
      assert forall v :: v in state <==> v in state[..|state| - 1] || v == state[|state| - 1];
      assert state == state[..|state| - 1] + [state[|state| - 1]];
      if state[|state| - 1] != id then rest + [state[|state| - 1]] else rest
  }

  predicate Hidden(state: seq<Value>, id: Value) {
    id in state
  }

  /** A click flips whether the series is hidden, for every id; two clicks on a shown series
      restore the list. */
  lemma ToggleFlips(state: seq<Value>, id: Value)
    ensures Hidden(Toggle(state, id), id) <==> !Hidden(state, id)
    ensures forall other :: other != id ==> (Hidden(Toggle(state, id), other) <==> Hidden(state, other))
    ensures !Hidden(state, id) ==> Toggle(Toggle(state, id), id) == state
  {
    if id !in state {
      var s1 := state + [id];
      assert s1[..|s1| - 1] == state;
    }
  }

  /** The plotted series: those not hidden, in their order. */
  function Visible(series: seq<Series>, state: seq<Value>): (r: seq<Series>)
    ensures forall s :: s in r <==> s in series && !Hidden(state, s.id)
    ensures |r| <= |series|
    decreases |series|
  {
    if |series| == 0 then []
    else
      var rest := Visible(series[..|series| - 1], state);
      var last := series[|series| - 1];
      assert forall s :: s in series <==> s in series[..|series| - 1] || s == last;
      if Hidden(state, last.id) then rest else rest + [last]
  }

  /** Filtering distributes over concatenation, so the plotted series keep their order. */
  lemma {:induction false} VisibleAppend(a: seq<Series>, b: seq<Series>, state: seq<Value>)
    ensures Visible(a + b, state) == Visible(a, state) + Visible(b, state)
    decreases |b|
  {
    if |b| > 0 {
      var n := |b| - 1;
      assert (a + b)[..|a + b| - 1] == a + b[..n];
      VisibleAppend(a, b[..n], state);
    } else {
      assert a + b == a;
    }
  }

  /** With nothing of theirs hidden, all series are plotted, in their order. */
  lemma {:induction false} VisibleNothingHidden(series: seq<Series>, state: seq<Value>)
    requires forall k :: 0 <= k < |series| ==> !Hidden(state, series[k].id)
    ensures Visible(series, state) == series
    decreases |series|
  {
    if |series| > 0 {
      VisibleNothingHidden(series[..|series| - 1], state);
    }
  }

  /** A legend entry: one per series, greyed when the series is hidden. */
  datatype LegendEntry = LegendEntry(id: Value, greyed: bool)

  function Legend(series: seq<Series>, state: seq<Value>): (r: seq<LegendEntry>)
    ensures |r| == |series|
    ensures forall k :: 0 <= k < |series| ==> r[k].id == series[k].id && (r[k].greyed <==> Hidden(state, series[k].id))
  {
    seq(|series|, k requires 0 <= k < |series| => LegendEntry(series[k].id, Hidden(state, series[k].id)))
  }

  // ---------------------------------------------------------------------------
  // The component
  // ---------------------------------------------------------------------------

  /** The module-level cache of grouped layouts, by task id. */
  class LayoutCache {
    var outputs: map<string, seq<Series>>

    constructor()
      ensures outputs == map[]
    {
      outputs := map[];
    }
  }

  /** What the component renders. */
  datatype View = Nothing | Loading | Plot(plotted: seq<Series>, legend: seq<LegendEntry>, captions: bool)

  class TsneView {
    var rawData: seq<Series>
    /** The hidden series, as the strings the legend's click handler stores. */
    var hiddenIds: seq<string>
    var toggleCaption: bool

    constructor()
      ensures rawData == [] && hiddenIds == [] && !toggleCaption
    {
      rawData := [];
      hiddenIds := [];
      toggleCaption := false;
    }

    /** The effect run for a task: a cached grouping is reused as it is; otherwise the rows
        are laid out, grouped, cached and shown. */
    method LoadTask(cache: LayoutCache, taskId: string, rows: seq<Row>, layout: seq<Position>)
      requires |layout| >= |rows|
      modifies this, cache
      ensures taskId in old(cache.outputs) ==>
        rawData == old(cache.outputs[taskId]) && cache.outputs == old(cache.outputs)
      ensures taskId !in old(cache.outputs) ==>
        rawData == Group(Items(rows, layout)) && cache.outputs == old(cache.outputs)[taskId := rawData]
      ensures taskId in cache.outputs && cache.outputs[taskId] == rawData
      ensures hiddenIds == old(hiddenIds) && toggleCaption == old(toggleCaption)
    {
      if taskId in cache.outputs {
        rawData := cache.outputs[taskId];
      } else {
        var vizInput := GroupByLabel(Items(rows, layout));
        cache.outputs := cache.outputs[taskId := vizInput];
        rawData := vizInput;
      }
    }

    /** A legend click, as written: `String(id)` is looked for and appended, entries equal to
        `id` itself are filtered out. A click on the unlabelled series leaves it plotted. */
    method LegendClick(id: Value)
      modifies this
      ensures hiddenIds == ToggleAsWritten(old(hiddenIds), id)
      ensures rawData == old(rawData) && toggleCaption == old(toggleCaption)
      ensures id == Undefined && |rawData| > 0 ==>
        forall s :: s in rawData && s.id == Undefined ==> s in Render(true).plotted
    {
      hiddenIds := ToggleAsWritten(hiddenIds, id);
      UnlabelledAlwaysPlotted(rawData, hiddenIds);
    }

    /** The caption button. */
    method ToggleCaptions()
      modifies this
      ensures toggleCaption == !old(toggleCaption)
      ensures rawData == old(rawData) && hiddenIds == old(hiddenIds)
      ensures old(Render(true)).Plot? ==> Render(true).Plot? && Render(true).captions == !old(Render(true)).captions
    {
      toggleCaption := !toggleCaption;
    }

    /** Nothing for a task that has not completed, a loader until there is data, else the
        visible series with a legend of all of them. */
    function Render(completed: bool): (v: View)
      reads this
      ensures !completed <==> v == Nothing
      ensures completed && |rawData| == 0 <==> v == Loading
      ensures v.Plot? ==> v.plotted == Visible(rawData, Lift(hiddenIds)) && v.legend == Legend(rawData, Lift(hiddenIds))
      ensures v.Plot? ==> v.captions == toggleCaption
    {
      if !completed then Nothing
      else if |rawData| == 0 then Loading
      else Plot(Visible(rawData, Lift(hiddenIds)), Legend(rawData, Lift(hiddenIds)), toggleCaption)
    }
  }

  /** A second load of a cached task shows the same series, whatever rows and layout come
      with it. */
  method ReloadUsesCache(cache: LayoutCache, view: TsneView, taskId: string,
                         rows: seq<Row>, layout: seq<Position>, rows2: seq<Row>, layout2: seq<Position>)
    returns (first: seq<Series>, second: seq<Series>)
    requires |layout| >= |rows| && |layout2| >= |rows2|
    requires taskId !in cache.outputs
    modifies view, cache
    ensures first == Group(Items(rows, layout))
    ensures second == first
  {
    view.LoadTask(cache, taskId, rows, layout);
    first := view.rawData;
    view.LoadTask(cache, taskId, rows2, layout2);
    second := view.rawData;
  }
}
