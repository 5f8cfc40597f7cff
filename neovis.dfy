/**
 * The graph view's store: Neo4j nodes and relationships become vis.js node and
 * edge objects, which are kept in two maps keyed by id (a later object with the
 * same id replaces the earlier one). The view clears the maps before it runs a
 * new query.
 *
 * The Neo4j driver session, the vis.js network and the timers are not modelled.
 * A record arriving from the driver is a parameter of `OnNext`, and creating the
 * vis.js network is recorded only as the `networkCreated` flag.
 */
module NeoVis {
  import opened JsStrings
  import opened JsValues

  // ---------------------------------------------------------------------------
  // Values the driver delivers
  // ---------------------------------------------------------------------------

  datatype Node = Node(identity: int, labels: seq<string>, properties: Props)

  datatype Relationship = Relationship(identity: int, start: int, end: int, relType: string, properties: Props)

  datatype Segment = Segment(start: Node, relationship: Relationship, end: Node)

  datatype Path = Path(start: Node, end: Node, segments: seq<Segment>)

  /** One field of a result record. */
  datatype RecordValue =
    | NodeValue(node: Node)
    | RelationshipValue(rel: Relationship)
    | PathValue(path: Path)
    | ArrayValue(items: seq<RecordValue>)
    | Plain(v: Value)

  // ---------------------------------------------------------------------------
  // Configuration
  // ---------------------------------------------------------------------------

  /** A label's `caption` setting: a function of the node, or any other value, which is then
      used as a property key. */
  datatype Caption = CaptionBy(f: Node -> Value) | CaptionKey(key: Value)

  /** The settings of one label; a setting that is absent is `Undefined`. */
  datatype LabelConfig = LabelConfig(caption: Caption, size: Value, sizeCypher: Value, community: Value)

  /** The settings of one relationship type. */
  datatype RelConfig = RelConfig(thickness: Value)

  datatype Config = Config(labels: map<string, LabelConfig>, relationships: map<string, RelConfig>)

  const NoSettings := LabelConfig(CaptionKey(Undefined), Undefined, Undefined, Undefined)

  /** `n.labels[0]`: the first label, or undefined for a node without labels. */
  function FirstLabel(n: Node): (r: Value)
    ensures r == Undefined <==> |n.labels| == 0
    ensures r != Undefined ==> r == Str(n.labels[0])
  {
    if |n.labels| == 0 then Undefined else Str(n.labels[0])
  }

  /** The settings the configuration holds for the node's first label. A missing label is
      looked up under the key "undefined", as a JavaScript property access does. */
  function LabelSettings(c: Config, n: Node): (s: LabelConfig)
    ensures ToText(FirstLabel(n)) !in c.labels ==> s == NoSettings
    ensures ToText(FirstLabel(n)) in c.labels ==> s == c.labels[ToText(FirstLabel(n))]
  {
    var key := ToText(FirstLabel(n));
    if key in c.labels then c.labels[key] else NoSettings
  }

  // ---------------------------------------------------------------------------
  // vis.js objects
  // ---------------------------------------------------------------------------

  /** A vis.js node. `value` is absent when the size is left to a `sizeCypher` query. */
  datatype VisNode = VisNode(id: int, value: Option<Number>, caption: Value, group: Value, title: string)

  /** A relationship's thickness before the `* 0.2` scaling, which is floating point. */
  datatype Thickness = ScaledProperty(v: Value) | ScaledSetting(n: Number) | Thinnest

  datatype VisEdge = VisEdge(id: int, from: int, to: int, title: string, value: Thickness, caption: string)

  const OnePointZero := Dec(1, 0)
  const ZeroValue := Num(Dec(0, 0))

  /** `Number.MAX_SAFE_INTEGER`: the driver's Integer converts to a number without loss
      within this bound. */
  const MaxSafe := 9007199254740991

  predicate InSafeRange(i: int) {
    -MaxSafe <= i <= MaxSafe
  }

  /** Node size: a numeric `size` setting; else a truthy number held by the property the
      setting names; else a driver Integer property within the safe range; else 1.0.
      A `sizeCypher` setting leaves the size to an asynchronous query. */
  function NodeSize(s: LabelConfig, props: Props): (r: Option<Number>)
    ensures r.None? <==> Truthy(s.sizeCypher)
    ensures !Truthy(s.sizeCypher) && s.size.Num? ==> r == Some(s.size.n)
    ensures !Truthy(s.sizeCypher) && !s.size.Num? ==>
      var p := Get(props, ToText(s.size));
      r == (if Truthy(p) && p.Num? then Some(p.n)
            else if p.Int? && InSafeRange(p.i) then Some(IntNumber(p.i))
            else Some(OnePointZero))
  {
    if Truthy(s.sizeCypher) then None
    else if s.size.Num? then Some(s.size.n)
    else
      var p := Get(props, ToText(s.size));
      if Truthy(p) && p.Num? then Some(p.n)
      else if Truthy(p) && p.Int? then
        (if InSafeRange(p.i) then Some(IntNumber(p.i)) else Some(OnePointZero))
      else Some(OnePointZero)
  }

  /** A size read from a property is a proper number (never NaN); only a JavaScript zero
      falls back to 1.0, while a driver Integer zero keeps the size 0. */
  lemma PropertySizes(s: LabelConfig, props: Props, e: nat)
    requires !Truthy(s.sizeCypher) && !s.size.Num?
    ensures NodeSize(s, props).Some? && NodeSize(s, props).value.Dec?
    ensures Get(props, ToText(s.size)) == Num(Dec(0, e)) ==> NodeSize(s, props) == Some(OnePointZero)
    ensures Get(props, ToText(s.size)) == Int(0) ==> NodeSize(s, props) == Some(Dec(0, 0))
    ensures Get(props, ToText(s.size)) == Undefined ==> NodeSize(s, props) == Some(OnePointZero)
  {
  }

  /** Node caption: the configured function applied to the node; otherwise the first truthy
      of the named property and the first label, else "". */
  function NodeCaption(s: LabelConfig, n: Node): (r: Value)
    ensures s.caption.CaptionBy? ==> r == s.caption.f(n)
    ensures s.caption.CaptionKey? ==>
      r == Or(Get(n.properties, ToText(s.caption.key)), Or(FirstLabel(n), Str("")))
  {
    match s.caption
    case CaptionBy(f) => f(n)
    case CaptionKey(k) => Or(Get(n.properties, ToText(k)), Or(FirstLabel(n), Str("")))
  }

  /** Without a caption function the caption is the property, the label or "", and it is
      "" only when neither the property nor the label is truthy. */
  lemma CaptionFallback(s: LabelConfig, n: Node)
    requires s.caption.CaptionKey?
    ensures var p := Get(n.properties, ToText(s.caption.key));
      var r := NodeCaption(s, n);
      (r == p || r == FirstLabel(n) || r == Str("")) &&
      (Truthy(r) || r == Str("")) &&
      (r == Str("") <==> !Truthy(p) && !Truthy(FirstLabel(n)))
  {
  }

  /** Node group: the first label when no community key is set. With one, a truthy driver
      Integer community gives its value (an Integer zero gives the label, else 0); a missing
      or falsy property gives 0; any other truthy value has no `toNumber`, and the exception
      handler gives 0. */
  function NodeGroup(s: LabelConfig, n: Node): (r: Value)
    ensures !Truthy(s.community) ==> r == FirstLabel(n)
    ensures Truthy(s.community) ==>
      var p := Get(n.properties, ToText(s.community));
      r == (if p.Int? then Or(Num(IntNumber(p.i)), Or(FirstLabel(n), ZeroValue)) else ZeroValue)
  {
    if !Truthy(s.community) then FirstLabel(n)
    else
      var p := Get(n.properties, ToText(s.community));
      if !Truthy(p) then ZeroValue
      else match p
        case Int(i) => Or(Num(IntNumber(i)), Or(FirstLabel(n), ZeroValue))
        case _ => ZeroValue
  }

  /** With a community key set, the group is a number or the node's first label; a
      community held as a JavaScript number always lands in group 0. */
  lemma GroupIsNumberOrLabel(s: LabelConfig, n: Node)
    requires Truthy(s.community)
    ensures NodeGroup(s, n).Num? || NodeGroup(s, n) == FirstLabel(n)
    ensures Get(n.properties, ToText(s.community)).Num? ==> NodeGroup(s, n) == ZeroValue
    ensures forall i :: i != 0 && Get(n.properties, ToText(s.community)) == Int(i) ==>
      NodeGroup(s, n) == Num(IntNumber(i))
  {
  }

  /** One tooltip line: `<strong>key:</strong> value<br>`. */
  function TooltipLine(key: string, v: Value): string {
    "<strong>" + key + ":</strong>" + " " + ToText(v) + "<br>"
  }

  /** The tooltip of a property list: one line per property, in property order. */
  function Tooltip(props: Props): string
    decreases |props|
  {
    if |props| == 0 then ""
    else Tooltip(props[..|props| - 1]) + TooltipLine(props[|props| - 1].0, props[|props| - 1].1)
  }

  /** The tooltip of two property lists one after the other is their two tooltips. */
  lemma {:induction false} TooltipConcat(p: Props, q: Props)
    ensures Tooltip(p + q) == Tooltip(p) + Tooltip(q)
    decreases |q|
  {
    if |q| > 0 {
      var q' := q[..|q| - 1];
      assert (p + q)[..|p + q| - 1] == p + q';
      assert (p + q)[|p + q| - 1] == q[|q| - 1];
      TooltipConcat(p, q');
    } else {
      assert p + q == p;
    }
  }

  /** A tooltip is the first property's line followed by the tooltip of the others. */
  lemma TooltipFront(p: Props)
    requires |p| > 0
    ensures Tooltip(p) == TooltipLine(p[0].0, p[0].1) + Tooltip(p[1..])
  {
    assert p == [p[0]] + p[1..];
    TooltipConcat([p[0]], p[1..]);
    TooltipSingle(p[0]);
  }

  lemma TooltipSingle(x: (string, Value))
    ensures Tooltip([x]) == TooltipLine(x.0, x.1)
  {
    assert [x][..0] == [];
  }

  /** A node without properties has an empty tooltip, and each property contributes a line
      of its own. */
  lemma TooltipLength(p: Props)
    ensures Tooltip(p) == "" <==> |p| == 0
  {
    if |p| > 0 {
      assert |TooltipLine(p[|p| - 1].0, p[|p| - 1].1)| > 0;
    }
  }

  /** The `for (let key in properties)` loop that accumulates the tooltip. */
  method BuildTitle(props: Props) returns (title: string)
    ensures title == Tooltip(props)
  {
    title := "";
    var i := 0;
    while i < |props|
      invariant 0 <= i <= |props|
      invariant title == Tooltip(props[..i])
    {
      assert props[..i + 1][..i] == props[..i];
      title := title + TooltipLine(props[i].0, props[i].1);
      i := i + 1;
    }
    assert props[..i] == props;
  }

  /** The vis.js node built from a Neo4j node. */
  function NodeVisObject(c: Config, n: Node): VisNode {
    var s := LabelSettings(c, n);
    VisNode(n.identity, NodeSize(s, n.properties), NodeCaption(s, n), NodeGroup(s, n), Tooltip(n.properties))
  }

  method BuildNodeVisObject(c: Config, n: Node) returns (node: VisNode)
    ensures node.id == n.identity
    ensures node.value == NodeSize(LabelSettings(c, n), n.properties)
    ensures node.caption == NodeCaption(LabelSettings(c, n), n)
    ensures node.group == NodeGroup(LabelSettings(c, n), n)
    ensures node.title == Tooltip(n.properties)
    ensures node == NodeVisObject(c, n)
  {
    var s := LabelSettings(c, n);
    var title := BuildTitle(n.properties);
    node := VisNode(n.identity, NodeSize(s, n.properties), NodeCaption(s, n), NodeGroup(s, n), title);
  }

  /** Edge thickness: a truthy string setting names the property to scale, a truthy number
      is scaled itself, anything else gives the thinnest edge. */
  function EdgeThickness(c: Config, r: Relationship): (t: Thickness)
    ensures r.relType !in c.relationships ==> t == Thinnest
    ensures r.relType in c.relationships ==>
      var w := c.relationships[r.relType].thickness;
      t == (if w.Str? && w.s != "" then ScaledProperty(Get(r.properties, w.s))
            else if Truthy(w) && w.Num? then ScaledSetting(w.n)
            else Thinnest)
  {
    if r.relType !in c.relationships then Thinnest
    else
      var w := c.relationships[r.relType].thickness;
      if Truthy(w) && w.Str? then ScaledProperty(Get(r.properties, w.s))
      else if Truthy(w) && w.Num? then ScaledSetting(w.n)
      else Thinnest
  }

  /** The vis.js edge built from a Neo4j relationship. */
  function EdgeVisObject(c: Config, r: Relationship): VisEdge {
    VisEdge(r.identity, r.start, r.end, Tooltip(r.properties), EdgeThickness(c, r), "")
  }

  method BuildEdgeVisObject(c: Config, r: Relationship) returns (edge: VisEdge)
    ensures edge.id == r.identity && edge.from == r.start && edge.to == r.end
    ensures edge.title == Tooltip(r.properties)
    ensures edge.value == EdgeThickness(c, r)
    ensures edge.caption == ""
    ensures edge == EdgeVisObject(c, r)
  {
    var title := BuildTitle(r.properties);
    edge := VisEdge(r.identity, r.start, r.end, title, EdgeThickness(c, r), "");
  }

  // ---------------------------------------------------------------------------
  // The store, as values: what absorbing a record does
  // ---------------------------------------------------------------------------

  datatype Graph = Graph(nodes: map<int, VisNode>, edges: map<int, VisEdge>)

  function WithNode(c: Config, g: Graph, n: Node): Graph {
    g.(nodes := g.nodes[n.identity := NodeVisObject(c, n)])
  }

  function WithEdge(c: Config, g: Graph, r: Relationship): Graph {
    g.(edges := g.edges[r.identity := EdgeVisObject(c, r)])
  }

  /** Each segment adds its start node, its end node and its relationship, in order. */
  function WithSegments(c: Config, g: Graph, segs: seq<Segment>): Graph
    decreases |segs|
  {
    if |segs| == 0 then g
    else
      var last := segs[|segs| - 1];
      WithEdge(c, WithNode(c, WithNode(c, WithSegments(c, g, segs[..|segs| - 1]), last.start), last.end),
               last.relationship)
  }

  /** One pass of the array loop's body: `if (tested instanceof Node)` the element `obj` is
      added as a node, `else if (tested instanceof Relationship)` as a relationship. The code
      builds from `obj` whatever the test found `tested` to be; an element of another kind is
      skipped here. */
  function ElementStep(c: Config, g: Graph, tested: RecordValue, obj: RecordValue): Graph {
    match tested
    case NodeValue(_) => if obj.NodeValue? then WithNode(c, g, obj.node) else g
    case RelationshipValue(_) => if obj.RelationshipValue? then WithEdge(c, g, obj.rel) else g
    case _ => g
  }

  /** `items.forEach(obj => ...)` with every test made on the same value `tested`. */
  function WithArrayTesting(c: Config, g: Graph, tested: RecordValue, items: seq<RecordValue>): Graph
    decreases |items|
  {
    if |items| == 0 then g
    else ElementStep(c, WithArrayTesting(c, g, tested, items[..|items| - 1]), tested, items[|items| - 1])
  }

  /** The array branch as the code is written: every test looks at the array `v` itself. */
  function WithArrayAsWritten(c: Config, g: Graph, items: seq<RecordValue>): Graph {
    WithArrayTesting(c, g, ArrayValue(items), items)
  }

  /** Tests made on a value that is neither a node nor a relationship never succeed, so the
      loop adds nothing, however many elements it visits. */
  lemma {:induction false} ArrayTestingNothing(c: Config, g: Graph, tested: RecordValue, items: seq<RecordValue>)
    requires !tested.NodeValue? && !tested.RelationshipValue?
    ensures WithArrayTesting(c, g, tested, items) == g
    decreases |items|
  {
    if |items| > 0 {
      ArrayTestingNothing(c, g, tested, items[..|items| - 1]);
    }
  }

  /** The array branch as intended: each element is tested itself (`obj` for `v`), so each
      node or relationship is added and other elements are skipped. */
  function WithArray(c: Config, g: Graph, items: seq<RecordValue>): Graph
    decreases |items|
  {
    if |items| == 0 then g
    else
      var obj := items[|items| - 1];
      ElementStep(c, WithArray(c, g, items[..|items| - 1]), obj, obj)
  }

  /** The effect of one record field on the store, with the array branch corrected. */
  function Absorb(c: Config, g: Graph, v: RecordValue): Graph {
    match v
    case NodeValue(n) => WithNode(c, g, n)
    case RelationshipValue(r) => WithEdge(c, g, r)
    case PathValue(p) => WithSegments(c, WithNode(c, WithNode(c, g, p.start), p.end), p.segments)
    case ArrayValue(items) => WithArray(c, g, items)
    case Plain(_) => g
  }

  /** The effect of one record field on the store, as the dispatch of `onNext` is written. */
  function AbsorbAsWritten(c: Config, g: Graph, v: RecordValue): Graph {
    match v
    case ArrayValue(items) => WithArrayAsWritten(c, g, items)
    case _ => Absorb(c, g, v)
  }

  /** `record.forEach(...)` as written: the effect of a whole record, field by field. */
  function AbsorbAllAsWritten(c: Config, g: Graph, vs: seq<RecordValue>): Graph
    decreases |vs|
  {
    if |vs| == 0 then g else AbsorbAsWritten(c, AbsorbAllAsWritten(c, g, vs[..|vs| - 1]), vs[|vs| - 1])
  }

  /** The same with the array branch corrected. */
  function AbsorbAll(c: Config, g: Graph, vs: seq<RecordValue>): Graph
    decreases |vs|
  {
    if |vs| == 0 then g else Absorb(c, AbsorbAll(c, g, vs[..|vs| - 1]), vs[|vs| - 1])
  }

  /** The dispatch as written and the corrected one agree on every record without an
      array field. */
  lemma {:induction false} AgreeWithoutArrays(c: Config, g: Graph, vs: seq<RecordValue>)
    requires forall k :: 0 <= k < |vs| ==> !vs[k].ArrayValue?
    ensures AbsorbAllAsWritten(c, g, vs) == AbsorbAll(c, g, vs)
    decreases |vs|
  {
    if |vs| > 0 {
      AgreeWithoutArrays(c, g, vs[..|vs| - 1]);
    }
  }

  /** The graph `h` holds at least the entries of `g`. */
  predicate Grows(g: Graph, h: Graph) {
    g.nodes.Keys <= h.nodes.Keys && g.edges.Keys <= h.edges.Keys
  }

  /** Absorbing never removes an entry. */
  lemma {:induction false} SegmentsGrow(c: Config, g: Graph, segs: seq<Segment>)
    ensures Grows(g, WithSegments(c, g, segs))
    decreases |segs|
  {
    if |segs| > 0 {
      SegmentsGrow(c, g, segs[..|segs| - 1]);
    }
  }

  lemma {:induction false} ArrayGrows(c: Config, g: Graph, items: seq<RecordValue>)
    ensures Grows(g, WithArray(c, g, items))
    decreases |items|
  {
    if |items| > 0 {
      ArrayGrows(c, g, items[..|items| - 1]);
    }
  }

  lemma AbsorbGrows(c: Config, g: Graph, v: RecordValue)
    ensures Grows(g, AbsorbAsWritten(c, g, v))
    ensures Grows(g, Absorb(c, g, v))
  {
    match v
    case PathValue(p) => SegmentsGrow(c, WithNode(c, WithNode(c, g, p.start), p.end), p.segments);
    case ArrayValue(items) =>
      ArrayGrows(c, g, items);
      ArrayTestingNothing(c, g, v, items);
    case _ =>
  }

  lemma {:induction false} AbsorbAllGrows(c: Config, g: Graph, vs: seq<RecordValue>)
    ensures Grows(g, AbsorbAllAsWritten(c, g, vs))
    decreases |vs|
  {
    if |vs| > 0 {
      AbsorbAllGrows(c, g, vs[..|vs| - 1]);
      AbsorbGrows(c, AbsorbAllAsWritten(c, g, vs[..|vs| - 1]), vs[|vs| - 1]);
    }
  }

  /** After a path, its start and end nodes and every segment's nodes and relationship
      are in the store. */
  lemma {:induction false} SegmentsStored(c: Config, g: Graph, segs: seq<Segment>)
    ensures var h := WithSegments(c, g, segs);
      forall k :: 0 <= k < |segs| ==>
        segs[k].start.identity in h.nodes && segs[k].end.identity in h.nodes &&
        segs[k].relationship.identity in h.edges
    decreases |segs|
  {
    if |segs| > 0 {
      var init := segs[..|segs| - 1];
      SegmentsStored(c, g, init);
      var h0 := WithSegments(c, g, init);
      var h := WithSegments(c, g, segs);
      assert Grows(h0, h);
      forall k | 0 <= k < |segs|
        ensures segs[k].start.identity in h.nodes && segs[k].end.identity in h.nodes &&
          segs[k].relationship.identity in h.edges
      {
        if k < |segs| - 1 {
          assert segs[k] == init[k];
        }
      }
    }
  }

  lemma PathStored(c: Config, g: Graph, p: Path)
    ensures var h := Absorb(c, g, PathValue(p));
      p.start.identity in h.nodes && p.end.identity in h.nodes &&
      forall k :: 0 <= k < |p.segments| ==>
        p.segments[k].start.identity in h.nodes && p.segments[k].end.identity in h.nodes &&
        p.segments[k].relationship.identity in h.edges
  {
    var g2 := WithNode(c, WithNode(c, g, p.start), p.end);
    SegmentsGrow(c, g2, p.segments);
    SegmentsStored(c, g2, p.segments);
  }

  /** As written, an array field adds nothing to the store, whatever it holds; a node the
      corrected branch stores is missing from it. */
  lemma ArrayIgnoredAsWritten(c: Config, g: Graph, items: seq<RecordValue>, n: Node)
    ensures AbsorbAsWritten(c, g, ArrayValue(items)) == g
    ensures n.identity !in g.nodes ==> n.identity !in AbsorbAsWritten(c, g, ArrayValue([NodeValue(n)])).nodes
    ensures n.identity in Absorb(c, g, ArrayValue([NodeValue(n)])).nodes
  {
    ArrayTestingNothing(c, g, ArrayValue(items), items);
    ArrayTestingNothing(c, g, ArrayValue([NodeValue(n)]), [NodeValue(n)]);
    assert [NodeValue(n)][..0] == [];
  }

  /** As intended, every node and relationship of an array is in the store afterwards. */
  lemma {:induction false} ArrayStored(c: Config, g: Graph, items: seq<RecordValue>)
    ensures var h := WithArray(c, g, items);
      forall k :: 0 <= k < |items| ==>
        (items[k].NodeValue? ==> items[k].node.identity in h.nodes) &&
        (items[k].RelationshipValue? ==> items[k].rel.identity in h.edges)
    decreases |items|
  {
    if |items| > 0 {
      var init := items[..|items| - 1];
      ArrayStored(c, g, init);
      var h0 := WithArray(c, g, init);
      var h := WithArray(c, g, items);
      ArrayGrows(c, h0, [items[|items| - 1]]);
      assert Grows(h0, h) by {
        assert [items[|items| - 1]][..0] == [];
      }
      forall k | 0 <= k < |items| - 1
        ensures (items[k].NodeValue? ==> items[k].node.identity in h.nodes) &&
          (items[k].RelationshipValue? ==> items[k].rel.identity in h.edges)
      {
        assert items[k] == init[k];
      }
    }
  }

  /** Every node and relationship field of a record is in the store afterwards. */
  lemma {:induction false} RecordStored(c: Config, g: Graph, vs: seq<RecordValue>)
    ensures var h := AbsorbAllAsWritten(c, g, vs);
      forall k :: 0 <= k < |vs| ==>
        (vs[k].NodeValue? ==> vs[k].node.identity in h.nodes) &&
        (vs[k].RelationshipValue? ==> vs[k].rel.identity in h.edges)
    decreases |vs|
  {
    if |vs| > 0 {
      var init := vs[..|vs| - 1];
      RecordStored(c, g, init);
      var h0 := AbsorbAllAsWritten(c, g, init);
      AbsorbGrows(c, h0, vs[|vs| - 1]);
      var h := AbsorbAllAsWritten(c, g, vs);
      forall k | 0 <= k < |vs| - 1
        ensures (vs[k].NodeValue? ==> vs[k].node.identity in h.nodes) &&
          (vs[k].RelationshipValue? ==> vs[k].rel.identity in h.edges)
      {
        assert vs[k] == init[k];
      }
    }
  }

  /** The last node added under an id is the one the store keeps, and the other entries
      are as they were. */
  lemma LastNodeWins(c: Config, g: Graph, vs: seq<RecordValue>, n: Node)
    ensures var h := AbsorbAllAsWritten(c, g, vs + [NodeValue(n)]);
      h.nodes[n.identity] == NodeVisObject(c, n) &&
      h.edges == AbsorbAllAsWritten(c, g, vs).edges &&
      forall id :: id in h.nodes && id != n.identity ==> h.nodes[id] == AbsorbAllAsWritten(c, g, vs).nodes[id]
  {
    assert (vs + [NodeValue(n)])[..|vs|] == vs;
  }

  // ---------------------------------------------------------------------------
  // The view object
  // ---------------------------------------------------------------------------

  class NeoVisView {
    var config: Config
    var query: string
    var nodes: map<int, VisNode>
    var edges: map<int, VisEdge>
    /** Whether a vis.js network has been created, by the first completed render. */
    var networkCreated: bool

    function Store(): Graph
      reads this
    {
      Graph(nodes, edges)
    }

    constructor(c: Config, initialQuery: string)
      ensures config == c && query == initialQuery
      ensures nodes == map[] && edges == map[] && !networkCreated
    {
      config := c;
      query := initialQuery;
      nodes := map[];
      edges := map[];
      networkCreated := false;
    }

    /** `_addNode`: stores the node under its id, replacing any earlier one. */
    method AddNode(node: VisNode)
      modifies this
      ensures nodes == old(nodes)[node.id := node]
      ensures edges == old(edges) && config == old(config) && query == old(query)
      ensures networkCreated == old(networkCreated)
    {
      nodes := nodes[node.id := node];
    }

    /** `_addEdge`: stores the edge under its id, replacing any earlier one. */
    method AddEdge(edge: VisEdge)
      modifies this
      ensures edges == old(edges)[edge.id := edge]
      ensures nodes == old(nodes) && config == old(config) && query == old(query)
      ensures networkCreated == old(networkCreated)
    {
      edges := edges[edge.id := edge];
    }

    method AddNodeOf(n: Node)
      modifies this
      ensures Store() == WithNode(config, old(Store()), n)
      ensures config == old(config) && query == old(query) && networkCreated == old(networkCreated)
    {
      var node := BuildNodeVisObject(config, n);
      AddNode(node);
    }

    method AddEdgeOf(r: Relationship)
      modifies this
      ensures Store() == WithEdge(config, old(Store()), r)
      ensures config == old(config) && query == old(query) && networkCreated == old(networkCreated)
    {
      var edge := BuildEdgeVisObject(config, r);
      AddEdge(edge);
    }

    /** The per-value dispatch of `onNext` for one field. */
    method AbsorbValue(v: RecordValue)
      modifies this
      ensures Store() == AbsorbAsWritten(config, old(Store()), v)
      ensures config == old(config) && query == old(query) && networkCreated == old(networkCreated)
    {
      match v
      case NodeValue(n) => AddNodeOf(n);
      case RelationshipValue(r) => AddEdgeOf(r);
      case PathValue(p) =>
        AddNodeOf(p.start);
        AddNodeOf(p.end);
        AddSegments(p.segments);
      case ArrayValue(items) => AddArray(items);
      case Plain(_) =>
    }

    /** The `segments.forEach` of a path: each segment's start node, end node and
        relationship. */
    method AddSegments(segs: seq<Segment>)
      modifies this
      ensures Store() == WithSegments(config, old(Store()), segs)
      ensures config == old(config) && query == old(query) && networkCreated == old(networkCreated)
    {
      var i := 0;
      while i < |segs|
        invariant 0 <= i <= |segs|
        invariant config == old(config) && query == old(query) && networkCreated == old(networkCreated)
        invariant Store() == WithSegments(config, old(Store()), segs[..i])
      {
        assert segs[..i + 1][..i] == segs[..i];
        var seg := segs[i];
        AddNodeOf(seg.start);
        AddNodeOf(seg.end);
        AddEdgeOf(seg.relationship);
        i := i + 1;
      }
      assert segs[..i] == segs;
    }

    /** One pass of the array loop's body: the test is made on `tested`, the element added
        is `obj`. */
    method AddTested(tested: RecordValue, obj: RecordValue)
      modifies this
      ensures Store() == ElementStep(config, old(Store()), tested, obj)
      ensures config == old(config) && query == old(query) && networkCreated == old(networkCreated)
    {
      match tested
      case NodeValue(_) =>
        if obj.NodeValue? {
          AddNodeOf(obj.node);
        }
      case RelationshipValue(_) =>
        if obj.RelationshipValue? {
          AddEdgeOf(obj.rel);
        }
      case _ =>
    }

    /** The array branch as written: the loop visits every element, testing the array itself
        each time, and so leaves the store as it was. */
    method AddArray(items: seq<RecordValue>)
      modifies this
      ensures Store() == WithArrayAsWritten(config, old(Store()), items)
      ensures Store() == old(Store())
      ensures config == old(config) && query == old(query) && networkCreated == old(networkCreated)
    {
      var v := ArrayValue(items);
      var i := 0;
      while i < |items|
        invariant 0 <= i <= |items|
        invariant config == old(config) && query == old(query) && networkCreated == old(networkCreated)
        invariant Store() == WithArrayTesting(config, old(Store()), v, items[..i])
      {
        assert items[..i + 1][..i] == items[..i];
        AddTested(v, items[i]);
        i := i + 1;
      }
      assert items[..i] == items;
      ArrayTestingNothing(config, old(Store()), v, items);
    }

    /** `onNext`: absorbs every field of a record, in order. */
    method OnNext(record: seq<RecordValue>)
      modifies this
      ensures Store() == AbsorbAllAsWritten(config, old(Store()), record)
      ensures Grows(old(Store()), Store())
      ensures config == old(config) && query == old(query) && networkCreated == old(networkCreated)
    {
      var i := 0;
      while i < |record|
        invariant 0 <= i <= |record|
        invariant config == old(config) && query == old(query) && networkCreated == old(networkCreated)
        invariant Store() == AbsorbAllAsWritten(config, old(Store()), record[..i])
      {
        assert record[..i + 1][..i] == record[..i];
        AbsorbValue(record[i]);
        i := i + 1;
      }
      assert record[..i] == record;
      AbsorbAllGrows(config, old(Store()), record);
    }

    /** `onCompleted`: the vis.js network is created over the stored nodes and edges. */
    method OnCompleted()
      modifies this
      ensures networkCreated
      ensures Store() == old(Store()) && config == old(config) && query == old(query)
    {
      networkCreated := true;
    }

    /** `clearNetwork`: empties both maps; then `setData` on the network throws when no
        network exists yet, which `ok` reports. */
    method ClearNetwork() returns (ok: bool)
      modifies this
      ensures nodes == map[] && edges == map[]
      ensures ok == networkCreated
      ensures config == old(config) && query == old(query) && networkCreated == old(networkCreated)
    {
      nodes := map[];
      edges := map[];
      ok := networkCreated;
    }

    /** `renderWithCypher`: clears the store and replaces the query (then renders). When
        clearing throws, the query stays as it was. */
    method RenderWithCypher(q: string) returns (ok: bool)
      modifies this
      ensures nodes == map[] && edges == map[]
      ensures ok == networkCreated
      ensures query == (if ok then q else old(query))
      ensures config == old(config) && networkCreated == old(networkCreated)
    {
      ok := ClearNetwork();
      if ok {
        query := q;
      }
    }
  }
}
