/**
 * The compact, serialisable form of update events used in configuration files: one
 * instruction adds or removes nodes, labels or edges for several targets at once and is
 * expanded into single update events when it is read. Component types are parsed from
 * their names; the textual syntax (the `do` tag, field names) is outside the model.
 */
module UpdateEvent {
  import opened Wrappers
  import opened Events

  datatype AnnoKey = AnnoKey(ns: string, name: string)
  datatype EdgeConfig = EdgeConfig(source: string, target: string)
  datatype Component = Component(ctype: ComponentType, layer: string, name: string)

  /** Instructions that add to the graph. */
  datatype RawAdd =
    | Nodes(nodes: seq<string>, nodeType: string)
    | NodeLabels(nodes: seq<string>, anno: AnnoKey, value: string)
    | Edges(edges: seq<EdgeConfig>, component: Component)
    | EdgeLabels(edges: seq<EdgeConfig>, component: Component, anno: AnnoKey, value: string)

  /** Instructions that remove from the graph; label removals name several keys. */
  datatype RawRemove =
    | RmNodes(nodes: seq<string>)
    | RmNodeLabels(nodes: seq<string>, annos: seq<AnnoKey>)
    | RmEdges(edges: seq<EdgeConfig>, component: Component)
    | RmEdgeLabels(edges: seq<EdgeConfig>, component: Component, annos: seq<AnnoKey>)

  datatype SerdeUE = Add(add: RawAdd) | RM(rm: RawRemove)

  /** The node type of a node instruction: the given one, or "node" when the field is absent. */
  function NodeTypeOrDefault(given: Option<string>): string
  {
    if given.Some? then given.value else DefaultNodeType
  }

  /** Reading a node instruction whose type field may be absent. */
  function ReadNodes(nodes: seq<string>, given: Option<string>): RawAdd
  {
    Nodes(nodes, NodeTypeOrDefault(given))
  }

  /** Every pair of an element of `xs` with one of `ys`, grouped by the element of `xs`. */
  function Product<A, B>(xs: seq<A>, ys: seq<B>): seq<(A, B)>
  {
    if xs == [] then [] else seq(|ys|, j requires 0 <= j < |ys| => (xs[0], ys[j])) + Product(xs[1..], ys)
  }

  /** The event of one edge of a component, for the add and the delete form. */
  function EdgeEvent(e: EdgeConfig, c: Component, add: bool): Event
  {
    if add then AddEdge(e.source, e.target, c.layer, TypeName(c.ctype), c.name)
    else DeleteEdge(e.source, e.target, c.layer, TypeName(c.ctype), c.name)
  }

  /** `RawAdd::into_inner`: one event per listed target. */
  function AddEvents(a: RawAdd): seq<Event>
  {
    match a
    case Nodes(nodes, t) => seq(|nodes|, i requires 0 <= i < |nodes| => AddNode(nodes[i], t))
    case NodeLabels(nodes, k, v) => seq(|nodes|, i requires 0 <= i < |nodes| => AddNodeLabel(nodes[i], k.ns, k.name, v))
    case Edges(edges, c) => seq(|edges|, i requires 0 <= i < |edges| => EdgeEvent(edges[i], c, true))
    case EdgeLabels(edges, c, k, v) =>
      seq(|edges|, i requires 0 <= i < |edges| =>
        AddEdgeLabel(edges[i].source, edges[i].target, c.layer, TypeName(c.ctype), c.name, k.ns, k.name, v))
  }

  /** `RawRemove::into_inner`: label removals go over every target and every key, target by target. */
  function RemoveEvents(r: RawRemove): seq<Event>
  {
    match r
    case RmNodes(nodes) => seq(|nodes|, i requires 0 <= i < |nodes| => DeleteNode(nodes[i]))
    case RmNodeLabels(nodes, annos) =>
      var p := Product(nodes, annos);
      seq(|p|, i requires 0 <= i < |p| => DeleteNodeLabel(p[i].0, p[i].1.ns, p[i].1.name))
    case RmEdges(edges, c) => seq(|edges|, i requires 0 <= i < |edges| => EdgeEvent(edges[i], c, false))
    case RmEdgeLabels(edges, c, annos) =>
      var p := Product(edges, annos);
      seq(|p|, i requires 0 <= i < |p| =>
        DeleteEdgeLabel(p[i].0.source, p[i].0.target, c.layer, TypeName(c.ctype), c.name, p[i].1.ns, p[i].1.name))
  }

  function IntoInner(s: SerdeUE): seq<Event>
  {
    match s
    case Add(a) => AddEvents(a)
    case RM(r) => RemoveEvents(r)
  }

  /** The component of an edge event, when its type name is one of the component types. */
  function ReadComponent(componentType: string, layer: string, name: string): Result<Component>
  {
    var t := ParseType(componentType);
    if t.None? then Err("unknown component type " + componentType) else Ok(Component(t.value, layer, name))
  }

  /** `SerdeUE::try_from`: every update event becomes an instruction with a single target. */
  function FromEvent(e: Event): Result<SerdeUE>
  {
    match e
    case AddNode(n, t) => Ok(Add(Nodes([n], t)))
    case DeleteNode(n) => Ok(RM(RmNodes([n])))
    case AddNodeLabel(n, ns, name, v) => Ok(Add(NodeLabels([n], AnnoKey(ns, name), v)))
    case DeleteNodeLabel(n, ns, name) => Ok(RM(RmNodeLabels([n], [AnnoKey(ns, name)])))
    case AddEdge(s, t, l, ct, cn) =>
      var c := ReadComponent(ct, l, cn);
      if c.Err? then Err(c.msg) else Ok(Add(Edges([EdgeConfig(s, t)], c.value)))
    case DeleteEdge(s, t, l, ct, cn) =>
      var c := ReadComponent(ct, l, cn);
      if c.Err? then Err(c.msg) else Ok(RM(RmEdges([EdgeConfig(s, t)], c.value)))
    case AddEdgeLabel(s, t, l, ct, cn, ns, name, v) =>
      var c := ReadComponent(ct, l, cn);
      if c.Err? then Err(c.msg) else Ok(Add(EdgeLabels([EdgeConfig(s, t)], c.value, AnnoKey(ns, name), v)))
    case DeleteEdgeLabel(s, t, l, ct, cn, ns, name) =>
      var c := ReadComponent(ct, l, cn);
      if c.Err? then Err(c.msg) else Ok(RM(RmEdgeLabels([EdgeConfig(s, t)], c.value, [AnnoKey(ns, name)])))
  }

  predicate IsEdgeEvent(e: Event)
  {
    e.AddEdge? || e.DeleteEdge? || e.AddEdgeLabel? || e.DeleteEdgeLabel?
  }

  /** An event can be written out unless it is an edge event with an unknown component type. */
  predicate Serialisable(e: Event)
  {
    !IsEdgeEvent(e) || ParseType(e.componentType).Some?
  }

  /** `deserialize`: the expansions of the instructions, one after the other. */
  function Deserialize(raw: seq<SerdeUE>): seq<Event>
  {
    if raw == [] then [] else IntoInner(raw[0]) + Deserialize(raw[1..])
  }

  /** `serialize`: the instructions of the events that convert; the others are skipped. */
  function Serialize(events: seq<Event>): seq<SerdeUE>
  {
    if events == [] then []
    else
      var r := FromEvent(events[0]);
      (if r.Ok? then [r.value] else []) + Serialize(events[1..])
  }

  /** The events that `Serialize` keeps, in their order. */
  function SerialisableEvents(events: seq<Event>): seq<Event>
  {
    if events == [] then []
    else (if Serialisable(events[0]) then [events[0]] else []) + SerialisableEvents(events[1..])
  }

  // ---------------------------------------------------------------- properties

  /** A node instruction adds every listed node, in order, all with the instruction's type. */
  lemma NodesExpansion(nodes: seq<string>, t: string)
    ensures |AddEvents(Nodes(nodes, t))| == |nodes|
    ensures forall i :: 0 <= i < |nodes| ==> AddEvents(Nodes(nodes, t))[i] == AddNode(nodes[i], t)
    ensures forall e :: e in AddEvents(Nodes(nodes, t)) ==> e.AddNode? && e.nodeType == t
  {
  }

  /** Without a type field the nodes get the default type "node". */
  lemma DefaultNodes(nodes: seq<string>)
    ensures AddEvents(ReadNodes(nodes, None)) == seq(|nodes|, i requires 0 <= i < |nodes| => Node(nodes[i]))
  {
  }

  lemma {:induction false} ProductLength<A, B>(xs: seq<A>, ys: seq<B>)
    ensures |Product(xs, ys)| == |xs| * |ys|
  {
    if xs != [] {
      ProductLength(xs[1..], ys);
      assert |xs| * |ys| == |ys| + (|xs| - 1) * |ys|;
    }
  }

  lemma ProductSingle<A, B>(x: A, y: B)
    ensures Product([x], [y]) == [(x, y)]
  {
    assert [x][1..] == [];
  }

  /** The pair of the i-th element of `xs` and the j-th of `ys` sits at i * |ys| + j. */
  lemma {:induction false} ProductAt<A, B>(xs: seq<A>, ys: seq<B>, i: nat, j: nat)
    requires i < |xs| && j < |ys|
    ensures i * |ys| + j < |Product(xs, ys)|
    ensures Product(xs, ys)[i * |ys| + j] == (xs[i], ys[j])
  {
    ProductLength(xs, ys);
    ProductLength(xs[1..], ys);
    if i > 0 {
      ProductAt(xs[1..], ys, i - 1, j);
      assert i * |ys| + j == |ys| + ((i - 1) * |ys| + j);
    }
  }

  /** A pair is in the product exactly when its parts are in the two sequences. */
  lemma {:induction false} ProductMember<A, B>(xs: seq<A>, ys: seq<B>, x: A, y: B)
    ensures (x, y) in Product(xs, ys) <==> x in xs && y in ys
  {
    if xs != [] {
      ProductMember(xs[1..], ys, x, y);
      var row := seq(|ys|, j requires 0 <= j < |ys| => (xs[0], ys[j]));
      assert Product(xs, ys) == row + Product(xs[1..], ys);
      if x in xs && y in ys && x == xs[0] {
        var j :| 0 <= j < |ys| && ys[j] == y;
        assert row[j] == (x, y);
      }
      if (x, y) in row {
        var j :| 0 <= j < |row| && row[j] == (x, y);
        assert ys[j] == y;
      }
    }
  }

  /** Removing node labels deletes every key from every node: |nodes| * |keys| events, node by node. */
  lemma RemoveNodeLabelsExpansion(nodes: seq<string>, annos: seq<AnnoKey>, i: nat, j: nat)
    requires i < |nodes| && j < |annos|
    ensures |RemoveEvents(RmNodeLabels(nodes, annos))| == |nodes| * |annos|
    ensures i * |annos| + j < |RemoveEvents(RmNodeLabels(nodes, annos))|
    ensures RemoveEvents(RmNodeLabels(nodes, annos))[i * |annos| + j] == DeleteNodeLabel(nodes[i], annos[j].ns, annos[j].name)
  {
    var p := Product(nodes, annos);
    var k := i * |annos| + j;
    ProductLength(nodes, annos);
    ProductAt(nodes, annos, i, j);
    assert p[k] == (nodes[i], annos[j]);
  }

  /** Removing edge labels deletes every key from every edge of the component, edge by edge. */
  lemma RemoveEdgeLabelsExpansion(edges: seq<EdgeConfig>, c: Component, annos: seq<AnnoKey>, i: nat, j: nat)
    requires i < |edges| && j < |annos|
    ensures |RemoveEvents(RmEdgeLabels(edges, c, annos))| == |edges| * |annos|
    ensures i * |annos| + j < |RemoveEvents(RmEdgeLabels(edges, c, annos))|
    ensures RemoveEvents(RmEdgeLabels(edges, c, annos))[i * |annos| + j]
      == DeleteEdgeLabel(edges[i].source, edges[i].target, c.layer, TypeName(c.ctype), c.name, annos[j].ns, annos[j].name)
  {
    var p := Product(edges, annos);
    var k := i * |annos| + j;
    ProductLength(edges, annos);
    ProductAt(edges, annos, i, j);
    assert p[k] == (edges[i], annos[j]);
  }

  /** A node label is deleted exactly when its node and its key are both listed. */
  lemma RemoveNodeLabelsMember(nodes: seq<string>, annos: seq<AnnoKey>, n: string, k: AnnoKey)
    ensures DeleteNodeLabel(n, k.ns, k.name) in RemoveEvents(RmNodeLabels(nodes, annos)) <==> n in nodes && k in annos
  {
    var p := Product(nodes, annos);
    var evs := RemoveEvents(RmNodeLabels(nodes, annos));
    ProductMember(nodes, annos, n, k);
    if DeleteNodeLabel(n, k.ns, k.name) in evs {
      var i :| 0 <= i < |evs| && evs[i] == DeleteNodeLabel(n, k.ns, k.name);
      assert p[i] == (n, k);
    }
    if (n, k) in p {
      var i :| 0 <= i < |p| && p[i] == (n, k);
      assert evs[i] == DeleteNodeLabel(n, k.ns, k.name);
    }
  }

  /** Conversion fails exactly for edge events whose component type name is unknown. */
  lemma FromEventErr(e: Event)
    ensures FromEvent(e).Err? <==> !Serialisable(e)
  {
  }

  /** Every instruction converted from an event expands back to exactly that event. */
  lemma FromEventIntoInner(e: Event)
    requires FromEvent(e).Ok?
    ensures IntoInner(FromEvent(e).value) == [e]
  {
    var evs := IntoInner(FromEvent(e).value);
    if IsEdgeEvent(e) {
      var t := ParseType(e.componentType);
      assert TypeName(t.value) == e.componentType;
    }
    match e
    case DeleteNodeLabel(n, ns, name) => ProductSingle(n, AnnoKey(ns, name));
    case DeleteEdgeLabel(s, t, _, _, _, ns, name) => ProductSingle(EdgeConfig(s, t), AnnoKey(ns, name));
    case _ =>
  }

  /** Reading instructions one after the other gives their expansions one after the other. */
  lemma {:induction false} DeserializeAppend(a: seq<SerdeUE>, b: seq<SerdeUE>)
    ensures Deserialize(a + b) == Deserialize(a) + Deserialize(b)
  {
    if a == [] {
      assert a + b == b;
    } else {
      assert (a + b)[0] == a[0];
      assert (a + b)[1..] == a[1..] + b;
      DeserializeAppend(a[1..], b);
      AppendAssoc(IntoInner(a[0]), Deserialize(a[1..]), Deserialize(b));
    }
  }

  /** Writing events out and reading them back gives the events that convert, in order. */
  lemma {:induction false} SerializeRoundTrip(events: seq<Event>)
    ensures Deserialize(Serialize(events)) == SerialisableEvents(events)
  {
    if events != [] {
      var r := FromEvent(events[0]);
      var head := if r.Ok? then [r.value] else [];
      SerializeRoundTrip(events[1..]);
      DeserializeAppend(head, Serialize(events[1..]));
      FromEventErr(events[0]);
      if r.Ok? {
        FromEventIntoInner(events[0]);
        assert Deserialize(head) == IntoInner(r.value) + Deserialize([]);
      }
    }
  }

  /** When every event converts, the round trip is the identity. */
  lemma {:induction false} SerialisableAll(events: seq<Event>)
    requires forall i :: 0 <= i < |events| ==> Serialisable(events[i])
    ensures SerialisableEvents(events) == events
  {
    if events != [] {
      SerialisableAll(events[1..]);
    }
  }
}
