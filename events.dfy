/**
 * The append-only log of graph updates that every importer and manipulator produces.
 * The graph store itself is outside the model: a run of an importer is judged only
 * by the sequence of events it appends.
 */
module Events {
  import opened Wrappers

  /** The component types of an annotation graph. */
  datatype ComponentType = Coverage | Dominance | Pointing | Ordering | LeftToken | RightToken | PartOf

  const ComponentTypes: seq<ComponentType> := [Coverage, Dominance, Pointing, Ordering, LeftToken, RightToken, PartOf]

  /** The textual name of a component type, as stored in an update event. */
  function TypeName(c: ComponentType): string
  {
    match c
    case Coverage => "Coverage"
    case Dominance => "Dominance"
    case Pointing => "Pointing"
    case Ordering => "Ordering"
    case LeftToken => "LeftToken"
    case RightToken => "RightToken"
    case PartOf => "PartOf"
  }

  /** Parsing a component type name; any other string is rejected. */
  function ParseType(s: string): (r: Option<ComponentType>)
    ensures r.Some? ==> TypeName(r.value) == s
  {
    if s == "Coverage" then Some(Coverage)
    else if s == "Dominance" then Some(Dominance)
    else if s == "Pointing" then Some(Pointing)
    else if s == "Ordering" then Some(Ordering)
    else if s == "LeftToken" then Some(LeftToken)
    else if s == "RightToken" then Some(RightToken)
    else if s == "PartOf" then Some(PartOf)
    else None
  }

  /** Every component type name parses back to its type. */
  lemma ParseTypeName(c: ComponentType)
    ensures ParseType(TypeName(c)) == Some(c)
  {
  }

  const AnnisNs := "annis"
  const TokKey := "tok"
  const TimeKey := "time"
  const LayerKey := "layer"
  const NodeNameKey := "node_name"
  const DefaultNodeType := "node"
  const DefaultNs := "default_ns"

  /** One update event; component types travel as their names, as in the store's update list. */
  datatype Event =
    | AddNode(nodeName: string, nodeType: string)
    | DeleteNode(nodeName: string)
    | AddNodeLabel(nodeName: string, annoNs: string, annoName: string, annoValue: string)
    | DeleteNodeLabel(nodeName: string, annoNs: string, annoName: string)
    | AddEdge(sourceNode: string, targetNode: string, layer: string, componentType: string, componentName: string)
    | DeleteEdge(sourceNode: string, targetNode: string, layer: string, componentType: string, componentName: string)
    | AddEdgeLabel(sourceNode: string, targetNode: string, layer: string, componentType: string, componentName: string,
                   annoNs: string, annoName: string, annoValue: string)
    | DeleteEdgeLabel(sourceNode: string, targetNode: string, layer: string, componentType: string, componentName: string,
                      annoNs: string, annoName: string)

  function Node(name: string): Event
  {
    AddNode(name, DefaultNodeType)
  }

  function Edge(source: string, target: string, layer: string, c: ComponentType, name: string): Event
  {
    AddEdge(source, target, layer, TypeName(c), name)
  }

  /**
   * The chain of edges that links each node to the next one: for n nodes there are
   * n - 1 edges, the i-th going from node i to node i + 1.
   */
  function Chain(nodes: seq<string>, layer: string, c: ComponentType, name: string): seq<Event>
  {
    if |nodes| < 2 then []
    else Chain(nodes[..|nodes| - 1], layer, c, name) + [Edge(nodes[|nodes| - 2], nodes[|nodes| - 1], layer, c, name)]
  }

  lemma {:induction false} ChainAt(nodes: seq<string>, layer: string, c: ComponentType, name: string)
    ensures |Chain(nodes, layer, c, name)| == if |nodes| == 0 then 0 else |nodes| - 1
    ensures forall i :: 0 <= i < |nodes| - 1 ==> Chain(nodes, layer, c, name)[i] == Edge(nodes[i], nodes[i + 1], layer, c, name)
  {
    if |nodes| >= 2 {
      ChainAt(nodes[..|nodes| - 1], layer, c, name);
    }
  }

  /** Appending events in two steps is appending them at once; the proofs of the emitters name it. */
  lemma AppendAssoc(a: seq<Event>, b: seq<Event>, c: seq<Event>)
    ensures (a + b) + c == a + (b + c)
  {
  }

  /** The first k blocks of events, one after the other. */
  function Concat(blocks: seq<seq<Event>>, k: nat): seq<Event>
    requires k <= |blocks|
  {
    if k == 0 then [] else Concat(blocks, k - 1) + blocks[k - 1]
  }

  /** The mutable list of updates that importers append to. */
  class Update {
    var events: seq<Event>

    constructor ()
      ensures events == []
    {
      events := [];
    }

    method Add(e: Event)
      modifies this
      ensures events == old(events) + [e]
    {
      events := events + [e];
    }
  }

  /** Appends the ordering chain over `nodes`, one edge per consecutive pair. */
  method AddChain(u: Update, nodes: seq<string>, layer: string, c: ComponentType, name: string)
    modifies u
    ensures u.events == old(u.events) + Chain(nodes, layer, c, name)
  {
    if |nodes| == 0 {
      return;
    }
    var i := 1;
    while i < |nodes|
      invariant 1 <= i <= |nodes|
      invariant u.events == old(u.events) + Chain(nodes[..i], layer, c, name)
    {
      assert nodes[..i + 1][..i] == nodes[..i];
      u.Add(Edge(nodes[i - 1], nodes[i], layer, c, name));
      i := i + 1;
    }
    assert nodes[..i] == nodes;
  }
}
