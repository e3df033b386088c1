/**
 * The emitter helpers of the Python importers: they build node ids and append token,
 * span, structure, ordering, coverage, dominance and pointing events to an update list.
 * A value of `None` for an optional name is modelled as the empty string wherever the
 * helpers treat the two alike.
 */
module GraphUpdateUtil {
  import opened Wrappers
  import opened Strings
  import opened Events

  const TokWhitespaceAfterKey := "tok-whitespace-after"
  const CorpusNodeType := "corpus"

  function TokenId(docPath: string, id: nat): string
  {
    docPath + "#t" + NatToString(id)
  }

  function SpanId(docPath: string, id: nat): string
  {
    docPath + "#sSpan" + NatToString(id)
  }

  function StructId(docPath: string, id: nat): string
  {
    docPath + "#sStruct" + NatToString(id)
  }

  /** Within one document, distinct numbers give distinct token, span and structure ids. */
  lemma IdsInjective(docPath: string, i: nat, j: nat)
    ensures TokenId(docPath, i) == TokenId(docPath, j) ==> i == j
    ensures SpanId(docPath, i) == SpanId(docPath, j) ==> i == j
    ensures StructId(docPath, i) == StructId(docPath, j) ==> i == j
  {
    var n := |docPath|;
    if TokenId(docPath, i) == TokenId(docPath, j) {
      assert TokenId(docPath, i)[n + 2..] == NatToString(i);
      assert TokenId(docPath, j)[n + 2..] == NatToString(j);
      NatToStringInjective(i, j);
    }
    if SpanId(docPath, i) == SpanId(docPath, j) {
      assert SpanId(docPath, i)[n + 6..] == NatToString(i);
      assert SpanId(docPath, j)[n + 6..] == NatToString(j);
      NatToStringInjective(i, j);
    }
    if StructId(docPath, i) == StructId(docPath, j) {
      assert StructId(docPath, i)[n + 8..] == NatToString(i);
      assert StructId(docPath, j)[n + 8..] == NatToString(j);
      NatToStringInjective(i, j);
    }
  }

  /** Token, span and structure ids of one document never coincide. */
  lemma IdKindsDistinct(docPath: string, i: nat, j: nat)
    ensures TokenId(docPath, i) != SpanId(docPath, j)
    ensures TokenId(docPath, i) != StructId(docPath, j)
    ensures SpanId(docPath, i) != StructId(docPath, j)
  {
    var n := |docPath|;
    assert TokenId(docPath, i)[n + 1] == 't' && SpanId(docPath, j)[n + 1] == 's';
    assert StructId(docPath, j)[n + 1] == 's';
    assert SpanId(docPath, i)[n + 2] == 'S';
    assert StructId(docPath, j)[n + 2] == 'S';
    assert SpanId(docPath, i)[n + 3] == 'p' && StructId(docPath, j)[n + 3] == 't';
  }

  /** The time label is written only when both times are given and start < end. */
  predicate HasTime(startTime: Option<int>, endTime: Option<int>)
  {
    startTime.Some? && endTime.Some? && startTime.value < endTime.value
  }

  predicate BadTime(startTime: Option<int>, endTime: Option<int>)
  {
    startTime.Some? && endTime.Some? && startTime.value >= endTime.value
  }

  function TimeValue(startTime: int, endTime: int): string
  {
    IntToString(startTime) + "-" + IntToString(endTime)
  }

  /** The events `map_token` appends, in order. */
  function TokenEvents(docPath: string, id: nat, textName: string, value: string,
                       startTime: Option<int>, endTime: Option<int>): seq<Event>
  {
    var tok := TokenId(docPath, id);
    TokenBaseEvents(tok, docPath, textName, value) + TimeEvents(tok, startTime, endTime)
  }

  function TokenBaseEvents(tok: string, docPath: string, textName: string, value: string): seq<Event>
  {
    [Node(tok), AddNodeLabel(tok, AnnisNs, TokKey, value)]
    + (if !IsBlank(textName) then [AddNodeLabel(tok, "", textName, value)] else [])
    + [AddNodeLabel(tok, AnnisNs, TokWhitespaceAfterKey, " "), Edge(tok, docPath, AnnisNs, PartOf, "")]
  }

  function TimeEvents(tok: string, startTime: Option<int>, endTime: Option<int>): seq<Event>
  {
    if HasTime(startTime, endTime)
    then [AddNodeLabel(tok, AnnisNs, TimeKey, TimeValue(startTime.value, endTime.value))]
    else []
  }

  /**
   * A token always gets a node, its `annis::tok` value, its whitespace and its part-of
   * edge; the tokenization label only for a non-blank name; the time label, last, only
   * for a well-ordered pair of times.
   */
  lemma TokenEventsContents(docPath: string, id: nat, textName: string, value: string,
                            startTime: Option<int>, endTime: Option<int>)
    ensures var evs := TokenEvents(docPath, id, textName, value, startTime, endTime);
      var tok := TokenId(docPath, id);
      var k := if IsBlank(textName) then 0 else 1;
      && |evs| == 4 + k + (if HasTime(startTime, endTime) then 1 else 0)
      && evs[0] == Node(tok)
      && evs[1] == AddNodeLabel(tok, AnnisNs, TokKey, value)
      && (k == 1 ==> evs[2] == AddNodeLabel(tok, "", textName, value))
      && evs[2 + k] == AddNodeLabel(tok, AnnisNs, TokWhitespaceAfterKey, " ")
      && evs[3 + k] == Edge(tok, docPath, AnnisNs, PartOf, "")
      && (HasTime(startTime, endTime) ==>
            evs[4 + k] == AddNodeLabel(tok, AnnisNs, TimeKey, TimeValue(startTime.value, endTime.value)))
  {
  }

  method AddTokenBase(u: Update, tok: string, docPath: string, textName: string, value: string)
    modifies u
    ensures u.events == old(u.events) + TokenBaseEvents(tok, docPath, textName, value)
  {
    u.Add(Node(tok));
    u.Add(AddNodeLabel(tok, AnnisNs, TokKey, value));
    TrimEmptyIffBlank(textName);
    if Trim(textName) != "" {
      u.Add(AddNodeLabel(tok, "", textName, value));
    }
    u.Add(AddNodeLabel(tok, AnnisNs, TokWhitespaceAfterKey, " "));
    u.Add(Edge(tok, docPath, AnnisNs, PartOf, ""));
  }

  function TimeErrorMsg(id: nat, value: string, textName: string): string
  {
    "Token " + NatToString(id) + " with value " + value + " in tokenization " + textName + " has incorrect time values."
  }

  /** `map_token`: appends the token events; raises (after them) when start >= end. */
  method MapToken(u: Update, docPath: string, id: nat, textName: string, value: string,
                  startTime: Option<int>, endTime: Option<int>) returns (r: Result<string>)
    modifies u
    ensures u.events == old(u.events) + TokenEvents(docPath, id, textName, value, startTime, endTime)
    ensures r.Err? <==> BadTime(startTime, endTime)
    ensures r.Err? ==> r.msg == TimeErrorMsg(id, value, textName)
    ensures r.Ok? ==> r.value == TokenId(docPath, id)
  {
    var tok := TokenId(docPath, id);
    AddTokenBase(u, tok, docPath, textName, value);
    if startTime.Some? && endTime.Some? {
      if startTime.value >= endTime.value {
        return Err(TimeErrorMsg(id, value, textName));
      }
      u.Add(AddNodeLabel(tok, AnnisNs, TimeKey, TimeValue(startTime.value, endTime.value)));
    }
    return Ok(tok);
  }

  /** The edges from every source to every target, source-major. */
  function EdgeEvents(sources: seq<string>, targets: seq<string>, c: ComponentType, name: string): seq<Event>
  {
    if |sources| == 0 then []
    else EdgeEvents(sources[..|sources| - 1], targets, c, name) + EdgeRow(sources[|sources| - 1], targets, c, name)
  }

  function EdgeRow(source: string, targets: seq<string>, c: ComponentType, name: string): seq<Event>
  {
    if |targets| == 0 then []
    else EdgeRow(source, targets[..|targets| - 1], c, name) + [Edge(source, targets[|targets| - 1], AnnisNs, c, name)]
  }

  lemma {:induction false} EdgeRowAt(source: string, targets: seq<string>, c: ComponentType, name: string)
    ensures |EdgeRow(source, targets, c, name)| == |targets|
    ensures forall j :: 0 <= j < |targets| ==> EdgeRow(source, targets, c, name)[j] == Edge(source, targets[j], AnnisNs, c, name)
  {
    if |targets| > 0 {
      EdgeRowAt(source, targets[..|targets| - 1], c, name);
    }
  }

  lemma MulStep(n: nat, m: nat)
    requires n > 0
    ensures (n - 1) * m + m == n * m
  {
  }

  lemma {:induction false} EdgeEventsCount(sources: seq<string>, targets: seq<string>, c: ComponentType, name: string)
    ensures |EdgeEvents(sources, targets, c, name)| == |sources| * |targets|
  {
    if |sources| > 0 {
      EdgeEventsCount(sources[..|sources| - 1], targets, c, name);
      EdgeRowAt(sources[|sources| - 1], targets, c, name);
      MulStep(|sources|, |targets|);
    }
  }

  lemma {:induction false} EdgeEventsComplete(sources: seq<string>, targets: seq<string>, c: ComponentType, name: string)
    ensures forall i, j :: 0 <= i < |sources| && 0 <= j < |targets| ==>
      Edge(sources[i], targets[j], AnnisNs, c, name) in EdgeEvents(sources, targets, c, name)
  {
    if |sources| > 0 {
      var n := |sources|;
      var init := sources[..n - 1];
      var row := EdgeRow(sources[n - 1], targets, c, name);
      EdgeEventsComplete(init, targets, c, name);
      EdgeRowAt(sources[n - 1], targets, c, name);
      assert EdgeEvents(sources, targets, c, name) == EdgeEvents(init, targets, c, name) + row;
      forall i, j | 0 <= i < n && 0 <= j < |targets|
        ensures Edge(sources[i], targets[j], AnnisNs, c, name) in EdgeEvents(sources, targets, c, name)
      {
        if i < n - 1 {
          assert init[i] == sources[i];
        } else {
          assert row[j] == Edge(sources[i], targets[j], AnnisNs, c, name);
        }
      }
    }
  }

  lemma {:induction false} EdgeEventsSound(sources: seq<string>, targets: seq<string>, c: ComponentType, name: string)
    ensures forall e :: e in EdgeEvents(sources, targets, c, name) ==>
      exists i, j :: 0 <= i < |sources| && 0 <= j < |targets| && e == Edge(sources[i], targets[j], AnnisNs, c, name)
  {
    EdgeEventsShape(sources, targets, c, name);
    forall e | e in EdgeEvents(sources, targets, c, name)
      ensures exists i, j :: 0 <= i < |sources| && 0 <= j < |targets| && e == Edge(sources[i], targets[j], AnnisNs, c, name)
    {
      var i :| 0 <= i < |sources| && sources[i] == e.sourceNode;
      var j :| 0 <= j < |targets| && targets[j] == e.targetNode;
      assert e == Edge(sources[i], targets[j], AnnisNs, c, name);
    }
  }

  /** Every emitted edge runs from one of the sources to one of the targets. */
  lemma {:induction false} EdgeEventsShape(sources: seq<string>, targets: seq<string>, c: ComponentType, name: string)
    ensures forall e :: e in EdgeEvents(sources, targets, c, name) ==>
      e.AddEdge? && e == Edge(e.sourceNode, e.targetNode, AnnisNs, c, name) && e.sourceNode in sources && e.targetNode in targets
  {
    if |sources| > 0 {
      var n := |sources|;
      var init := sources[..n - 1];
      EdgeEventsShape(init, targets, c, name);
      EdgeRowShape(sources[n - 1], targets, c, name);
      assert EdgeEvents(sources, targets, c, name) == EdgeEvents(init, targets, c, name) + EdgeRow(sources[n - 1], targets, c, name);
      assert forall x :: x in init ==> x in sources;
    }
  }

  lemma {:induction false} EdgeRowShape(source: string, targets: seq<string>, c: ComponentType, name: string)
    ensures forall e :: e in EdgeRow(source, targets, c, name) ==>
      e.AddEdge? && e == Edge(source, e.targetNode, AnnisNs, c, name) && e.targetNode in targets
  {
    if |targets| > 0 {
      var n := |targets|;
      var init := targets[..n - 1];
      EdgeRowShape(source, init, c, name);
      assert EdgeRow(source, targets, c, name) == EdgeRow(source, init, c, name) + [Edge(source, targets[n - 1], AnnisNs, c, name)];
      assert forall x :: x in init ==> x in targets;
    }
  }

  /**
   * One edge per source-target pair: there are |sources| * |targets| edges, every pair
   * has its edge, and every edge belongs to a pair.
   */
  lemma EdgeEventsPairs(sources: seq<string>, targets: seq<string>, c: ComponentType, name: string)
    ensures |EdgeEvents(sources, targets, c, name)| == |sources| * |targets|
    ensures forall i, j :: 0 <= i < |sources| && 0 <= j < |targets| ==>
      Edge(sources[i], targets[j], AnnisNs, c, name) in EdgeEvents(sources, targets, c, name)
    ensures forall e :: e in EdgeEvents(sources, targets, c, name) ==>
      exists i, j :: 0 <= i < |sources| && 0 <= j < |targets| && e == Edge(sources[i], targets[j], AnnisNs, c, name)
  {
    EdgeEventsCount(sources, targets, c, name);
    EdgeEventsComplete(sources, targets, c, name);
    EdgeEventsSound(sources, targets, c, name);
  }

  /** `edges`: the nested loop over sources and targets. */
  method AddEdges(u: Update, sources: seq<string>, targets: seq<string>, c: ComponentType, name: string)
    modifies u
    ensures u.events == old(u.events) + EdgeEvents(sources, targets, c, name)
  {
    var i := 0;
    while i < |sources|
      invariant 0 <= i <= |sources|
      invariant u.events == old(u.events) + EdgeEvents(sources[..i], targets, c, name)
    {
      assert sources[..i + 1][..i] == sources[..i];
      ghost var before := u.events;
      AddEdgeRow(u, sources[i], targets, c, name);
      AppendAssoc(old(u.events), EdgeEvents(sources[..i], targets, c, name), EdgeRow(sources[i], targets, c, name));
      i := i + 1;
    }
    assert sources[..i] == sources;
  }

  /** The inner loop of `edges`: one edge from the source to each target in turn. */
  method AddEdgeRow(u: Update, source: string, targets: seq<string>, c: ComponentType, name: string)
    modifies u
    ensures u.events == old(u.events) + EdgeRow(source, targets, c, name)
  {
    var j := 0;
    while j < |targets|
      invariant 0 <= j <= |targets|
      invariant u.events == old(u.events) + EdgeRow(source, targets[..j], c, name)
    {
      assert targets[..j + 1][..j] == targets[..j];
      u.Add(Edge(source, targets[j], AnnisNs, c, name));
      j := j + 1;
    }
    assert targets[..j] == targets;
  }

  /** The events of `map_annotation` (coverage) or `map_hierarchical_annotation` (dominance). */
  function LabelledNodeEvents(node: string, ns: string, name: string, value: string,
                              targets: seq<string>, c: ComponentType, edgeName: string): seq<Event>
  {
    [Node(node)]
    + (if name != "" then [AddNodeLabel(node, ns, name, value)] else [])
    + EdgeRow(node, targets, c, edgeName)
  }

  /** A node, a label only for a non-empty name, then one edge to each target in order. */
  lemma LabelledNodeEventsContents(node: string, ns: string, name: string, value: string,
                                   targets: seq<string>, c: ComponentType, edgeName: string)
    ensures var evs := LabelledNodeEvents(node, ns, name, value, targets, c, edgeName);
      var k := if name != "" then 2 else 1;
      && |evs| == k + |targets|
      && evs[0] == Node(node)
      && (name != "" ==> evs[1] == AddNodeLabel(node, ns, name, value))
      && (forall j :: 0 <= j < |targets| ==> evs[k + j] == Edge(node, targets[j], AnnisNs, c, edgeName))
  {
    EdgeRowAt(node, targets, c, edgeName);
  }

  /** A row of edges from `source` reaches exactly the targets. */
  lemma {:induction false} EdgeRowTargets(source: string, targets: seq<string>, c: ComponentType, name: string, t: string)
    ensures Edge(source, t, AnnisNs, c, name) in EdgeRow(source, targets, c, name) <==> t in targets
  {
    if |targets| > 0 {
      EdgeRowTargets(source, targets[..|targets| - 1], c, name, t);
      assert targets == targets[..|targets| - 1] + [targets[|targets| - 1]];
    }
  }

  /** The events of a labelled node hold an edge to a node of that component exactly for the targets. */
  lemma LabelledNodeTargets(node: string, ns: string, name: string, value: string,
                            targets: seq<string>, c: ComponentType, edgeName: string, t: string)
    ensures Edge(node, t, AnnisNs, c, edgeName) in LabelledNodeEvents(node, ns, name, value, targets, c, edgeName)
            <==> t in targets
  {
    EdgeRowTargets(node, targets, c, edgeName, t);
  }

  lemma SingleEdge(source: string, target: string, c: ComponentType, name: string)
    ensures EdgeEvents([source], [target], c, name) == [Edge(source, target, AnnisNs, c, name)]
  {
    assert [source][..0] == [];
    assert [target][..0] == [];
    assert EdgeRow(source, [target], c, name) == EdgeRow(source, [], c, name) + [Edge(source, target, AnnisNs, c, name)];
    assert EdgeEvents([source], [target], c, name) == EdgeEvents([], [target], c, name) + EdgeRow(source, [target], c, name);
  }

  method AddLabelledNode(u: Update, node: string, ns: string, name: string, value: string,
                         targets: seq<string>, c: ComponentType, edgeName: string)
    modifies u
    ensures u.events == old(u.events) + LabelledNodeEvents(node, ns, name, value, targets, c, edgeName)
  {
    u.Add(Node(node));
    if name != "" {
      u.Add(AddNodeLabel(node, ns, name, value));
    }
    AddEdgePerTarget(u, node, targets, c, edgeName);
  }

  /** The loop over the targets: one edge from the node to each target in turn. */
  method AddEdgePerTarget(u: Update, node: string, targets: seq<string>, c: ComponentType, edgeName: string)
    modifies u
    ensures u.events == old(u.events) + EdgeRow(node, targets, c, edgeName)
  {
    var j := 0;
    while j < |targets|
      invariant 0 <= j <= |targets|
      invariant u.events == old(u.events) + EdgeRow(node, targets[..j], c, edgeName)
    {
      assert targets[..j + 1][..j] == targets[..j];
      SingleEdge(node, targets[j], c, edgeName);
      AddEdges(u, [node], [targets[j]], c, edgeName);
      j := j + 1;
    }
    assert targets[..j] == targets;
  }

  /** `map_annotation`: a span over the targets. */
  method MapAnnotation(u: Update, docPath: string, id: nat, ns: string, name: string, value: string,
                       targets: seq<string>) returns (spanId: string)
    modifies u
    ensures spanId == SpanId(docPath, id)
    ensures u.events == old(u.events) + LabelledNodeEvents(spanId, ns, name, value, targets, Coverage, "")
  {
    spanId := SpanId(docPath, id);
    AddLabelledNode(u, spanId, ns, name, value, targets, Coverage, "");
  }

  /** `map_hierarchical_annotation`: a structure dominating the targets in `edgeLayer`. */
  method MapHierarchicalAnnotation(u: Update, docPath: string, id: nat, ns: string, name: string, value: string,
                                   targets: seq<string>, edgeLayer: string) returns (structId: string)
    modifies u
    ensures structId == StructId(docPath, id)
    ensures u.events == old(u.events) + LabelledNodeEvents(structId, ns, name, value, targets, Dominance, edgeLayer)
  {
    structId := StructId(docPath, id);
    AddLabelledNode(u, structId, ns, name, value, targets, Dominance, edgeLayer);
  }

  /** The ids of the empty tokens whose time t satisfies start <= t < end, in their order. */
  function CoveredEmptyTokens(emptyToks: seq<(int, string)>, startTime: int, endTime: int): (ids: seq<string>)
    ensures |ids| <= |emptyToks|
  {
    if |emptyToks| == 0 then []
    else
      var last := emptyToks[|emptyToks| - 1];
      CoveredEmptyTokens(emptyToks[..|emptyToks| - 1], startTime, endTime)
      + (if startTime <= last.0 < endTime then [last.1] else [])
  }

  /** An id is covered exactly when one of its empty tokens lies in [start, end). */
  lemma {:induction false} CoveredEmptyTokensIff(emptyToks: seq<(int, string)>, startTime: int, endTime: int, id: string)
    ensures id in CoveredEmptyTokens(emptyToks, startTime, endTime)
        <==> exists k :: 0 <= k < |emptyToks| && emptyToks[k].1 == id && startTime <= emptyToks[k].0 < endTime
  {
    if |emptyToks| > 0 {
      var init := emptyToks[..|emptyToks| - 1];
      CoveredEmptyTokensIff(init, startTime, endTime, id);
      if exists k :: 0 <= k < |init| && init[k].1 == id && startTime <= init[k].0 < endTime {
        var k :| 0 <= k < |init| && init[k].1 == id && startTime <= init[k].0 < endTime;
        assert emptyToks[k] == init[k];
      }
      if exists k :: 0 <= k < |emptyToks| && emptyToks[k].1 == id && startTime <= emptyToks[k].0 < endTime {
        var k :| 0 <= k < |emptyToks| && emptyToks[k].1 == id && startTime <= emptyToks[k].0 < endTime;
        if k < |init| {
          assert init[k] == emptyToks[k];
        }
      }
    }
  }

  /** `map_token_as_span`: a span over the covered empty tokens that also carries `annis::tok`. */
  function TokenAsSpanEvents(docPath: string, id: nat, textName: string, value: string,
                             startTime: int, endTime: int, emptyToks: seq<(int, string)>): seq<Event>
  {
    var span := SpanId(docPath, id);
    LabelledNodeEvents(span, "", textName, value, CoveredEmptyTokens(emptyToks, startTime, endTime), Coverage, "")
    + [AddNodeLabel(span, AnnisNs, TokKey, value)]
  }

  method MapTokenAsSpan(u: Update, docPath: string, id: nat, textName: string, value: string,
                        startTime: int, endTime: int, emptyToks: seq<(int, string)>) returns (r: Result<string>)
    modifies u
    ensures r.Err? <==> startTime >= endTime
    ensures r.Err? ==> u.events == old(u.events)
    ensures r.Ok? ==> r.value == SpanId(docPath, id)
    ensures r.Ok? ==> u.events == old(u.events) + TokenAsSpanEvents(docPath, id, textName, value, startTime, endTime, emptyToks)
  {
    if startTime >= endTime {
      return Err(TimeErrorMsg(id, value, textName));
    }
    var ets: seq<string> := [];
    var k := 0;
    while k < |emptyToks|
      invariant 0 <= k <= |emptyToks|
      invariant ets == CoveredEmptyTokens(emptyToks[..k], startTime, endTime)
    {
      assert emptyToks[..k + 1][..k] == emptyToks[..k];
      if startTime <= emptyToks[k].0 < endTime {
        ets := ets + [emptyToks[k].1];
      }
      k := k + 1;
    }
    assert emptyToks[..k] == emptyToks;
    var span := MapAnnotation(u, docPath, id, "", textName, value, ets);
    u.Add(AddNodeLabel(span, AnnisNs, TokKey, value));
    return Ok(span);
  }

  /** `add_order_relations`: an Ordering chain in layer `annis`, named `orderName` or unnamed. */
  method AddOrderRelations(u: Update, nodeIds: seq<string>, orderName: string)
    modifies u
    ensures u.events == old(u.events) + Chain(nodeIds, AnnisNs, Ordering, orderName)
  {
    AddChain(u, nodeIds, AnnisNs, Ordering, orderName);
  }

  function PointingEvents(source: string, target: string, edgeType: string, annoNs: Option<string>,
                          annoName: Option<string>, annoValue: Option<string>, layer: string): seq<Event>
  {
    [Edge(source, target, layer, Pointing, edgeType)]
    + (if annoName.Some? && annoValue.Some?
       then [AddEdgeLabel(source, target, layer, TypeName(Pointing), edgeType,
                          if annoNs.None? then "" else annoNs.value, annoName.value, annoValue.value)]
       else [])
  }

  /** A pointing edge always; its label only when both annotation name and value are given. */
  lemma PointingEventsContents(source: string, target: string, edgeType: string, annoNs: Option<string>,
                               annoName: Option<string>, annoValue: Option<string>, layer: string)
    ensures var evs := PointingEvents(source, target, edgeType, annoNs, annoName, annoValue, layer);
      && evs[0] == AddEdge(source, target, layer, "Pointing", edgeType)
      && (|evs| == 2 <==> annoName.Some? && annoValue.Some?)
      && |evs| <= 2
      && (|evs| == 2 ==> evs[1].AddEdgeLabel? && evs[1].annoName == annoName.value && evs[1].annoValue == annoValue.value
                         && evs[1].annoNs == (if annoNs.Some? then annoNs.value else ""))
  {
  }

  /** `add_pointing_relation`. */
  method AddPointingRelation(u: Update, source: string, target: string, edgeType: string, annoNs: Option<string>,
                             annoName: Option<string>, annoValue: Option<string>, layer: string)
    modifies u
    ensures u.events == old(u.events) + PointingEvents(source, target, edgeType, annoNs, annoName, annoValue, layer)
  {
    u.Add(Edge(source, target, layer, Pointing, edgeType));
    if annoName.Some? && annoValue.Some? {
      u.Add(AddEdgeLabel(source, target, layer, TypeName(Pointing), edgeType,
                         if annoNs.None? then "" else annoNs.value, annoName.value, annoValue.value));
    }
  }

  // ---------------------------------------------------------------- corpus nodes

  /** The text without the trailing run of `c`. */
  function TrimEndChar(s: string, c: char): (r: string)
    ensures |r| <= |s| && r == s[..|r|] && (|r| > 0 ==> r[|r| - 1] != c)
    ensures forall j :: |r| <= j < |s| ==> s[j] == c
  {
    if |s| > 0 && s[|s| - 1] == c then TrimEndChar(s[..|s| - 1], c) else s
  }

  /** `os.path.dirname` of a POSIX path: what stands before the last '/', without its trailing slashes unless it is only slashes. */
  function DirName(path: string): (r: string)
    ensures |r| <= |path| && r == path[..|r|]
    ensures r == "" <==> '/' !in path
    // what the cut drops is a run of separators followed by the last segment
    ensures forall j, l :: |r| <= j < l < |path| && path[j] != '/' ==> path[l] != '/'
    // a parent keeps a trailing separator only when it is all separators, and then nothing after it is one
    ensures r != "" && r[|r| - 1] == '/' ==> (forall j :: 0 <= j < |r| ==> r[j] == '/') && '/' !in path[|r|..]
    // otherwise the cut stops right at a separator
    ensures r != "" && r[|r| - 1] != '/' ==> |r| < |path| && path[|r|] == '/'
  {
    match LastIndexOf(path, '/')
    case None => ""
    case Some(i) =>
      var head := path[..i + 1];
      if forall j :: 0 <= j < |head| ==> head[j] == '/' then head else TrimEndChar(head, '/')
  }

  /** The parent of `a/b` is `a` when `b` is one segment and `a` has no trailing slash. */
  lemma DirNameChild(a: string, b: string)
    requires '/' !in b && |a| > 0 && a[|a| - 1] != '/'
    ensures DirName(a + "/" + b) == a
  {
    var p := a + "/" + b;
    assert p[|a|] == '/';
    assert p[|a| + 1..] == b;
    var head := p[..|a| + 1];
    assert head == a + "/";
    assert head[|a| - 1] != '/';
    assert head[..|a|] == a;
  }

  /**
   * `add_subnode` meant to name the corpus node by its path with the platform's separator
   * turned into '/'; on POSIX that leaves the path as it is.
   */
  function SubnodeEvents(path: string): seq<Event>
  {
    [AddNode(path, CorpusNodeType), Edge(path, DirName(path), AnnisNs, PartOf, "")]
  }

  /** `add_subnode` as written replaces `os.pathsep`, which on POSIX is ':', the separator of path lists. */
  function SubnodeEventsAsWritten(path: string): seq<Event>
  {
    [AddNode(ReplaceAll(path, ":", "/"), CorpusNodeType),
     Edge(ReplaceAll(path, ":", "/"), ReplaceAll(DirName(path), ":", "/"), AnnisNs, PartOf, "")]
  }

  /** A document path with a ':' in it gets a corpus node of another name, so the part-of edges to the path dangle. */
  lemma SubnodeAsWrittenRenames(path: string)
    requires ':' in path
    ensures SubnodeEventsAsWritten(path)[0] != AddNode(path, CorpusNodeType)
    ensures AddNode(path, CorpusNodeType) !in SubnodeEventsAsWritten(path)
    ensures AddNode(path, CorpusNodeType) in SubnodeEvents(path)
  {
    ReplaceCharGone(path, ':', '/');
  }

  /** The document node and its part-of edge to the parent directory's node. */
  method AddSubnode(u: Update, path: string)
    modifies u
    ensures u.events == old(u.events) + SubnodeEvents(path)
  {
    u.Add(AddNode(path, CorpusNodeType));
    u.Add(Edge(path, DirName(path), AnnisNs, PartOf, ""));
  }
}
