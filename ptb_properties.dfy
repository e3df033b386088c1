/**
 * What the walk of the Penn Treebank importer guarantees about the events it appends:
 * the tokens are chained in reading order, every parent edge comes in both dominance
 * components, function labels are never empty, a token after the first has a space
 * before it, and a walk fails exactly on the trees that are not well shaped.
 */
module PtbProperties {
  import opened Wrappers
  import opened Strings
  import opened Events
  import opened GraphUpdateUtil
  import PtbImporter
  import opened Ptb

  // ---------------------------------------------------------------- token order

  predicate IsOrdering(e: Event)
  {
    e.AddEdge? && e.componentType == TypeName(Ordering)
  }

  /** The ordering edges among some events, in the order they were appended. */
  function OrderEdges(evs: seq<Event>): seq<Event>
  {
    if |evs| == 0 then []
    else (if IsOrdering(evs[0]) then [evs[0]] else []) + OrderEdges(evs[1..])
  }

  lemma {:induction false} OrderEdgesAppend(a: seq<Event>, b: seq<Event>)
    ensures OrderEdges(a + b) == OrderEdges(a) + OrderEdges(b)
  {
    if |a| == 0 {
      assert a + b == b;
    } else {
      assert (a + b)[0] == a[0];
      assert (a + b)[1..] == a[1..] + b;
      OrderEdgesAppend(a[1..], b);
    }
  }

  lemma {:induction false} NoOrderEdges(evs: seq<Event>)
    requires forall i :: 0 <= i < |evs| ==> !IsOrdering(evs[i])
    ensures OrderEdges(evs) == []
  {
    if |evs| > 0 {
      NoOrderEdges(evs[1..]);
    }
  }

  /** The ordering edges that link tokens a + 1 through b, each to its predecessor. */
  function Links(docPath: string, a: nat, b: nat): seq<Event>
    requires a <= b
    decreases b - a
  {
    if a == b then []
    else Links(docPath, a, b - 1)
         + (if b >= 2 then [Edge(TokenId(docPath, b - 1), TokenId(docPath, b), AnnisNs, Ordering, "")] else [])
  }

  lemma {:induction false} LinksAppend(docPath: string, a: nat, b: nat, c: nat)
    requires a <= b <= c
    ensures Links(docPath, a, b) + Links(docPath, b, c) == Links(docPath, a, c)
    decreases c - b
  {
    if b < c {
      LinksAppend(docPath, a, b, c - 1);
      AppendAssoc(Links(docPath, a, b), Links(docPath, b, c - 1),
                  if c >= 2 then [Edge(TokenId(docPath, c - 1), TokenId(docPath, c), AnnisNs, Ordering, "")] else []);
    }
  }

  /** The links of the first n tokens are the ordering chain over them. */
  lemma {:induction false} LinksChain(docPath: string, n: nat)
    ensures Links(docPath, 0, n) == Chain(PtbImporter.TokenIds(docPath, n), AnnisNs, Ordering, "")
  {
    if n > 0 {
      LinksChain(docPath, n - 1);
      var ids := PtbImporter.TokenIds(docPath, n);
      assert ids[..|ids| - 1] == PtbImporter.TokenIds(docPath, n - 1);
      if n >= 2 {
        PtbImporter.TokenIdsAt(docPath, n);
      }
    }
  }

  /** The mapper's last token is the one with the current number, and there is none before the first. */
  predicate Consistent(s: Settings, cs: Counters)
  {
    cs.lastTokenId == if cs.numberOfToken == 0 then None else Some(TokenId(s.docPath, cs.numberOfToken))
  }

  /** A walk from `cs` keeps the mapper consistent, only counts up, and links exactly the tokens it made. */
  predicate Advances(s: Settings, cs: Counters, w: Walk)
  {
    Consistent(s, w.counters)
    && cs.numberOfToken <= w.counters.numberOfToken && cs.numberOfSpans <= w.counters.numberOfSpans
    && OrderEdges(w.events) == Links(s.docPath, cs.numberOfToken, w.counters.numberOfToken)
  }

  lemma {:induction false} AnnotateEdgeNoOrder(parent: Option<string>, target: string, edgeLabel: Option<string>)
    ensures OrderEdges(AnnotateEdgeEvents(parent, target, edgeLabel)) == []
  {
    NoOrderEdges(AnnotateEdgeEvents(parent, target, edgeLabel));
  }

  lemma {:induction false} NodeHeadNoOrder(s: Settings, cs: Counters, phraseLabel: string, parent: Option<string>)
    ensures OrderEdges(NodeHeadEvents(s, cs, phraseLabel, parent)) == []
  {
    var node := NodeId(s.docPath, cs.numberOfSpans + 1);
    var labels := SplitAnnotationValue(s.edgeDelimiter, phraseLabel);
    var head := [Node(node), AddNodeLabel(node, SyntaxLayer, CatKey, labels.0), AddNodeLabel(node, AnnisNs, LayerKey, SyntaxLayer),
                 Edge(node, s.docPath, AnnisNs, PartOf, "")];
    NoOrderEdges(head);
    AnnotateEdgeNoOrder(parent, node, labels.1);
    OrderEdgesAppend(head, AnnotateEdgeEvents(parent, node, labels.1));
  }

  /** The only ordering edge of a token comes from the token before it. */
  lemma {:induction false} TokenStepOrder(s: Settings, cs: Counters, value: string, phraseLabel: string, parent: Option<string>)
    requires Consistent(s, cs)
    ensures OrderEdges(TokenStepEvents(s, cs, value, phraseLabel, parent))
         == Links(s.docPath, cs.numberOfToken, cs.numberOfToken + 1)
  {
    var tok := TokenId(s.docPath, cs.numberOfToken + 1);
    var labels := SplitAnnotationValue(s.edgeDelimiter, phraseLabel);
    var a := TokenNodeEvents(tok, s.textNodeName, value);
    var b := AnnotateEdgeEvents(parent, tok, labels.1);
    var c := [AddNodeLabel(tok, DefaultNs, PosKey, labels.0)];
    var d := PrecedingEvents(cs.lastTokenId, tok);
    NoOrderEdges(a);
    AnnotateEdgeNoOrder(parent, tok, labels.1);
    NoOrderEdges(c);
    OrderEdgesAppend(a, b);
    OrderEdgesAppend(a + b, c);
    OrderEdgesAppend(a + b + c, d);
    if cs.lastTokenId.Some? {
      assert d == [AddNodeLabel(tok, AnnisNs, WhitespaceBeforeKey, " ")] + [Edge(cs.lastTokenId.value, tok, AnnisNs, Ordering, "")];
      OrderEdgesAppend([AddNodeLabel(tok, AnnisNs, WhitespaceBeforeKey, " ")], [Edge(cs.lastTokenId.value, tok, AnnisNs, Ordering, "")]);
    }
  }

  lemma {:induction false} TokenAdvances(s: Settings, cs: Counters, p: Pair, phraseLabel: string, parent: Option<string>)
    requires Consistent(s, cs)
    ensures Advances(s, cs, TokenWalk(s, cs, p, phraseLabel, parent))
  {
    if ConsumeValue(p).Ok? {
      TokenStepOrder(s, cs, ConsumeValue(p).value, phraseLabel, parent);
    }
  }

  /** Tokens are numbered on from the mapper's count and each is linked to the one before. */
  lemma {:induction false} PhraseAdvances(s: Settings, children: seq<Pair>, parent: Option<string>, cs: Counters)
    requires Consistent(s, cs)
    ensures Advances(s, cs, PhraseWalk(s, children, parent, cs))
    decreases SizeOf(children), 1, 0, 0
  {
    if |children| > 0 && ConsumeLabel(children[0]).Ok? {
      var phraseLabel := ConsumeLabel(children[0]).value;
      var rest := children[1..];
      if IsTokenPhrase(rest) {
        TokenAdvances(s, cs, rest[0], phraseLabel, parent);
      } else {
        var node := NodeId(s.docPath, cs.numberOfSpans + 1);
        var cs' := cs.(numberOfSpans := cs.numberOfSpans + 1);
        ChildrenAdvances(s, rest, node, cs', |rest|);
        NodeHeadNoOrder(s, cs, phraseLabel, parent);
        OrderEdgesAppend(NodeHeadEvents(s, cs, phraseLabel, parent), ChildrenWalk(s, rest, node, cs', |rest|).events);
      }
    }
  }

  /** Two walks one after the other advance as one. */
  lemma AdvancesAppend(s: Settings, cs: Counters, w: Walk, w': Walk, r: Walk)
    requires Advances(s, cs, w) && Advances(s, w.counters, w')
    requires r.counters == w'.counters && r.events == w.events + w'.events
    ensures Advances(s, cs, r)
  {
    OrderEdgesAppend(w.events, w'.events);
    LinksAppend(s.docPath, cs.numberOfToken, w.counters.numberOfToken, w'.counters.numberOfToken);
  }

  lemma {:induction false} ChildrenAdvances(s: Settings, kids: seq<Pair>, node: string, cs: Counters, k: nat)
    requires k <= |kids| && Consistent(s, cs)
    ensures Advances(s, cs, ChildrenWalk(s, kids, node, cs, k))
    decreases SizeOf(kids), 0, k, 1
  {
    if k == 0 {
      NoChildrenAdvances(s, kids, node, cs);
    } else {
      ChildrenAdvances(s, kids, node, cs, k - 1);
      if ChildrenWalk(s, kids, node, cs, k - 1).result.Ok? {
        ChildAdvances(s, kids, node, cs, k);
      } else {
        ChildrenErrAdvances(s, kids, node, cs, k);
      }
    }
  }

  /** The walk over no children changes nothing. */
  lemma {:induction false} NoChildrenAdvances(s: Settings, kids: seq<Pair>, node: string, cs: Counters)
    requires Consistent(s, cs)
    ensures Advances(s, cs, ChildrenWalk(s, kids, node, cs, 0))
  {
    NoOrderEdges([]);
  }

  /** After a failed child the walk stops, so it advances no further. */
  lemma {:induction false} ChildrenErrAdvances(s: Settings, kids: seq<Pair>, node: string, cs: Counters, k: nat)
    requires 0 < k <= |kids| && ChildrenWalk(s, kids, node, cs, k - 1).result.Err?
    requires Advances(s, cs, ChildrenWalk(s, kids, node, cs, k - 1))
    ensures Advances(s, cs, ChildrenWalk(s, kids, node, cs, k))
  {
    assert ChildrenWalk(s, kids, node, cs, k) == ChildrenWalk(s, kids, node, cs, k - 1);
  }

  /** The `k`-th child's walk carries on where the first `k - 1` children left off. */
  lemma {:induction false} ChildAdvances(s: Settings, kids: seq<Pair>, node: string, cs: Counters, k: nat)
    requires 0 < k <= |kids| && Consistent(s, cs)
    requires ChildrenWalk(s, kids, node, cs, k - 1).result.Ok? && Advances(s, cs, ChildrenWalk(s, kids, node, cs, k - 1))
    ensures Advances(s, cs, ChildrenWalk(s, kids, node, cs, k))
    decreases SizeOf(kids), 0, k, 0
  {
    var w := ChildrenWalk(s, kids, node, cs, k - 1);
    SizeOfAt(kids, k - 1);
    var w' := PhraseWalk(s, Inner(kids[k - 1]), Some(node), w.counters);
    ChildrenWalkNext(s, kids, node, cs, k);
    PhraseAdvances(s, Inner(kids[k - 1]), Some(node), w.counters);
    AdvancesAppend(s, cs, w, w', ChildrenWalk(s, kids, node, cs, k));
  }

  lemma {:induction false} RootsAdvances(s: Settings, roots: seq<Pair>, cs: Counters, k: nat)
    requires k <= |roots| && Consistent(s, cs)
    ensures Advances(s, cs, RootsWalk(s, roots, cs, k))
  {
    if k == 0 {
      NoOrderEdges(RootsWalk(s, roots, cs, 0).events);
    } else {
      RootsAdvances(s, roots, cs, k - 1);
      var w := RootsWalk(s, roots, cs, k - 1);
      if w.result.Ok? && roots[k - 1].Phrase? {
        var w' := PhraseWalk(s, roots[k - 1].children, None, w.counters);
        PhraseAdvances(s, roots[k - 1].children, None, w.counters);
        OrderEdgesAppend(w.events, w'.events);
        LinksAppend(s.docPath, cs.numberOfToken, w.counters.numberOfToken, w'.counters.numberOfToken);
      }
    }
  }

  /**
   * A document mapped by a fresh mapper: the ordering edges are the chain over its
   * tokens `#t1, #t2, ...`, and the mapper's last token is the last of them.
   */
  lemma DocumentOrder(s: Settings, roots: seq<Pair>)
    ensures var w := RootsWalk(s, roots, Counters(None, 0, 0), |roots|);
      OrderEdges(w.events) == Chain(PtbImporter.TokenIds(s.docPath, w.counters.numberOfToken), AnnisNs, Ordering, "")
      && w.counters.lastTokenId == if w.counters.numberOfToken == 0 then None else Some(TokenId(s.docPath, w.counters.numberOfToken))
  {
    var w := RootsWalk(s, roots, Counters(None, 0, 0), |roots|);
    RootsAdvances(s, roots, Counters(None, 0, 0), |roots|);
    LinksChain(s.docPath, w.counters.numberOfToken);
  }

  /** A token after the first, and only such a token, gets a single space before it. */
  lemma TokenWhitespace(s: Settings, cs: Counters, value: string, phraseLabel: string, parent: Option<string>)
    requires Consistent(s, cs)
    ensures AddNodeLabel(TokenId(s.docPath, cs.numberOfToken + 1), AnnisNs, WhitespaceBeforeKey, " ")
              in TokenStepEvents(s, cs, value, phraseLabel, parent)
            <==> cs.numberOfToken > 0
  {
    var tok := TokenId(s.docPath, cs.numberOfToken + 1);
    var labels := SplitAnnotationValue(s.edgeDelimiter, phraseLabel);
    var ws := AddNodeLabel(tok, AnnisNs, WhitespaceBeforeKey, " ");
    assert ws !in TokenNodeEvents(tok, s.textNodeName, value);
    assert ws !in AnnotateEdgeEvents(parent, tok, labels.1);
  }

  // ---------------------------------------------------------------- dominance edges

  /** Every unnamed syntax dominance edge has its twin in the `edge` component, and the other way round. */
  ghost predicate Twinned(evs: seq<Event>)
  {
    forall p, t :: Edge(p, t, SyntaxLayer, Dominance, "") in evs <==> Edge(p, t, SyntaxLayer, Dominance, EdgeComponent) in evs
  }

  /** No function label is empty. */
  predicate FuncValued(evs: seq<Event>)
  {
    forall e :: e in evs && e.AddEdgeLabel? && e.annoName == FuncKey ==> e.annoValue != ""
  }

  ghost predicate EdgeShaped(evs: seq<Event>)
  {
    Twinned(evs) && FuncValued(evs)
  }

  lemma EdgeShapedAppend(a: seq<Event>, b: seq<Event>)
    requires EdgeShaped(a) && EdgeShaped(b)
    ensures EdgeShaped(a + b)
  {
  }

  /** Events with no syntax dominance edge and no function label are trivially shaped. */
  lemma PlainShaped(evs: seq<Event>)
    requires forall e :: e in evs ==> !e.AddEdgeLabel? && !(e.AddEdge? && e.layer == SyntaxLayer)
    ensures EdgeShaped(evs)
  {
  }

  /**
   * `annotate_edge` below a parent adds the edge in both components, and a function
   * label exactly when the edge label is present and not empty; without a parent, nothing.
   */
  lemma AnnotateEdgeContents(parent: Option<string>, target: string, edgeLabel: Option<string>, p: string, t: string, v: string)
    ensures var evs := AnnotateEdgeEvents(parent, target, edgeLabel);
      (Edge(p, t, SyntaxLayer, Dominance, "") in evs <==> parent == Some(p) && t == target)
      && (Edge(p, t, SyntaxLayer, Dominance, EdgeComponent) in evs <==> parent == Some(p) && t == target)
      && (AddEdgeLabel(p, t, SyntaxLayer, TypeName(Dominance), "", SyntaxLayer, FuncKey, v) in evs
          <==> parent == Some(p) && t == target && edgeLabel == Some(v) && v != "")
  {
  }

  lemma AnnotateEdgeShaped(parent: Option<string>, target: string, edgeLabel: Option<string>)
    ensures EdgeShaped(AnnotateEdgeEvents(parent, target, edgeLabel))
  {
    forall p, t
      ensures Edge(p, t, SyntaxLayer, Dominance, "") in AnnotateEdgeEvents(parent, target, edgeLabel)
          <==> Edge(p, t, SyntaxLayer, Dominance, EdgeComponent) in AnnotateEdgeEvents(parent, target, edgeLabel)
    {
      AnnotateEdgeContents(parent, target, edgeLabel, p, t, "");
    }
  }

  lemma {:induction false} TokenStepShaped(s: Settings, cs: Counters, value: string, phraseLabel: string, parent: Option<string>)
    ensures EdgeShaped(TokenStepEvents(s, cs, value, phraseLabel, parent))
  {
    var tok := TokenId(s.docPath, cs.numberOfToken + 1);
    var labels := SplitAnnotationValue(s.edgeDelimiter, phraseLabel);
    var a := TokenNodeEvents(tok, s.textNodeName, value);
    var b := AnnotateEdgeEvents(parent, tok, labels.1);
    var c := [AddNodeLabel(tok, DefaultNs, PosKey, labels.0)];
    var d := PrecedingEvents(cs.lastTokenId, tok);
    PlainShaped(a);
    AnnotateEdgeShaped(parent, tok, labels.1);
    PlainShaped(c);
    PlainShaped(d);
    EdgeShapedAppend(a, b);
    EdgeShapedAppend(a + b, c);
    EdgeShapedAppend(a + b + c, d);
  }

  lemma {:induction false} NodeHeadShaped(s: Settings, cs: Counters, phraseLabel: string, parent: Option<string>)
    ensures EdgeShaped(NodeHeadEvents(s, cs, phraseLabel, parent))
  {
    var node := NodeId(s.docPath, cs.numberOfSpans + 1);
    var labels := SplitAnnotationValue(s.edgeDelimiter, phraseLabel);
    var head := [Node(node), AddNodeLabel(node, SyntaxLayer, CatKey, labels.0), AddNodeLabel(node, AnnisNs, LayerKey, SyntaxLayer),
                 Edge(node, s.docPath, AnnisNs, PartOf, "")];
    PlainShaped(head);
    AnnotateEdgeShaped(parent, node, labels.1);
    EdgeShapedAppend(head, AnnotateEdgeEvents(parent, node, labels.1));
  }

  /** Every dominance edge a walk adds comes in both components, and no function label is empty. */
  lemma {:induction false} PhraseShaped(s: Settings, children: seq<Pair>, parent: Option<string>, cs: Counters)
    ensures EdgeShaped(PhraseWalk(s, children, parent, cs).events)
    decreases SizeOf(children), 1, 0
  {
    if |children| > 0 && ConsumeLabel(children[0]).Ok? {
      var phraseLabel := ConsumeLabel(children[0]).value;
      var rest := children[1..];
      if IsTokenPhrase(rest) {
        if ConsumeValue(rest[0]).Ok? {
          TokenStepShaped(s, cs, ConsumeValue(rest[0]).value, phraseLabel, parent);
        }
      } else {
        var node := NodeId(s.docPath, cs.numberOfSpans + 1);
        var cs' := cs.(numberOfSpans := cs.numberOfSpans + 1);
        ChildrenShaped(s, rest, node, cs', |rest|);
        NodeHeadShaped(s, cs, phraseLabel, parent);
        EdgeShapedAppend(NodeHeadEvents(s, cs, phraseLabel, parent), ChildrenWalk(s, rest, node, cs', |rest|).events);
      }
    }
  }

  lemma {:induction false} ChildrenShaped(s: Settings, kids: seq<Pair>, node: string, cs: Counters, k: nat)
    requires k <= |kids|
    ensures EdgeShaped(ChildrenWalk(s, kids, node, cs, k).events)
    decreases SizeOf(kids), 0, k
  {
    if k > 0 {
      ChildrenShaped(s, kids, node, cs, k - 1);
      var w := ChildrenWalk(s, kids, node, cs, k - 1);
      if w.result.Ok? {
        SizeOfAt(kids, k - 1);
        PhraseShaped(s, Inner(kids[k - 1]), Some(node), w.counters);
        EdgeShapedAppend(w.events, PhraseWalk(s, Inner(kids[k - 1]), Some(node), w.counters).events);
      }
    }
  }

  lemma {:induction false} RootsShaped(s: Settings, roots: seq<Pair>, cs: Counters, k: nat)
    requires k <= |roots|
    ensures EdgeShaped(RootsWalk(s, roots, cs, k).events)
  {
    if k == 0 {
      PlainShaped(RootsWalk(s, roots, cs, 0).events);
    } else {
      RootsShaped(s, roots, cs, k - 1);
      var w := RootsWalk(s, roots, cs, k - 1);
      if w.result.Ok? && roots[k - 1].Phrase? {
        PhraseShaped(s, roots[k - 1].children, None, w.counters);
        EdgeShapedAppend(w.events, PhraseWalk(s, roots[k - 1].children, None, w.counters).events);
      }
    }
  }

  // ---------------------------------------------------------------- the trees that map

  /**
   * A phrase maps without error when it starts with a label and is either a token
   * (one label, or a quoted value with both marks) or a node whose children are all
   * phrases that map.
   */
  predicate WellShaped(children: seq<Pair>)
    decreases SizeOf(children), 1
  {
    |children| > 0 && children[0].Label? &&
    var rest := children[1..];
    if IsTokenPhrase(rest) then rest[0].Label? || |rest[0].raw| >= 2
    else KidsShaped(rest, |rest|)
  }

  /** The first k children are well-shaped phrases. */
  predicate KidsShaped(kids: seq<Pair>, k: nat)
    requires k <= |kids|
    decreases SizeOf(kids), 0
  {
    forall i :: 0 <= i < k ==> kids[i].Phrase? && (SizeOfAt(kids, i); WellShaped(kids[i].children))
  }

  lemma KidsShapedNext(kids: seq<Pair>, k: nat)
    requires 0 < k <= |kids|
    ensures KidsShaped(kids, k) <==> KidsShaped(kids, k - 1) && kids[k - 1].Phrase? && WellShaped(kids[k - 1].children)
  {
  }

  lemma {:induction false} PhraseOkIff(s: Settings, children: seq<Pair>, parent: Option<string>, cs: Counters)
    ensures PhraseWalk(s, children, parent, cs).result.Ok? <==> WellShaped(children)
    decreases SizeOf(children), 1, 0
  {
    if |children| > 0 && ConsumeLabel(children[0]).Ok? {
      var rest := children[1..];
      if !IsTokenPhrase(rest) {
        var node := NodeId(s.docPath, cs.numberOfSpans + 1);
        ChildrenOkIff(s, rest, node, cs.(numberOfSpans := cs.numberOfSpans + 1), |rest|);
      }
    }
  }

  lemma {:induction false} ChildrenOkIff(s: Settings, kids: seq<Pair>, node: string, cs: Counters, k: nat)
    requires k <= |kids|
    ensures ChildrenWalk(s, kids, node, cs, k).result.Ok? <==> KidsShaped(kids, k)
    decreases SizeOf(kids), 0, k
  {
    if k > 0 {
      ChildrenOkIff(s, kids, node, cs, k - 1);
      KidsShapedNext(kids, k);
      var w := ChildrenWalk(s, kids, node, cs, k - 1);
      if w.result.Ok? {
        SizeOfAt(kids, k - 1);
        PhraseOkIff(s, Inner(kids[k - 1]), Some(node), w.counters);
        if !kids[k - 1].Phrase? {
          assert Inner(kids[k - 1]) == [];
        }
      }
    }
  }

  /** `map` fails exactly when one of the root phrases is not well shaped; other root pairs do not matter. */
  lemma {:induction false} RootsOkIff(s: Settings, roots: seq<Pair>, cs: Counters, k: nat)
    requires k <= |roots|
    ensures RootsWalk(s, roots, cs, k).result.Ok?
        <==> forall i :: 0 <= i < k && roots[i].Phrase? ==> WellShaped(roots[i].children)
  {
    if k > 0 {
      RootsOkIff(s, roots, cs, k - 1);
      var w := RootsWalk(s, roots, cs, k - 1);
      if w.result.Ok? && roots[k - 1].Phrase? {
        PhraseOkIff(s, roots[k - 1].children, None, w.counters);
      }
    }
  }

  /** A phrase that maps yields the next token id when it is a token, the next node id otherwise. */
  lemma PhraseResult(s: Settings, children: seq<Pair>, parent: Option<string>, cs: Counters)
    requires PhraseWalk(s, children, parent, cs).result.Ok?
    ensures |children| > 0
    ensures PhraseWalk(s, children, parent, cs).result.value
         == if IsTokenPhrase(children[1..]) then TokenId(s.docPath, cs.numberOfToken + 1) else NodeId(s.docPath, cs.numberOfSpans + 1)
  {
  }
}
