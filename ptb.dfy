/**
 * The Rust importer of Penn Treebank bracketed text. A document, already parsed into a
 * tree of pairs, is walked recursively: a phrase whose only child after its label is a
 * value becomes a token, any other phrase a syntax node whose children are walked in
 * turn. The mapper keeps the last token and the numbers of tokens and nodes so far.
 */
module Ptb {
  import opened Wrappers
  import opened Strings
  import opened Events
  import opened GraphUpdateUtil
  import PtbImporter

  /** A parsed pair: a label, a quoted value, a phrase with its inner pairs, or a pair of another rule. */
  datatype Pair = Label(text: string) | QuotedValue(raw: string) | Phrase(children: seq<Pair>) | Other(rule: string)

  /** `pair.into_inner()`: a phrase's pairs; the terminals have none. */
  function Inner(p: Pair): seq<Pair>
  {
    if p.Phrase? then p.children else []
  }

  function Size(p: Pair): nat
  {
    if p.Phrase? then 1 + SizeOf(p.children) else 1
  }

  function SizeOf(ps: seq<Pair>): nat
  {
    if |ps| == 0 then 0 else Size(ps[0]) + SizeOf(ps[1..])
  }

  lemma {:induction false} SizeOfAt(ps: seq<Pair>, i: nat)
    requires i < |ps|
    ensures SizeOf(Inner(ps[i])) < SizeOf(ps)
  {
    if i > 0 {
      SizeOfAt(ps[1..], i - 1);
      assert ps[1..][i - 1] == ps[i];
    }
  }

  const SyntaxLayer := "syntax"
  const EdgeComponent := "edge"
  const FuncKey := "func"
  const CatKey := "cat"
  const PosKey := "pos"
  const DefaultLayer := "default_layer"
  const DatasourceType := "datasource"
  const WhitespaceBeforeKey := "tok-whitespace-before"
  const EmptyPhrase := "Empty phrase without label or children"
  const NotALabel := "Expected label"
  const NotAValue := "Expected (quoted) value"
  const ShortQuote := "quoted value without both quotation marks"

  /** The id of the k-th syntax node of a document. */
  function NodeId(docPath: string, k: nat): string
  {
    docPath + "#n" + NatToString(k)
  }

  /** The settings of a mapper, fixed for one document. */
  datatype Settings = Settings(docPath: string, textNodeName: string, edgeDelimiter: Option<string>)

  /** The mutable part of a mapper. */
  datatype Counters = Counters(lastTokenId: Option<string>, numberOfToken: nat, numberOfSpans: nat)

  /** What a walk returns, where the mapper ends, and the events it appends, in order. */
  datatype Walk = Walk(result: Result<string>, counters: Counters, events: seq<Event>)

  // ---------------------------------------------------------------- the pure helpers

  /**
   * `split_annotation_value`: with a delimiter, the label splits at its first
   * occurrence into node label and edge label; otherwise the whole is the node label.
   * `split_once` with an empty delimiter splits before the first character.
   */
  function SplitAnnotationValue(delimiter: Option<string>, phraseLabel: string): (r: (string, Option<string>))
    ensures delimiter.None? ==> r == (phraseLabel, None)
    ensures r.1.None? ==> r.0 == phraseLabel
    ensures r.1.Some? ==> delimiter.Some? && r.0 + delimiter.value + r.1.value == phraseLabel
    ensures r.1.Some? ==> forall j: nat :: j < |r.0| ==> !OccursAt(phraseLabel, delimiter.value, j)
    ensures delimiter.Some? && |delimiter.value| > 0 && r.1.None? ==>
      forall j: nat :: !OccursAt(phraseLabel, delimiter.value, j)
  {
    match delimiter
    case None => (phraseLabel, None)
    case Some(sep) =>
      if sep == "" then
        assert "" + sep + phraseLabel == phraseLabel;
        ("", Some(phraseLabel))
      else
        match SplitOnce(phraseLabel, sep)
        case Some((n, e)) => (n, Some(e))
        case None => (phraseLabel, None)
  }

  /**
   * `consume_value`: a label with its bracket escapes replaced, a quoted value without
   * its quotation marks; any other pair, and a quoted value too short to have both
   * marks (where the slice would panic), is an error.
   */
  function ConsumeValue(p: Pair): (r: Result<string>)
    ensures r.Ok? <==> p.Label? || (p.QuotedValue? && |p.raw| >= 2)
    ensures p.Label? ==> r == Ok(PtbImporter.CleanText(p.text))
    ensures p.QuotedValue? && |p.raw| >= 2 ==> [p.raw[0]] + r.value + [p.raw[|p.raw| - 1]] == p.raw
  {
    match p
    case Label(text) => Ok(PtbImporter.CleanText(text))
    case QuotedValue(raw) =>
      if |raw| < 2 then Err(ShortQuote)
      else
        assert [raw[0]] + raw[1..|raw| - 1] + [raw[|raw| - 1]] == raw;
        Ok(raw[1..|raw| - 1])
    case _ => Err(NotAValue)
  }

  /** A quoted value is what stands between its quotation marks. */
  lemma ConsumeQuoted(v: string)
    ensures ConsumeValue(QuotedValue("\"" + v + "\"")) == Ok(v)
  {
    var raw := "\"" + v + "\"";
    assert raw[1..|raw| - 1] == v;
  }

  /** `consume_label`: the text of a label, any other pair is an error. */
  function ConsumeLabel(p: Pair): (r: Result<string>)
    ensures r.Ok? <==> p.Label?
    ensures p.Label? ==> r.value == p.text
  {
    if p.Label? then Ok(p.text) else Err(NotALabel)
  }

  /**
   * `annotate_edge`: below a parent, an unnamed and an `edge` dominance edge in the
   * syntax layer, each with the function label when there is a non-empty one.
   */
  function AnnotateEdgeEvents(parent: Option<string>, target: string, edgeLabel: Option<string>): seq<Event>
  {
    match parent
    case None => []
    case Some(p) =>
      [Edge(p, target, SyntaxLayer, Dominance, ""), Edge(p, target, SyntaxLayer, Dominance, EdgeComponent)]
      + (if edgeLabel.Some? && edgeLabel.value != "" then
           [AddEdgeLabel(p, target, SyntaxLayer, TypeName(Dominance), "", SyntaxLayer, FuncKey, edgeLabel.value),
            AddEdgeLabel(p, target, SyntaxLayer, TypeName(Dominance), EdgeComponent, SyntaxLayer, FuncKey, edgeLabel.value)]
         else [])
  }

  // ---------------------------------------------------------------- the walk

  /** The token node itself: its value, its layer and its part-of edge to the text node. */
  function TokenNodeEvents(tok: string, textNodeName: string, value: string): seq<Event>
  {
    [Node(tok), AddNodeLabel(tok, AnnisNs, TokKey, value), AddNodeLabel(tok, AnnisNs, LayerKey, DefaultLayer),
     Edge(tok, textNodeName, AnnisNs, PartOf, "")]
  }

  /** A token after the first gets a single space before it and an ordering edge from its predecessor. */
  function PrecedingEvents(last: Option<string>, tok: string): seq<Event>
  {
    match last
    case Some(l) => [AddNodeLabel(tok, AnnisNs, WhitespaceBeforeKey, " "), Edge(l, tok, AnnisNs, Ordering, "")]
    case None => []
  }

  /** The events of `consume_token` after its value is read. */
  function TokenStepEvents(s: Settings, cs: Counters, value: string, phraseLabel: string, parent: Option<string>): seq<Event>
  {
    var tok := TokenId(s.docPath, cs.numberOfToken + 1);
    var labels := SplitAnnotationValue(s.edgeDelimiter, phraseLabel);
    TokenNodeEvents(tok, s.textNodeName, value)
    + AnnotateEdgeEvents(parent, tok, labels.1)
    + [AddNodeLabel(tok, DefaultNs, PosKey, labels.0)]
    + PrecedingEvents(cs.lastTokenId, tok)
  }

  /** `consume_token`: the next token, which becomes the last one. */
  function TokenWalk(s: Settings, cs: Counters, p: Pair, phraseLabel: string, parent: Option<string>): Walk
  {
    match ConsumeValue(p)
    case Err(e) => Walk(Err(e), cs, [])
    case Ok(value) =>
      var tok := TokenId(s.docPath, cs.numberOfToken + 1);
      Walk(Ok(tok), cs.(lastTokenId := Some(tok), numberOfToken := cs.numberOfToken + 1),
           TokenStepEvents(s, cs, value, phraseLabel, parent))
  }

  /** The events of a syntax node before its children: node, category, layer, part-of and parent edges. */
  function NodeHeadEvents(s: Settings, cs: Counters, phraseLabel: string, parent: Option<string>): seq<Event>
  {
    var node := NodeId(s.docPath, cs.numberOfSpans + 1);
    var labels := SplitAnnotationValue(s.edgeDelimiter, phraseLabel);
    [Node(node), AddNodeLabel(node, SyntaxLayer, CatKey, labels.0), AddNodeLabel(node, AnnisNs, LayerKey, SyntaxLayer),
     Edge(node, s.docPath, AnnisNs, PartOf, "")]
    + AnnotateEdgeEvents(parent, node, labels.1)
  }

  /** Whether the pairs after a phrase's label make it a token: exactly one value or label. */
  predicate IsTokenPhrase(rest: seq<Pair>)
  {
    |rest| == 1 && (rest[0].QuotedValue? || rest[0].Label?)
  }

  /** `consume_phrase` on the inner pairs of a phrase below `parent`. */
  function PhraseWalk(s: Settings, children: seq<Pair>, parent: Option<string>, cs: Counters): Walk
    decreases SizeOf(children), 1, 0
  {
    if |children| == 0 then Walk(Err(EmptyPhrase), cs, [])
    else
      match ConsumeLabel(children[0])
      case Err(e) => Walk(Err(e), cs, [])
      case Ok(phraseLabel) =>
        var rest := children[1..];
        if IsTokenPhrase(rest) then TokenWalk(s, cs, rest[0], phraseLabel, parent)
        else
          var node := NodeId(s.docPath, cs.numberOfSpans + 1);
          var w := ChildrenWalk(s, rest, node, cs.(numberOfSpans := cs.numberOfSpans + 1), |rest|);
          Walk(if w.result.Err? then w.result else Ok(node), w.counters, NodeHeadEvents(s, cs, phraseLabel, parent) + w.events)
  }

  /** The loop over the first k children of a syntax node; the first error ends it. */
  function ChildrenWalk(s: Settings, kids: seq<Pair>, node: string, cs: Counters, k: nat): Walk
    requires k <= |kids|
    decreases SizeOf(kids), 0, k
  {
    if k == 0 then Walk(Ok(node), cs, [])
    else
      var w := ChildrenWalk(s, kids, node, cs, k - 1);
      if w.result.Err? then w
      else
        SizeOfAt(kids, k - 1);
        var w' := PhraseWalk(s, Inner(kids[k - 1]), Some(node), w.counters);
        Walk(if w'.result.Err? then w'.result else Ok(node), w'.counters, w.events + w'.events)
  }

  /** `map`: the text node, then every root phrase in turn; other root pairs are passed over. */
  function RootsWalk(s: Settings, roots: seq<Pair>, cs: Counters, k: nat): Walk
    requires k <= |roots|
  {
    if k == 0 then Walk(Ok(s.textNodeName), cs, [AddNode(s.textNodeName, DatasourceType), Edge(s.textNodeName, s.docPath, AnnisNs, PartOf, "")])
    else
      var w := RootsWalk(s, roots, cs, k - 1);
      if w.result.Err? || !roots[k - 1].Phrase? then w
      else
        var w' := PhraseWalk(s, roots[k - 1].children, None, w.counters);
        Walk(if w'.result.Err? then w'.result else w.result, w'.counters, w.events + w'.events)
  }

  /** After an error the loop over the children goes no further. */
  lemma {:induction false} ChildrenWalkErrSticks(s: Settings, kids: seq<Pair>, node: string, cs: Counters, k: nat, n: nat)
    requires k <= n <= |kids| && ChildrenWalk(s, kids, node, cs, k).result.Err?
    ensures ChildrenWalk(s, kids, node, cs, n) == ChildrenWalk(s, kids, node, cs, k)
    decreases n - k
  {
    if k < n {
      ChildrenWalkErrSticks(s, kids, node, cs, k + 1, n);
    }
  }

  /** One more child of a syntax node: its walk starts where the loop so far ends, and its events follow. */
  lemma ChildrenWalkNext(s: Settings, kids: seq<Pair>, node: string, cs: Counters, k: nat)
    requires 0 < k <= |kids| && ChildrenWalk(s, kids, node, cs, k - 1).result.Ok?
    ensures var w := ChildrenWalk(s, kids, node, cs, k - 1);
      var w' := PhraseWalk(s, Inner(kids[k - 1]), Some(node), w.counters);
      && ChildrenWalk(s, kids, node, cs, k).result == (if w'.result.Err? then w'.result else Ok(node))
      && ChildrenWalk(s, kids, node, cs, k).counters == w'.counters
      && ChildrenWalk(s, kids, node, cs, k).events == w.events + w'.events
  {
  }

  /** A phrase that is not a token: its span node, then the walk over its children. */
  lemma PhraseWalkNode(s: Settings, children: seq<Pair>, parent: Option<string>, cs: Counters)
    requires |children| > 0 && ConsumeLabel(children[0]).Ok? && !IsTokenPhrase(children[1..])
    ensures var node := NodeId(s.docPath, cs.numberOfSpans + 1);
      var w := ChildrenWalk(s, children[1..], node, cs.(numberOfSpans := cs.numberOfSpans + 1), |children[1..]|);
      && PhraseWalk(s, children, parent, cs).result == (if w.result.Err? then w.result else Ok(node))
      && PhraseWalk(s, children, parent, cs).counters == w.counters
      && PhraseWalk(s, children, parent, cs).events == NodeHeadEvents(s, cs, ConsumeLabel(children[0]).value, parent) + w.events
  {
  }

  /** A phrase whose one child after the label is a value is a token. */
  lemma PhraseWalkToken(s: Settings, children: seq<Pair>, parent: Option<string>, cs: Counters)
    requires |children| > 0 && ConsumeLabel(children[0]).Ok? && IsTokenPhrase(children[1..])
    ensures PhraseWalk(s, children, parent, cs) == TokenWalk(s, cs, children[1], ConsumeLabel(children[0]).value, parent)
  {
    assert children[1..][0] == children[1];
  }

  /** One more root: a phrase is walked from where the roots so far end; any other pair is passed over. */
  lemma RootsWalkNext(s: Settings, roots: seq<Pair>, cs: Counters, k: nat)
    requires 0 < k <= |roots| && RootsWalk(s, roots, cs, k - 1).result.Ok?
    ensures !roots[k - 1].Phrase? ==> RootsWalk(s, roots, cs, k) == RootsWalk(s, roots, cs, k - 1)
    ensures roots[k - 1].Phrase? ==>
      var w := RootsWalk(s, roots, cs, k - 1);
      var w' := PhraseWalk(s, roots[k - 1].children, None, w.counters);
      && RootsWalk(s, roots, cs, k).result.Ok? == w'.result.Ok?
      && RootsWalk(s, roots, cs, k).counters == w'.counters
      && RootsWalk(s, roots, cs, k).events == w.events + w'.events
  {
  }

  /** After an error the loop over the roots goes no further. */
  lemma {:induction false} RootsWalkErrSticks(s: Settings, roots: seq<Pair>, cs: Counters, k: nat, n: nat)
    requires k <= n <= |roots| && RootsWalk(s, roots, cs, k).result.Err?
    ensures RootsWalk(s, roots, cs, n) == RootsWalk(s, roots, cs, k)
    decreases n - k
  {
    if k < n {
      RootsWalkErrSticks(s, roots, cs, k + 1, n);
    }
  }

  // ---------------------------------------------------------------- the mapper

  /** `annotate_edge`: the parent's dominance edges to `target`, labelled with the function if there is one.
      It reads nothing of the mapper, so it is modelled outside the class. */
  method AnnotateEdge(u: Update, source: Option<string>, target: string, edgeLabel: Option<string>)
    modifies u
    ensures u.events == old(u.events) + AnnotateEdgeEvents(source, target, edgeLabel)
  {
    if source.Some? {
      var p := source.value;
      u.Add(Edge(p, target, SyntaxLayer, Dominance, ""));
      u.Add(Edge(p, target, SyntaxLayer, Dominance, EdgeComponent));
      if edgeLabel.Some? && edgeLabel.value != "" {
        u.Add(AddEdgeLabel(p, target, SyntaxLayer, TypeName(Dominance), "", SyntaxLayer, FuncKey, edgeLabel.value));
        u.Add(AddEdgeLabel(p, target, SyntaxLayer, TypeName(Dominance), EdgeComponent, SyntaxLayer, FuncKey, edgeLabel.value));
      }
    }
  }

  method AddTokenNode(u: Update, tok: string, textNodeName: string, value: string)
    modifies u
    ensures u.events == old(u.events) + TokenNodeEvents(tok, textNodeName, value)
  {
    u.Add(Node(tok));
    u.Add(AddNodeLabel(tok, AnnisNs, TokKey, value));
    u.Add(AddNodeLabel(tok, AnnisNs, LayerKey, DefaultLayer));
    u.Add(Edge(tok, textNodeName, AnnisNs, PartOf, ""));
  }

  method AddPreceding(u: Update, last: Option<string>, tok: string)
    modifies u
    ensures u.events == old(u.events) + PrecedingEvents(last, tok)
  {
    if last.Some? {
      u.Add(AddNodeLabel(tok, AnnisNs, WhitespaceBeforeKey, " "));
      u.Add(Edge(last.value, tok, AnnisNs, Ordering, ""));
    }
  }

  /** The event additions of `consume_token` once its value is read, in the order the source makes them. */
  method EmitToken(u: Update, s: Settings, cs: Counters, value: string, phraseLabel: string, parent: Option<string>)
    modifies u
    ensures u.events == old(u.events) + TokenStepEvents(s, cs, value, phraseLabel, parent)
  {
    var tok := TokenId(s.docPath, cs.numberOfToken + 1);
    var labels := SplitAnnotationValue(s.edgeDelimiter, phraseLabel);
    ghost var e0 := u.events;
    AddTokenNode(u, tok, s.textNodeName, value);
    AnnotateEdge(u, parent, tok, labels.1);
    AppendAssoc(e0, TokenNodeEvents(tok, s.textNodeName, value), AnnotateEdgeEvents(parent, tok, labels.1));
    u.Add(AddNodeLabel(tok, DefaultNs, PosKey, labels.0));
    ghost var body := TokenNodeEvents(tok, s.textNodeName, value) + AnnotateEdgeEvents(parent, tok, labels.1);
    AppendAssoc(e0, body, [AddNodeLabel(tok, DefaultNs, PosKey, labels.0)]);
    AddPreceding(u, cs.lastTokenId, tok);
    AppendAssoc(e0, body + [AddNodeLabel(tok, DefaultNs, PosKey, labels.0)], PrecedingEvents(cs.lastTokenId, tok));
  }

  /** The event additions of `consume_phrase` for a syntax node, before its children. */
  method EmitNodeHead(u: Update, s: Settings, cs: Counters, phraseLabel: string, parent: Option<string>)
    modifies u
    ensures u.events == old(u.events) + NodeHeadEvents(s, cs, phraseLabel, parent)
  {
    var node := NodeId(s.docPath, cs.numberOfSpans + 1);
    var labels := SplitAnnotationValue(s.edgeDelimiter, phraseLabel);
    u.Add(Node(node));
    u.Add(AddNodeLabel(node, SyntaxLayer, CatKey, labels.0));
    u.Add(AddNodeLabel(node, AnnisNs, LayerKey, SyntaxLayer));
    u.Add(Edge(node, s.docPath, AnnisNs, PartOf, ""));
    AnnotateEdge(u, parent, node, labels.1);
  }

  /** The mapper of one document: fixed settings and the counters the walk updates. */
  class DocumentMapper {
    const docPath: string
    const textNodeName: string
    const edgeDelimiter: Option<string>
    var lastTokenId: Option<string>
    var numberOfToken: nat
    var numberOfSpans: nat

    /** The mapper `import_corpus` makes for a document, with its `doc#text` node name. */
    constructor (docPath: string, edgeDelimiter: Option<string>)
      ensures this.docPath == docPath && textNodeName == docPath + "#text" && this.edgeDelimiter == edgeDelimiter
      ensures State() == Counters(None, 0, 0)
    {
      this.docPath := docPath;
      textNodeName := docPath + "#text";
      this.edgeDelimiter := edgeDelimiter;
      lastTokenId := None;
      numberOfToken := 0;
      numberOfSpans := 0;
    }

    function Config(): Settings
    {
      Settings(docPath, textNodeName, edgeDelimiter)
    }

    function State(): Counters
      reads this
    {
      Counters(lastTokenId, numberOfToken, numberOfSpans)
    }

    method ConsumeToken(u: Update, p: Pair, phraseLabel: string, parent: Option<string>) returns (r: Result<string>)
      modifies this, u
      ensures var w := TokenWalk(Config(), old(State()), p, phraseLabel, parent);
        r == w.result && State() == w.counters && u.events == old(u.events) + w.events
    {
      var value := ConsumeValue(p);
      if value.Err? {
        return Err(value.msg);
      }
      var tok := TokenId(docPath, numberOfToken + 1);
      EmitToken(u, Config(), State(), value.value, phraseLabel, parent);
      numberOfToken := numberOfToken + 1;
      lastTokenId := Some(tok);
      return Ok(tok);
    }

    method ConsumePhrase(u: Update, children: seq<Pair>, parent: Option<string>) returns (r: Result<string>)
      modifies this, u
      decreases SizeOf(children), 1
      ensures var w := PhraseWalk(Config(), children, parent, old(State()));
        r == w.result && State() == w.counters && u.events == old(u.events) + w.events
    {
      if |children| == 0 {
        return Err(EmptyPhrase);
      }
      var phraseLabel := ConsumeLabel(children[0]);
      if phraseLabel.Err? {
        return Err(phraseLabel.msg);
      }
      var rest := children[1..];
      if |rest| == 1 && (rest[0].QuotedValue? || rest[0].Label?) {
        PhraseWalkToken(Config(), children, parent, old(State()));
        r := ConsumeToken(u, rest[0], phraseLabel.value, parent);
        return;
      }
      var node := NodeId(docPath, numberOfSpans + 1);
      EmitNodeHead(u, Config(), State(), phraseLabel.value, parent);
      numberOfSpans := numberOfSpans + 1;
      ghost var head := u.events;
      PhraseWalkNode(Config(), children, parent, old(State()));
      r := ConsumeChildren(u, rest, node);
      AppendAssoc(old(u.events), NodeHeadEvents(Config(), old(State()), phraseLabel.value, parent), u.events[|head|..]);
      assert u.events == head + u.events[|head|..];
    }

    /** The loop of `consume_phrase` over the children of the syntax node `node`; the first error ends it. */
    method ConsumeChildren(u: Update, rest: seq<Pair>, node: string) returns (r: Result<string>)
      modifies this, u
      decreases SizeOf(rest), 0
      ensures var w := ChildrenWalk(Config(), rest, node, old(State()), |rest|);
        (r.Err? ==> r == w.result) && (r.Ok? ==> w.result.Ok? && r.value == node)
        && State() == w.counters && u.events == old(u.events) + w.events
    {
      ghost var cs := State();
      for j := 0 to |rest|
        invariant ChildrenWalk(Config(), rest, node, cs, j).result.Ok?
        invariant State() == ChildrenWalk(Config(), rest, node, cs, j).counters
        invariant u.events == old(u.events) + ChildrenWalk(Config(), rest, node, cs, j).events
      {
        SizeOfAt(rest, j);
        ghost var before := ChildrenWalk(Config(), rest, node, cs, j).events;
        var c := ConsumePhrase(u, Inner(rest[j]), Some(node));
        ChildrenWalkNext(Config(), rest, node, cs, j + 1);
        AppendAssoc(old(u.events), before, u.events[|old(u.events) + before|..]);
        if c.Err? {
          ChildrenWalkErrSticks(Config(), rest, node, cs, j + 1, |rest|);
          return Err(c.msg);
        }
      }
      return Ok(node);
    }

    /** `map`: the text node and its part-of edge, then each root phrase. */
    method Map(u: Update, roots: seq<Pair>) returns (r: Result<()>)
      modifies this, u
      ensures var w := RootsWalk(Config(), roots, old(State()), |roots|);
        (r.Ok? <==> w.result.Ok?) && State() == w.counters && u.events == old(u.events) + w.events
    {
      u.Add(AddNode(textNodeName, DatasourceType));
      u.Add(Edge(textNodeName, docPath, AnnisNs, PartOf, ""));
      ghost var cs := old(State());
      for k := 0 to |roots|
        invariant RootsWalk(Config(), roots, cs, k).result.Ok?
        invariant State() == RootsWalk(Config(), roots, cs, k).counters
        invariant u.events == old(u.events) + RootsWalk(Config(), roots, cs, k).events
      {
        var c := MapRoot(u, roots, k, cs, old(u.events));
        if c.Err? {
          RootsWalkErrSticks(Config(), roots, cs, k + 1, |roots|);
          return c;
        }
      }
      return Ok(());
    }

    /** One pass of the loop in `map`: a root phrase is walked, any other root pair passed over. */
    method MapRoot(u: Update, roots: seq<Pair>, k: nat, ghost cs: Counters, ghost base: seq<Event>) returns (r: Result<()>)
      requires k < |roots| && RootsWalk(Config(), roots, cs, k).result.Ok?
      requires State() == RootsWalk(Config(), roots, cs, k).counters
      requires u.events == base + RootsWalk(Config(), roots, cs, k).events
      modifies this, u
      ensures r.Ok? <==> RootsWalk(Config(), roots, cs, k + 1).result.Ok?
      ensures r.Err? ==> r == Err(RootsWalk(Config(), roots, cs, k + 1).result.msg)
      ensures State() == RootsWalk(Config(), roots, cs, k + 1).counters
      ensures u.events == base + RootsWalk(Config(), roots, cs, k + 1).events
    {
      RootsWalkNext(Config(), roots, cs, k + 1);
      if roots[k].Phrase? {
        ghost var before := RootsWalk(Config(), roots, cs, k).events;
        ghost var w' := PhraseWalk(Config(), roots[k].children, None, State());
        var c := ConsumePhrase(u, roots[k].children, None);
        AppendAssoc(base, before, w'.events);
        if c.Err? {
          return Err(c.msg);
        }
      }
      return Ok(());
    }
  }
}
