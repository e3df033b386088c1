/**
 * The Rust CoNLL-U importer. Parsing the file is outside the model: the importer starts
 * from the parse tree the grammar produces (sentences of token lines, sentence comments,
 * multi-word tokens and empty nodes), each token and sentence with the line and column
 * where it begins. Every token becomes a node with its form, lemma, tags and features;
 * every sentence with tokens becomes a node that covers them and carries the sentence
 * annotations; heads become pointing edges; and the tokens of the document are ordered.
 * A failure stops the document but keeps what was already appended to the update.
 */
module ConlluImporter {
  import opened Wrappers
  import opened Strings
  import opened Events
  import opened Dicts
  import opened Sorting
  import opened GraphUpdateUtil

  const DefaultLayer := "default_layer"
  const DepName := "dep"
  const DeprelKey := "deprel"

  /** One more than the largest `usize` of a 64-bit target. */
  const UsizeLimit: nat := 0x1_0000_0000_0000_0000

  const EmptyIntMsg := "cannot parse integer from empty string"
  const InvalidDigitMsg := "invalid digit found in string"
  const TooLargeMsg := "number too large to fit in target type"

  // ---------------------------------------------------------------- the parse tree

  /** The parts of a `key=value` feature. */
  datatype FeaturePart = FName(text: string) | FValue(text: string) | FOtherPart

  /** An entry of the FEATS or MISC column; `_` is the single `NoValue` entry. */
  datatype FeatureItem = Feature(parts: seq<FeaturePart>) | NoValue | OtherItem

  /** The parts of the HEAD column: an id, or `_`. */
  datatype HeadPart = HeadId(text: string) | HeadOther

  /** One column of a token line, as the grammar names it. */
  datatype TokenMember =
    | Id(text: string)
    | Form(text: string)
    | Lemma(text: string)
    | Upos(text: string)
    | Xpos(text: string)
    | Features(items: seq<FeatureItem>)
    | Misc(items: seq<FeatureItem>)
    | Head(parts: seq<HeadPart>)
    | Deprel(text: string)
    | OtherMember

  /** A token line: where it starts, its text and its columns. */
  datatype TokenLine = TokenLine(line: nat, col: nat, text: string, members: seq<TokenMember>)

  /** The parts of a sentence comment `# name = value`. */
  datatype SAnnoPart = SName(text: string) | SValue(text: string) | SOtherPart

  datatype SentenceMember = Token(tok: TokenLine) | MultiToken | EmptyNode | SAnno(parts: seq<SAnnoPart>) | OtherSentenceMember

  datatype Sentence = Sentence(line: nat, col: nat, members: seq<SentenceMember>)

  /** A child of the top `conll` pair: a sentence, or something else (the end of input). */
  datatype ConllChild = SentenceChild(sentence: Sentence) | OtherChild

  /** What a step appends and how it ends; a failure keeps what was appended before it. */
  datatype Outcome<T> = Outcome(events: seq<Event>, result: Result<T>)

  // ---------------------------------------------------------------- map_token

  /** `str::parse::<usize>`: an optional `+` and at least one decimal digit, below 2^64. */
  function ParseUsize(s: string): (r: Result<nat>)
    ensures r.Ok? ==> r.value < UsizeLimit
  {
    var d := if |s| > 0 && s[0] == '+' then s[1..] else s;
    if s == [] then Err(EmptyIntMsg)
    else if d == [] || !IsDigitString(d) then Err(InvalidDigitMsg)
    else if DigitsValue(d) >= UsizeLimit then Err(TooLargeMsg)
    else Ok(DigitsValue(d))
  }

  /** Every `usize` reads back from its decimal digits. */
  lemma ParseUsizeOfNat(n: nat)
    requires n < UsizeLimit
    ensures ParseUsize(NatToString(n)) == Ok(n)
  {
    DigitsValueOfNat(n);
  }

  /** The label of one feature: once both its name and its value are seen, trimmed. */
  function FeatureEvents(node: string, parts: seq<FeaturePart>, i: nat, name: Option<string>, value: Option<string>): seq<Event>
    decreases |parts| - i
  {
    if i >= |parts| then []
    else
      var name' := if parts[i].FName? then Some(parts[i].text) else name;
      var value' := if parts[i].FValue? then Some(parts[i].text) else value;
      if name'.Some? && value'.Some? then [AddNodeLabel(node, "", Trim(name'.value), Trim(value'.value))]
      else FeatureEvents(node, parts, i + 1, name', value')
  }

  /** The labels of a FEATS or MISC column from its `i`-th entry; a `_` entry ends it. */
  function ItemEvents(node: string, items: seq<FeatureItem>, i: nat): seq<Event>
    decreases |items| - i
  {
    if i >= |items| then []
    else match items[i]
      case Feature(parts) => FeatureEvents(node, parts, 0, None, None) + ItemEvents(node, items, i + 1)
      case NoValue => []
      case OtherItem => ItemEvents(node, items, i + 1)
  }

  /** The head of a HEAD column: its first id, trimmed and parsed, if it has one. */
  function HeadOf(parts: seq<HeadPart>, i: nat): Option<Result<nat>>
    decreases |parts| - i
  {
    if i >= |parts| then None
    else if parts[i].HeadId? then Some(ParseUsize(Trim(parts[i].text)))
    else HeadOf(parts, i + 1)
  }

  /** What `map_token` has gathered so far: the events, the id, the head and the relation. */
  datatype TokAcc = TokAcc(events: seq<Event>, id: Option<nat>, head: Option<nat>, deprel: Option<string>)

  /** One column of a token line. Only an id or a head that does not parse fails. */
  function MemberStep(node: string, m: TokenMember, acc: TokAcc): Result<TokAcc>
  {
    match m
    case Id(text) => (match ParseUsize(text) case Err(e) => Err(e) case Ok(v) => Ok(acc.(id := Some(v))))
    case Form(text) => Ok(acc.(events := acc.events + [AddNodeLabel(node, AnnisNs, TokKey, text)]))
    case Lemma(text) => Ok(acc.(events := acc.events + [AddNodeLabel(node, "", "lemma", text)]))
    case Upos(text) => Ok(acc.(events := acc.events + [AddNodeLabel(node, "", "upos", text)]))
    case Xpos(text) => Ok(acc.(events := acc.events + [AddNodeLabel(node, "", "xpos", text)]))
    case Features(items) => Ok(acc.(events := acc.events + ItemEvents(node, items, 0)))
    case Misc(items) => Ok(acc.(events := acc.events + ItemEvents(node, items, 0)))
    case Head(parts) =>
      (match HeadOf(parts, 0)
       case None => Ok(acc)
       case Some(Err(e)) => Err(e)
       case Some(Ok(h)) => Ok(acc.(head := Some(h))))
    case Deprel(text) => Ok(acc.(deprel := Some(Trim(text))))
    case OtherMember => Ok(acc)
  }

  /** The columns from the `i`-th on; the first failure stops the token. */
  function TokScan(node: string, members: seq<TokenMember>, i: nat, acc: TokAcc): (o: Outcome<TokAcc>)
    ensures acc.events <= o.events
    ensures o.result.Ok? ==> o.events == o.result.value.events
    decreases |members| - i
  {
    if i >= |members| then Outcome(acc.events, Ok(acc))
    else match MemberStep(node, members[i], acc)
      case Err(e) => Outcome(acc.events, Err(e))
      case Ok(acc') => TokScan(node, members, i + 1, acc')
  }

  /** The node of a token: the document, `#t`, the line and the column. */
  function TokenNode(docPath: string, tok: TokenLine): string
  {
    docPath + "#t" + NatToString(tok.line) + "_" + NatToString(tok.col)
  }

  function NoIdMsg(tok: TokenLine): string
  {
    "Token `" + tok.text + "` (" + NatToString(tok.line) + ", " + NatToString(tok.col) + ") has no id which is invalid."
  }

  /** A mapped token: its node, its id and, when it has a head, the head and the relation. */
  datatype TokenOut = TokenOut(name: string, id: nat, dep: Option<(nat, Option<string>)>)

  /** `map_token`: the node in the default layer, then the labels of its columns. */
  function MapTokenOf(log: seq<Event>, docPath: string, tok: TokenLine): (o: Outcome<TokenOut>)
    ensures log <= o.events
  {
    var node := TokenNode(docPath, tok);
    var o := TokScan(node, tok.members, 0, TokAcc(log + [Node(node), AddNodeLabel(node, AnnisNs, LayerKey, DefaultLayer)], None, None, None));
    match o.result
    case Err(e) => Outcome(o.events, Err(e))
    case Ok(acc) =>
      if acc.id.None? then Outcome(o.events, Err(NoIdMsg(tok)))
      else Outcome(o.events, Ok(TokenOut(node, acc.id.value, if acc.head.Some? then Some((acc.head.value, acc.deprel)) else None)))
  }

  // ---------------------------------------------------------------- map_sentence

  /** `BTreeMap::insert` on entries kept in increasing key order. */
  function MapInsert(d: seq<(nat, string)>, k: nat, v: string): seq<(nat, string)>
  {
    if d == [] then [(k, v)]
    else if d[0].0 == k then [(k, v)] + d[1..]
    else if k < d[0].0 then [(k, v)] + d
    else [d[0]] + MapInsert(d[1..], k, v)
  }

  /** The sentence comment `# name = value`: the pair, once both are seen, trimmed. */
  function SAnnoOf(parts: seq<SAnnoPart>, i: nat, name: Option<string>, value: Option<string>): Option<(string, string)>
    decreases |parts| - i
  {
    if i >= |parts| then None
    else
      var name' := if parts[i].SName? then Some(Trim(parts[i].text)) else name;
      var value' := if parts[i].SValue? then Some(Trim(parts[i].text)) else value;
      if name'.Some? && value'.Some? then Some((name'.value, value'.value))
      else SAnnoOf(parts, i + 1, name', value')
  }

  /** A dependency of a token on its head, with the relation if the line gives one. */
  datatype Dep = Dep(target: string, head: nat, deprel: Option<string>)

  /** What `map_sentence` gathers: the events, the tokens by id, the dependencies and the sentence annotations. */
  datatype SentAcc = SentAcc(events: seq<Event>, ids: seq<(nat, string)>, deps: seq<Dep>, annos: seq<(string, string)>)

  function SentStep(docPath: string, m: SentenceMember, acc: SentAcc): (o: Outcome<SentAcc>)
    ensures acc.events <= o.events
    ensures o.result.Ok? ==> o.events == o.result.value.events
  {
    match m
    case Token(tok) =>
      var o := MapTokenOf(acc.events, docPath, tok);
      (match o.result
       case Err(e) => Outcome(o.events, Err(e))
       case Ok(t) =>
         var deps := if t.dep.Some? then acc.deps + [Dep(t.name, t.dep.value.0, t.dep.value.1)] else acc.deps;
         Outcome(o.events, Ok(SentAcc(o.events, MapInsert(acc.ids, t.id, t.name), deps, acc.annos))))
    case SAnno(parts) =>
      var a := SAnnoOf(parts, 0, None, None);
      Outcome(acc.events, Ok(acc.(annos := if a.Some? then acc.annos + [a.value] else acc.annos)))
    case _ => Outcome(acc.events, Ok(acc))
  }

  /** The members of a sentence from the `i`-th on; a failing token stops it. */
  function SentScan(docPath: string, members: seq<SentenceMember>, i: nat, acc: SentAcc): (o: Outcome<SentAcc>)
    ensures acc.events <= o.events
    ensures o.result.Ok? ==> o.events == o.result.value.events
    decreases |members| - i
  {
    if i >= |members| then Outcome(acc.events, Ok(acc))
    else
      var o := SentStep(docPath, members[i], acc);
      match o.result
      case Err(e) => Outcome(o.events, Err(e))
      case Ok(acc') => SentScan(docPath, members, i + 1, acc')
  }

  /** The node of a sentence: the document, `#s`, the line and the column. */
  function SentenceNode(docPath: string, s: Sentence): string
  {
    docPath + "#s" + NatToString(s.line) + "_" + NatToString(s.col)
  }

  /** The sentence annotations of the first `k` comments, in the empty namespace. */
  function AnnoLabels(node: string, annos: seq<(string, string)>, k: nat): seq<Event>
    requires k <= |annos|
  {
    if k == 0 then [] else AnnoLabels(node, annos, k - 1) + [AddNodeLabel(node, "", annos[k - 1].0, annos[k - 1].1)]
  }

  /** The edges of one dependency: none for the root (head 0) or an unknown head. */
  function DepOne(d: Dep, ids: seq<(nat, string)>): seq<Event>
  {
    if d.head == 0 then []
    else match Get(ids, d.head)
      case None => []
      case Some(source) =>
        [Edge(source, d.target, "", Pointing, DepName)]
        + (if d.deprel.Some?
           then [AddEdgeLabel(source, d.target, "", TypeName(Pointing), DepName, "", DeprelKey, d.deprel.value)]
           else [])
  }

  function DepEvents(deps: seq<Dep>, ids: seq<(nat, string)>, k: nat): seq<Event>
    requires k <= |deps|
  {
    if k == 0 then [] else DepEvents(deps, ids, k - 1) + DepOne(deps[k - 1], ids)
  }

  /** The heads of the first `k` dependencies that name no token of the sentence; each is reported. */
  function UnknownHeads(deps: seq<Dep>, ids: seq<(nat, string)>, k: nat): seq<nat>
    requires k <= |deps|
  {
    if k == 0 then []
    else UnknownHeads(deps, ids, k - 1) + (if deps[k - 1].head > 0 && Get(ids, deps[k - 1].head).None? then [deps[k - 1].head] else [])
  }

  /** The sentence node, its annotations, its coverage of the tokens in id order and the dependencies. */
  function SentenceEvents(node: string, ids: seq<(nat, string)>, deps: seq<Dep>, annos: seq<(string, string)>): seq<Event>
  {
    if ids == [] then []
    else [Node(node)] + AnnoLabels(node, annos, |annos|) + EdgeRow(node, Values(ids), Coverage, "")
         + DepEvents(deps, ids, |deps|)
  }

  /** A mapped sentence: its tokens in id order and the unknown heads it reported. */
  datatype SentenceOut = SentenceOut(names: seq<string>, unknownHeads: seq<nat>)

  /** `map_sentence`. */
  function MapSentenceOf(log: seq<Event>, docPath: string, s: Sentence): (o: Outcome<SentenceOut>)
    ensures log <= o.events
  {
    var o := SentScan(docPath, s.members, 0, SentAcc(log, [], [], []));
    match o.result
    case Err(e) => Outcome(o.events, Err(e))
    case Ok(acc) =>
      Outcome(o.events + SentenceEvents(SentenceNode(docPath, s), acc.ids, acc.deps, acc.annos),
              Ok(SentenceOut(Values(acc.ids), if acc.ids == [] then [] else UnknownHeads(acc.deps, acc.ids, |acc.deps|))))
  }

  // ---------------------------------------------------------------- map_document

  /** The children of the document from the `i`-th on, with the token names gathered so far. */
  function DocScan(docPath: string, children: seq<ConllChild>, i: nat, events: seq<Event>, names: seq<string>): (o: Outcome<seq<string>>)
    ensures events <= o.events
    decreases |children| - i
  {
    if i >= |children| then Outcome(events, Ok(names))
    else match children[i]
      case OtherChild => DocScan(docPath, children, i + 1, events, names)
      case SentenceChild(s) =>
        var o := MapSentenceOf(events, docPath, s);
        match o.result
        case Err(e) => Outcome(o.events, Err(e))
        case Ok(so) => DocScan(docPath, children, i + 1, o.events, names + so.names)
  }

  /**
   * `map_document`: every sentence, then the ordering of all tokens. Without a parse
   * the failure is only reported; a failing sentence fails the document.
   */
  function MapDocumentOf(log: seq<Event>, docPath: string, parsed: Option<seq<ConllChild>>): (o: Outcome<()>)
    ensures log <= o.events
  {
    match parsed
    case None => Outcome(log, Ok(()))
    case Some(children) =>
      var o := DocScan(docPath, children, 0, log, []);
      match o.result
      case Err(e) => Outcome(o.events, Err(e))
      case Ok(names) => Outcome(o.events + Chain(names, AnnisNs, Ordering, ""), Ok(()))
  }

  // ---------------------------------------------------------------- properties

  /** A column that parses: an id, or a head whose first id, if any, is a `usize`. */
  predicate MemberParses(m: TokenMember)
  {
    match m
    case Id(text) => ParseUsize(text).Ok?
    case Head(parts) => !(HeadOf(parts, 0).Some? && HeadOf(parts, 0).value.Err?)
    case _ => true
  }

  /**
   * The columns from the `i`-th on succeed exactly when each of them parses; the id is
   * then known exactly when it was before or some later column is an id.
   */
  lemma {:induction false} TokScanOk(node: string, members: seq<TokenMember>, i: nat, acc: TokAcc)
    ensures TokScan(node, members, i, acc).result.Ok? <==> forall j :: i <= j < |members| ==> MemberParses(members[j])
    ensures TokScan(node, members, i, acc).result.Ok? ==>
      (TokScan(node, members, i, acc).result.value.id.Some? <==> acc.id.Some? || exists j :: i <= j < |members| && members[j].Id?)
    decreases |members| - i
  {
    if i < |members| {
      match MemberStep(node, members[i], acc)
      case Err(_) =>
      case Ok(acc') => TokScanOk(node, members, i + 1, acc');
    }
  }

  /** A token line maps exactly when every column parses and one of them is an id; without an id it fails. */
  lemma MapTokenOk(log: seq<Event>, docPath: string, tok: TokenLine)
    ensures MapTokenOf(log, docPath, tok).result.Ok? <==>
      (forall j :: 0 <= j < |tok.members| ==> MemberParses(tok.members[j])) && exists j :: 0 <= j < |tok.members| && tok.members[j].Id?
  {
    var node := TokenNode(docPath, tok);
    TokScanOk(node, tok.members, 0, TokAcc(log + [Node(node), AddNodeLabel(node, AnnisNs, LayerKey, DefaultLayer)], None, None, None));
  }

  /** An event about the node of a token: the node itself or one of its labels. */
  predicate OnNode(e: Event, node: string)
  {
    e == Node(node) || (e.AddNodeLabel? && e.nodeName == node)
  }

  lemma {:induction false} FeatureOnNode(node: string, parts: seq<FeaturePart>, i: nat, name: Option<string>, value: Option<string>)
    ensures forall e :: e in FeatureEvents(node, parts, i, name, value) ==> OnNode(e, node)
    decreases |parts| - i
  {
    if i < |parts| {
      var name' := if parts[i].FName? then Some(parts[i].text) else name;
      var value' := if parts[i].FValue? then Some(parts[i].text) else value;
      FeatureOnNode(node, parts, i + 1, name', value');
    }
  }

  lemma {:induction false} ItemsOnNode(node: string, items: seq<FeatureItem>, i: nat)
    ensures forall e :: e in ItemEvents(node, items, i) ==> OnNode(e, node)
    decreases |items| - i
  {
    if i < |items| {
      ItemsOnNode(node, items, i + 1);
      if items[i].Feature? {
        FeatureOnNode(node, items[i].parts, 0, None, None);
      }
    }
  }

  /** A column only appends labels of the token's node. */
  lemma MemberStepOnNode(node: string, m: TokenMember, acc: TokAcc)
    requires MemberStep(node, m, acc).Ok?
    ensures var acc' := MemberStep(node, m, acc).value;
      acc.events <= acc'.events && forall k :: |acc.events| <= k < |acc'.events| ==> OnNode(acc'.events[k], node)
  {
    var acc' := MemberStep(node, m, acc).value;
    if m.Features? || m.Misc? {
      ItemsOnNode(node, m.items, 0);
      forall k | |acc.events| <= k < |acc'.events| ensures OnNode(acc'.events[k], node) {
        assert acc'.events[k] in ItemEvents(node, m.items, 0);
      }
    }
  }

  lemma {:induction false} TokScanOnNode(node: string, members: seq<TokenMember>, i: nat, acc: TokAcc, log: seq<Event>)
    requires log <= acc.events
    requires forall k :: |log| <= k < |acc.events| ==> OnNode(acc.events[k], node)
    ensures forall k :: |log| <= k < |TokScan(node, members, i, acc).events| ==> OnNode(TokScan(node, members, i, acc).events[k], node)
    decreases |members| - i
  {
    if i < |members| {
      match MemberStep(node, members[i], acc)
      case Err(_) =>
      case Ok(acc') =>
        MemberStepOnNode(node, members[i], acc);
        assert forall k :: |log| <= k < |acc.events| ==> acc'.events[k] == acc.events[k];
        assert log <= acc'.events;
        assert forall k :: |log| <= k < |acc'.events| ==> OnNode(acc'.events[k], node);
        TokScanOnNode(node, members, i + 1, acc', log);
    }
  }

  /** A token appends its node in the default layer first, and afterwards only labels of that node. */
  lemma MapTokenOnNode(log: seq<Event>, docPath: string, tok: TokenLine)
    ensures |MapTokenOf(log, docPath, tok).events| >= |log| + 2
    ensures MapTokenOf(log, docPath, tok).events[|log|] == Node(TokenNode(docPath, tok))
    ensures MapTokenOf(log, docPath, tok).events[|log| + 1] == AddNodeLabel(TokenNode(docPath, tok), AnnisNs, LayerKey, DefaultLayer)
    ensures forall k :: |log| <= k < |MapTokenOf(log, docPath, tok).events| ==>
      OnNode(MapTokenOf(log, docPath, tok).events[k], TokenNode(docPath, tok))
  {
    var node := TokenNode(docPath, tok);
    var start := log + [Node(node), AddNodeLabel(node, AnnisNs, LayerKey, DefaultLayer)];
    assert forall k :: |log| <= k < |start| ==> OnNode(start[k], node);
    TokScanOnNode(node, tok.members, 0, TokAcc(start, None, None, None), log);
    var ts := TokScan(node, tok.members, 0, TokAcc(start, None, None, None));
    assert ts.events[|log|] == start[|log|] && ts.events[|log| + 1] == start[|log| + 1];
  }

  /** The entry of `k` takes the new value; every other key keeps its value. */
  lemma {:induction false} MapInsertGet(d: seq<(nat, string)>, k: nat, v: string, k': nat)
    ensures Get(MapInsert(d, k, v), k') == if k' == k then Some(v) else Get(d, k')
  {
    if d != [] && d[0].0 != k && !(k < d[0].0) {
      MapInsertGet(d[1..], k, v, k');
      assert MapInsert(d, k, v)[1..] == MapInsert(d[1..], k, v);
    } else if d != [] && d[0].0 == k {
      assert MapInsert(d, k, v)[1..] == d[1..];
    } else if d != [] {
      assert MapInsert(d, k, v)[1..] == d;
    }
  }

  /** The ids after an insertion, computed on the ids alone. */
  function InsertKey(ks: seq<nat>, k: nat): seq<nat>
  {
    if ks == [] then [k]
    else if ks[0] == k then ks
    else if k < ks[0] then [k] + ks
    else [ks[0]] + InsertKey(ks[1..], k)
  }

  lemma {:induction false} KeysOfInsert(d: seq<(nat, string)>, k: nat, v: string)
    ensures Keys(MapInsert(d, k, v)) == InsertKey(Keys(d), k)
  {
    var r := MapInsert(d, k, v);
    if d == [] {
      assert Keys(r) == [k];
    } else {
      KeysCons(d);
      KeysCons(r);
      if d[0].0 == k {
        assert r[1..] == d[1..];
      } else if k < d[0].0 {
        assert r[1..] == d;
      } else {
        assert r[1..] == MapInsert(d[1..], k, v);
        KeysOfInsert(d[1..], k, v);
      }
    }
  }

  /** Inserting into increasing ids keeps them increasing and adds exactly the new one. */
  lemma {:induction false} InsertKeySorted(ks: seq<nat>, k: nat)
    requires StrictlyIncreasing(ks)
    ensures StrictlyIncreasing(InsertKey(ks, k))
    ensures forall x :: x in InsertKey(ks, k) <==> x in ks || x == k
  {
    if ks != [] && ks[0] != k && !(k < ks[0]) {
      var tail := InsertKey(ks[1..], k);
      assert StrictlyIncreasing(ks[1..]) by {
        forall a, b | 0 <= a < b < |ks[1..]| ensures ks[1..][a] < ks[1..][b] {
          assert ks[1..][a] == ks[a + 1] && ks[1..][b] == ks[b + 1];
        }
      }
      InsertKeySorted(ks[1..], k);
      var r := [ks[0]] + tail;
      forall a, b | 0 <= a < b < |r| ensures r[a] < r[b] {
        assert r[b] == tail[b - 1];
        if a > 0 {
          assert r[a] == tail[a - 1];
        } else if tail[b - 1] != k {
          assert tail[b - 1] in tail;
          var t :| 0 <= t < |ks[1..]| && ks[1..][t] == tail[b - 1];
          assert ks[t + 1] == tail[b - 1];
        }
      }
    } else if ks != [] && k < ks[0] {
      var r := [k] + ks;
      forall a, b | 0 <= a < b < |r| ensures r[a] < r[b] {
        assert r[b] == ks[b - 1];
        if a > 0 {
          assert r[a] == ks[a - 1];
        } else if b > 1 {
          assert ks[0] < ks[b - 1];
        }
      }
    }
  }

  /** Insertion keeps the ids in increasing order and adds exactly the new one. */
  lemma MapInsertSorted(d: seq<(nat, string)>, k: nat, v: string)
    requires StrictlyIncreasing(Keys(d))
    ensures StrictlyIncreasing(Keys(MapInsert(d, k, v)))
    ensures forall x :: x in Keys(MapInsert(d, k, v)) <==> x in Keys(d) || x == k
  {
    KeysOfInsert(d, k, v);
    InsertKeySorted(Keys(d), k);
  }

  /**
   * The members of a sentence from the `i`-th on keep the token ids in increasing order
   * and never lose one; the sentence has tokens exactly when some member is a token.
   */
  lemma {:induction false} SentScanIds(docPath: string, members: seq<SentenceMember>, i: nat, acc: SentAcc)
    requires StrictlyIncreasing(Keys(acc.ids))
    ensures SentScan(docPath, members, i, acc).result.Ok? ==>
      StrictlyIncreasing(Keys(SentScan(docPath, members, i, acc).result.value.ids))
    ensures SentScan(docPath, members, i, acc).result.Ok? ==>
      forall x :: x in Keys(acc.ids) ==> x in Keys(SentScan(docPath, members, i, acc).result.value.ids)
    ensures SentScan(docPath, members, i, acc).result.Ok? ==>
      (SentScan(docPath, members, i, acc).result.value.ids == [] <==> acc.ids == [] && forall j :: i <= j < |members| ==> !members[j].Token?)
    decreases |members| - i
  {
    if i < |members| {
      var o := SentStep(docPath, members[i], acc);
      if o.result.Ok? {
        var acc' := o.result.value;
        if members[i].Token? {
          var t := MapTokenOf(acc.events, docPath, members[i].tok).result.value;
          MapInsertSorted(acc.ids, t.id, t.name);
          assert t.id in Keys(acc'.ids);
        }
        SentScanIds(docPath, members, i + 1, acc');
      }
    }
  }

  /** Members that are not tokens leave the log and the ids alone and cannot fail. */
  lemma {:induction false} SentScanNoTokens(docPath: string, members: seq<SentenceMember>, i: nat, acc: SentAcc)
    requires forall j :: i <= j < |members| ==> !members[j].Token?
    ensures SentScan(docPath, members, i, acc).result.Ok?
    ensures SentScan(docPath, members, i, acc).events == acc.events
    ensures SentScan(docPath, members, i, acc).result.value.ids == acc.ids
    decreases |members| - i
  {
    if i < |members| {
      SentScanNoTokens(docPath, members, i + 1, SentStep(docPath, members[i], acc).result.value);
    }
  }

  /** A sentence without tokens appends nothing and yields no token names. */
  lemma MapSentenceNoTokens(log: seq<Event>, docPath: string, s: Sentence)
    requires forall j :: 0 <= j < |s.members| ==> !s.members[j].Token?
    ensures MapSentenceOf(log, docPath, s) == Outcome(log, Ok(SentenceOut([], [])))
  {
    SentScanNoTokens(docPath, s.members, 0, SentAcc(log, [], [], []));
  }

  /** The events of a sentence with tokens start with its node and cover each token. */
  lemma SentenceEventsCover(node: string, ids: seq<(nat, string)>, deps: seq<Dep>, annos: seq<(string, string)>)
    requires ids != []
    ensures SentenceEvents(node, ids, deps, annos)[0] == Node(node)
    ensures forall t :: t in Values(ids) ==> Edge(node, t, AnnisNs, Coverage, "") in SentenceEvents(node, ids, deps, annos)
  {
    var row := EdgeRow(node, Values(ids), Coverage, "");
    var before := [Node(node)] + AnnoLabels(node, annos, |annos|);
    var all := SentenceEvents(node, ids, deps, annos);
    assert all == before + row + DepEvents(deps, ids, |deps|);
    EdgeRowAt(node, Values(ids), Coverage, "");
    forall t | t in Values(ids) ensures Edge(node, t, AnnisNs, Coverage, "") in all {
      var j :| 0 <= j < |Values(ids)| && Values(ids)[j] == t;
      assert all[|before| + j] == row[j];
    }
  }

  /**
   * A mapped sentence returns its token names in increasing id order, and it has a
   * sentence node exactly when it has a token; that node covers every token.
   */
  lemma MapSentenceCovers(log: seq<Event>, docPath: string, s: Sentence)
    ensures MapSentenceOf(log, docPath, s).result.Ok? ==>
      StrictlyIncreasing(Keys(SentScan(docPath, s.members, 0, SentAcc(log, [], [], [])).result.value.ids))
      && MapSentenceOf(log, docPath, s).result.value.names == Values(SentScan(docPath, s.members, 0, SentAcc(log, [], [], [])).result.value.ids)
    ensures MapSentenceOf(log, docPath, s).result.Ok? ==>
      (SentScan(docPath, s.members, 0, SentAcc(log, [], [], [])).result.value.ids == [] <==> forall j :: 0 <= j < |s.members| ==> !s.members[j].Token?)
    ensures MapSentenceOf(log, docPath, s).result.Ok? && MapSentenceOf(log, docPath, s).result.value.names != [] ==>
      Node(SentenceNode(docPath, s)) in MapSentenceOf(log, docPath, s).events
      && forall t :: t in MapSentenceOf(log, docPath, s).result.value.names ==>
           Edge(SentenceNode(docPath, s), t, AnnisNs, Coverage, "") in MapSentenceOf(log, docPath, s).events
  {
    var acc0 := SentAcc(log, [], [], []);
    assert Keys(acc0.ids) == [];
    SentScanIds(docPath, s.members, 0, acc0);
    var sc := SentScan(docPath, s.members, 0, acc0);
    if sc.result.Ok? && sc.result.value.ids != [] {
      var acc := sc.result.value;
      SentenceEventsCover(SentenceNode(docPath, s), acc.ids, acc.deps, acc.annos);
    }
  }

  /** The events of one dependency hold its pointing edge exactly when the head is a known token other than the root. */
  lemma DepOneEdge(d: Dep, ids: seq<(nat, string)>, source: string, target: string)
    ensures Edge(source, target, "", Pointing, DepName) in DepOne(d, ids) <==>
      d.target == target && d.head > 0 && Get(ids, d.head) == Some(source)
  {
  }

  /** There is a pointing edge from `source` to `target` exactly when some dependency of `target` has the known, non-root head `source`. */
  lemma {:induction false} DepEdgeIff(deps: seq<Dep>, ids: seq<(nat, string)>, k: nat, source: string, target: string)
    requires k <= |deps|
    ensures Edge(source, target, "", Pointing, DepName) in DepEvents(deps, ids, k) <==>
      exists j :: 0 <= j < k && deps[j].target == target && deps[j].head > 0 && Get(ids, deps[j].head) == Some(source)
  {
    if k > 0 {
      DepEdgeIff(deps, ids, k - 1, source, target);
      DepOneEdge(deps[k - 1], ids, source, target);
    }
  }

  lemma DepOneDeprel(d: Dep, ids: seq<(nat, string)>, source: string, target: string, v: string)
    ensures AddEdgeLabel(source, target, "", TypeName(Pointing), DepName, "", DeprelKey, v) in DepOne(d, ids) <==>
      d.target == target && d.head > 0 && Get(ids, d.head) == Some(source) && d.deprel == Some(v)
  {
  }

  /** There is a relation label exactly when some such dependency also carries that relation. */
  lemma {:induction false} DeprelIff(deps: seq<Dep>, ids: seq<(nat, string)>, k: nat, source: string, target: string, v: string)
    requires k <= |deps|
    ensures AddEdgeLabel(source, target, "", TypeName(Pointing), DepName, "", DeprelKey, v) in DepEvents(deps, ids, k) <==>
      exists j :: 0 <= j < k && deps[j].target == target && deps[j].head > 0 && Get(ids, deps[j].head) == Some(source) && deps[j].deprel == Some(v)
  {
    if k > 0 {
      DeprelIff(deps, ids, k - 1, source, target, v);
      DepOneDeprel(deps[k - 1], ids, source, target, v);
    }
  }

  /** A head is reported exactly when some dependency names it, it is not the root and no token has it as id. */
  lemma {:induction false} UnknownHeadsIff(deps: seq<Dep>, ids: seq<(nat, string)>, k: nat, h: nat)
    requires k <= |deps|
    ensures h in UnknownHeads(deps, ids, k) <==> exists j :: 0 <= j < k && deps[j].head == h && h > 0 && Get(ids, h).None?
  {
    if k > 0 {
      UnknownHeadsIff(deps, ids, k - 1, h);
    }
  }

  /** A mapped document orders its tokens: each token name is followed by the next one. */
  lemma MapDocumentOrders(log: seq<Event>, docPath: string, children: seq<ConllChild>)
    ensures MapDocumentOf(log, docPath, Some(children)).result.Ok? ==>
      forall i :: 0 <= i < |DocScan(docPath, children, 0, log, []).result.value| - 1 ==>
        Edge(DocScan(docPath, children, 0, log, []).result.value[i], DocScan(docPath, children, 0, log, []).result.value[i + 1], AnnisNs, Ordering, "")
        in MapDocumentOf(log, docPath, Some(children)).events
  {
    var o := DocScan(docPath, children, 0, log, []);
    if o.result.Ok? {
      var names := o.result.value;
      ChainAt(names, AnnisNs, Ordering, "");
      forall i | 0 <= i < |names| - 1
        ensures Edge(names[i], names[i + 1], AnnisNs, Ordering, "") in o.events + Chain(names, AnnisNs, Ordering, "")
      {
        assert (o.events + Chain(names, AnnisNs, Ordering, ""))[|o.events| + i] == Chain(names, AnnisNs, Ordering, "")[i];
      }
    }
  }

  // ---------------------------------------------------------------- the importer

  /** The label of one feature, appended once both its name and its value are seen. */
  method MapFeature(u: Update, node: string, parts: seq<FeaturePart>)
    modifies u
    ensures u.events == old(u.events) + FeatureEvents(node, parts, 0, None, None)
  {
    var name: Option<string> := None;
    var value: Option<string> := None;
    var i := 0;
    while i < |parts|
      invariant 0 <= i <= |parts|
      invariant old(u.events) + FeatureEvents(node, parts, 0, None, None) == u.events + FeatureEvents(node, parts, i, name, value)
      decreases |parts| - i
    {
      if parts[i].FName? {
        name := Some(parts[i].text);
      } else if parts[i].FValue? {
        value := Some(parts[i].text);
      }
      if name.Some? && value.Some? {
        u.Add(AddNodeLabel(node, "", Trim(name.value), Trim(value.value)));
        return;
      }
      i := i + 1;
    }
  }

  /** The labels of a FEATS or MISC column; a `_` entry ends the column. */
  method MapItems(u: Update, node: string, items: seq<FeatureItem>)
    modifies u
    ensures u.events == old(u.events) + ItemEvents(node, items, 0)
  {
    var i := 0;
    while i < |items|
      invariant 0 <= i <= |items|
      invariant old(u.events) + ItemEvents(node, items, 0) == u.events + ItemEvents(node, items, i)
      decreases |items| - i
    {
      match items[i] {
      case NoValue =>
        return;
      case OtherItem =>
      case Feature(parts) =>
        ghost var before := u.events;
        MapFeature(u, node, parts);
        AppendAssoc(before, FeatureEvents(node, parts, 0, None, None), ItemEvents(node, items, i + 1));
      }
      i := i + 1;
    }
  }

  /** The first id of a HEAD column, trimmed and parsed. */
  method FindHead(parts: seq<HeadPart>) returns (h: Option<Result<nat>>)
    ensures h == HeadOf(parts, 0)
  {
    var i := 0;
    while i < |parts|
      invariant 0 <= i <= |parts|
      invariant HeadOf(parts, 0) == HeadOf(parts, i)
      decreases |parts| - i
    {
      if parts[i].HeadId? {
        return Some(ParseUsize(Trim(parts[i].text)));
      }
      i := i + 1;
    }
    return None;
  }

  /**
   * One column of a token line, given the id, head and relation seen so far: appends its
   * labels, or fails on an id or head that does not parse.
   */
  method MapMember(u: Update, node: string, m: TokenMember, id: Option<nat>, head: Option<nat>, deprel: Option<string>)
    returns (r: Result<(Option<nat>, Option<nat>, Option<string>)>)
    modifies u
    ensures MemberStep(node, m, TokAcc(old(u.events), id, head, deprel))
      == if r.Err? then Err(r.msg) else Ok(TokAcc(u.events, r.value.0, r.value.1, r.value.2))
    ensures r.Err? ==> u.events == old(u.events)
  {
    match m {
    case Id(text) =>
      var p := ParseUsize(text);
      if p.Err? {
        return Err(p.msg);
      }
      return Ok((Some(p.value), head, deprel));
    case Form(text) =>
      u.Add(AddNodeLabel(node, AnnisNs, TokKey, text));
    case Lemma(text) =>
      u.Add(AddNodeLabel(node, "", "lemma", text));
    case Upos(text) =>
      u.Add(AddNodeLabel(node, "", "upos", text));
    case Xpos(text) =>
      u.Add(AddNodeLabel(node, "", "xpos", text));
    case Features(items) =>
      MapItems(u, node, items);
    case Misc(items) =>
      MapItems(u, node, items);
    case Head(parts) =>
      var h := FindHead(parts);
      if h.Some? {
        if h.value.Err? {
          return Err(h.value.msg);
        }
        return Ok((id, Some(h.value.value), deprel));
      }
    case Deprel(text) =>
      return Ok((id, head, Some(Trim(text))));
    case OtherMember =>
    }
    r := Ok((id, head, deprel));
  }

  /** `map_token`: appends the token's node and labels; fails on an id or head that does not parse, or without an id. */
  method MapToken(u: Update, docPath: string, tok: TokenLine) returns (r: Result<TokenOut>)
    modifies u
    ensures MapTokenOf(old(u.events), docPath, tok) == Outcome(u.events, r)
  {
    var node := TokenNode(docPath, tok);
    u.Add(Node(node));
    u.Add(AddNodeLabel(node, AnnisNs, LayerKey, DefaultLayer));
    ghost var start := u.events;
    assert start == old(u.events) + [Node(node), AddNodeLabel(node, AnnisNs, LayerKey, DefaultLayer)];
    var tokenId: Option<nat> := None;
    var headId: Option<nat> := None;
    var deprel: Option<string> := None;
    var i := 0;
    while i < |tok.members|
      invariant 0 <= i <= |tok.members|
      invariant TokScan(node, tok.members, 0, TokAcc(start, None, None, None)) == TokScan(node, tok.members, i, TokAcc(u.events, tokenId, headId, deprel))
      decreases |tok.members| - i
    {
      var step := MapMember(u, node, tok.members[i], tokenId, headId, deprel);
      if step.Err? {
        return Err(step.msg);
      }
      tokenId, headId, deprel := step.value.0, step.value.1, step.value.2;
      i := i + 1;
    }
    if tokenId.None? {
      return Err(NoIdMsg(tok));
    }
    var dep := if headId.Some? then Some((headId.value, deprel)) else None;
    return Ok(TokenOut(node, tokenId.value, dep));
  }

  /** The comment `# name = value` of a sentence, once both parts are seen. */
  method FindSAnno(parts: seq<SAnnoPart>) returns (a: Option<(string, string)>)
    ensures a == SAnnoOf(parts, 0, None, None)
  {
    var name: Option<string> := None;
    var value: Option<string> := None;
    var i := 0;
    while i < |parts|
      invariant 0 <= i <= |parts|
      invariant SAnnoOf(parts, 0, None, None) == SAnnoOf(parts, i, name, value)
      decreases |parts| - i
    {
      match parts[i] {
      case SName(text) =>
        name := Some(Trim(text));
      case SValue(text) =>
        value := Some(Trim(text));
      case SOtherPart =>
      }
      if name.Some? && value.Some? {
        return Some((name.value, value.value));
      }
      i := i + 1;
    }
    return None;
  }

  /** Appends the edge of one dependency; answers whether its head is the root or a known token. */
  method AddDependency(u: Update, d: Dep, ids: seq<(nat, string)>) returns (known: bool)
    modifies u
    ensures u.events == old(u.events) + DepOne(d, ids)
    ensures known <==> !(d.head > 0 && Get(ids, d.head).None?)
  {
    if d.head == 0 {
      return true;
    }
    var source := Get(ids, d.head);
    if source.None? {
      return false;
    }
    u.Add(Edge(source.value, d.target, "", Pointing, DepName));
    if d.deprel.Some? {
      u.Add(AddEdgeLabel(source.value, d.target, "", TypeName(Pointing), DepName, "", DeprelKey, d.deprel.value));
    }
    return true;
  }

  /** Appends the pointing edges and relation labels of the dependencies and returns the unknown heads. */
  method MapDependencies(u: Update, deps: seq<Dep>, ids: seq<(nat, string)>) returns (unknown: seq<nat>)
    modifies u
    ensures u.events == old(u.events) + DepEvents(deps, ids, |deps|)
    ensures unknown == UnknownHeads(deps, ids, |deps|)
  {
    unknown := [];
    var k := 0;
    while k < |deps|
      invariant 0 <= k <= |deps|
      invariant u.events == old(u.events) + DepEvents(deps, ids, k)
      invariant unknown == UnknownHeads(deps, ids, k)
    {
      var known := AddDependency(u, deps[k], ids);
      assert DepEvents(deps, ids, k + 1) == DepEvents(deps, ids, k) + DepOne(deps[k], ids);
      AppendAssoc(old(u.events), DepEvents(deps, ids, k), DepOne(deps[k], ids));
      if !known {
        unknown := unknown + [deps[k].head];
      }
      k := k + 1;
    }
  }

  /** The sentence node, its annotations, its coverage of the tokens in id order and the dependencies. */
  method AddSentence(u: Update, node: string, ids: seq<(nat, string)>, deps: seq<Dep>, annos: seq<(string, string)>) returns (unknown: seq<nat>)
    requires ids != []
    modifies u
    ensures u.events == old(u.events) + SentenceEvents(node, ids, deps, annos)
    ensures unknown == UnknownHeads(deps, ids, |deps|)
  {
    u.Add(Node(node));
    var j := 0;
    while j < |annos|
      invariant 0 <= j <= |annos|
      invariant u.events == old(u.events) + [Node(node)] + AnnoLabels(node, annos, j)
    {
      u.Add(AddNodeLabel(node, "", annos[j].0, annos[j].1));
      j := j + 1;
    }
    AddEdgeRow(u, node, Values(ids), Coverage, "");
    unknown := MapDependencies(u, deps, ids);
    ghost var labels := AnnoLabels(node, annos, |annos|);
    ghost var row := EdgeRow(node, Values(ids), Coverage, "");
    ghost var dep := DepEvents(deps, ids, |deps|);
    AppendAssoc(old(u.events), [Node(node)], labels);
    AppendAssoc(old(u.events), [Node(node)] + labels, row);
    AppendAssoc(old(u.events), [Node(node)] + labels + row, dep);
  }

  /** `map_sentence`: its tokens first, then the sentence node, its annotations, its coverage and the dependencies. */
  method MapSentence(u: Update, docPath: string, s: Sentence) returns (r: Result<SentenceOut>)
    modifies u
    ensures MapSentenceOf(old(u.events), docPath, s) == Outcome(u.events, r)
  {
    var ids: seq<(nat, string)> := [];
    var deps: seq<Dep> := [];
    var annos: seq<(string, string)> := [];
    var i := 0;
    while i < |s.members|
      invariant 0 <= i <= |s.members|
      invariant SentScan(docPath, s.members, 0, SentAcc(old(u.events), [], [], [])) == SentScan(docPath, s.members, i, SentAcc(u.events, ids, deps, annos))
      decreases |s.members| - i
    {
      match s.members[i] {
      case Token(tok) =>
        var t := MapToken(u, docPath, tok);
        if t.Err? {
          return Err(t.msg);
        }
        ids := MapInsert(ids, t.value.id, t.value.name);
        if t.value.dep.Some? {
          deps := deps + [Dep(t.value.name, t.value.dep.value.0, t.value.dep.value.1)];
        }
      case SAnno(parts) =>
        var a := FindSAnno(parts);
        if a.Some? {
          annos := annos + [a.value];
        }
      case MultiToken =>
      case EmptyNode =>
      case OtherSentenceMember =>
      }
      i := i + 1;
    }
    if ids == [] {
      return Ok(SentenceOut([], []));
    }
    var unknown := AddSentence(u, SentenceNode(docPath, s), ids, deps, annos);
    return Ok(SentenceOut(Values(ids), unknown));
  }

  /** `map_document`: every sentence in turn, then the ordering of all their tokens. */
  method MapDocument(u: Update, docPath: string, parsed: Option<seq<ConllChild>>) returns (r: Result<()>)
    modifies u
    ensures MapDocumentOf(old(u.events), docPath, parsed) == Outcome(u.events, r)
  {
    if parsed.None? {
      return Ok(());
    }
    var children := parsed.value;
    var names: seq<string> := [];
    var i := 0;
    while i < |children|
      invariant 0 <= i <= |children|
      invariant DocScan(docPath, children, 0, old(u.events), []) == DocScan(docPath, children, i, u.events, names)
      decreases |children| - i
    {
      if children[i].SentenceChild? {
        var so := MapSentence(u, docPath, children[i].sentence);
        if so.Err? {
          return Err(so.msg);
        }
        names := names + so.value.names;
      }
      i := i + 1;
    }
    AddChain(u, names, AnnisNs, Ordering, "");
    return Ok(());
  }
}
