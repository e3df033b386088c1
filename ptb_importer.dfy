/**
 * The Python importer of bracketed Penn Treebank trees. The whitespace of a document is
 * normalised, then a stack machine reads it character by character: an innermost
 * bracket `(CAT text)` becomes a token dominated by a fresh structure labelled CAT, any
 * other bracket `(CAT ...)` a structure dominating the structures built inside it. At
 * the end every structure covers the tokens below it and the tokens are ordered.
 */
module PtbImporter {
  import opened Wrappers
  import opened Strings
  import opened Events
  import opened Dicts
  import opened GraphUpdateUtil

  const DefaultNodeAnnoName := "cat"

  // ---------------------------------------------------------------- text normalisation

  /** `clean_text`: the escapes `-LRB-` and `-RRB-` become `(` and `)`, in that order. */
  function CleanText(text: string): string
  {
    ReplaceAll(ReplaceAll(text, "-LRB-", "("), "-RRB-", ")")
  }

  /** Each replacement is a split at the escape and a join with the bracket. */
  lemma CleanTextSplitJoin(text: string)
    ensures CleanText(text) == Join(SplitOn(Join(SplitOn(text, "-LRB-"), "("), "-RRB-"), ")")
  {
    ReplaceAllSplitOn(text, "-LRB-", "(");
    ReplaceAllSplitOn(ReplaceAll(text, "-LRB-", "("), "-RRB-", ")");
  }

  /** Text without a hyphen holds no escape and is left as it is. */
  lemma CleanTextNoHyphen(text: string)
    requires forall i :: 0 <= i < |text| ==> text[i] != '-'
    ensures CleanText(text) == text
  {
    forall j: nat ensures !OccursAt(text, "-LRB-", j) && !OccursAt(text, "-RRB-", j) {
      if j + 5 <= |text| {
        assert text[j..j + 5][0] == text[j];
      }
    }
    ReplaceAllAbsent(text, "-LRB-", "(");
    ReplaceAllAbsent(text, "-RRB-", ")");
  }

  /**
   * The whitespace substitution: every maximal run of whitespace becomes one space. The
   * result holds no whitespace but single spaces, and starts like the input.
   */
  function Squeeze(s: string): (r: string)
    ensures forall i :: 0 <= i < |r| && IsSpace(r[i]) ==> r[i] == ' '
    ensures forall i :: 0 <= i < |r| - 1 ==> !(IsSpace(r[i]) && IsSpace(r[i + 1]))
    ensures |s| > 0 <==> |r| > 0
    ensures |s| > 0 ==> (IsSpace(s[0]) ==> r[0] == ' ') && (!IsSpace(s[0]) ==> r[0] == s[0])
    decreases |s|
  {
    if |s| == 0 then ""
    else if IsSpace(s[0]) then
      var rest := TrimStart(s);
      TrimStartShape(s);
      " " + Squeeze(rest)
    else [s[0]] + Squeeze(s[1..])
  }

  /** The characters that are not whitespace, in order. */
  function Visible(s: string): string
  {
    if |s| == 0 then ""
    else if IsSpace(s[0]) then Visible(s[1..])
    else [s[0]] + Visible(s[1..])
  }

  lemma {:induction false} VisibleTrimStart(s: string)
    ensures Visible(TrimStart(s)) == Visible(s)
    decreases |s|
  {
    if |s| > 0 && IsSpace(s[0]) {
      VisibleTrimStart(s[1..]);
    }
  }

  /** Squeezing whitespace keeps every other character, in order. */
  lemma {:induction false} SqueezeVisible(s: string)
    ensures Visible(Squeeze(s)) == Visible(s)
    decreases |s|
  {
    if |s| > 0 {
      if IsSpace(s[0]) {
        var rest := TrimStart(s);
        TrimStartShape(s);
        SqueezeVisible(rest);
        VisibleTrimStart(s);
        assert (" " + Squeeze(rest))[1..] == Squeeze(rest);
      } else {
        SqueezeVisible(s[1..]);
        assert ([s[0]] + Squeeze(s[1..]))[1..] == Squeeze(s[1..]);
      }
    }
  }

  // ---------------------------------------------------------------- the machine

  /** The settings of an import: the document, the optional layer and the category label's name. */
  datatype Config = Config(docPath: string, layerName: Option<string>, nodeAnnoName: string)

  /** The configured layer's name, or the empty name when no layer is configured. */
  function Layer(cfg: Config): string
  {
    if cfg.layerName.Some? then cfg.layerName.value else ""
  }

  /**
   * The state between two characters: the open brackets with the atoms read inside each
   * (`stack`), the number of pending structures when each was opened (`indexStack`), the
   * structures not yet taken by a parent (`children`), the atom being read (`val`), the
   * number of structures, the tokens, and the tokens each structure covers
   * (`covered_tokens`, a dictionary in insertion order).
   */
  datatype Machine = Machine(stack: seq<seq<string>>, indexStack: seq<nat>, children: seq<string>, val: string,
                             sCount: nat, tokens: seq<string>, covered: seq<(string, seq<string>)>)

  const Start := Machine([], [], [], "", 0, [], [])

  const NoOpenBracket := "IndexError: no open bracket"
  const LeafArity := "ValueError: a leaf bracket holds a category and one text"
  const PhraseArity := "ValueError: a phrase bracket holds only a category"

  /** Python's `xs[i:]` for `i >= 0`. */
  function SliceFrom(xs: seq<string>, i: nat): seq<string>
  {
    if i <= |xs| then xs[i..] else []
  }

  /** Python's `xs[:i]` for `i >= 0`. */
  function SliceTo(xs: seq<string>, i: nat): seq<string>
  {
    if i <= |xs| then xs[..i] else xs
  }

  /** `d[k]` of a `defaultdict(list)`, read without its side effect. */
  function Covering(d: seq<(string, seq<string>)>, k: string): seq<string>
  {
    match Get(d, k)
    case Some(v) => v
    case None => []
  }

  /** The side effect of reading `d[k]`: an absent key is inserted with an empty list. */
  function Touch(d: seq<(string, seq<string>)>, k: string): seq<(string, seq<string>)>
  {
    if Get(d, k).Some? then d else Put(d, k, [])
  }

  /** The tokens of every child, child by child, appended to the tokens of `s`. */
  function Absorb(d: seq<(string, seq<string>)>, s: string, kids: seq<string>): seq<(string, seq<string>)>
  {
    if |kids| == 0 then d
    else
      var kid := kids[|kids| - 1];
      var d' := Touch(Touch(Absorb(d, s, kids[..|kids| - 1]), s), kid);
      Put(d', s, Covering(d', s) + Covering(d', kid))
  }

  function Top(m: Machine): seq<string>
    requires |m.stack| > 0
  {
    m.stack[|m.stack| - 1]
  }

  /** Whether `)` closes a phrase: no atom is pending and the innermost bracket holds one. */
  predicate ClosesPhrase(m: Machine)
  {
    m.val == "" && |m.stack| > 0 && Top(m) != []
  }

  /** `)` after an atom: a token under a new structure, whose category is the frame's first atom. */
  function CloseLeaf(cfg: Config, m: Machine): Machine
    requires |m.stack| > 0 && |m.indexStack| > 0
  {
    var n := m.sCount + 1;
    var tok := TokenId(cfg.docPath, |m.tokens| + 1);
    var s := StructId(cfg.docPath, n);
    m.(stack := m.stack[..|m.stack| - 1], indexStack := m.indexStack[..|m.indexStack| - 1],
       children := m.children + [s], val := "", sCount := n, tokens := m.tokens + [tok],
       covered := Put(m.covered, s, Covering(m.covered, s) + [tok]))
  }

  /** `)` of a phrase: a new structure takes the place of the structures built since its `(`. */
  function ClosePhrase(cfg: Config, m: Machine): Machine
    requires |m.stack| > 0 && |m.indexStack| > 0
  {
    var n := m.sCount + 1;
    var s := StructId(cfg.docPath, n);
    var ci := m.indexStack[|m.indexStack| - 1];
    m.(stack := m.stack[..|m.stack| - 1], indexStack := m.indexStack[..|m.indexStack| - 1],
       children := SliceTo(m.children, ci) + [s], sCount := n,
       covered := Absorb(m.covered, s, SliceFrom(m.children, ci)))
  }

  /** One character of the loop, with the exceptions Python raises as errors. */
  function Step(cfg: Config, m: Machine, c: char): Result<Machine>
  {
    if c == '(' then
      if |m.stack| == 0 || Top(m) != [] then
        Ok(m.(stack := m.stack + [[]], indexStack := m.indexStack + [|m.children|]))
      else Ok(m)
    else if c == ')' then
      if m.val != "" then
        if |m.stack| == 0 then Err(NoOpenBracket)
        else if |Top(m)| != 1 then Err(LeafArity)
        else if |m.indexStack| == 0 then Err(NoOpenBracket)
        else Ok(CloseLeaf(cfg, m))
      else if ClosesPhrase(m) then
        if |Top(m)| != 1 then Err(PhraseArity)
        else if |m.indexStack| == 0 then Err(NoOpenBracket)
        else Ok(ClosePhrase(cfg, m))
      else Ok(m)
    else if c == ' ' then
      if m.val == "" then Ok(m)
      else if |m.stack| == 0 then Err(NoOpenBracket)
      else Ok(m.(stack := m.stack[..|m.stack| - 1] + [Top(m) + [m.val]], val := ""))
    else Ok(m.(val := m.val + [c]))
  }

  /** The token and its structure (lines 55-57, with the layer passed as the edge layer). */
  function LeafEvents(cfg: Config, m: Machine): seq<Event>
    requires |m.stack| > 0 && |Top(m)| == 1
  {
    var tok := TokenId(cfg.docPath, |m.tokens| + 1);
    TokenEvents(cfg.docPath, |m.tokens| + 1, Layer(cfg), CleanText(m.val), None, None)
    + LabelledNodeEvents(StructId(cfg.docPath, m.sCount + 1), Layer(cfg), cfg.nodeAnnoName, Top(m)[0],
                         [tok], Dominance, Layer(cfg))
  }

  /** The structure of a phrase (line 64, with the layer passed as the edge layer). */
  function PhraseEvents(cfg: Config, m: Machine): seq<Event>
    requires |m.stack| > 0 && |Top(m)| == 1 && |m.indexStack| > 0
  {
    LabelledNodeEvents(StructId(cfg.docPath, m.sCount + 1), Layer(cfg), cfg.nodeAnnoName, Top(m)[0],
                       SliceFrom(m.children, m.indexStack[|m.indexStack| - 1]), Dominance, Layer(cfg))
  }

  /** The events one character appends; a character that raises appends none. */
  function Emitted(cfg: Config, m: Machine, c: char): seq<Event>
  {
    if c != ')' || Step(cfg, m, c).Err? then []
    else if m.val != "" then LeafEvents(cfg, m)
    else if ClosesPhrase(m) then PhraseEvents(cfg, m)
    else []
  }

  /** The machine after the first k characters; the first error stops it. */
  function Run(cfg: Config, text: string, k: nat): Result<Machine>
    requires k <= |text|
  {
    if k == 0 then Ok(Start)
    else
      match Run(cfg, text, k - 1)
      case Err(e) => Err(e)
      case Ok(m) => Step(cfg, m, text[k - 1])
  }

  /** The events of the first k characters, up to the first error. */
  function RunEvents(cfg: Config, text: string, k: nat): seq<Event>
    requires k <= |text|
  {
    if k == 0 then []
    else
      match Run(cfg, text, k - 1)
      case Err(_) => RunEvents(cfg, text, k - 1)
      case Ok(m) => RunEvents(cfg, text, k - 1) + Emitted(cfg, m, text[k - 1])
  }

  /** The coverage edges of the first k dictionary entries, in insertion order. */
  function CoverageEvents(covered: seq<(string, seq<string>)>, k: nat): seq<Event>
    requires k <= |covered|
  {
    if k == 0 then []
    else CoverageEvents(covered, k - 1) + EdgeEvents([covered[k - 1].0], covered[k - 1].1, Coverage, "")
  }

  /** What follows the loop: coverage, the unnamed token order and the order named by the layer. */
  function FinalEvents(cfg: Config, m: Machine): seq<Event>
  {
    CoverageEvents(m.covered, |m.covered|)
    + Chain(m.tokens, AnnisNs, Ordering, "")
    + (if Layer(cfg) != "" then Chain(m.tokens, AnnisNs, Ordering, Layer(cfg)) else [])
  }

  /** Everything `map_document` appends for a text it reads to the end. */
  function DocumentEvents(cfg: Config, text: string): seq<Event>
    requires Run(cfg, text, |text|).Ok?
  {
    RunEvents(cfg, text, |text|) + FinalEvents(cfg, Run(cfg, text, |text|).value)
  }

  // ---------------------------------------------------------------- covered tokens

  /** The tokens a dictionary assigns to the keys, one list after the other. */
  function Gather(d: seq<(string, seq<string>)>, kids: seq<string>): seq<string>
  {
    if |kids| == 0 then [] else Gather(d, kids[..|kids| - 1]) + Covering(d, kids[|kids| - 1])
  }

  /** Every token a dictionary assigns is one of `toks`. */
  ghost predicate CoveredWithin(d: seq<(string, seq<string>)>, toks: seq<string>)
  {
    forall k, t :: t in Covering(d, k) ==> t in toks
  }

  lemma CoveringPut(d: seq<(string, seq<string>)>, k: string, v: seq<string>, k': string)
    ensures Covering(Put(d, k, v), k') == if k' == k then v else Covering(d, k')
  {
    PutGet(d, k, v, k');
  }

  lemma CoveringTouch(d: seq<(string, seq<string>)>, k: string, k': string)
    ensures Covering(Touch(d, k), k') == Covering(d, k')
  {
    if Get(d, k).None? {
      CoveringPut(d, k, [], k');
    }
  }

  lemma TouchKeys(d: seq<(string, seq<string>)>, k: string)
    requires DistinctKeys(d)
    ensures DistinctKeys(Touch(d, k))
    ensures forall k' :: k' in Keys(Touch(d, k)) <==> k' in Keys(d) || k' == k
  {
    GetKeys(d, k);
    PutKeys(d, k, []);
    PutDistinct(d, k, []);
  }

  /**
   * Absorbing the children gives the new structure the children's tokens, in the order
   * of the children, and leaves every other entry as it was.
   */
  lemma {:induction false} AbsorbCovering(d: seq<(string, seq<string>)>, s: string, kids: seq<string>, k: string)
    requires s !in kids && Covering(d, s) == []
    ensures Covering(Absorb(d, s, kids), k) == if k == s then Gather(d, kids) else Covering(d, k)
    decreases |kids|
  {
    if |kids| > 0 {
      var kid := kids[|kids| - 1];
      var d1 := Absorb(d, s, kids[..|kids| - 1]);
      var d2 := Touch(Touch(d1, s), kid);
      AbsorbCovering(d, s, kids[..|kids| - 1], k);
      AbsorbCovering(d, s, kids[..|kids| - 1], s);
      AbsorbCovering(d, s, kids[..|kids| - 1], kid);
      CoveringTouch(d1, s, s);
      CoveringTouch(Touch(d1, s), kid, s);
      CoveringTouch(d1, s, kid);
      CoveringTouch(Touch(d1, s), kid, kid);
      CoveringTouch(d1, s, k);
      CoveringTouch(Touch(d1, s), kid, k);
      CoveringPut(d2, s, Covering(d2, s) + Covering(d2, kid), k);
    }
  }

  /** Absorbing keeps the keys distinct and adds only the structure and the children. */
  lemma {:induction false} AbsorbKeys(d: seq<(string, seq<string>)>, s: string, kids: seq<string>)
    requires DistinctKeys(d)
    ensures DistinctKeys(Absorb(d, s, kids))
    ensures forall k :: k in Keys(Absorb(d, s, kids)) ==> k in Keys(d) || k == s || k in kids
    decreases |kids|
  {
    if |kids| > 0 {
      var kid := kids[|kids| - 1];
      var d1 := Absorb(d, s, kids[..|kids| - 1]);
      AbsorbKeys(d, s, kids[..|kids| - 1]);
      TouchKeys(d1, s);
      TouchKeys(Touch(d1, s), kid);
      var d2 := Touch(Touch(d1, s), kid);
      PutKeys(d2, s, Covering(d2, s) + Covering(d2, kid));
      PutDistinct(d2, s, Covering(d2, s) + Covering(d2, kid));
    }
  }

  /** Absorbing moves tokens between entries and brings in none. */
  lemma {:induction false} AbsorbWithin(d: seq<(string, seq<string>)>, s: string, kids: seq<string>, toks: seq<string>)
    requires CoveredWithin(d, toks)
    ensures CoveredWithin(Absorb(d, s, kids), toks)
    decreases |kids|
  {
    if |kids| > 0 {
      var kid := kids[|kids| - 1];
      var d1 := Absorb(d, s, kids[..|kids| - 1]);
      AbsorbWithin(d, s, kids[..|kids| - 1], toks);
      var d2 := Touch(Touch(d1, s), kid);
      forall k, t | t in Covering(Absorb(d, s, kids), k) ensures t in toks {
        CoveringTouch(d1, s, k);
        CoveringTouch(Touch(d1, s), kid, k);
        CoveringTouch(d1, s, s);
        CoveringTouch(Touch(d1, s), kid, s);
        CoveringTouch(d1, s, kid);
        CoveringTouch(Touch(d1, s), kid, kid);
        CoveringPut(d2, s, Covering(d2, s) + Covering(d2, kid), k);
      }
    }
  }

  // ---------------------------------------------------------------- the invariant

  /** The ids of the first n tokens of a document. */
  function TokenIds(docPath: string, n: nat): seq<string>
  {
    if n == 0 then [] else TokenIds(docPath, n - 1) + [TokenId(docPath, n)]
  }

  /** The ids of the first n structures of a document. */
  function StructIds(docPath: string, n: nat): seq<string>
  {
    if n == 0 then [] else StructIds(docPath, n - 1) + [StructId(docPath, n)]
  }

  /** The next structure id is not one of the earlier ones. */
  lemma StructIdFresh(docPath: string, n: nat)
    ensures StructId(docPath, n + 1) !in StructIds(docPath, n)
  {
    if StructId(docPath, n + 1) in StructIds(docPath, n) {
      StructIdsBelow(docPath, n, StructId(docPath, n + 1));
      var i: nat :| 1 <= i <= n && StructId(docPath, n + 1) == StructId(docPath, i);
      IdsInjective(docPath, i, n + 1);
    }
  }

  /** A structure id among the first n is the id of one of them. */
  lemma {:induction false} StructIdsBelow(docPath: string, n: nat, s: string)
    requires s in StructIds(docPath, n)
    ensures exists i: nat :: 1 <= i <= n && s == StructId(docPath, i)
  {
    if s != StructId(docPath, n) {
      StructIdsBelow(docPath, n - 1, s);
    }
  }

  /**
   * The facts the loop keeps: a pending-children count for each open bracket, never
   * beyond the pending structures and never decreasing inwards; the tokens numbered
   * from 1; the pending structures and the dictionary's keys among the structures
   * made so far; one entry per key; and only tokens in the dictionary.
   */
  ghost predicate WellFormed(cfg: Config, m: Machine)
  {
    && |m.indexStack| == |m.stack|
    && (forall i :: 0 <= i < |m.indexStack| ==> m.indexStack[i] <= |m.children|)
    && (forall i, j :: 0 <= i < j < |m.indexStack| ==> m.indexStack[i] <= m.indexStack[j])
    && m.tokens == TokenIds(cfg.docPath, |m.tokens|)
    && (forall i :: 0 <= i < |m.children| ==> m.children[i] in StructIds(cfg.docPath, m.sCount))
    && DistinctKeys(m.covered)
    && (forall k :: k in Keys(m.covered) ==> k in StructIds(cfg.docPath, m.sCount))
    && CoveredWithin(m.covered, m.tokens)
  }

  lemma StartWellFormed(cfg: Config)
    ensures WellFormed(cfg, Start)
  {
  }

  /** In a well-formed state the next structure id is still unused. */
  lemma NextStructFresh(cfg: Config, m: Machine)
    requires WellFormed(cfg, m)
    ensures StructId(cfg.docPath, m.sCount + 1) !in m.children
    ensures Covering(m.covered, StructId(cfg.docPath, m.sCount + 1)) == []
  {
    var s := StructId(cfg.docPath, m.sCount + 1);
    StructIdFresh(cfg.docPath, m.sCount);
    GetKeys(m.covered, s);
  }

  lemma {:induction false} CloseLeafWellFormed(cfg: Config, m: Machine)
    requires WellFormed(cfg, m) && |m.stack| > 0
    ensures WellFormed(cfg, CloseLeaf(cfg, m))
  {
    var m' := CloseLeaf(cfg, m);
    var s := StructId(cfg.docPath, m.sCount + 1);
    var tok := TokenId(cfg.docPath, |m.tokens| + 1);
    var v := Covering(m.covered, s) + [tok];
    PutKeys(m.covered, s, v);
    PutDistinct(m.covered, s, v);
    forall k, t | t in Covering(m'.covered, k) ensures t in m'.tokens {
      CoveringPut(m.covered, s, v, k);
    }
    assert StructIds(cfg.docPath, m'.sCount) == StructIds(cfg.docPath, m.sCount) + [s];
  }

  lemma {:induction false} ClosePhraseWellFormed(cfg: Config, m: Machine)
    requires WellFormed(cfg, m) && |m.stack| > 0
    ensures WellFormed(cfg, ClosePhrase(cfg, m))
  {
    var m' := ClosePhrase(cfg, m);
    var s := StructId(cfg.docPath, m.sCount + 1);
    var ci := m.indexStack[|m.indexStack| - 1];
    var kids := SliceFrom(m.children, ci);
    assert kids == m.children[ci..];
    assert |m'.children| == ci + 1;
    AbsorbKeys(m.covered, s, kids);
    AbsorbWithin(m.covered, s, kids, m.tokens);
    assert StructIds(cfg.docPath, m'.sCount) == StructIds(cfg.docPath, m.sCount) + [s];
    forall k | k in Keys(m'.covered) ensures k in StructIds(cfg.docPath, m'.sCount) {
      if k in kids {
        assert k in m.children;
      }
    }
    forall i | 0 <= i < |m'.children| ensures m'.children[i] in StructIds(cfg.docPath, m'.sCount) {
      if i < ci {
        assert m'.children[i] == m.children[i];
      }
    }
  }

  /** Every step keeps the invariant. */
  lemma {:induction false} StepWellFormed(cfg: Config, m: Machine, c: char)
    requires WellFormed(cfg, m) && Step(cfg, m, c).Ok?
    ensures WellFormed(cfg, Step(cfg, m, c).value)
  {
    if c == ')' && m.val != "" {
      CloseLeafWellFormed(cfg, m);
    } else if c == ')' && ClosesPhrase(m) {
      ClosePhraseWellFormed(cfg, m);
    }
  }

  /** Every state the run reaches is well formed. */
  lemma {:induction false} RunWellFormed(cfg: Config, text: string, k: nat)
    requires k <= |text| && Run(cfg, text, k).Ok?
    ensures WellFormed(cfg, Run(cfg, text, k).value)
  {
    if k > 0 {
      RunWellFormed(cfg, text, k - 1);
      StepWellFormed(cfg, Run(cfg, text, k - 1).value, text[k - 1]);
    }
  }

  // ---------------------------------------------------------------- what a step does

  /**
   * A character fails only where Python raises: `)` or a space after an atom with no
   * open bracket, a leaf bracket that does not hold exactly a category and the atom,
   * a phrase bracket that holds more than its category. In a well-formed state the
   * index stack never runs empty before the bracket stack.
   */
  lemma StepErrors(cfg: Config, m: Machine, c: char)
    requires WellFormed(cfg, m)
    ensures Step(cfg, m, c).Err? <==>
      || (c == ')' && m.val != "" && (|m.stack| == 0 || |Top(m)| != 1))
      || (c == ')' && ClosesPhrase(m) && |Top(m)| != 1)
      || (c == ' ' && m.val != "" && |m.stack| == 0)
  {
  }

  /** `(` opens a bracket unless the innermost one is still empty; nothing else changes. */
  lemma OpenBracket(cfg: Config, m: Machine)
    ensures Step(cfg, m, '(').Ok?
    ensures var m' := Step(cfg, m, '(').value;
      && (|m'.stack| == |m.stack| + 1 <==> |m.stack| == 0 || Top(m) != [])
      && m'.children == m.children && m'.tokens == m.tokens && m'.covered == m.covered
      && Emitted(cfg, m, '(') == []
  {
  }

  /**
   * `)` after an atom adds the next token in document order and a new structure that
   * covers exactly that token; the bracket is closed and no other coverage changes.
   */
  lemma CloseLeafToken(cfg: Config, m: Machine)
    requires WellFormed(cfg, m) && m.val != "" && Step(cfg, m, ')').Ok?
    ensures var m' := Step(cfg, m, ')').value;
      var tok := TokenId(cfg.docPath, |m.tokens| + 1);
      var s := StructId(cfg.docPath, m.sCount + 1);
      && s !in m.children
      && m'.tokens == m.tokens + [tok]
      && m'.children == m.children + [s]
      && |m'.stack| == |m.stack| - 1
      && Covering(m'.covered, s) == [tok]
      && (forall k :: k != s ==> Covering(m'.covered, k) == Covering(m.covered, k))
  {
    var s := StructId(cfg.docPath, m.sCount + 1);
    var tok := TokenId(cfg.docPath, |m.tokens| + 1);
    NextStructFresh(cfg, m);
    forall k ensures Covering(Step(cfg, m, ')').value.covered, k) == if k == s then [tok] else Covering(m.covered, k) {
      CoveringPut(m.covered, s, Covering(m.covered, s) + [tok], k);
    }
  }

  /**
   * `)` of a phrase replaces the structures built since its `(` by one new structure,
   * which covers their tokens in order; tokens and all other coverage stay.
   */
  lemma ClosePhraseCovers(cfg: Config, m: Machine)
    requires WellFormed(cfg, m) && ClosesPhrase(m) && Step(cfg, m, ')').Ok?
    ensures var m' := Step(cfg, m, ')').value;
      var ci := m.indexStack[|m.indexStack| - 1];
      var s := StructId(cfg.docPath, m.sCount + 1);
      && ci <= |m.children|
      && m'.children == m.children[..ci] + [s]
      && m'.tokens == m.tokens
      && |m'.stack| == |m.stack| - 1
      && Covering(m'.covered, s) == Gather(m.covered, m.children[ci..])
      && (forall k :: k != s ==> Covering(m'.covered, k) == Covering(m.covered, k))
  {
    var s := StructId(cfg.docPath, m.sCount + 1);
    var ci := m.indexStack[|m.indexStack| - 1];
    NextStructFresh(cfg, m);
    var kids := m.children[ci..];
    assert SliceFrom(m.children, ci) == kids;
    assert s !in kids;
    forall k ensures Covering(Absorb(m.covered, s, kids), k) == if k == s then Gather(m.covered, kids) else Covering(m.covered, k) {
      AbsorbCovering(m.covered, s, kids, k);
    }
  }

  /** A space ends the atom and files it in the innermost bracket; other characters extend it. */
  lemma ReadAtom(cfg: Config, m: Machine, c: char)
    requires c != '(' && c != ')' && Step(cfg, m, c).Ok?
    ensures var m' := Step(cfg, m, c).value;
      && m'.children == m.children && m'.tokens == m.tokens && m'.covered == m.covered
      && (c == ' ' && m.val != "" ==> m'.val == "" && |m'.stack| == |m.stack| && Top(m') == Top(m) + [m.val])
      && (c != ' ' ==> m'.val == m.val + [c] && m'.stack == m.stack)
      && Emitted(cfg, m, c) == []
  {
  }

  /** The events of a leaf are the token's, with the clean text as its value, then the structure's. */
  lemma LeafEventsSplit(cfg: Config, m: Machine)
    requires |m.stack| > 0 && |Top(m)| == 1
    ensures var tok := TokenId(cfg.docPath, |m.tokens| + 1);
      var s := StructId(cfg.docPath, m.sCount + 1);
      var named := if cfg.nodeAnnoName != "" then [AddNodeLabel(s, Layer(cfg), cfg.nodeAnnoName, Top(m)[0])] else [];
      LeafEvents(cfg, m) == TokenEvents(cfg.docPath, |m.tokens| + 1, Layer(cfg), CleanText(m.val), None, None)
                            + ([Node(s)] + named + [Edge(s, tok, AnnisNs, Dominance, Layer(cfg))])
  {
    var tok := TokenId(cfg.docPath, |m.tokens| + 1);
    var s := StructId(cfg.docPath, m.sCount + 1);
    assert EdgeRow(s, [tok], Dominance, Layer(cfg)) == [Edge(s, tok, AnnisNs, Dominance, Layer(cfg))] by {
      assert [tok][..0] == [];
    }
  }

  /**
   * A leaf's events start with the token and its clean text; the structure is labelled
   * with the category and has a single dominance edge, to the token, in the component
   * named by the layer.
   */
  lemma LeafEventsContents(cfg: Config, m: Machine)
    requires |m.stack| > 0 && |Top(m)| == 1
    ensures var evs := LeafEvents(cfg, m);
      var tok := TokenId(cfg.docPath, |m.tokens| + 1);
      var s := StructId(cfg.docPath, m.sCount + 1);
      && evs[0] == Node(tok)
      && evs[1] == AddNodeLabel(tok, AnnisNs, TokKey, CleanText(m.val))
      && (cfg.nodeAnnoName != "" ==> AddNodeLabel(s, Layer(cfg), cfg.nodeAnnoName, Top(m)[0]) in evs)
      && Edge(s, tok, AnnisNs, Dominance, Layer(cfg)) in evs
      && (forall e :: e in evs && e.AddEdge? && e.componentType == TypeName(Dominance) ==>
            e == Edge(s, tok, AnnisNs, Dominance, Layer(cfg)))
  {
    LeafEventsSplit(cfg, m);
    TokenEventsNoDominance(cfg.docPath, |m.tokens| + 1, Layer(cfg), CleanText(m.val));
  }

  /** A token's own events hold no dominance edge. */
  lemma TokenEventsNoDominance(docPath: string, id: nat, textName: string, value: string)
    ensures forall e :: e in TokenEvents(docPath, id, textName, value, None, None) ==>
      !(e.AddEdge? && e.componentType == TypeName(Dominance))
  {
    var tok := TokenId(docPath, id);
    assert TokenEvents(docPath, id, textName, value, None, None) == TokenBaseEvents(tok, docPath, textName, value);
  }

  /** The structure of a phrase dominates each structure built since its `(`, in order. */
  lemma PhraseEventsContents(cfg: Config, m: Machine)
    requires WellFormed(cfg, m) && |m.stack| > 0 && |Top(m)| == 1
    ensures var evs := PhraseEvents(cfg, m);
      var s := StructId(cfg.docPath, m.sCount + 1);
      var kids := m.children[m.indexStack[|m.indexStack| - 1]..];
      var k := if cfg.nodeAnnoName != "" then 2 else 1;
      && |evs| == k + |kids|
      && evs[0] == Node(s)
      && (cfg.nodeAnnoName != "" ==> evs[1] == AddNodeLabel(s, Layer(cfg), cfg.nodeAnnoName, Top(m)[0]))
      && (forall j :: 0 <= j < |kids| ==> evs[k + j] == Edge(s, kids[j], AnnisNs, Dominance, Layer(cfg)))
  {
    var ci := m.indexStack[|m.indexStack| - 1];
    assert SliceFrom(m.children, ci) == m.children[ci..];
    LabelledNodeEventsContents(StructId(cfg.docPath, m.sCount + 1), Layer(cfg), cfg.nodeAnnoName, Top(m)[0],
                               m.children[ci..], Dominance, Layer(cfg));
  }

  // ---------------------------------------------------------------- lines 57 and 64 as written

  /**
   * The leaf events as lines 55-57 produce them: the layer (or `''`) is passed in the
   * position of the first target, so it is dominated too, and the edge layer keeps its
   * default `''`.
   */
  function LeafEventsAsWritten(cfg: Config, m: Machine): seq<Event>
    requires |m.stack| > 0 && |Top(m)| == 1
  {
    var tok := TokenId(cfg.docPath, |m.tokens| + 1);
    TokenEvents(cfg.docPath, |m.tokens| + 1, Layer(cfg), CleanText(m.val), None, None)
    + LabelledNodeEvents(StructId(cfg.docPath, m.sCount + 1), Layer(cfg), cfg.nodeAnnoName, Top(m)[0],
                         [Layer(cfg), tok], Dominance, "")
  }

  /** The phrase events as line 64 produces them: the layer (or `''`) is the first target. */
  function PhraseEventsAsWritten(cfg: Config, m: Machine): seq<Event>
    requires |m.stack| > 0 && |Top(m)| == 1 && |m.indexStack| > 0
  {
    LabelledNodeEvents(StructId(cfg.docPath, m.sCount + 1), Layer(cfg), cfg.nodeAnnoName, Top(m)[0],
                       [Layer(cfg)] + SliceFrom(m.children, m.indexStack[|m.indexStack| - 1]), Dominance, "")
  }

  /**
   * As written, without a layer every leaf structure dominates a node named `''`, which
   * is neither the token nor any other node of the document; the corrected events have
   * no such edge.
   */
  lemma LeafAsWrittenDominatesNameless(cfg: Config, m: Machine)
    requires |m.stack| > 0 && |Top(m)| == 1 && cfg.layerName.None?
    ensures var s := StructId(cfg.docPath, m.sCount + 1);
      && Edge(s, "", AnnisNs, Dominance, "") in LeafEventsAsWritten(cfg, m)
      && Edge(s, "", AnnisNs, Dominance, "") !in LeafEvents(cfg, m)
  {
    var s := StructId(cfg.docPath, m.sCount + 1);
    var tok := TokenId(cfg.docPath, |m.tokens| + 1);
    var a := TokenEvents(cfg.docPath, |m.tokens| + 1, "", CleanText(m.val), None, None);
    LabelledNodeTargets(s, "", cfg.nodeAnnoName, Top(m)[0], ["", tok], Dominance, "", "");
    LabelledNodeTargets(s, "", cfg.nodeAnnoName, Top(m)[0], [tok], Dominance, "", "");
    TokenEventsNoDominance(cfg.docPath, |m.tokens| + 1, "", CleanText(m.val));
    assert |tok| > 0;
  }

  /** As written, without a layer every phrase structure dominates the nameless node as well. */
  lemma PhraseAsWrittenDominatesNameless(cfg: Config, m: Machine)
    requires WellFormed(cfg, m) && |m.stack| > 0 && |Top(m)| == 1 && cfg.layerName.None?
    ensures var s := StructId(cfg.docPath, m.sCount + 1);
      && Edge(s, "", AnnisNs, Dominance, "") in PhraseEventsAsWritten(cfg, m)
      && Edge(s, "", AnnisNs, Dominance, "") !in PhraseEvents(cfg, m)
  {
    var s := StructId(cfg.docPath, m.sCount + 1);
    var kids := SliceFrom(m.children, m.indexStack[|m.indexStack| - 1]);
    LabelledNodeTargets(s, "", cfg.nodeAnnoName, Top(m)[0], [""] + kids, Dominance, "", "");
    LabelledNodeTargets(s, "", cfg.nodeAnnoName, Top(m)[0], kids, Dominance, "", "");
    if "" in kids {
      StructIdsBelow(cfg.docPath, m.sCount, "");
    }
  }

  // ---------------------------------------------------------------- the import

  /** Once a character has failed, the run stays failed and appends nothing more. */
  lemma {:induction false} RunErrSticks(cfg: Config, text: string, k: nat, n: nat)
    requires k <= n <= |text| && Run(cfg, text, k).Err?
    ensures Run(cfg, text, n).Err? && RunEvents(cfg, text, n) == RunEvents(cfg, text, k)
    decreases n - k
  {
    if k < n {
      RunErrSticks(cfg, text, k + 1, n);
    }
  }

  lemma RunNext(cfg: Config, text: string, k: nat, m: Machine)
    requires k < |text| && Run(cfg, text, k) == Ok(m)
    ensures Run(cfg, text, k + 1) == Step(cfg, m, text[k])
    ensures RunEvents(cfg, text, k + 1) == RunEvents(cfg, text, k) + Emitted(cfg, m, text[k])
  {
  }

  /** One iteration of the loop over the characters. */
  method Consume(u: Update, cfg: Config, m: Machine, c: char) returns (r: Result<Machine>)
    modifies u
    ensures r == Step(cfg, m, c)
    ensures u.events == old(u.events) + Emitted(cfg, m, c)
  {
    var layer := if cfg.layerName.Some? then cfg.layerName.value else "";
    if c == '(' {
      if |m.stack| == 0 || m.stack[|m.stack| - 1] != [] {
        return Ok(m.(stack := m.stack + [[]], indexStack := m.indexStack + [|m.children|]));
      }
      return Ok(m);
    } else if c == ')' {
      if m.val != "" {
        if |m.stack| == 0 {
          return Err(NoOpenBracket);
        }
        if |m.stack[|m.stack| - 1] + [m.val]| != 2 {
          return Err(LeafArity);
        }
        if |m.indexStack| == 0 {
          return Err(NoOpenBracket);
        }
        var next := ConsumeLeaf(u, cfg, m, layer);
        return Ok(next);
      } else if |m.stack| > 0 && m.stack[|m.stack| - 1] != [] {
        if |m.stack[|m.stack| - 1]| != 1 {
          return Err(PhraseArity);
        }
        if |m.indexStack| == 0 {
          return Err(NoOpenBracket);
        }
        var next := ConsumeClosing(u, cfg, m, layer);
        return Ok(next);
      }
      return Ok(m);
    } else if c == ' ' {
      if m.val == "" {
        return Ok(m);
      }
      if |m.stack| == 0 {
        return Err(NoOpenBracket);
      }
      return Ok(m.(stack := m.stack[..|m.stack| - 1] + [m.stack[|m.stack| - 1] + [m.val]], val := ""));
    }
    return Ok(m.(val := m.val + [c]));
  }

  /** `)` after leaf text: the token, and the structure over it that replaces the open frame. */
  method ConsumeLeaf(u: Update, cfg: Config, m: Machine, layer: string) returns (next: Machine)
    requires |m.stack| > 0 && |Top(m)| == 1 && |m.indexStack| > 0 && layer == Layer(cfg)
    modifies u
    ensures next == CloseLeaf(cfg, m)
    ensures u.events == old(u.events) + LeafEvents(cfg, m)
  {
    var frame := m.stack[|m.stack| - 1] + [m.val];
    var cat, text := frame[0], frame[1];
    var n := m.sCount + 1;
    var tok := MapToken(u, cfg.docPath, |m.tokens| + 1, layer, CleanText(text), None, None);
    var mid := u.events;
    var s := MapHierarchicalAnnotation(u, cfg.docPath, n, layer, cfg.nodeAnnoName, cat, [tok.value], layer);
    AppendAssoc(old(u.events), mid[|old(u.events)|..], u.events[|mid|..]);
    var touched := Covering(m.covered, s);
    next := m.(stack := m.stack[..|m.stack| - 1], indexStack := m.indexStack[..|m.indexStack| - 1],
               children := m.children + [s], val := "", sCount := n, tokens := m.tokens + [tok.value],
               covered := Put(m.covered, s, touched + [tok.value]));
  }

  /** `)` closing a phrase: its structure dominates and covers what was built since its `(`. */
  method ConsumeClosing(u: Update, cfg: Config, m: Machine, layer: string) returns (next: Machine)
    requires |m.stack| > 0 && |Top(m)| == 1 && |m.indexStack| > 0 && layer == Layer(cfg)
    modifies u
    ensures next == ClosePhrase(cfg, m)
    ensures u.events == old(u.events) + PhraseEvents(cfg, m)
  {
    var frame := m.stack[|m.stack| - 1];
    var n := m.sCount + 1;
    var ci := m.indexStack[|m.indexStack| - 1];
    var kids := SliceFrom(m.children, ci);
    var s := MapHierarchicalAnnotation(u, cfg.docPath, n, layer, cfg.nodeAnnoName, frame[0], kids, layer);
    var covered := m.covered;
    for j := 0 to |kids|
      invariant covered == Absorb(m.covered, s, kids[..j])
    {
      assert kids[..j + 1][..j] == kids[..j];
      covered := Touch(Touch(covered, s), kids[j]);
      covered := Put(covered, s, Covering(covered, s) + Covering(covered, kids[j]));
    }
    assert kids[..|kids|] == kids;
    next := m.(stack := m.stack[..|m.stack| - 1], indexStack := m.indexStack[..|m.indexStack| - 1],
               children := SliceTo(m.children, ci) + [s], sCount := n, covered := covered);
  }

  /** One coverage step per entry of the covered-token map, in its order, with that node's tokens. */
  method AddCoverage(u: Update, covered: seq<(string, seq<string>)>)
    modifies u
    ensures u.events == old(u.events) + CoverageEvents(covered, |covered|)
  {
    for k := 0 to |covered|
      invariant u.events == old(u.events) + CoverageEvents(covered, k)
    {
      AppendAssoc(old(u.events), CoverageEvents(covered, k), EdgeEvents([covered[k].0], covered[k].1, Coverage, ""));
      AddEdges(u, [covered[k].0], covered[k].1, Coverage, "");
    }
  }

  /**
   * `map_document` on the text of a file: the squeezed text is read to the end, or up
   * to the character that raises, whose events stay in the update.
   */
  method MapDocument(u: Update, cfg: Config, data: string) returns (r: Result<()>)
    modifies u
    ensures var text := Squeeze(data); r.Ok? <==> Run(cfg, text, |text|).Ok?
    ensures var text := Squeeze(data); r.Err? ==> u.events == old(u.events) + RunEvents(cfg, text, |text|)
    ensures var text := Squeeze(data); r.Ok? ==> u.events == old(u.events) + DocumentEvents(cfg, text)
  {
    var text := Squeeze(data);
    var m := Start;
    for i := 0 to |text|
      invariant Run(cfg, text, i) == Ok(m)
      invariant u.events == old(u.events) + RunEvents(cfg, text, i)
    {
      var next := Consume(u, cfg, m, text[i]);
      RunNext(cfg, text, i, m);
      AppendAssoc(old(u.events), RunEvents(cfg, text, i), Emitted(cfg, m, text[i]));
      if next.Err? {
        RunErrSticks(cfg, text, i + 1, |text|);
        return Err(next.msg);
      }
      m := next.value;
    }
    Finish(u, cfg, m);
    AppendAssoc(old(u.events), RunEvents(cfg, text, |text|), FinalEvents(cfg, m));
    return Ok(());
  }

  /** The lines after the loop: coverage, then the token order, then the layer's order. */
  method Finish(u: Update, cfg: Config, m: Machine)
    modifies u
    ensures u.events == old(u.events) + FinalEvents(cfg, m)
  {
    AddCoverage(u, m.covered);
    AddOrderRelations(u, m.tokens, "");
    if cfg.layerName.Some? && cfg.layerName.value != "" {
      AddOrderRelations(u, m.tokens, cfg.layerName.value);
    }
  }

  // ---------------------------------------------------------------- the whole document

  lemma {:induction false} TokenIdsAt(docPath: string, n: nat)
    ensures |TokenIds(docPath, n)| == n
    ensures forall i :: 0 <= i < n ==> TokenIds(docPath, n)[i] == TokenId(docPath, i + 1)
  {
    if n > 0 {
      TokenIdsAt(docPath, n - 1);
    }
  }

  /** The tokens of a document read to the end are numbered 1, 2, ... in reading order. */
  lemma DocumentTokens(cfg: Config, text: string)
    requires Run(cfg, text, |text|).Ok?
    ensures var m := Run(cfg, text, |text|).value;
      m.tokens == TokenIds(cfg.docPath, |m.tokens|)
  {
    RunWellFormed(cfg, text, |text|);
  }

  /** An order over the first n tokens links token i to token i + 1. */
  lemma TokenOrder(docPath: string, n: nat, name: string)
    ensures |Chain(TokenIds(docPath, n), AnnisNs, Ordering, name)| == if n == 0 then 0 else n - 1
    ensures forall i :: 0 <= i < n - 1 ==>
      Chain(TokenIds(docPath, n), AnnisNs, Ordering, name)[i] == Edge(TokenId(docPath, i + 1), TokenId(docPath, i + 2), AnnisNs, Ordering, name)
  {
    TokenIdsAt(docPath, n);
    ChainAt(TokenIds(docPath, n), AnnisNs, Ordering, name);
  }

  /** Every coverage edge of the dictionary goes from one of its keys to one of the tokens. */
  lemma {:induction false} CoverageEventsSound(d: seq<(string, seq<string>)>, k: nat, toks: seq<string>, e: Event)
    requires k <= |d| && DistinctKeys(d) && CoveredWithin(d, toks) && e in CoverageEvents(d, k)
    ensures e.AddEdge? && e.componentType == TypeName(Coverage) && e.layer == AnnisNs
    ensures e.sourceNode in Keys(d) && e.targetNode in toks
  {
    var row := EdgeEvents([d[k - 1].0], d[k - 1].1, Coverage, "");
    if e in CoverageEvents(d, k - 1) {
      CoverageEventsSound(d, k - 1, toks, e);
    } else {
      assert e in row;
      EdgeEventsSound([d[k - 1].0], d[k - 1].1, Coverage, "");
      var i, j :| 0 <= i < 1 && 0 <= j < |d[k - 1].1| && e == Edge([d[k - 1].0][i], d[k - 1].1[j], AnnisNs, Coverage, "");
      GetEntry(d, k - 1);
      assert d[k - 1].1 == Covering(d, d[k - 1].0);
      assert Keys(d)[k - 1] == d[k - 1].0;
    }
  }

  /** Every coverage edge of a document read to the end goes from a structure to a token. */
  lemma DocumentCoverage(cfg: Config, text: string, e: Event)
    requires Run(cfg, text, |text|).Ok?
    requires e in CoverageEvents(Run(cfg, text, |text|).value.covered, |Run(cfg, text, |text|).value.covered|)
    ensures var m := Run(cfg, text, |text|).value;
      && e.AddEdge? && e.componentType == TypeName(Coverage)
      && e.sourceNode in StructIds(cfg.docPath, m.sCount) && e.targetNode in m.tokens
  {
    var m := Run(cfg, text, |text|).value;
    RunWellFormed(cfg, text, |text|);
    CoverageEventsSound(m.covered, |m.covered|, m.tokens, e);
  }
}
