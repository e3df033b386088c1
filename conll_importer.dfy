/**
 * The Python CoNLL importer: the lines of a file become sentences of entries, each
 * entry a token with its lemma, tags, features and function, and every entry with a
 * non-zero head a pointing edge from its head within the sentence. Token numbers run
 * on across sentences. Reading the file and finding the documents are outside the model;
 * the importer starts from the file's lines and the document path.
 */
module ConllImporter {
  import opened Wrappers
  import opened Strings
  import opened Events
  import opened GraphUpdateUtil

  const NoneValue := "_"
  const FuncKey := "func"
  const DepType := "dep"
  const DeprelKey := "deprel"
  const LemmaKey := "lemma"
  const UposKey := "upos"
  const XposKey := "xpos"
  const NoPair := "not enough values to unpack"
  const IndexError := "list index out of range"
  const NoneError := "'NoneType' object is not subscriptable"

  /** The eight fields of an entry that the importer keeps. */
  datatype Entry = Entry(id: string, form: string, lemmaText: string, upos: string, xpos: string,
                         feats: string, head: string, deprel: string)

  /** What `_map_entry` returns: the token id, and the raw head and relation. */
  type Mapped = (string, string, string)

  /** A line, stripped and cut at tabs. */
  function Columns(line: string): seq<string>
  {
    Split(Trim(line), '\t')
  }

  function EntryOf(cols: seq<string>): Entry
    requires |cols| >= 8
  {
    Entry(cols[0], cols[1], cols[2], cols[3], cols[4], cols[5], cols[6], cols[7])
  }

  // ---------------------------------------------------------------- reading

  /** The sentences closed so far and the one being filled. */
  datatype Reading = Reading(done: seq<seq<Entry>>, current: seq<Entry>)

  function Sentences(r: Reading): seq<seq<Entry>>
  {
    r.done + [r.current]
  }

  /** `_read_data` as written: `if not l` tests the list that `split` returns, which is never empty. */
  function ReadAsWritten(lines: seq<string>, k: nat): Reading
    requires k <= |lines|
  {
    if k == 0 then Reading([], [])
    else
      var r := ReadAsWritten(lines, k - 1);
      var l := Columns(lines[k - 1]);
      if |l| == 0 then Reading(r.done + [r.current], [])
      else if |l| == 10 then r.(current := r.current + [EntryOf(l)])
      else r
  }

  /** `_read_data` as intended: a blank line ends the sentence; a line of ten columns adds an entry. */
  function Read(lines: seq<string>, k: nat): Reading
    requires k <= |lines|
  {
    if k == 0 then Reading([], [])
    else
      var r := Read(lines, k - 1);
      var l := Columns(lines[k - 1]);
      if Trim(lines[k - 1]) == "" then Reading(r.done + [r.current], [])
      else if |l| == 10 then r.(current := r.current + [EntryOf(l)])
      else r
  }

  /** The entries of the first k lines in file order, whatever the sentence breaks. */
  function Entries(lines: seq<string>, k: nat): seq<Entry>
    requires k <= |lines|
  {
    if k == 0 then []
    else
      var l := Columns(lines[k - 1]);
      Entries(lines, k - 1) + (if |l| == 10 && Trim(lines[k - 1]) != "" then [EntryOf(l)] else [])
  }

  /** The number of blank lines among the first k. */
  function Blanks(lines: seq<string>, k: nat): nat
    requires k <= |lines|
  {
    if k == 0 then 0 else Blanks(lines, k - 1) + (if Trim(lines[k - 1]) == "" then 1 else 0)
  }

  /** The sentences one after the other. */
  function Flatten(ss: seq<seq<Entry>>): seq<Entry>
  {
    if |ss| == 0 then [] else Flatten(ss[..|ss| - 1]) + ss[|ss| - 1]
  }

  lemma {:induction false} FlattenAppend(ss: seq<seq<Entry>>, s: seq<Entry>)
    ensures Flatten(ss + [s]) == Flatten(ss) + s
  {
    assert (ss + [s])[..|ss|] == ss;
  }

  /** As written, every line falls into the first sentence. */
  lemma {:induction false} ReadAsWrittenOneSentence(lines: seq<string>, k: nat)
    requires k <= |lines|
    ensures ReadAsWritten(lines, k).done == []
  {
    if k > 0 {
      ReadAsWrittenOneSentence(lines, k - 1);
    }
  }

  /** A file of one blank line: one sentence as written, two as intended. */
  lemma ReadBlankLine()
    ensures |Sentences(ReadAsWritten([""], 1))| == 1
    ensures |Sentences(Read([""], 1))| == 2
  {
    ReadAsWrittenOneSentence([""], 1);
    assert Trim("") == "";
  }

  /** There is one sentence more than there are blank lines, and no entry is lost or reordered. */
  lemma {:induction false} ReadSound(lines: seq<string>, k: nat)
    requires k <= |lines|
    ensures |Sentences(Read(lines, k))| == Blanks(lines, k) + 1
    ensures Flatten(Sentences(Read(lines, k))) == Entries(lines, k)
  {
    if k > 0 {
      ReadSound(lines, k - 1);
      var r := Read(lines, k - 1);
      FlattenAppend(r.done, r.current);
      var l := Columns(lines[k - 1]);
      if Trim(lines[k - 1]) == "" {
        FlattenAppend(r.done + [r.current], []);
      } else if |l| == 10 {
        FlattenAppend(r.done, r.current + [EntryOf(l)]);
      }
    }
  }

  /** `_read_data`: the loop over the lines of the file. */
  method ReadData(lines: seq<string>) returns (sentences: seq<seq<Entry>>)
    ensures sentences == Sentences(Read(lines, |lines|))
  {
    var done: seq<seq<Entry>> := [];
    var current: seq<Entry> := [];
    for k := 0 to |lines|
      invariant Read(lines, k) == Reading(done, current)
    {
      var l := Split(Trim(lines[k]), '\t');
      if Trim(lines[k]) == "" {
        done := done + [current];
        current := [];
      } else if |l| == 10 {
        current := current + [EntryOf(l)];
      }
    }
    sentences := done + [current];
  }

  // ---------------------------------------------------------------- one entry

  /** Whether a value is a lone '_' once stripped, tested on the one character so that it stays cheap to unfold. */
  predicate IsNone(v: string)
  {
    var t := Trim(v);
    |t| == 1 && t[0] == '_'
  }

  lemma IsNoneIsStrippedUnderscore(v: string)
    ensures IsNone(v) <==> Trim(v) == NoneValue
  {
    if |Trim(v)| == 1 {
      assert Trim(v) == [Trim(v)[0]];
    }
  }

  /** A label for a field, unless the field is `_`; the stored value is not stripped. */
  function FieldEvents(tok: string, ns: string, name: string, value: string): seq<Event>
  {
    if !IsNone(value) then [AddNodeLabel(tok, ns, name, value)] else []
  }

  /** Unpacking a feature into name and value: exactly one '=', or the unpacking fails. */
  function ParseFeature(kv: string): (r: Result<(string, string)>)
    ensures r.Ok? <==> |Split(kv, '=')| == 2
  {
    var parts := Split(kv, '=');
    if |parts| == 2 then Ok((Trim(parts[0]), Trim(parts[1]))) else Err(NoPair)
  }

  /** The labels of the features, in order; the first malformed one ends the entry. */
  function FeatureEvents(tok: string, ns: string, kvs: seq<string>): Result<seq<Event>>
  {
    if |kvs| == 0 then Ok([])
    else
      match ParseFeature(kvs[0])
      case Err(e) => Err(e)
      case Ok(kv) => Prefixed([AddNodeLabel(tok, ns, kv.0, kv.1)], FeatureEvents(tok, ns, kvs[1..]))
  }

  function FeatsEvents(tok: string, ns: string, feats: string): Result<seq<Event>>
  {
    if IsNone(feats) then Ok([]) else FeatureEvents(tok, ns, Split(Trim(feats), '|'))
  }

  function DeprelEvents(tok: string, ns: string, deprel: string): seq<Event>
  {
    if !IsNone(deprel) then [AddNodeLabel(tok, ns, FuncKey, Trim(deprel))] else []
  }

  /** The three fields that `_map_entry` labels one after the other: lemma, upos and xpos. */
  function EntryFields(e: Entry): seq<(string, string)>
  {
    [(LemmaKey, e.lemmaText), (UposKey, e.upos), (XposKey, e.xpos)]
  }

  /** The labels of the first fields, in order, each skipped when it is `_`. */
  function FieldsEvents(tok: string, ns: string, fields: seq<(string, string)>): seq<Event>
  {
    if |fields| == 0 then []
    else FieldsEvents(tok, ns, fields[..|fields| - 1]) + FieldEvents(tok, ns, fields[|fields| - 1].0, fields[|fields| - 1].1)
  }

  /** The events of `_map_entry`: the token, its three fields, its features and its function. */
  function EntryEvents(docPath: string, index: nat, e: Entry, textName: string): Result<seq<Event>>
  {
    var tok := TokenId(docPath, index);
    match FeatsEvents(tok, textName, e.feats)
    case Err(msg) => Err(msg)
    case Ok(fs) =>
      Ok(TokenEvents(docPath, index, textName, e.form, None, None) + FieldsEvents(tok, textName, EntryFields(e))
         + fs + DeprelEvents(tok, textName, e.deprel))
  }

  /** The events already added in front of what the rest gives; the rest's failure is the whole's. */
  function Prefixed(added: seq<Event>, rest: Result<seq<Event>>): (r: Result<seq<Event>>)
    ensures r.Ok? <==> rest.Ok?
    ensures r.Ok? ==> r.value == added + rest.value
  {
    match rest
    case Err(e) => Err(e)
    case Ok(evs) => Ok(added + evs)
  }

  lemma PrefixedNothing(rest: Result<seq<Event>>)
    ensures Prefixed([], rest) == rest
  {
    if rest.Ok? {
      assert [] + rest.value == rest.value;
    }
  }

  lemma PrefixedStep(added: seq<Event>, step: seq<Event>, rest: Result<seq<Event>>)
    ensures Prefixed(added + step, rest) == Prefixed(added, Prefixed(step, rest))
  {
    if rest.Ok? {
      AppendAssoc(added, step, rest.value);
    }
  }

  /** Every feature has exactly one '='. */
  predicate FeaturesWellFormed(kvs: seq<string>)
  {
    forall i :: 0 <= i < |kvs| ==> |Split(kvs[i], '=')| == 2
  }

  /** An entry fails exactly when its features are not `_` and one of them lacks its single '='. */
  lemma {:induction false} FeatureEventsOk(tok: string, ns: string, kvs: seq<string>)
    ensures FeatureEvents(tok, ns, kvs).Ok? <==> FeaturesWellFormed(kvs)
    ensures FeatureEvents(tok, ns, kvs).Ok? ==> |FeatureEvents(tok, ns, kvs).value| == |kvs|
  {
    if |kvs| > 0 {
      FeatureEventsOk(tok, ns, kvs[1..]);
      assert forall i :: 1 <= i < |kvs| ==> kvs[1..][i - 1] == kvs[i];
    }
  }

  /** Feature text as written `k1=v1|k2=v2|...`. */
  function FeatureText(pairs: seq<(string, string)>): string
  {
    Join(FeaturePieces(pairs), "|")
  }

  function FeaturePieces(pairs: seq<(string, string)>): (pieces: seq<string>)
    ensures |pieces| == |pairs|
  {
    if |pairs| == 0 then [] else [pairs[0].0 + "=" + pairs[0].1] + FeaturePieces(pairs[1..])
  }

  function FeatureLabels(tok: string, ns: string, pairs: seq<(string, string)>): seq<Event>
  {
    if |pairs| == 0 then [] else [AddNodeLabel(tok, ns, pairs[0].0, pairs[0].1)] + FeatureLabels(tok, ns, pairs[1..])
  }

  /** A key or value as the exporter writes it: no separator, no '=', no surrounding whitespace. */
  predicate PlainPart(s: string)
  {
    '|' !in s && '=' !in s && Trim(s) == s
  }

  predicate PlainPairs(pairs: seq<(string, string)>)
  {
    forall i :: 0 <= i < |pairs| ==> PlainPart(pairs[i].0) && PlainPart(pairs[i].1)
  }

  lemma {:induction false} ParseFeaturePiece(k: string, v: string)
    requires PlainPart(k) && PlainPart(v)
    ensures ParseFeature(k + "=" + v) == Ok((k, v))
  {
    SplitPrefix(k, '=', v);
    SplitNone(v, '=');
  }

  lemma {:induction false} FeaturePiecesPlain(pairs: seq<(string, string)>)
    requires PlainPairs(pairs)
    ensures forall i :: 0 <= i < |pairs| ==> '|' !in FeaturePieces(pairs)[i]
  {
    if |pairs| > 0 {
      FeaturePiecesPlain(pairs[1..]);
      assert forall i :: 1 <= i < |pairs| ==> pairs[1..][i - 1] == pairs[i];
      assert forall i :: 1 <= i < |pairs| ==> FeaturePieces(pairs)[i] == FeaturePieces(pairs[1..])[i - 1];
    }
  }

  lemma {:induction false} FeatureEventsOfPieces(tok: string, ns: string, pairs: seq<(string, string)>)
    requires PlainPairs(pairs)
    ensures FeatureEvents(tok, ns, FeaturePieces(pairs)) == Ok(FeatureLabels(tok, ns, pairs))
  {
    if |pairs| > 0 {
      ParseFeaturePiece(pairs[0].0, pairs[0].1);
      assert forall i :: 1 <= i < |pairs| ==> pairs[1..][i - 1] == pairs[i];
      FeatureEventsOfPieces(tok, ns, pairs[1..]);
      assert FeaturePieces(pairs)[1..] == FeaturePieces(pairs[1..]);
    }
  }

  /**
   * Splitting at '|' and then at '=' reads back the features written as `k=v` joined by
   * '|'; an empty feature text is one piece without '=', and fails.
   */
  lemma FeatureRoundTrip(tok: string, ns: string, pairs: seq<(string, string)>)
    requires PlainPairs(pairs)
    ensures FeatureEvents(tok, ns, Split(FeatureText(pairs), '|'))
         == if pairs == [] then Err(NoPair) else Ok(FeatureLabels(tok, ns, pairs))
  {
    FeaturePiecesPlain(pairs);
    SplitJoin(FeaturePieces(pairs), '|');
    if pairs == [] {
      assert Split(FeatureText(pairs), '|') == [""];
      assert Split("", '=') == [""];
    } else {
      FeatureEventsOfPieces(tok, ns, pairs);
    }
  }

  /** `_map_entry`: one token and its labels, after the token's own events. */
  method MapEntry(u: Update, docPath: string, index: nat, e: Entry, textName: string) returns (r: Result<Mapped>)
    modifies u
    ensures r.Ok? <==> EntryEvents(docPath, index, e, textName).Ok?
    ensures r.Ok? ==> r.value == (TokenId(docPath, index), e.head, e.deprel)
    ensures r.Ok? ==> u.events == old(u.events) + EntryEvents(docPath, index, e, textName).value
  {
    var t := MapToken(u, docPath, index, textName, e.form, None, None);
    var tok := TokenId(docPath, index);
    AddFields(u, tok, textName, EntryFields(e));
    var fs := AddFeats(u, tok, textName, e.feats);
    if fs.Err? {
      return Err(fs.msg);
    }
    AddDeprel(u, tok, textName, e.deprel);
    Append4(old(u.events), TokenEvents(docPath, index, textName, e.form, None, None),
            FieldsEvents(tok, textName, EntryFields(e)), FeatsEvents(tok, textName, e.feats).value,
            DeprelEvents(tok, textName, e.deprel));
    return Ok((tok, e.head, e.deprel));
  }

  lemma Append4(o: seq<Event>, a: seq<Event>, b: seq<Event>, c: seq<Event>, d: seq<Event>)
    ensures o + a + b + c + d == o + (a + b + c + d)
  {
  }

  /** The loop of `_map_entry` over the lemma, upos and xpos fields. */
  method AddFields(u: Update, tok: string, ns: string, fields: seq<(string, string)>)
    modifies u
    ensures u.events == old(u.events) + FieldsEvents(tok, ns, fields)
  {
    for i := 0 to |fields|
      invariant u.events == old(u.events) + FieldsEvents(tok, ns, fields[..i])
    {
      if !IsNone(fields[i].1) {
        u.Add(AddNodeLabel(tok, ns, fields[i].0, fields[i].1));
      }
      assert fields[..i + 1][..i] == fields[..i];
      AppendAssoc(old(u.events), FieldsEvents(tok, ns, fields[..i]), FieldEvents(tok, ns, fields[i].0, fields[i].1));
    }
    assert fields[..|fields|] == fields;
  }

  method AddDeprel(u: Update, tok: string, ns: string, deprel: string)
    modifies u
    ensures u.events == old(u.events) + DeprelEvents(tok, ns, deprel)
  {
    if !IsNone(deprel) {
      u.Add(AddNodeLabel(tok, ns, FuncKey, Trim(deprel)));
    }
  }

  /** The feature loop of `_map_entry`. */
  method AddFeats(u: Update, tok: string, ns: string, feats: string) returns (r: Result<()>)
    modifies u
    ensures r.Ok? <==> FeatsEvents(tok, ns, feats).Ok?
    ensures r.Ok? ==> u.events == old(u.events) + FeatsEvents(tok, ns, feats).value
  {
    if IsNone(feats) {
      return Ok(());
    }
    var kvs := Split(Trim(feats), '|');
    ghost var added: seq<Event> := [];
    var i := 0;
    assert kvs[i..] == kvs;
    PrefixedNothing(FeatureEvents(tok, ns, kvs));
    while i < |kvs|
      invariant 0 <= i <= |kvs|
      invariant FeatureEvents(tok, ns, kvs) == Prefixed(added, FeatureEvents(tok, ns, kvs[i..]))
      invariant u.events == old(u.events) + added
    {
      var kv := ParseFeature(kvs[i]);
      if kv.Err? {
        return Err(kv.msg);
      }
      u.Add(AddNodeLabel(tok, ns, kv.value.0, kv.value.1));
      PrefixedStep(added, [AddNodeLabel(tok, ns, kv.value.0, kv.value.1)], FeatureEvents(tok, ns, kvs[i + 1..]));
      assert kvs[i..][1..] == kvs[i + 1..];
      added := added + [AddNodeLabel(tok, ns, kv.value.0, kv.value.1)];
      i := i + 1;
    }
    assert kvs[i..] == [];
    return Ok(());
  }

  // ---------------------------------------------------------------- dependencies

  /**
   * The head's position in the node list, which starts with a `None`: a negative head counts from
   * the end, as Python's indexing does; an index out of range, or the `None` itself, fails.
   */
  function HeadIndex(n: nat, h: int): (r: Result<nat>)
    ensures r.Ok? ==> r.value < n
    ensures 0 < h <= n ==> r == Ok(h - 1)
    ensures h > n ==> r.Err?
  {
    var idx := if h < 0 then h + n + 1 else h;
    if idx < 0 || idx > n then Err(IndexError)
    else if idx == 0 then Err(NoneError)
    else Ok(idx - 1)
  }

  /** The dependency edge of the i-th entry of a sentence, if its head is not 0. */
  function DependencyStep(nodes: seq<Mapped>, textName: string, i: nat): Result<seq<Event>>
    requires i < |nodes|
  {
    match ParseInt(Trim(nodes[i].1))
    case Err(e) => Err(e)
    case Ok(h) =>
      if h == 0 then Ok([])
      else
        match HeadIndex(|nodes|, h)
        case Err(e) => Err(e)
        case Ok(j) => Ok(PointingEvents(nodes[j].0, nodes[i].0, DepType, Some(textName), Some(DeprelKey), Some(nodes[i].2), ""))
  }

  /** The dependency loop over the first k entries of a sentence; the first failure ends it. */
  function DependencyEvents(nodes: seq<Mapped>, textName: string, k: nat): Result<seq<Event>>
    requires k <= |nodes|
  {
    if k == 0 then Ok([])
    else
      match DependencyEvents(nodes, textName, k - 1)
      case Err(e) => Err(e)
      case Ok(evs) =>
        match DependencyStep(nodes, textName, k - 1)
        case Err(e) => Err(e)
        case Ok(step) => Ok(evs + step)
  }

  /** The head of entry i parses, and a non-zero head names an entry of the sentence. */
  predicate HeadResolves(nodes: seq<Mapped>, i: nat)
    requires i < |nodes|
  {
    var h := ParseInt(Trim(nodes[i].1));
    h.Ok? && (h.value != 0 ==> HeadIndex(|nodes|, h.value).Ok?)
  }

  /** Entries among the first k whose head is not 0. */
  function Dependents(nodes: seq<Mapped>, k: nat): nat
    requires k <= |nodes|
  {
    if k == 0 then 0
    else Dependents(nodes, k - 1) + (if ParseInt(Trim(nodes[k - 1].1)) != Ok(0) then 1 else 0)
  }

  /**
   * The dependency loop succeeds exactly when every head resolves; then it adds one
   * labelled pointing edge per entry whose head is not 0, and nothing for the others.
   */
  lemma {:induction false} DependencyEventsOk(nodes: seq<Mapped>, textName: string, k: nat)
    requires k <= |nodes|
    ensures DependencyEvents(nodes, textName, k).Ok? <==> forall i :: 0 <= i < k ==> HeadResolves(nodes, i)
    ensures DependencyEvents(nodes, textName, k).Ok? ==> |DependencyEvents(nodes, textName, k).value| == 2 * Dependents(nodes, k)
  {
    if k > 0 {
      DependencyEventsOk(nodes, textName, k - 1);
      DependencyStepOk(nodes, textName, k - 1);
    }
  }

  /** One entry's step succeeds exactly when its head resolves, and adds two events unless the head is 0. */
  lemma DependencyStepOk(nodes: seq<Mapped>, textName: string, i: nat)
    requires i < |nodes|
    ensures DependencyStep(nodes, textName, i).Ok? <==> HeadResolves(nodes, i)
    ensures DependencyStep(nodes, textName, i).Ok? ==>
      |DependencyStep(nodes, textName, i).value| == if ParseInt(Trim(nodes[i].1)) != Ok(0) then 2 else 0
  {
  }

  /** An entry with a head h > 0 in the sentence gets the edge from the h-th entry, labelled with its relation. */
  lemma {:induction false} DependencyEdge(nodes: seq<Mapped>, textName: string, k: nat, i: nat, h: int)
    requires i < k <= |nodes| && DependencyEvents(nodes, textName, k).Ok?
    requires ParseInt(Trim(nodes[i].1)) == Ok(h) && 0 < h <= |nodes|
    ensures Edge(nodes[h - 1].0, nodes[i].0, "", Pointing, DepType) in DependencyEvents(nodes, textName, k).value
    ensures AddEdgeLabel(nodes[h - 1].0, nodes[i].0, "", TypeName(Pointing), DepType, textName, DeprelKey, nodes[i].2)
              in DependencyEvents(nodes, textName, k).value
  {
    if i < k - 1 {
      DependencyEdge(nodes, textName, k - 1, i, h);
    }
  }

  method MapDependencies(u: Update, nodes: seq<Mapped>, textName: string) returns (r: Result<()>)
    modifies u
    ensures r.Ok? <==> DependencyEvents(nodes, textName, |nodes|).Ok?
    ensures r.Ok? ==> u.events == old(u.events) + DependencyEvents(nodes, textName, |nodes|).value
  {
    for i := 0 to |nodes|
      invariant DependencyEvents(nodes, textName, i).Ok?
      invariant u.events == old(u.events) + DependencyEvents(nodes, textName, i).value
    {
      ghost var before := DependencyEvents(nodes, textName, i).value;
      var h := ParseInt(Trim(nodes[i].1));
      if h.Err? {
        DependencyErrSticks(nodes, textName, i + 1, |nodes|);
        return Err(h.msg);
      }
      if h.value != 0 {
        var j := HeadIndex(|nodes|, h.value);
        if j.Err? {
          DependencyErrSticks(nodes, textName, i + 1, |nodes|);
          return Err(j.msg);
        }
        AddPointingRelation(u, nodes[j.value].0, nodes[i].0, DepType, Some(textName), Some(DeprelKey), Some(nodes[i].2), "");
      }
      AppendAssoc(old(u.events), before, DependencyStep(nodes, textName, i).value);
    }
    return Ok(());
  }

  lemma {:induction false} DependencyErrSticks(nodes: seq<Mapped>, textName: string, k: nat, n: nat)
    requires k <= n <= |nodes| && DependencyEvents(nodes, textName, k).Err?
    ensures DependencyEvents(nodes, textName, n).Err?
    decreases n - k
  {
    if k < n {
      DependencyErrSticks(nodes, textName, k + 1, n);
    }
  }

  // ---------------------------------------------------------------- sentences and documents

  /** What the entries of a sentence map to, numbered on from `start`. */
  function SentenceNodes(docPath: string, start: nat, s: seq<Entry>): (nodes: seq<Mapped>)
    ensures |nodes| == |s|
  {
    if |s| == 0 then []
    else SentenceNodes(docPath, start, s[..|s| - 1]) + [(TokenId(docPath, start + |s| - 1), s[|s| - 1].head, s[|s| - 1].deprel)]
  }

  /** The i-th node is the token numbered `start + i`, with the entry's own head and relation. */
  lemma {:induction false} SentenceNodesAt(docPath: string, start: nat, s: seq<Entry>, i: nat)
    requires i < |s|
    ensures SentenceNodes(docPath, start, s)[i] == (TokenId(docPath, start + i), s[i].head, s[i].deprel)
  {
    if i < |s| - 1 {
      SentenceNodesAt(docPath, start, s[..|s| - 1], i);
    }
  }

  /**
   * Items numbered on from `start`, each mapped by `f`, one after the other; the first
   * failure ends the run. An entry is one token wide, a sentence as wide as its entries.
   */
  function Numbered<T>(f: (nat, T) -> Result<seq<Event>>, width: T -> nat, start: nat, xs: seq<T>): Result<seq<Event>>
    decreases |xs|
  {
    if |xs| == 0 then Ok([])
    else
      match f(start, xs[0])
      case Err(e) => Err(e)
      case Ok(evs) => Prefixed(evs, Numbered(f, width, start + width(xs[0]), xs[1..]))
  }

  /**
   * When every item numbered `n` and `w` wide adds exactly the token nodes `n` to
   * `n + w - 1`, the run adds the token nodes from `start`, one per unit of width, in order.
   */
  lemma {:induction false} NumberedNodes<T>(f: (nat, T) -> Result<seq<Event>>, width: T -> nat, docPath: string,
                                            start: nat, xs: seq<T>)
    requires forall n, x :: f(n, x).Ok? ==> AddedNodes(f(n, x).value) == TokenRange(docPath, n, width(x))
    requires Numbered(f, width, start, xs).Ok?
    ensures AddedNodes(Numbered(f, width, start, xs).value) == TokenRange(docPath, start, Width(width, xs))
    decreases |xs|
  {
    if |xs| > 0 {
      var rest := Numbered(f, width, start + width(xs[0]), xs[1..]);
      NumberedNodes(f, width, docPath, start + width(xs[0]), xs[1..]);
      AddedNodesAppend(f(start, xs[0]).value, rest.value);
      TokenRangeAppend(docPath, start, width(xs[0]), Width(width, xs[1..]));
    }
  }

  /** The total width of the items. */
  function Width<T>(width: T -> nat, xs: seq<T>): nat
  {
    if |xs| == 0 then 0 else width(xs[0]) + Width(width, xs[1..])
  }

  function EntryWidth(e: Entry): nat
  {
    1
  }

  function SentenceWidth(s: seq<Entry>): nat
  {
    |s|
  }

  /** The entries of a sentence, numbered on from `start`. */
  function EntriesEvents(docPath: string, start: nat, s: seq<Entry>, textName: string): Result<seq<Event>>
  {
    Numbered((n, e) => EntryEvents(docPath, n, e, textName), EntryWidth, start, s)
  }

  /** One sentence: its entries, then their dependency edges. */
  function SentenceEvents(docPath: string, start: nat, s: seq<Entry>, textName: string): Result<seq<Event>>
  {
    match EntriesEvents(docPath, start, s, textName)
    case Err(e) => Err(e)
    case Ok(evs) =>
      match DependencyEvents(SentenceNodes(docPath, start, s), textName, |s|)
      case Err(e) => Err(e)
      case Ok(deps) => Ok(evs + deps)
  }

  /** The sentences from the one whose first token is numbered `start`; each numbers on from the one before. */
  function DocumentEvents(docPath: string, start: nat, ss: seq<seq<Entry>>, textName: string): Result<seq<Event>>
  {
    Numbered((n, s) => SentenceEvents(docPath, n, s, textName), SentenceWidth, start, ss)
  }

  // ---------------------------------------------------------------- token numbering

  /** The names of the nodes that the events add, in order. */
  function AddedNodes(evs: seq<Event>): seq<string>
  {
    if |evs| == 0 then []
    else (if evs[0].AddNode? then [evs[0].nodeName] else []) + AddedNodes(evs[1..])
  }

  lemma {:induction false} AddedNodesAppend(a: seq<Event>, b: seq<Event>)
    ensures AddedNodes(a + b) == AddedNodes(a) + AddedNodes(b)
  {
    if |a| == 0 {
      assert a + b == b;
    } else {
      assert (a + b)[0] == a[0];
      assert (a + b)[1..] == a[1..] + b;
      AddedNodesAppend(a[1..], b);
    }
  }

  /** No event of the list adds a node. */
  predicate NoNodes(evs: seq<Event>)
  {
    forall i :: 0 <= i < |evs| ==> !evs[i].AddNode?
  }

  lemma {:induction false} NoNodesAdded(evs: seq<Event>)
    requires NoNodes(evs)
    ensures AddedNodes(evs) == []
  {
    if |evs| > 0 {
      assert forall i :: 1 <= i < |evs| ==> evs[1..][i - 1] == evs[i];
      NoNodesAdded(evs[1..]);
    }
  }

  /** The token names `#t<start>` to `#t<start + n - 1>`. */
  function TokenRange(docPath: string, start: nat, n: nat): seq<string>
    decreases n
  {
    if n == 0 then [] else [TokenId(docPath, start)] + TokenRange(docPath, start + 1, n - 1)
  }

  lemma {:induction false} TokenRangeAppend(docPath: string, start: nat, m: nat, n: nat)
    ensures TokenRange(docPath, start, m) + TokenRange(docPath, start + m, n) == TokenRange(docPath, start, m + n)
    decreases m
  {
    if m > 0 {
      TokenRangeAppend(docPath, start + 1, m - 1, n);
    }
  }

  lemma {:induction false} FeatureEventsNoNodes(tok: string, ns: string, kvs: seq<string>)
    requires FeatureEvents(tok, ns, kvs).Ok?
    ensures NoNodes(FeatureEvents(tok, ns, kvs).value)
  {
    if |kvs| > 0 {
      FeatureEventsNoNodes(tok, ns, kvs[1..]);
    }
  }

  lemma {:induction false} FieldsEventsNoNodes(tok: string, ns: string, fields: seq<(string, string)>)
    ensures NoNodes(FieldsEvents(tok, ns, fields))
  {
    if |fields| > 0 {
      FieldsEventsNoNodes(tok, ns, fields[..|fields| - 1]);
    }
  }

  /** A token's own events add its node and no other. */
  lemma TokenEventsNodes(docPath: string, index: nat, textName: string, value: string)
    ensures AddedNodes(TokenEvents(docPath, index, textName, value, None, None)) == [TokenId(docPath, index)]
  {
    var toks := TokenEvents(docPath, index, textName, value, None, None);
    assert NoNodes(toks[1..]);
    NoNodesAdded(toks[1..]);
  }

  /** An entry adds exactly one node, its token. */
  lemma EntryNodes(docPath: string, index: nat, e: Entry, textName: string)
    requires EntryEvents(docPath, index, e, textName).Ok?
    ensures AddedNodes(EntryEvents(docPath, index, e, textName).value) == [TokenId(docPath, index)]
  {
    var tok := TokenId(docPath, index);
    var toks := TokenEvents(docPath, index, textName, e.form, None, None);
    var fields := FieldsEvents(tok, textName, EntryFields(e));
    var feats := FeatsEvents(tok, textName, e.feats).value;
    var deprel := DeprelEvents(tok, textName, e.deprel);
    TokenEventsNodes(docPath, index, textName, e.form);
    FieldsEventsNoNodes(tok, textName, EntryFields(e));
    NoNodesAdded(fields);
    if !IsNone(e.feats) {
      FeatureEventsNoNodes(tok, textName, Split(Trim(e.feats), '|'));
    }
    NoNodesAdded(feats);
    NoNodesAdded(deprel);
    AddedNodesAppend(toks, fields);
    AddedNodesAppend(toks + fields, feats);
    AddedNodesAppend(toks + fields + feats, deprel);
  }

  lemma EntriesNodes(docPath: string, start: nat, s: seq<Entry>, textName: string)
    requires EntriesEvents(docPath, start, s, textName).Ok?
    ensures AddedNodes(EntriesEvents(docPath, start, s, textName).value) == TokenRange(docPath, start, |s|)
  {
    forall n: nat, e: Entry | EntryEvents(docPath, n, e, textName).Ok?
      ensures AddedNodes(EntryEvents(docPath, n, e, textName).value) == TokenRange(docPath, n, EntryWidth(e))
    {
      EntryNodes(docPath, n, e, textName);
    }
    NumberedNodes((n, e) => EntryEvents(docPath, n, e, textName), EntryWidth, docPath, start, s);
    EntryWidths(s);
  }

  lemma {:induction false} EntryWidths(s: seq<Entry>)
    ensures Width(EntryWidth, s) == |s|
  {
    if |s| > 0 {
      EntryWidths(s[1..]);
    }
  }

  lemma {:induction false} DependencyNoNodes(nodes: seq<Mapped>, textName: string, k: nat)
    requires k <= |nodes| && DependencyEvents(nodes, textName, k).Ok?
    ensures NoNodes(DependencyEvents(nodes, textName, k).value)
  {
    if k > 0 {
      DependencyNoNodes(nodes, textName, k - 1);
    }
  }

  /** A sentence adds the nodes of its tokens and no other, numbered on from `start`. */
  lemma SentenceAddedNodes(docPath: string, start: nat, s: seq<Entry>, textName: string)
    requires SentenceEvents(docPath, start, s, textName).Ok?
    ensures AddedNodes(SentenceEvents(docPath, start, s, textName).value) == TokenRange(docPath, start, |s|)
  {
    var deps := DependencyEvents(SentenceNodes(docPath, start, s), textName, |s|).value;
    EntriesNodes(docPath, start, s, textName);
    DependencyNoNodes(SentenceNodes(docPath, start, s), textName, |s|);
    NoNodesAdded(deps);
    AddedNodesAppend(EntriesEvents(docPath, start, s, textName).value, deps);
  }

  /**
   * Token numbers run on across sentences: a document adds exactly the nodes
   * `#t<start>` to `#t<start + N - 1>` for its N entries, in order.
   */
  lemma DocumentNodes(docPath: string, start: nat, ss: seq<seq<Entry>>, textName: string)
    requires DocumentEvents(docPath, start, ss, textName).Ok?
    ensures AddedNodes(DocumentEvents(docPath, start, ss, textName).value) == TokenRange(docPath, start, EntryCount(ss))
  {
    forall n: nat, s: seq<Entry> | SentenceEvents(docPath, n, s, textName).Ok?
      ensures AddedNodes(SentenceEvents(docPath, n, s, textName).value) == TokenRange(docPath, n, SentenceWidth(s))
    {
      SentenceAddedNodes(docPath, n, s, textName);
    }
    NumberedNodes((n, s) => SentenceEvents(docPath, n, s, textName), SentenceWidth, docPath, start, ss);
  }

  /** The number of entries of all sentences. */
  function EntryCount(ss: seq<seq<Entry>>): nat
  {
    Width(SentenceWidth, ss)
  }

  /** The entries of all sentences are the entries of the file, so N counts the well-formed lines. */
  lemma {:induction false} EntryCountFlatten(ss: seq<seq<Entry>>)
    ensures EntryCount(ss) == |Flatten(ss)|
  {
    if |ss| > 0 {
      EntryCountFlatten(ss[1..]);
      FlattenFront(ss);
    }
  }

  lemma {:induction false} FlattenFront(ss: seq<seq<Entry>>)
    requires |ss| > 0
    ensures Flatten(ss) == ss[0] + Flatten(ss[1..])
  {
    if |ss| > 1 {
      assert ss[..|ss| - 1][1..] == ss[1..][..|ss| - 2];
      FlattenFront(ss[..|ss| - 1]);
      assert ss[..|ss| - 1][0] == ss[0];
      assert ss[1..][|ss| - 2] == ss[|ss| - 1];
    } else {
      assert ss[..0] == [];
      assert ss[1..] == [];
    }
  }

  // ---------------------------------------------------------------- the methods

  /** The first loop of `_map_conll_document` over a sentence: each entry, numbered on from `start`. */
  method MapEntries(u: Update, docPath: string, start: nat, s: seq<Entry>, textName: string) returns (r: Result<seq<Mapped>>)
    modifies u
    ensures r.Ok? <==> EntriesEvents(docPath, start, s, textName).Ok?
    ensures r.Ok? ==> r.value == SentenceNodes(docPath, start, s)
    ensures r.Ok? ==> u.events == old(u.events) + EntriesEvents(docPath, start, s, textName).value
  {
    var nodes: seq<Mapped> := [];
    ghost var added: seq<Event> := [];
    assert s[0..] == s;
    PrefixedNothing(EntriesEvents(docPath, start, s, textName));
    for i := 0 to |s|
      invariant EntriesEvents(docPath, start, s, textName) == Prefixed(added, EntriesEvents(docPath, start + i, s[i..], textName))
      invariant u.events == old(u.events) + added
      invariant nodes == SentenceNodes(docPath, start, s[..i])
    {
      ghost var step;
      var m;
      m, step := MapNextEntry(u, docPath, start, s, textName, i, added);
      if m.Err? {
        return Err(m.msg);
      }
      AppendAssoc(old(u.events), added, step);
      added := added + step;
      SentenceNodesStep(docPath, start, s, i);
      nodes := nodes + [m.value];
    }
    assert s[..|s|] == s;
    assert s[|s|..] == [];
    return Ok(nodes);
  }

  /** The body of the entry loop: entry `i` of the sentence, numbered `start + i`. */
  method MapNextEntry(u: Update, docPath: string, start: nat, s: seq<Entry>, textName: string, i: nat, ghost added: seq<Event>)
    returns (m: Result<Mapped>, ghost step: seq<Event>)
    requires i < |s|
    modifies u
    ensures m.Err? ==> Prefixed(added, EntriesEvents(docPath, start + i, s[i..], textName)).Err?
    ensures m.Ok? ==> m.value == (TokenId(docPath, start + i), s[i].head, s[i].deprel)
    ensures m.Ok? ==> u.events == old(u.events) + step
    ensures m.Ok? ==> Prefixed(added, EntriesEvents(docPath, start + i, s[i..], textName))
                      == Prefixed(added + step, EntriesEvents(docPath, start + i + 1, s[i + 1..], textName))
  {
    m := MapEntry(u, docPath, start + i, s[i], textName);
    EntriesStep(docPath, start, s, textName, i, added);
    step := if m.Ok? then EntryEvents(docPath, start + i, s[i], textName).value else [];
  }

  /** One more entry of the sentence: its failure ends the sentence, its events join those before. */
  lemma EntriesStep(docPath: string, start: nat, s: seq<Entry>, textName: string, i: nat, added: seq<Event>)
    requires i < |s|
    ensures EntryEvents(docPath, start + i, s[i], textName).Err? ==>
      Prefixed(added, EntriesEvents(docPath, start + i, s[i..], textName)).Err?
    ensures EntryEvents(docPath, start + i, s[i], textName).Ok? ==>
      Prefixed(added, EntriesEvents(docPath, start + i, s[i..], textName))
      == Prefixed(added + EntryEvents(docPath, start + i, s[i], textName).value,
                  EntriesEvents(docPath, start + i + 1, s[i + 1..], textName))
  {
    assert s[i..][0] == s[i] && s[i..][1..] == s[i + 1..];
    if EntryEvents(docPath, start + i, s[i], textName).Ok? {
      PrefixedStep(added, EntryEvents(docPath, start + i, s[i], textName).value,
                   EntriesEvents(docPath, start + i + 1, s[i + 1..], textName));
    }
  }

  lemma SentenceNodesStep(docPath: string, start: nat, s: seq<Entry>, i: nat)
    requires i < |s|
    ensures SentenceNodes(docPath, start, s[..i + 1])
         == SentenceNodes(docPath, start, s[..i]) + [(TokenId(docPath, start + i), s[i].head, s[i].deprel)]
  {
    assert s[..i + 1][..i] == s[..i];
  }

  /** One sentence of `_map_conll_document`: its entries, then the edges from their heads. */
  method MapSentence(u: Update, docPath: string, start: nat, s: seq<Entry>, textName: string) returns (r: Result<()>)
    modifies u
    ensures r.Ok? <==> SentenceEvents(docPath, start, s, textName).Ok?
    ensures r.Ok? ==> u.events == old(u.events) + SentenceEvents(docPath, start, s, textName).value
  {
    var nodes := MapEntries(u, docPath, start, s, textName);
    if nodes.Err? {
      return Err(nodes.msg);
    }
    ghost var entries := u.events;
    var d := MapDependencies(u, nodes.value, textName);
    if d.Err? {
      return Err(d.msg);
    }
    AppendAssoc(old(u.events), EntriesEvents(docPath, start, s, textName).value,
                DependencyEvents(nodes.value, textName, |s|).value);
    return Ok(());
  }

  /** The events of a document are those of its first sentence, then those of the rest numbered on. */
  lemma DocumentEventsNext(docPath: string, start: nat, ss: seq<seq<Entry>>, textName: string)
    requires |ss| > 0
    ensures SentenceEvents(docPath, start, ss[0], textName).Err? ==> DocumentEvents(docPath, start, ss, textName).Err?
    ensures SentenceEvents(docPath, start, ss[0], textName).Ok? ==>
      DocumentEvents(docPath, start, ss, textName)
      == Prefixed(SentenceEvents(docPath, start, ss[0], textName).value, DocumentEvents(docPath, start + |ss[0]|, ss[1..], textName))
  {
  }

  /**
   * `_map_conll_document`: the document's corpus node, then each sentence, numbering
   * its tokens on from the last one of the sentence before.
   */
  method MapConllDocument(u: Update, docPath: string, lines: seq<string>, textName: string) returns (r: Result<()>)
    modifies u
    ensures var ss := Sentences(Read(lines, |lines|));
      (r.Ok? <==> DocumentEvents(docPath, 1, ss, textName).Ok?)
      && (r.Ok? ==> u.events == old(u.events) + SubnodeEvents(docPath) + DocumentEvents(docPath, 1, ss, textName).value)
  {
    var ss := ReadData(lines);
    AddSubnode(u, docPath);
    r := MapSentences(u, docPath, ss, textName);
  }

  /** The sentences of a document, numbering the tokens of each on from the last one of the sentence before. */
  method MapSentences(u: Update, docPath: string, ss: seq<seq<Entry>>, textName: string) returns (r: Result<()>)
    modifies u
    ensures r.Ok? <==> DocumentEvents(docPath, 1, ss, textName).Ok?
    ensures r.Ok? ==> u.events == old(u.events) + DocumentEvents(docPath, 1, ss, textName).value
  {
    ghost var added: seq<Event> := [];
    var tokCount: nat := 1;
    assert ss[0..] == ss;
    if DocumentEvents(docPath, 1, ss, textName).Ok? {
      assert [] + DocumentEvents(docPath, 1, ss, textName).value == DocumentEvents(docPath, 1, ss, textName).value;
    }
    for j := 0 to |ss|
      invariant DocumentEvents(docPath, 1, ss, textName).Ok? <==> DocumentEvents(docPath, tokCount, ss[j..], textName).Ok?
      invariant DocumentEvents(docPath, tokCount, ss[j..], textName).Ok? ==>
        DocumentEvents(docPath, 1, ss, textName).value == added + DocumentEvents(docPath, tokCount, ss[j..], textName).value
      invariant u.events == old(u.events) + added
    {
      var m := MapSentence(u, docPath, tokCount, ss[j], textName);
      assert ss[j..][0] == ss[j] && ss[j..][1..] == ss[j + 1..];
      DocumentEventsNext(docPath, tokCount, ss[j..], textName);
      if m.Err? {
        return Err(m.msg);
      }
      ghost var step := SentenceEvents(docPath, tokCount, ss[j], textName).value;
      if DocumentEvents(docPath, tokCount + |ss[j]|, ss[j + 1..], textName).Ok? {
        AppendAssoc(added, step, DocumentEvents(docPath, tokCount + |ss[j]|, ss[j + 1..], textName).value);
      }
      AppendAssoc(old(u.events), added, step);
      added := added + step;
      tokCount := tokCount + |ss[j]|;
    }
    assert ss[|ss|..] == [];
    return Ok(());
  }

  /**
   * A document that maps adds the nodes `#t1` to `#tN`, one per entry of the file, in
   * order, whatever the sentence breaks.
   */
  lemma DocumentTokens(docPath: string, lines: seq<string>, textName: string)
    requires DocumentEvents(docPath, 1, Sentences(Read(lines, |lines|)), textName).Ok?
    ensures AddedNodes(DocumentEvents(docPath, 1, Sentences(Read(lines, |lines|)), textName).value)
         == TokenRange(docPath, 1, |Entries(lines, |lines|)|)
  {
    var ss := Sentences(Read(lines, |lines|));
    DocumentNodes(docPath, 1, ss, textName);
    EntryCountFlatten(ss);
    ReadSound(lines, |lines|);
  }
}
