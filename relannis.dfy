/**
 * The pure core of the relANNIS importer: the byte keys under which it stores text
 * positions, texts and nodes in its disk maps, the decoding of table fields, corpus
 * paths from the pre/post-order corpus table, the renaming of duplicated documents and
 * the ordering edges it derives from the token order.
 */
module RelAnnis {
  import opened Wrappers
  import opened Strings
  import opened Bytes
  import opened Events

  // ---------------------------------------------------------------------------
  // Keys
  // ---------------------------------------------------------------------------

  /** `create_str_key`: the UTF-8 bytes of the string and a terminating zero. */
  function StrKey(s: string): seq<byte>
  {
    Encode(s) + [0]
  }

  /** The loop of `create_str_key`, which pushes the bytes one by one. */
  method CreateStrKey(s: string) returns (key: seq<byte>)
    ensures key == StrKey(s)
  {
    var bytes := Encode(s);
    key := [];
    for i := 0 to |bytes|
      invariant key == bytes[..i]
    {
      key := key + [bytes[i]];
    }
    assert key == bytes;
    key := key + [0];
  }

  /** The key of a string without NUL characters has exactly one zero byte, its last one. */
  lemma StrKeyTerminated(s: string)
    requires '\0' !in s
    ensures var key := StrKey(s); key[|key| - 1] == 0 && 0 !in key[..|key| - 1]
  {
    EncodeNul(s);
    assert StrKey(s)[..|StrKey(s)| - 1] == Encode(s);
  }

  datatype TextProperty = TextProperty(segmentation: string, corpusId: u32, textId: u32, val: u32)

  function U32Bytes(x: u32): (bs: seq<byte>)
    ensures |bs| == 4
  {
    Pow256Widths();
    ToBigEndian(x, 4)
  }

  function U64Bytes(x: u64): (bs: seq<byte>)
    ensures |bs| == 8
  {
    Pow256Widths();
    ToBigEndian(x, 8)
  }

  function ReadU32(bs: seq<byte>): u32
    requires |bs| == 4
  {
    Pow256Widths();
    FromBigEndian(bs)
  }

  function ReadU64(bs: seq<byte>): u64
    requires |bs| == 8
  {
    Pow256Widths();
    FromBigEndian(bs)
  }

  lemma ReadU32Bytes(x: u32)
    ensures ReadU32(U32Bytes(x)) == x
  {
    Pow256Widths();
    FromToBigEndian(x, 4);
  }

  lemma ReadU64Bytes(x: u64)
    ensures ReadU64(U64Bytes(x)) == x
  {
    Pow256Widths();
    FromToBigEndian(x, 8);
  }

  /** `TextProperty::create_key`: the segmentation as a string key, then the three ids big-endian. */
  function TextPropertyKey(p: TextProperty): (key: seq<byte>)
    ensures |key| == |StrKey(p.segmentation)| + 12
  {
    StrKey(p.segmentation) + U32Bytes(p.corpusId) + U32Bytes(p.textId) + U32Bytes(p.val)
  }

  /**
   * `TextProperty::parse_key`: the ids are the last twelve bytes; the segmentation is the
   * first piece of the lossily decoded key split at NUL. A key shorter than twelve bytes
   * makes the offset computation underflow, which the model reports as an error.
   */
  function ParseTextProperty(key: seq<byte>): (r: Result<TextProperty>)
    ensures r.Err? <==> |key| < 12
  {
    if |key| < 12 then Err("attempt to subtract with overflow")
    else
      var o := |key| - 12;
      Ok(TextProperty(BeforeNul(Decode(key)), ReadU32(key[o..o + 4]), ReadU32(key[o + 4..o + 8]), ReadU32(key[o + 8..])))
  }

  /** The NUL byte decodes to the NUL character on its own. */
  lemma DecodeNul(rest: seq<byte>)
    ensures Decode([0] + rest) == ['\0'] + Decode(rest)
  {
    assert ([0] + rest)[1..] == rest;
  }

  /**
   * Parsing a text-property key gives back the ids and the segmentation up to its first
   * NUL character.
   */
  lemma ParseTextPropertyKey(p: TextProperty)
    ensures ParseTextProperty(TextPropertyKey(p)).Ok?
    ensures ParseTextProperty(TextPropertyKey(p)).value.segmentation == BeforeNul(p.segmentation)
    ensures ParseTextProperty(TextPropertyKey(p)).value.corpusId == p.corpusId
    ensures ParseTextProperty(TextPropertyKey(p)).value.textId == p.textId
    ensures ParseTextProperty(TextPropertyKey(p)).value.val == p.val
  {
    TextPropertyKeyText(p);
    TextPropertyKeyIds(p);
    ReadU32Bytes(p.corpusId);
    ReadU32Bytes(p.textId);
    ReadU32Bytes(p.val);
  }

  /** The decoded key is the segmentation, NUL, then the decoded ids. */
  lemma TextPropertyKeyText(p: TextProperty)
    ensures BeforeNul(Decode(TextPropertyKey(p))) == BeforeNul(p.segmentation)
  {
    var ids := U32Bytes(p.corpusId) + U32Bytes(p.textId) + U32Bytes(p.val);
    var key := TextPropertyKey(p);
    assert key == Encode(p.segmentation) + ([0] + ids);
    DecodeEncodeAppend(p.segmentation, [0] + ids);
    DecodeNul(ids);
    assert Decode(key) == p.segmentation + ['\0'] + Decode(ids);
    BeforeNulAppend(p.segmentation, Decode(ids));
  }

  /** The last twelve bytes of the key are the three ids. */
  lemma TextPropertyKeyIds(p: TextProperty)
    ensures var key := TextPropertyKey(p);
      var o := |key| - 12;
      key[o..o + 4] == U32Bytes(p.corpusId) && key[o + 4..o + 8] == U32Bytes(p.textId) && key[o + 8..] == U32Bytes(p.val)
  {
    var key := TextPropertyKey(p);
    var o := |key| - 12;
    assert key[o..o + 4] == U32Bytes(p.corpusId);
    assert key[o + 4..o + 8] == U32Bytes(p.textId);
    assert key[o + 8..] == U32Bytes(p.val);
  }

  /** The round trip of the text-property codec, for segmentations without NUL characters. */
  lemma TextPropertyRoundTrip(p: TextProperty)
    requires '\0' !in p.segmentation
    ensures ParseTextProperty(TextPropertyKey(p)) == Ok(p)
  {
    ParseTextPropertyKey(p);
    BeforeNulNone(p.segmentation);
  }

  datatype TextKey = TextKey(id: u32, corpusRef: Option<u32>)

  /** `TextKey::create_key`: the id and, when there is one, the corpus reference, big-endian. */
  function TextKeyBytes(k: TextKey): (key: seq<byte>)
    ensures |key| == if k.corpusRef.Some? then 8 else 4
  {
    U32Bytes(k.id) + (if k.corpusRef.Some? then U32Bytes(k.corpusRef.value) else [])
  }

  /**
   * `TextKey::parse_key`: the id from the first four bytes; a corpus reference only when the
   * key is exactly eight bytes long. Fewer than four bytes make the slice panic.
   */
  function ParseTextKey(key: seq<byte>): (r: Result<TextKey>)
    ensures r.Err? <==> |key| < 4
    ensures r.Ok? ==> (r.value.corpusRef.Some? <==> |key| == 8)
  {
    if |key| < 4 then Err("range end index 4 out of range")
    else Ok(TextKey(ReadU32(key[..4]), if |key| == 8 then Some(ReadU32(key[4..])) else None))
  }

  /** The round trip of the text-key codec, with and without a corpus reference. */
  lemma TextKeyRoundTrip(k: TextKey)
    ensures ParseTextKey(TextKeyBytes(k)) == Ok(k)
  {
    var key := TextKeyBytes(k);
    assert key[..4] == U32Bytes(k.id);
    ReadU32Bytes(k.id);
    if k.corpusRef.Some? {
      assert key[4..] == U32Bytes(k.corpusRef.value);
      ReadU32Bytes(k.corpusRef.value);
    }
  }

  datatype NodeByTextEntry = NodeByTextEntry(textId: u32, corpusRef: u32, nodeId: u64)

  /** `NodeByTextEntry::create_key`: text id, corpus reference and the 64-bit node id, big-endian. */
  function NodeByTextEntryKey(e: NodeByTextEntry): (key: seq<byte>)
    ensures |key| == 16
  {
    U32Bytes(e.textId) + U32Bytes(e.corpusRef) + U64Bytes(e.nodeId)
  }

  /**
   * `NodeByTextEntry::parse_key`: fewer than eight bytes make a slice panic; a node-id part
   * that is not exactly eight bytes fails the conversion.
   */
  function ParseNodeByTextEntry(key: seq<byte>): (r: Result<NodeByTextEntry>)
    ensures r.Err? <==> |key| != 16
  {
    if |key| < 8 then Err("range end index out of range")
    else if |key| != 16 then Err("could not convert slice to array")
    else Ok(NodeByTextEntry(ReadU32(key[..4]), ReadU32(key[4..8]), ReadU64(key[8..])))
  }

  /** The round trip of the node-by-text codec. */
  lemma NodeByTextEntryRoundTrip(e: NodeByTextEntry)
    ensures ParseNodeByTextEntry(NodeByTextEntryKey(e)) == Ok(e)
  {
    var key := NodeByTextEntryKey(e);
    assert key[..4] == U32Bytes(e.textId);
    assert key[4..8] == U32Bytes(e.corpusRef);
    assert key[8..] == U64Bytes(e.nodeId);
    ReadU32Bytes(e.textId);
    ReadU32Bytes(e.corpusRef);
    ReadU64Bytes(e.nodeId);
  }

  // ---------------------------------------------------------------------------
  // Table fields
  // ---------------------------------------------------------------------------

  /** The character a backslash followed by `c` stands for in a relANNIS table field. */
  function FieldEscape(c: char): Option<char>
  {
    if c == '\\' || c == '"' || c == '\'' || c == '`' || c == '$' then Some(c)
    else if c == 'n' then Some('\n')
    else if c == 'r' then Some('\r')
    else if c == 't' then Some('\t')
    else None
  }

  /**
   * The meaning of `escape_field`, read from the front: a backslash and an escapable
   * character become one character; a backslash before anything else, or at the end, is
   * copied and the character after it is read on its own.
   */
  function Unescaped(s: string): string
  {
    if s == [] then []
    else if s[0] == '\\' && |s| > 1 && FieldEscape(s[1]).Some? then [FieldEscape(s[1]).value] + Unescaped(s[2..])
    else [s[0]] + Unescaped(s[1..])
  }

  /** `escape_field`: the character loop with one character of lookahead. */
  method EscapeField(s: string) returns (r: string)
    ensures r == Unescaped(s)
  {
    r := "";
    var i := 0;
    while i < |s|
      invariant 0 <= i <= |s|
      invariant r + Unescaped(s[i..]) == Unescaped(s)
    {
      var c := s[i];
      var escaped: Option<char> := None;
      if c == '\\' && i + 1 < |s| {
        escaped := FieldEscape(s[i + 1]);
      }
      UnescapedStep(s, i, r);
      if escaped.Some? {
        r := r + [escaped.value];
        i := i + 2;
      } else {
        r := r + [c];
        i := i + 1;
      }
    }
  }

  /** One iteration of the loop: the output so far and the meaning of the rest still give the whole meaning. */
  lemma UnescapedStep(s: string, i: nat, r: string)
    requires i < |s|
    ensures var e := if s[i] == '\\' && i + 1 < |s| then FieldEscape(s[i + 1]) else None;
      r + Unescaped(s[i..]) == if e.Some? then (r + [e.value]) + Unescaped(s[i + 2..]) else (r + [s[i]]) + Unescaped(s[i + 1..])
  {
    assert s[i..][0] == s[i];
    if s[i] == '\\' && i + 1 < |s| && FieldEscape(s[i + 1]).Some? {
      assert s[i..][2..] == s[i + 2..];
    } else {
      assert s[i..][1..] == s[i + 1..];
    }
  }

  /** The escaping of the relANNIS exporter: the inverse of `Unescaped`. */
  function EscapedField(s: string): string
  {
    if s == [] then []
    else
      var c := s[0];
      (if c == '\\' || c == '"' || c == '\'' || c == '`' || c == '$' then ['\\', c]
       else if c == '\n' then "\\n"
       else if c == '\r' then "\\r"
       else if c == '\t' then "\\t"
       else [c]) + EscapedField(s[1..])
  }

  /** Decoding a field undoes its escaping, for every string. */
  lemma {:induction false} UnescapedEscaped(s: string)
    ensures Unescaped(EscapedField(s)) == s
  {
    if s != [] {
      var e := EscapedField(s);
      var tail := EscapedField(s[1..]);
      UnescapedEscaped(s[1..]);
      var c := s[0];
      if c == '\\' || c == '"' || c == '\'' || c == '`' || c == '$' || c == '\n' || c == '\r' || c == '\t' {
        assert e[2..] == tail;
      } else {
        assert e[1..] == tail;
      }
    }
  }

  /** Decoding never makes a field longer, and a field without backslashes is left as it is. */
  lemma {:induction false} UnescapedShorter(s: string)
    ensures |Unescaped(s)| <= |s|
    ensures '\\' !in s ==> Unescaped(s) == s
  {
    if s != [] {
      assert '\\' !in s ==> '\\' !in s[1..];
      if s[0] == '\\' && |s| > 1 && FieldEscape(s[1]).Some? {
        UnescapedShorter(s[2..]);
      } else {
        UnescapedShorter(s[1..]);
      }
    }
  }

  /** Pieces of the unit-test example of `get_field`: escaped backslashes, one and two in a row. */
  lemma UnescapedBackslashes()
    ensures Unescaped("a\\\\b\\\\\\\\c") == "a\\b\\\\c"
  {
  }

  /** Escaped control characters, and a non-ASCII letter kept as it is. */
  lemma UnescapedControls()
    ensures Unescaped("\\n\\r\\tå") == "\n\r\tå"
  {
  }

  /** The message of a missing column, with the column's position, name and file. */
  function MissingColumn(i: nat, column: string, file: string): string
  {
    "missing column at position " + NatToString(i) + " (" + column + ") in file " + file
  }

  /**
   * `get_field`: column `i` of a record; a missing column is an error, the literal `NULL`
   * is no value, and any other field is decoded.
   */
  function GetField(record: seq<string>, i: nat, column: string, file: string): (r: Result<Option<string>>)
    ensures r.Err? <==> i >= |record|
    ensures r.Err? ==> r.msg == MissingColumn(i, column, file)
    ensures r.Ok? ==> (r.value.None? <==> record[i] == "NULL")
    ensures r.Ok? && r.value.Some? ==> r.value.value == Unescaped(record[i])
  {
    if i >= |record| then Err(MissingColumn(i, column, file))
    else if record[i] == "NULL" then Ok(None)
    else Ok(Some(Unescaped(record[i])))
  }

  /**
   * `get_field_not_null`: as `get_field`, with `NULL` an error as well. `line` is the
   * record's position in its file, which a record built in memory does not have.
   */
  function GetFieldNotNull(record: seq<string>, i: nat, column: string, file: string, line: Option<nat>): (r: Result<string>)
    ensures r.Err? <==> i >= |record| || record[i] == "NULL"
    ensures r.Ok? ==> r.value == Unescaped(record[i])
    ensures i < |record| && record[i] == "NULL" ==> r == Err(NullMsg(i, column, file, line))
  {
    match GetField(record, i, column, file)
    case Err(e) => Err(e)
    case Ok(None) => Err(NullMsg(i, column, file, line))
    case Ok(Some(v)) => Ok(v)
  }

  function NullMsg(i: nat, column: string, file: string, line: Option<nat>): string
  {
    "unexpected value NULL in column " + NatToString(i) + " (" + column + ") in file " + file
      + " at line " + (match line case None => "<unknown>" case Some(n) => NatToString(n))
  }

  lemma NatToStringTwelve()
    ensures NatToString(12) == "12"
  {
    assert NatToString(12) == NatToString(1) + [DigitChar(2)];
  }

  /** The unit test `invalid_column`: column 12 of a five-column record. */
  lemma MissingColumnMessage()
    ensures MissingColumn(12, "span", "node.annis") == "missing column at position 12 (span) in file node.annis"
  {
    NatToStringTwelve();
  }

  // ---------------------------------------------------------------------------
  // The corpus table
  // ---------------------------------------------------------------------------

  datatype CorpusEntry = CorpusEntry(pre: u32, post: u32, normalizedName: string, name: string)

  /** `ParsedCorpusTable`: the corpora by id, and their ids by pre-order rank. */
  datatype CorpusTable = CorpusTable(byPreorder: map<nat, u32>, byId: map<u32, CorpusEntry>)

  /** The pre-order rank `q` names a corpus whose post-order rank is larger than `post`. */
  predicate Encloses(t: CorpusTable, q: nat, post: nat)
  {
    q in t.byPreorder && t.byPreorder[q] in t.byId && post < t.byId[t.byPreorder[q]].post
  }

  /** The pre-order ranks below `k` of the corpora enclosing one with post-order rank `post`, in ascending order. */
  function Enclosing(t: CorpusTable, post: nat, k: nat): (qs: seq<nat>)
    ensures forall q: nat :: q in qs <==> q < k && Encloses(t, q, post)
  {
    if k == 0 then []
    else Enclosing(t, post, k - 1) + (if Encloses(t, k - 1, post) then [k - 1] else [])
  }

  predicate Ascending(qs: seq<nat>)
  {
    forall i, j :: 0 <= i < j < |qs| ==> qs[i] < qs[j]
  }

  /** The enclosing corpora come in strictly ascending pre-order. */
  lemma {:induction false} EnclosingSorted(t: CorpusTable, post: nat, k: nat)
    ensures Ascending(Enclosing(t, post, k))
  {
    if k > 0 {
      EnclosingSorted(t, post, k - 1);
      var prev := Enclosing(t, post, k - 1);
      forall i | 0 <= i < |prev|
        ensures prev[i] < k - 1
      {
        assert prev[i] in prev;
      }
      var qs := Enclosing(t, post, k);
      if Encloses(t, k - 1, post) {
        assert qs == prev + [k - 1];
        forall i, j | 0 <= i < j < |qs|
          ensures qs[i] < qs[j]
        {
          assert qs[i] == prev[i];
          if j < |prev| {
            assert qs[j] == prev[j];
          } else {
            assert qs[j] == k - 1;
          }
        }
      } else {
        assert qs == prev;
      }
    }
  }

  function Names(t: CorpusTable, qs: seq<nat>): (names: seq<string>)
    requires forall q :: q in qs ==> q in t.byPreorder && t.byPreorder[q] in t.byId
    ensures |names| == |qs|
    ensures forall i :: 0 <= i < |qs| ==> names[i] == t.byId[t.byPreorder[qs[i]]].normalizedName
  {
    if qs == [] then [] else [t.byId[t.byPreorder[qs[0]]].normalizedName] + Names(t, qs[1..])
  }

  /**
   * `get_parent_path`: the normalized names of the corpora that precede the corpus in
   * pre-order and end after it in post-order, in pre-order, joined by '/'. An unknown
   * corpus id is an error.
   */
  function ParentPath(cid: u32, t: CorpusTable): (r: Result<string>)
    ensures r.Err? <==> cid !in t.byId
  {
    if cid !in t.byId then Err("corpus with ID " + NatToString(cid) + " not found")
    else
      var c := t.byId[cid];
      Ok(Join(Names(t, Enclosing(t, c.post, c.pre)), "/"))
  }

  /** The parts of a parent path are exactly the names of the enclosing corpora, outermost first. */
  lemma ParentPathParts(cid: u32, t: CorpusTable)
    requires cid in t.byId
    ensures var c := t.byId[cid]; var qs := Enclosing(t, c.post, c.pre);
      ParentPath(cid, t) == Ok(Join(Names(t, qs), "/"))
      && (forall q: nat :: q in qs <==> q < c.pre && Encloses(t, q, c.post))
      && Ascending(qs)
  {
    var c := t.byId[cid];
    EnclosingSorted(t, c.post, c.pre);
  }

  // ---------------------------------------------------------------------------
  // Duplicated document names
  // ---------------------------------------------------------------------------

  datatype CorpusRow = CorpusRow(name: string, isDocument: bool)

  /** How many of the first `k` rows are documents named `name`. */
  function DocumentCount(rows: seq<CorpusRow>, k: nat, name: string): nat
    requires k <= |rows|
  {
    if k == 0 then 0
    else DocumentCount(rows, k - 1, name) + (if rows[k - 1].isDocument && rows[k - 1].name == name then 1 else 0)
  }

  const DuplicateSuffix := "_duplicated_document_name_"

  /** The name row `i` ends up with: the n-th document of a name, n > 1, gets the suffix `_duplicated_document_name_n`. */
  function RowName(rows: seq<CorpusRow>, i: nat): string
    requires i < |rows|
  {
    var n := DocumentCount(rows, i + 1, rows[i].name);
    if rows[i].isDocument && n > 1 then rows[i].name + DuplicateSuffix + NatToString(n) else rows[i].name
  }

  /** The names of the first `k` rows. */
  function RowNames(rows: seq<CorpusRow>, k: nat): (names: seq<string>)
    requires k <= |rows|
    ensures |names| == k
    ensures forall i :: 0 <= i < k ==> names[i] == RowName(rows, i)
  {
    if k == 0 then [] else RowNames(rows, k - 1) + [RowName(rows, k - 1)]
  }

  /** The counting of `parse_corpus_tab`: a map from document name to how often it has been seen. */
  method RenameDocuments(rows: seq<CorpusRow>) returns (names: seq<string>)
    ensures names == RowNames(rows, |rows|)
  {
    var counts: map<string, nat> := map[];
    names := [];
    for k := 0 to |rows|
      invariant names == RowNames(rows, k)
      invariant forall n :: n in counts <==> DocumentCount(rows, k, n) > 0
      invariant forall n :: n in counts ==> counts[n] == DocumentCount(rows, k, n)
    {
      var name := rows[k].name;
      if rows[k].isDocument {
        var existing := if name in counts then counts[name] + 1 else 1;
        counts := counts[name := existing];
        if existing > 1 {
          name := name + DuplicateSuffix + NatToString(existing);
        }
      }
      names := names + [name];
    }
  }

  lemma {:induction false} DocumentCountGrows(rows: seq<CorpusRow>, i: nat, j: nat, name: string)
    requires i < j <= |rows|
    requires rows[j - 1].isDocument && rows[j - 1].name == name
    ensures DocumentCount(rows, i, name) < DocumentCount(rows, j, name)
  {
    if i < j - 1 {
      DocumentCountMonotone(rows, i, j - 1, name);
    }
  }

  lemma {:induction false} DocumentCountMonotone(rows: seq<CorpusRow>, i: nat, j: nat, name: string)
    requires i <= j <= |rows|
    ensures DocumentCount(rows, i, name) <= DocumentCount(rows, j, name)
  {
    if i < j {
      DocumentCountMonotone(rows, i, j - 1, name);
    }
  }

  /** Two documents that came with the same name leave with different names. */
  lemma DuplicatesRenamedApart(rows: seq<CorpusRow>, i: nat, j: nat)
    requires i < j < |rows|
    requires rows[i].isDocument && rows[j].isDocument && rows[i].name == rows[j].name
    ensures RowName(rows, i) != RowName(rows, j)
  {
    var name := rows[i].name;
    var a, b := DocumentCount(rows, i + 1, name), DocumentCount(rows, j + 1, name);
    DocumentCountGrows(rows, i + 1, j + 1, name);
    assert a >= 1 by {
      DocumentCountGrows(rows, i, i + 1, name);
    }
    var prefix := name + DuplicateSuffix;
    if a == 1 {
      assert |RowName(rows, j)| > |name|;
    } else if RowName(rows, i) == RowName(rows, j) {
      assert RowName(rows, i) == prefix + NatToString(a);
      assert RowName(rows, j) == prefix + NatToString(b);
      assert (prefix + NatToString(a))[|prefix|..] == NatToString(a);
      assert (prefix + NatToString(b))[|prefix|..] == NatToString(b);
      NatToStringInjective(a, b);
    }
  }

  /** The first document of a name, and every corpus that is not a document, keep their names. */
  lemma FirstKeepsName(rows: seq<CorpusRow>, i: nat)
    requires i < |rows|
    requires !rows[i].isDocument || DocumentCount(rows, i, rows[i].name) == 0
    ensures RowName(rows, i) == rows[i].name
  {
  }

  // ---------------------------------------------------------------------------
  // Automatic token order
  // ---------------------------------------------------------------------------

  /** Two text positions lie in the same text of the same corpus, in the same segmentation. */
  predicate SameText(a: TextProperty, b: TextProperty)
  {
    a.corpusId == b.corpusId && a.textId == b.textId && a.segmentation == b.segmentation
  }

  /** The ordering edge between two tokens of a segmentation; the base token order lives in the annis layer. */
  function OrderEdge(p: TextProperty, source: string, target: string): Event
  {
    AddEdge(source, target, if p.segmentation == "" then AnnisNs else DefaultNs, TypeName(Ordering), p.segmentation)
  }

  /** There is an ordering edge between token `i - 1` and token `i`. */
  predicate Linked(tokens: seq<(TextProperty, u64)>, i: nat)
    requires i < |tokens|
  {
    i > 0 && SameText(tokens[i - 1].0, tokens[i].0)
  }

  /**
   * The ordering edges of `calculate_automatic_token_order` over the first `k` tokens, in
   * their key order: one edge from each token to the next one in the same text, or an
   * error when one of the two has no node name.
   */
  function TokenOrder(tokens: seq<(TextProperty, u64)>, names: map<u64, string>, k: nat): Result<seq<Event>>
    requires k <= |tokens|
  {
    if k == 0 then Ok([])
    else
      match TokenOrder(tokens, names, k - 1)
      case Err(e) => Err(e)
      case Ok(es) =>
        if !Linked(tokens, k - 1) then Ok(es)
        else
          var last, current := tokens[k - 2], tokens[k - 1];
          if last.1 !in names then Err("node with ID " + NatToString(last.1) + " not found)")
          else if current.1 !in names then Err("node with ID " + NatToString(current.1) + " not found)")
          else Ok(es + [OrderEdge(current.0, names[last.1], names[current.1])])
  }

  /** The edge token `i` gets from its predecessor. */
  function EdgeTo(tokens: seq<(TextProperty, u64)>, names: map<u64, string>, i: nat): Event
    requires 0 < i < |tokens| && tokens[i - 1].1 in names && tokens[i].1 in names
  {
    OrderEdge(tokens[i].0, names[tokens[i - 1].1], names[tokens[i].1])
  }

  /** Both tokens of every linked pair have node names. */
  predicate Named(tokens: seq<(TextProperty, u64)>, names: map<u64, string>, k: nat)
    requires k <= |tokens|
  {
    forall i :: 0 <= i < k && Linked(tokens, i) ==> tokens[i - 1].1 in names && tokens[i].1 in names
  }

  /**
   * The edges fail exactly when a linked token has no name; otherwise every edge links a
   * token to its predecessor in the same text, and every such pair has its edge.
   */
  lemma {:induction false} TokenOrderEdges(tokens: seq<(TextProperty, u64)>, names: map<u64, string>, k: nat)
    requires k <= |tokens|
    ensures TokenOrder(tokens, names, k).Ok? <==> Named(tokens, names, k)
    ensures TokenOrder(tokens, names, k).Ok? ==>
      (forall e :: e in TokenOrder(tokens, names, k).value ==>
        exists i :: 0 < i < k && Linked(tokens, i) && e == EdgeTo(tokens, names, i))
      && (forall i :: 0 < i < k && Linked(tokens, i) ==> EdgeTo(tokens, names, i) in TokenOrder(tokens, names, k).value)
  {
    TokenOrderOk(tokens, names, k);
    if TokenOrder(tokens, names, k).Ok? {
      TokenOrderSound(tokens, names, k);
      TokenOrderComplete(tokens, names, k);
    }
  }

  lemma {:induction false} TokenOrderOk(tokens: seq<(TextProperty, u64)>, names: map<u64, string>, k: nat)
    requires k <= |tokens|
    ensures TokenOrder(tokens, names, k).Ok? <==> Named(tokens, names, k)
  {
    if k > 0 {
      TokenOrderOk(tokens, names, k - 1);
      NamedStep(tokens, names, k);
    }
  }

  /** Naming one more token adds the condition on its pair, if it is linked. */
  lemma {:induction false} NamedStep(tokens: seq<(TextProperty, u64)>, names: map<u64, string>, k: nat)
    requires 0 < k <= |tokens|
    ensures Named(tokens, names, k) <==>
      Named(tokens, names, k - 1) && (Linked(tokens, k - 1) ==> tokens[k - 2].1 in names && tokens[k - 1].1 in names)
  {
  }

  lemma {:induction false} TokenOrderSound(tokens: seq<(TextProperty, u64)>, names: map<u64, string>, k: nat)
    requires k <= |tokens| && TokenOrder(tokens, names, k).Ok? && Named(tokens, names, k)
    ensures forall e :: e in TokenOrder(tokens, names, k).value ==>
      exists i :: 0 < i < k && Linked(tokens, i) && e == EdgeTo(tokens, names, i)
  {
    if k > 0 {
      TokenOrderSound(tokens, names, k - 1);
      if Linked(tokens, k - 1) {
        var es := TokenOrder(tokens, names, k - 1).value;
        assert TokenOrder(tokens, names, k).value == es + [EdgeTo(tokens, names, k - 1)];
      }
    }
  }

  lemma {:induction false} TokenOrderComplete(tokens: seq<(TextProperty, u64)>, names: map<u64, string>, k: nat)
    requires k <= |tokens| && TokenOrder(tokens, names, k).Ok? && Named(tokens, names, k)
    ensures forall i :: 0 < i < k && Linked(tokens, i) ==> EdgeTo(tokens, names, i) in TokenOrder(tokens, names, k).value
  {
    if k > 0 {
      TokenOrderComplete(tokens, names, k - 1);
      if Linked(tokens, k - 1) {
        var es := TokenOrder(tokens, names, k - 1).value;
        assert TokenOrder(tokens, names, k).value == es + [EdgeTo(tokens, names, k - 1)];
      }
    }
  }

  /** `calculate_automatic_token_order`: the loop that remembers the previous token and its text position. */
  method AddTokenOrder(u: Update, tokens: seq<(TextProperty, u64)>, names: map<u64, string>) returns (r: Result<()>)
    modifies u
    ensures r.Ok? <==> TokenOrder(tokens, names, |tokens|).Ok?
    ensures r.Ok? ==> u.events == old(u.events) + TokenOrder(tokens, names, |tokens|).value
    ensures r.Err? ==> r.msg == TokenOrder(tokens, names, |tokens|).msg
    ensures r.Err? ==> exists k :: 0 <= k < |tokens| && TokenOrder(tokens, names, k).Ok? &&
                                  TokenOrder(tokens, names, k + 1).Err? &&
                                  u.events == old(u.events) + TokenOrder(tokens, names, k).value
  {
    var lastProp: Option<TextProperty> := None;
    var lastToken: Option<u64> := None;
    for k := 0 to |tokens|
      invariant TokenOrder(tokens, names, k).Ok?
      invariant u.events == old(u.events) + TokenOrder(tokens, names, k).value
      invariant k == 0 ==> lastProp.None? && lastToken.None?
      invariant k > 0 ==> lastProp == Some(tokens[k - 1].0) && lastToken == Some(tokens[k - 1].1)
    {
      var (currentProp, currentToken) := tokens[k];
      if lastToken.Some? && lastProp.Some? && SameText(lastProp.value, currentProp) {
        if lastToken.value !in names {
          TokenOrderErrSticks(tokens, names, k + 1);
          return Err("node with ID " + NatToString(lastToken.value) + " not found)");
        }
        if currentToken !in names {
          TokenOrderErrSticks(tokens, names, k + 1);
          return Err("node with ID " + NatToString(currentToken) + " not found)");
        }
        u.Add(OrderEdge(currentProp, names[lastToken.value], names[currentToken]));
      }
      lastProp := Some(currentProp);
      lastToken := Some(currentToken);
    }
    return Ok(());
  }

  /** Once the edges fail they fail, with the same message, for every longer prefix. */
  lemma {:induction false} TokenOrderErrSticks(tokens: seq<(TextProperty, u64)>, names: map<u64, string>, k: nat)
    requires k <= |tokens| && TokenOrder(tokens, names, k).Err?
    ensures TokenOrder(tokens, names, |tokens|) == TokenOrder(tokens, names, k)
    decreases |tokens| - k
  {
    if k < |tokens| {
      TokenOrderErrSticks(tokens, names, k + 1);
    }
  }

  /** The one-letter code of a component type in a relANNIS component table. */
  function ShortName(c: ComponentType): Option<string>
  {
    match c
    case Coverage => Some("c")
    case Dominance => Some("d")
    case Pointing => Some("p")
    case Ordering => Some("o")
    case _ => None
  }

  /** `component_type_from_short_name`: only the four codes of the format are accepted. */
  function ComponentTypeFromShortName(shortType: string): (r: Result<ComponentType>)
    ensures r.Ok? <==> shortType in ["c", "d", "p", "o"]
    ensures r.Err? ==> r.msg == "invalid component type short name '" + shortType + "'"
  {
    if shortType == "c" then Ok(Coverage)
    else if shortType == "d" then Ok(Dominance)
    else if shortType == "p" then Ok(Pointing)
    else if shortType == "o" then Ok(Ordering)
    else Err("invalid component type short name '" + shortType + "'")
  }

  /** A parsed code is the code of the type it names, so no two codes name one type. */
  lemma ShortNameOfParsed(shortType: string)
    requires ComponentTypeFromShortName(shortType).Ok?
    ensures ShortName(ComponentTypeFromShortName(shortType).value) == Some(shortType)
  {
  }

  /** Every type that has a code is read back from it; the other types have none. */
  lemma ParsedShortName(c: ComponentType)
    ensures ShortName(c).Some? ==> ComponentTypeFromShortName(ShortName(c).value) == Ok(c)
    ensures ShortName(c).None? <==> c in [LeftToken, RightToken, PartOf]
  {
  }
}
