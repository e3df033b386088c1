/**
 * The Rust EXMARaLDA importer (`import_document`). The document arrives as the stream of
 * events an XML reader yields; one loop over them fills the buffers of the import: the
 * tli ids grouped by time, the timeline from tli id to time and empty-token node, the tli
 * ids ordered by time, the speaker table, the attributes of the open elements, the event
 * nodes already created, the named orderings of the token tiers and the collected errors.
 * Times are the exact values of their decimal literals, and a panic of the source (an
 * `unwrap` on nothing) ends the import with an error.
 */
module Exmaralda {
  import opened Wrappers
  import opened Strings
  import opened Events
  import opened Dicts
  import opened Sorting

  const LanguageSep := ","
  /** The panic of an `unwrap` on nothing, and that of indexing a map with a missing key. */
  const PanicMsg := "called `Option::unwrap()` on a `None` value"
  const IndexPanicMsg := "no entry found for key"

  /** What the XML reader yields: the attributes of a start tag as `attr_vec_to_map` collects them. */
  datatype XmlEvent =
    | StartDocument
    | EndDocument
    | Characters(text: string)
    | StartElement(name: string, attrs: map<string, string>)
    | EndElement(name: string)
    | Malformed
    | Other

  /** How a document import ends: mapped, stopped by the first fatal error, or failed with the collected errors. */
  datatype DocResult = Imported | ImportError(reason: string) | ConversionFailed(errors: seq<string>)

  // ---------------------------------------------------------------- times

  /** A tli time: the exact value of its decimal literal; rounding to `f64` is not modelled. */
  type Time = real

  function Pow10(n: nat): (r: nat)
    ensures r > 0
  {
    if n == 0 then 1 else 10 * Pow10(n - 1)
  }

  /** A whole part plus `f` tenths to the power `k`. */
  function DecimalValue(w: nat, f: nat, k: nat): real
  {
    w as real + f as real / Pow10(k) as real
  }

  /** The value of a mantissa: the digits before the '.' plus the fraction the digits after it spell. */
  function MantissaValue(m: string): real
    requires IsMantissa(m)
  {
    match Find(m, ".")
    case None => DigitsValue(m) as real
    case Some(d) =>
      DecimalValue(DigitsValue(m[..d]), DigitsValue(m[d + 1..]), |m| - d - 1)
  }

  /** A mantissa times ten to the power `x`. */
  function Scaled(m: real, x: int): real
  {
    if x >= 0 then m * Pow10(x) as real else m / Pow10(-x) as real
  }

  /** The value of an exponent: digits after an optional sign. */
  function ExponentValue(t: string): int
    requires |Unsigned(t)| > 0 && IsDigitString(Unsigned(t))
  {
    if t[0] == '-' then 0 - DigitsValue(Unsigned(t)) else DigitsValue(Unsigned(t))
  }

  /** The value of a float literal: sign, mantissa and power of ten. */
  function LiteralValue(s: string): Time
    requires IsFloatLiteral(s)
  {
    var b := Unsigned(s);
    var e := ExponentMark(b);
    var v := Scaled(MantissaValue(b[..e]), if e == |b| then 0 else ExponentValue(b[e + 1..]));
    if |s| > 0 && s[0] == '-' then -v else v
  }

  /** `str::parse::<OrderedFloat<f64>>` on decimal literals. */
  function ParseTime(s: string): Option<Time>
  {
    if IsFloatLiteral(s) then Some(LiteralValue(s)) else None
  }

  /** The decimal digits of a fraction, up to `fuel` of them, stopping once nothing is left. */
  function FractionDigits(f: real, fuel: nat): string
    requires 0.0 <= f < 1.0
    decreases fuel
  {
    if f == 0.0 || fuel == 0 then ""
    else
      var d := (f * 10.0).Floor;
      assert 0 <= d < 10;
      [DigitChar(d)] + FractionDigits(f * 10.0 - d as real, fuel - 1)
  }

  /** How `f64` displays a time: the whole part, and the fraction after a '.' when there is one. */
  function TimeString(t: Time): string
  {
    var a := if t < 0.0 then -t else t;
    var w := a.Floor;
    (if t < 0.0 then "-" else "") + NatToString(w) + (if a == w as real then "" else "." + FractionDigits(a - w as real, 17))
  }

  /** A whole time is displayed as the integer it is. */
  lemma {:induction false} TimeStringWhole(n: int)
    ensures TimeString(n as real) == IntToString(n)
  {
    if n < 0 {
      assert (-(n as real)).Floor == -n;
    } else {
      assert (n as real).Floor == n;
    }
  }

  /** Without an exponent a literal is worth its signed mantissa. */
  lemma {:induction false} LiteralNoExponent(s: string)
    requires IsFloatLiteral(s) && ExponentMark(Unsigned(s)) == |Unsigned(s)| && IsMantissa(Unsigned(s))
    ensures LiteralValue(s) == if |s| > 0 && s[0] == '-' then -MantissaValue(Unsigned(s)) else MantissaValue(Unsigned(s))
  {
    var b := Unsigned(s);
    assert b[..|b|] == b;
    assert Scaled(MantissaValue(b), 0) == MantissaValue(b) by { assert Pow10(0) == 1; }
  }

  /** A digit string is a mantissa worth its digits. */
  lemma {:induction false} MantissaWhole(d: string)
    requires |d| > 0 && IsDigitString(d)
    ensures ExponentMark(d) == |d| && IsMantissa(d) && MantissaValue(d) == DigitsValue(d) as real
  {
    ExponentMarkNone(d);
    CharAbsent(d, '.');
  }

  /** Digits, a '.', digits: a mantissa worth the whole part plus the fraction. */
  lemma {:induction false} MantissaDecimal(da: string, db: string)
    requires |da| > 0 && IsDigitString(da) && IsDigitString(db)
    ensures IsMantissa(da + "." + db)
    ensures MantissaValue(da + "." + db) == DecimalValue(DigitsValue(da), DigitsValue(db), |db|)
  {
    var s := da + "." + db;
    FindDot(da, db);
    var d := |da|;
    assert s[..d] == da;
    assert s[d + 1..] == db;
    assert IsMantissa(s);
    assert Find(s, ".") == Some(d);
    var w, f := DigitsValue(s[..d]), DigitsValue(s[d + 1..]);
    assert MantissaValue(s) == DecimalValue(w, f, |s| - d - 1);
    assert w == DigitsValue(da) && f == DigitsValue(db) && |s| - d - 1 == |db|;
  }

  /** A plain digit string parses as its digits' value. */
  lemma {:induction false} ParseDigits(d: string)
    requires |d| > 0 && IsDigitString(d)
    ensures ParseTime(d).Some? && ParseTime(d).value == DigitsValue(d) as real
  {
    assert Unsigned(d) == d;
    MantissaWhole(d);
    LiteralNoExponent(d);
  }

  /** A digit string after a '-' parses as the negated value. */
  lemma {:induction false} ParseNegativeDigits(d: string)
    requires |d| > 0 && IsDigitString(d)
    ensures ParseTime("-" + d).Some? && ParseTime("-" + d).value == -(DigitsValue(d) as real)
  {
    var s := "-" + d;
    assert Unsigned(s) == d;
    MantissaWhole(d);
    assert d[..|d|] == d;
    LiteralNoExponent(s);
  }

  /** An integer literal parses as its value. */
  lemma {:induction false} ParseTimeWhole(n: int)
    ensures ParseTime(IntToString(n)).Some? && ParseTime(IntToString(n)).value == n as real
  {
    if n < 0 {
      DigitsValueOfNat(-n);
      ParseNegativeDigits(NatToString(-n));
    } else {
      DigitsValueOfNat(n);
      ParseDigits(NatToString(n));
    }
  }

  /** The display of a whole time reads back as that time. */
  lemma {:induction false} TimeRoundTripWhole(n: int)
    ensures ParseTime(TimeString(n as real)).Some? && ParseTime(TimeString(n as real)).value == n as real
  {
    TimeStringWhole(n);
    ParseTimeWhole(n);
  }

  /** Two digit strings around a '.' parse as the whole part plus the fraction they spell. */
  lemma {:induction false} ParseTimeDecimal(a: nat, b: nat)
    ensures var db := NatToString(b);
      ParseTime(NatToString(a) + "." + db).Some? && ParseTime(NatToString(a) + "." + db).value == DecimalValue(a, b, |db|)
  {
    DigitsValueOfNat(a);
    DigitsValueOfNat(b);
    ParseDigitsDotDigits(NatToString(a), NatToString(b));
  }

  lemma {:induction false} ParseDigitsDotDigits(da: string, db: string)
    requires |da| > 0 && IsDigitString(da) && IsDigitString(db)
    ensures ParseTime(da + "." + db).Some? && ParseTime(da + "." + db).value == DecimalValue(DigitsValue(da), DigitsValue(db), |db|)
  {
    var s := da + "." + db;
    DigitsDotDigits(da, db);
    NoExponentInDigits(da, db);
    assert Unsigned(s) == s;
    MantissaDecimal(da, db);
    LiteralNoExponent(s);
  }

  /** A mantissa holds only digits and '.'. */
  lemma {:induction false} MantissaChars(m: string)
    requires IsMantissa(m)
    ensures forall i :: 0 <= i < |m| ==> ('0' <= m[i] <= '9') || m[i] == '.'
  {
    match Find(m, ".")
    case None =>
    case Some(d) =>
      assert m[d..d + 1] == ".";
      forall i | 0 <= i < |m| ensures ('0' <= m[i] <= '9') || m[i] == '.' {
        if i < d { assert m[i] == m[..d][i]; } else if i > d { assert m[i] == m[d + 1..][i - d - 1]; }
      }
  }

  /** The exponent mark is the first `e` or `E`. */
  lemma {:induction false} ExponentMarkAt(s: string, k: nat)
    requires k < |s| && (s[k] == 'e' || s[k] == 'E')
    requires forall i :: 0 <= i < k ==> s[i] != 'e' && s[i] != 'E'
    ensures ExponentMark(s) == k
  {
    if k > 0 {
      ExponentMarkAt(s[1..], k - 1);
    }
  }

  /** An unsigned literal with an exponent is its mantissa scaled by its exponent. */
  lemma {:induction false} LiteralWithExponent(s: string, k: nat, v: real, e: int)
    requires |s| > 0 && s[0] != '-' && s[0] != '+'
    requires k < |s| && ExponentMark(s) == k && IsMantissa(s[..k]) && MantissaValue(s[..k]) == v
    requires |Unsigned(s[k + 1..])| > 0 && IsDigitString(Unsigned(s[k + 1..])) && ExponentValue(s[k + 1..]) == e
    ensures ParseTime(s).Some? && ParseTime(s).value == Scaled(v, e)
  {
    assert Unsigned(s) == s;
  }

  /** How a mantissa, `e-` and a digit string lay out in one literal. */
  lemma {:induction false} NegativeExponentShape(m: string, x: string)
    requires IsMantissa(m) && |x| > 0 && IsDigitString(x)
    ensures var s := m + "e-" + x;
      |s| > 0 && s[0] != '-' && s[0] != '+' && |m| < |s| && ExponentMark(s) == |m| && s[..|m|] == m
      && Unsigned(s[|m| + 1..]) == x && ExponentValue(s[|m| + 1..]) == -(DigitsValue(x) as int)
  {
    var s := m + "e-" + x;
    MantissaChars(m);
    assert s[0] == m[0];
    ExponentMarkAt(s, |m|);
    assert s[..|m|] == m;
    assert s[|m| + 1..] == "-" + x;
    assert Unsigned("-" + x) == x;
  }

  /** The literal `m e- x` is the mantissa scaled by the negated digits. */
  lemma {:induction false} ParseNegativeScaled(m: string, x: string)
    requires IsMantissa(m) && |x| > 0 && IsDigitString(x)
    ensures ParseTime(m + "e-" + x).Some?
    ensures ParseTime(m + "e-" + x).value == Scaled(MantissaValue(m), -(DigitsValue(x) as int))
  {
    NegativeExponentShape(m, x);
    LiteralWithExponent(m + "e-" + x, |m|, MantissaValue(m), -(DigitsValue(x) as int));
  }

  /** A negative exponent divides the mantissa by that power of ten. */
  lemma {:induction false} ParseNegativeExponent(m: string, x: string)
    requires IsMantissa(m) && |x| > 0 && IsDigitString(x)
    ensures ParseTime(m + "e-" + x).Some? && ParseTime(m + "e-" + x).value == MantissaValue(m) / Pow10(DigitsValue(x)) as real
  {
    ParseNegativeScaled(m, x);
    ScaledNegative(MantissaValue(m), DigitsValue(x));
  }

  lemma {:induction false} ScaledNegative(m: real, k: nat)
    ensures Scaled(m, -(k as int)) == m / Pow10(k) as real
  {
  }

  /** A fractional time is displayed with its decimal digits. */
  lemma TimeStringHalf()
    ensures TimeString(1.5) == "1.5"
  {
    assert (1.5).Floor == 1;
    assert (0.5 * 10.0).Floor == 5;
    assert FractionDigits(0.0, 16) == "";
  }

  /** A fractional time shown in a label reads back as the same time. */
  lemma TimeRoundTripHalf()
    ensures ParseTime(TimeString(1.5)).Some? && ParseTime(TimeString(1.5)).value == 1.5
  {
    var d := NatToString(5);
    assert |d| == 1;
    assert DecimalValue(1, 5, |d|) == 1.5 by {
      assert Pow10(1) == 10;
    }
    ParseTimeDecimal(1, 5);
    assert NatToString(1) + "." + d == "1.5";
    TimeStringHalf();
  }

  // ---------------------------------------------------------------- ordered maps

  /** `BTreeMap::insert` with string keys, the entries kept in increasing key order. */
  function StrPut<V>(d: seq<(string, V)>, k: string, v: V): seq<(string, V)>
  {
    if d == [] then [(k, v)]
    else if d[0].0 == k then [(k, v)] + d[1..]
    else if CompareStrings(k, d[0].0) == Less then [(k, v)] + d
    else [d[0]] + StrPut(d[1..], k, v)
  }

  /** `BTreeMap::insert` with time keys, the entries kept in increasing key order. */
  function TimePut<V>(d: seq<(Time, V)>, k: Time, v: V): seq<(Time, V)>
  {
    if d == [] then [(k, v)]
    else if d[0].0 == k then [(k, v)] + d[1..]
    else if k < d[0].0 then [(k, v)] + d
    else [d[0]] + TimePut(d[1..], k, v)
  }

  function ListOf<K(==), T>(d: seq<(K, seq<T>)>, k: K): seq<T>
  {
    match Get(d, k)
    case Some(l) => l
    case None => []
  }

  /** Appends a tli id to the ids of its time; a new time starts with no ids. */
  function GroupPush(groups: seq<(Time, seq<string>)>, time: Time, id: string): seq<(Time, seq<string>)>
  {
    TimePut(groups, time, ListOf(groups, time) + [id])
  }

  /** Pushing `(start, node)` onto the named ordering `name`, created empty when missing. */
  function OrderPush(orderings: seq<(string, seq<(Time, string)>)>, name: string, e: (Time, string)): seq<(string, seq<(Time, string)>)>
  {
    StrPut(orderings, name, ListOf(orderings, name) + [e])
  }

  /** The first position of `x` in `s`, as `iter().position`. */
  function Position(s: seq<string>, x: string): (r: Option<nat>)
    ensures r.Some? ==> r.value < |s| && s[r.value] == x && forall j :: 0 <= j < r.value ==> s[j] != x
    ensures r.None? ==> x !in s
  {
    if s == [] then None
    else if s[0] == x then Some(0)
    else match Position(s[1..], x)
      case None => None
      case Some(j) => Some(j + 1)
  }

  // ---------------------------------------------------------------- the buffers

  type TimelineEntry = (string, (Time, string))

  /** The buffers of `import_document`, except the log. */
  datatype Buffers = Buffers(
    charBuf: string,
    timeline: seq<TimelineEntry>,
    ordered: seq<string>,
    speakers: map<string, string>,
    parents: map<string, map<string, string>>,
    defined: set<string>,
    orderings: seq<(string, seq<(Time, string)>)>,
    groups: seq<(Time, seq<string>)>,
    errors: seq<string>)

  const EmptyBuffers := Buffers("", [], [], map[], map[], {}, [], [], [])

  /** What one XML event does: go on, stop reading, or fail the document; with the events it appends. */
  datatype Step = Go(b: Buffers, out: seq<Event>) | Stop(b: Buffers) | Fail(reason: string)

  /** How an end tag ends: normally (the element's attributes are dropped), by `continue` (they are kept), or fatally. */
  datatype EndStep = Ended(b: Buffers, out: seq<Event>) | Skipped(b: Buffers, out: seq<Event>) | Aborted(reason: string)

  // ---------------------------------------------------------------- start tags

  /** A `tli` start tag: its time must be present and parse; its id joins the ids of that time. */
  function TliStart(b: Buffers, attrs: map<string, string>): Step
  {
    if "time" !in attrs then Fail("A timeline item does not have a time value.")
    else match ParseTime(attrs["time"])
      case None => Fail("Failed to parse tli time value.")
      case Some(t) =>
        if "id" !in attrs then Fail(IndexPanicMsg)
        else Go(b.(groups := GroupPush(b.groups, t, attrs["id"])), [])
  }

  /** A `language` start tag appends its `lang` to the buffer, after a separator when the buffer is not empty. */
  function LanguageStart(buf: string, attrs: map<string, string>): string
  {
    (if buf != "" then buf + LanguageSep else buf) + (if "lang" in attrs then attrs["lang"] else "")
  }

  predicate ClearsBuffer(name: string)
  {
    name in {"event", "abbreviation", "l1", "l2", "comment", "languages-used", "ud-information"}
  }

  /** A start tag, after its attributes are recorded as its name's parent attributes. */
  function StartOf(b: Buffers, name: string, attrs: map<string, string>): Step
  {
    var b := b.(parents := b.parents[name := attrs]);
    if name == "tli" then TliStart(b, attrs)
    else if name == "language" then Go(b.(charBuf := LanguageStart(b.charBuf, attrs)), [])
    else if ClearsBuffer(name) then Go(b.(charBuf := ""), [])
    else Go(b, [])
  }

  // ---------------------------------------------------------------- speaker table and meta data

  predicate IsSpeakerInfo(name: string)
  {
    name in {"abbreviation", "l1", "l2", "comment", "languages-used"}
  }

  /** The end of a speaker-table entry: a non-blank text labels the document in the speaker's namespace; an abbreviation also names the speaker. */
  function SpeakerInfoEnd(doc: string, b: Buffers, name: string): EndStep
  {
    if "speaker" !in b.parents || IsBlank(b.charBuf) then Ended(b, [])
    else if "id" !in b.parents["speaker"] then Aborted(IndexPanicMsg)
    else
      var id := b.parents["speaker"]["id"];
      var speakers := if name == "abbreviation" then b.speakers[id := b.charBuf] else b.speakers;
      Ended(b.(speakers := speakers), [AddNodeLabel(doc, id, name, b.charBuf)])
  }

  /** The end of a `ud-information`: its text labels the document, in the enclosing speaker's namespace if any. */
  function UdInformationEnd(doc: string, b: Buffers): EndStep
  {
    if "ud-information" !in b.parents then Aborted(PanicMsg)
    else if "attribute-name" !in b.parents["ud-information"] then Ended(b, [])
    else
      var ns := if "speaker" in b.parents && "id" in b.parents["speaker"] then b.parents["speaker"]["id"] else "";
      Ended(b, [AddNodeLabel(doc, ns, b.parents["ud-information"]["attribute-name"], b.charBuf)])
  }

  // ---------------------------------------------------------------- common timeline

  /** The empty token of the tlis `ids` that share a time. */
  function TliNode(doc: string, ids: seq<string>): string
  {
    doc + "#" + Join(ids, "_")
  }

  /** The events of one time's empty token. */
  function TliNodeEvents(doc: string, node: string): seq<Event>
  {
    [AddNode(node, DefaultNodeType), AddNodeLabel(node, AnnisNs, TokKey, " "), Edge(node, doc, AnnisNs, PartOf, "")]
  }

  /** Every id of a group is put in the timeline with the group's time and empty token. */
  function PutIds(tl: seq<TimelineEntry>, ids: seq<string>, j: nat, time: Time, node: string): seq<TimelineEntry>
    decreases |ids| - j
  {
    if j >= |ids| then tl else PutIds(StrPut(tl, ids[j], (time, node)), ids, j + 1, time, node)
  }

  /** The groups from the `k`-th on, in time order: their empty tokens, and their ids in the timeline. */
  function GroupsOf(doc: string, groups: seq<(Time, seq<string>)>, k: nat, tl: seq<TimelineEntry>, out: seq<Event>)
    : (seq<TimelineEntry>, seq<Event>)
    decreases |groups| - k
  {
    if k >= |groups| then (tl, out)
    else
      var node := TliNode(doc, groups[k].1);
      GroupsOf(doc, groups, k + 1, PutIds(tl, groups[k].1, 0, groups[k].0, node), out + TliNodeEvents(doc, node))
  }

  function TimeOfEntryLe(a: TimelineEntry, b: TimelineEntry): bool
  {
    a.1.0 <= b.1.0
  }

  /** The empty tokens of the tli ids, looked up in the timeline; `None` where one is missing. */
  function NodesOf(tl: seq<TimelineEntry>, ids: seq<string>): (r: Option<seq<string>>)
    ensures r.Some? ==> |r.value| == |ids|
  {
    if ids == [] then Some([])
    else match Get(tl, ids[|ids| - 1])
      case None => None
      case Some(e) =>
        match NodesOf(tl, ids[..|ids| - 1])
        case None => None
        case Some(init) => Some(init + [e.1])
  }

  /**
   * The base ordering between the empty tokens, as written: an edge from the token of each
   * ordered tli id to that of the next one.
   */
  function TimelineOrderingAsWritten(nodes: seq<string>): seq<Event>
  {
    if |nodes| < 2 then []
    else TimelineOrderingAsWritten(nodes[..|nodes| - 1]) + [Edge(nodes[|nodes| - 2], nodes[|nodes| - 1], AnnisNs, Ordering, "")]
  }

  /** The base ordering between the empty tokens: consecutive ids of one token add no edge. */
  function TimelineOrdering(nodes: seq<string>): seq<Event>
  {
    if |nodes| < 2 then []
    else
      var last := if nodes[|nodes| - 2] != nodes[|nodes| - 1] then [Edge(nodes[|nodes| - 2], nodes[|nodes| - 1], AnnisNs, Ordering, "")] else [];
      TimelineOrdering(nodes[..|nodes| - 1]) + last
  }

  /**
   * The end of the `common-timeline`: an empty token per time, the timeline ids appended to
   * the ordered ids by time (ties in key order), and the base ordering over their tokens.
   */
  function CommonTimelineEnd(doc: string, b: Buffers): EndStep
  {
    var (tl, out) := GroupsOf(doc, b.groups, 0, b.timeline, []);
    var ordered := b.ordered + Keys(SortBy(tl, TimeOfEntryLe));
    match NodesOf(tl, ordered)
    case None => Aborted(PanicMsg)
    case Some(nodes) => Ended(b.(timeline := tl, ordered := ordered), out + TimelineOrdering(nodes))
  }

  /** The end of the `common-timeline` as written: the base ordering links every consecutive pair of ordered ids. */
  function CommonTimelineEndAsWritten(doc: string, b: Buffers): EndStep
  {
    var (tl, out) := GroupsOf(doc, b.groups, 0, b.timeline, []);
    var ordered := b.ordered + Keys(SortBy(tl, TimeOfEntryLe));
    match NodesOf(tl, ordered)
    case None => Aborted(PanicMsg)
    case Some(nodes) => Ended(b.(timeline := tl, ordered := ordered), out + TimelineOrderingAsWritten(nodes))
  }

  // ---------------------------------------------------------------- events

  /** The node of an event, named after its tier type, speaker and tli ids; not unique by design. */
  function EventNode(doc: string, tierType: string, speaker: string, startId: string, endId: string): string
  {
    doc + "#" + tierType + "_" + speaker + "_" + startId + "-" + endId
  }

  /** The coverage edges from an event node to the empty tokens of `ids`; `None` where one is missing. */
  function CoverageOf(tl: seq<TimelineEntry>, node: string, ids: seq<string>): (r: Option<seq<Event>>)
    ensures r.Some? ==> |r.value| == |ids|
  {
    if ids == [] then Some([])
    else match Get(tl, ids[|ids| - 1])
      case None => None
      case Some(e) =>
        match CoverageOf(tl, node, ids[..|ids| - 1])
        case None => None
        case Some(init) => Some(init + [Edge(node, e.1, AnnisNs, Coverage, "")])
  }

  function StartMissingMsg(text: string): string
  {
    "Could not determine start id of currently processed event `" + text + "`. Event will be skipped. Import will fail."
  }

  function EndMissingMsg(text: string): string
  {
    "Could not determine end id of currently processed event `" + text + "`. Event will be skipped. Import will fail."
  }

  /** The labels every mapped event adds: its layer, its token text on a `t` tier, its annotation. */
  function EventLabels(node: string, tierType: string, speakerName: string, annoName: string, text: string): seq<Event>
  {
    [AddNodeLabel(node, AnnisNs, LayerKey, speakerName)]
    + (if tierType == "t" then [AddNodeLabel(node, AnnisNs, TokKey, text)] else [])
    + [AddNodeLabel(node, speakerName, annoName, text)]
  }

  /**
   * The end of an `event`, once its tier and its tli ids are known: the node is created once
   * per name, covering the ordered tli ids from the start up to the end, and labelled
   * with the times of its start and end tli; then every occurrence adds the labels, and
   * the events of a `t` tier join the ordering named after the category.
   */
  function EventSpan(doc: string, b: Buffers, tierType: string, speakerId: string, speakerName: string, annoName: string,
                     startId: string, endId: string, startI: nat, endI: nat): EndStep
    requires startI < endI < |b.ordered|
  {
    var text := b.charBuf;
    var overlapped := b.ordered[startI..endI];
    var node := EventNode(doc, tierType, speakerId, startId, endId);
    match Get(b.timeline, overlapped[0])
    case None => Skipped(b, [])
    case Some(st) =>
      if node in b.defined then
        EventTail(b, node, tierType, speakerName, annoName, text, st.0, [])
      else match CoverageOf(b.timeline, node, overlapped)
        case None => Aborted(PanicMsg)
        case Some(cov) =>
          match Get(b.timeline, b.ordered[endI])
          case None => Aborted(PanicMsg)
          case Some(et) =>
            EventTail(b.(defined := b.defined + {node}), node, tierType, speakerName, annoName, text, st.0,
                      [AddNode(node, DefaultNodeType)] + cov + [AddNodeLabel(node, AnnisNs, TimeKey, TimeString(st.0) + "-" + TimeString(et.0))])
  }

  /** The labels of an event and, on a `t` tier, its place in the named ordering. */
  function EventTail(b: Buffers, node: string, tierType: string, speakerName: string, annoName: string, text: string,
                     start: Time, created: seq<Event>): EndStep
  {
    var orderings := if tierType == "t" then OrderPush(b.orderings, annoName, (start, node)) else b.orderings;
    Ended(b.(orderings := orderings), created + EventLabels(node, tierType, speakerName, annoName, text))
  }

  /**
   * The end of an `event`: the tier needs a speaker from the speaker table and a category;
   * a missing start or end id is collected as an error and the event skipped; an unknown
   * tli id, or a start that is not before the end, fails the document.
   */
  function EventEnd(doc: string, b: Buffers): EndStep
  {
    if "tier" !in b.parents then Aborted(PanicMsg)
    else
      var tier := b.parents["tier"];
      if "speaker" !in tier then Aborted("Undefined speaker (not defined in tier attributes).")
      else if tier["speaker"] !in b.speakers then Aborted("Speaker `" + tier["speaker"] + "` has not been defined in speaker-table.")
      else if "category" !in tier then Aborted("Tier encountered with undefined category attribute.")
      else if "event" !in b.parents then Aborted(PanicMsg)
      else EventIds(doc, b, if "type" in tier then tier["type"] else "a", tier["speaker"], b.speakers[tier["speaker"]],
                    tier["category"], b.parents["event"])
  }

  /** The end of an `event` once its tier is known: the start and end tli ids of the event's attributes `ev`. */
  function EventIds(doc: string, b: Buffers, tierType: string, speakerId: string, speakerName: string, annoName: string,
                    ev: map<string, string>): EndStep
  {
    if "start" !in ev then Skipped(b.(errors := b.errors + [StartMissingMsg(b.charBuf)]), [])
    else if "end" !in ev then Skipped(b.(errors := b.errors + [EndMissingMsg(b.charBuf)]), [])
    else match Position(b.ordered, ev["start"])
      case None => Aborted("Unknown time line item: " + ev["start"])
      case Some(startI) =>
        match Position(b.ordered, ev["end"])
        case None => Aborted("Unknown time line item: " + ev["start"])
        case Some(endI) =>
          if startI >= endI then Aborted("Start time is bigger than end time for ids: " + ev["start"] + "--" + ev["end"] + " ")
          else EventSpan(doc, b, tierType, speakerId, speakerName, annoName, ev["start"], ev["end"], startI, endI)
  }

  // ---------------------------------------------------------------- end tags and the loop

  /** The work of an end tag, before its attributes are dropped. */
  function EndBody(doc: string, b: Buffers, name: string): EndStep
  {
    if IsSpeakerInfo(name) then SpeakerInfoEnd(doc, b, name)
    else if name == "common-timeline" then CommonTimelineEnd(doc, b)
    else if name == "event" then EventEnd(doc, b)
    else if name == "ud-information" then UdInformationEnd(doc, b)
    else Ended(b, [])
  }

  /** An end tag: a normal end drops the element's attributes; a skipped event keeps them. */
  function EndOf(doc: string, b: Buffers, name: string): Step
  {
    match EndBody(doc, b, name)
    case Aborted(reason) => Fail(reason)
    case Skipped(b', out) => Go(b', out)
    case Ended(b', out) => Go(b'.(parents := b'.parents - {name}), out)
  }

  /** One event of the reader. */
  function StepOf(doc: string, b: Buffers, x: XmlEvent): Step
  {
    match x
    case EndDocument => Stop(b)
    case StartDocument => Go(b, [])
    case Characters(v) => Go(b.(charBuf := b.charBuf + v), [])
    case StartElement(name, attrs) => StartOf(b, name, attrs)
    case EndElement(name) => EndOf(doc, b, name)
    case Malformed => Fail("Failed parsing EXMARaLDA XML.")
    case Other => Go(b, [])
  }

  function StartLe(a: (Time, string), b: (Time, string)): bool
  {
    a.0 <= b.0
  }

  /** The named orderings from the `k`-th on, in name order: each a chain through its nodes sorted by start time. */
  function OrderingsOf(orderings: seq<(string, seq<(Time, string)>)>, k: nat): seq<Event>
    decreases |orderings| - k
  {
    if k >= |orderings| then []
    else Chain(Values(SortBy(orderings[k].1, StartLe)), AnnisNs, Ordering, orderings[k].0) + OrderingsOf(orderings, k + 1)
  }

  /** After the last event: the named orderings, then failure when errors were collected. */
  function Finish(b: Buffers): (seq<Event>, DocResult)
  {
    (OrderingsOf(b.orderings, 0), if b.errors == [] then Imported else ConversionFailed(b.errors))
  }

  /** The events from the `i`-th on, after `events`: the log and the outcome. */
  function RunOf(doc: string, xml: seq<XmlEvent>, i: nat, b: Buffers, events: seq<Event>): (seq<Event>, DocResult)
    decreases |xml| - i
  {
    if i >= |xml| then (events + Finish(b).0, Finish(b).1)
    else match StepOf(doc, b, xml[i])
      case Fail(reason) => (events, ImportError(reason))
      case Stop(b') => (events + Finish(b').0, Finish(b').1)
      case Go(b', out) => RunOf(doc, xml, i + 1, b', events + out)
  }

  // ---------------------------------------------------------------- properties: ordered maps

  /** After an insertion the key holds the new value; every other key keeps its value. */
  lemma {:induction false} StrPutGet<V>(d: seq<(string, V)>, k: string, v: V, k': string)
    ensures Get(StrPut(d, k, v), k') == if k' == k then Some(v) else Get(d, k')
  {
    if d != [] && d[0].0 != k && CompareStrings(k, d[0].0) != Less {
      StrPutGet(d[1..], k, v, k');
      assert StrPut(d, k, v)[1..] == StrPut(d[1..], k, v);
    } else if d != [] && d[0].0 == k {
      assert StrPut(d, k, v)[1..] == d[1..];
    } else if d != [] {
      assert StrPut(d, k, v)[1..] == d;
    }
  }

  lemma {:induction false} TimePutGet<V>(d: seq<(Time, V)>, k: Time, v: V, k': Time)
    ensures Get(TimePut(d, k, v), k') == if k' == k then Some(v) else Get(d, k')
  {
    if d != [] && d[0].0 != k && !(k < d[0].0) {
      TimePutGet(d[1..], k, v, k');
      assert TimePut(d, k, v)[1..] == TimePut(d[1..], k, v);
    } else if d != [] && d[0].0 == k {
      assert TimePut(d, k, v)[1..] == d[1..];
    } else if d != [] {
      assert TimePut(d, k, v)[1..] == d;
    }
  }

  /** Insertion keeps the times in increasing order. */
  lemma {:induction false} TimePutSorted<V>(d: seq<(Time, V)>, k: Time, v: V)
    requires forall i, j :: 0 <= i < j < |d| ==> d[i].0 < d[j].0
    ensures forall i, j :: 0 <= i < j < |TimePut(d, k, v)| ==> TimePut(d, k, v)[i].0 < TimePut(d, k, v)[j].0
  {
    if d != [] && d[0].0 != k && !(k < d[0].0) {
      var r := TimePut(d, k, v);
      assert r[1..] == TimePut(d[1..], k, v);
      TimePutSorted(d[1..], k, v);
      TimePutKeys(d[1..], k, v);
      forall i, j | 0 <= i < j < |r| ensures r[i].0 < r[j].0 {
        if i == 0 && r[j].0 != k {
          var m :| 0 <= m < |d[1..]| && d[1..][m].0 == r[1..][j - 1].0;
          assert d[0].0 < d[m + 1].0;
        }
      }
    } else if d != [] && d[0].0 == k {
      assert TimePut(d, k, v)[1..] == d[1..];
    } else if d != [] {
      assert TimePut(d, k, v)[1..] == d;
    }
  }

  /** Every key after an insertion is the inserted key or an old one. */
  lemma {:induction false} TimePutKeys<V>(d: seq<(Time, V)>, k: Time, v: V)
    ensures forall i :: 0 <= i < |TimePut(d, k, v)| ==> TimePut(d, k, v)[i].0 == k || exists j :: 0 <= j < |d| && d[j].0 == TimePut(d, k, v)[i].0
  {
    if d != [] && d[0].0 != k && !(k < d[0].0) {
      var r := TimePut(d, k, v);
      assert r[1..] == TimePut(d[1..], k, v);
      TimePutKeys(d[1..], k, v);
      forall i | 0 <= i < |r| ensures r[i].0 == k || exists j :: 0 <= j < |d| && d[j].0 == r[i].0 {
        if i > 0 && r[i].0 != k {
          var j :| 0 <= j < |d[1..]| && d[1..][j].0 == r[1..][i - 1].0;
          assert d[j + 1].0 == r[i].0;
        } else if i == 0 && r[i].0 != k {
          assert r[0] == d[0];
        }
      }
    } else if d != [] && d[0].0 == k {
      assert TimePut(d, k, v)[1..] == d[1..];
      forall i | 0 <= i < |TimePut(d, k, v)| ensures TimePut(d, k, v)[i].0 == k || exists j :: 0 <= j < |d| && d[j].0 == TimePut(d, k, v)[i].0 {
        if i > 0 {
          assert d[i].0 == TimePut(d, k, v)[i].0;
        }
      }
    } else if d != [] {
      assert TimePut(d, k, v)[1..] == d;
      forall i | 0 <= i < |TimePut(d, k, v)| ensures TimePut(d, k, v)[i].0 == k || exists j :: 0 <= j < |d| && d[j].0 == TimePut(d, k, v)[i].0 {
        if i > 0 {
          assert d[i - 1].0 == TimePut(d, k, v)[i].0;
        }
      }
    }
  }

  /**
   * The ids of a time are pushed onto one list, in the order the tlis come: the ids of
   * the tlis that share a time end in one group.
   */
  lemma GroupPushGet(groups: seq<(Time, seq<string>)>, time: Time, id: string, time': Time)
    ensures ListOf(GroupPush(groups, time, id), time') == if time' == time then ListOf(groups, time) + [id] else ListOf(groups, time')
  {
    TimePutGet(groups, time, ListOf(groups, time) + [id], time');
  }

  /** A `t` event joins the end of its category's ordering; the other orderings are unchanged. */
  lemma OrderPushGet(orderings: seq<(string, seq<(Time, string)>)>, name: string, e: (Time, string), name': string)
    ensures ListOf(OrderPush(orderings, name, e), name') == if name' == name then ListOf(orderings, name) + [e] else ListOf(orderings, name')
  {
    StrPutGet(orderings, name, ListOf(orderings, name) + [e], name');
  }

  // ---------------------------------------------------------------- properties: common timeline

  /** Putting a group's ids gives each of them the group's time and token; other ids keep theirs. */
  lemma {:induction false} PutIdsGet(tl: seq<TimelineEntry>, ids: seq<string>, j: nat, time: Time, node: string, x: string)
    requires j <= |ids|
    ensures Get(PutIds(tl, ids, j, time, node), x) == if x in ids[j..] then Some((time, node)) else Get(tl, x)
    decreases |ids| - j
  {
    if j < |ids| {
      PutIdsGet(StrPut(tl, ids[j], (time, node)), ids, j + 1, time, node, x);
      StrPutGet(tl, ids[j], (time, node), x);
      assert ids[j..] == [ids[j]] + ids[j + 1..];
    }
  }

  /**
   * The tli ids of one time share that time's empty token, named by the ids joined with
   * `_` (unless a later time lists the id again); ids of no group keep their entry.
   */
  lemma {:induction false} GroupsTimeline(doc: string, groups: seq<(Time, seq<string>)>, k: nat, tl: seq<TimelineEntry>,
                                          out: seq<Event>, g: nat, x: string)
    requires k <= g < |groups| && x in groups[g].1
    requires forall g' :: g < g' < |groups| ==> x !in groups[g'].1
    ensures Get(GroupsOf(doc, groups, k, tl, out).0, x) == Some((groups[g].0, TliNode(doc, groups[g].1)))
    decreases |groups| - k
  {
    var node := TliNode(doc, groups[k].1);
    var tl' := PutIds(tl, groups[k].1, 0, groups[k].0, node);
    if k == g {
      PutIdsGet(tl, groups[k].1, 0, groups[k].0, node, x);
      assert groups[k].1[0..] == groups[k].1;
      GroupsKeep(doc, groups, k + 1, tl', out + TliNodeEvents(doc, node), x);
    } else {
      GroupsTimeline(doc, groups, k + 1, tl', out + TliNodeEvents(doc, node), g, x);
    }
  }

  /** An id that no group from the `k`-th on lists keeps its timeline entry. */
  lemma {:induction false} GroupsKeep(doc: string, groups: seq<(Time, seq<string>)>, k: nat, tl: seq<TimelineEntry>,
                                      out: seq<Event>, x: string)
    requires forall g' :: k <= g' < |groups| ==> x !in groups[g'].1
    ensures Get(GroupsOf(doc, groups, k, tl, out).0, x) == Get(tl, x)
    decreases |groups| - k
  {
    if k < |groups| {
      var node := TliNode(doc, groups[k].1);
      PutIdsGet(tl, groups[k].1, 0, groups[k].0, node, x);
      assert groups[k].1[0..] == groups[k].1;
      GroupsKeep(doc, groups, k + 1, PutIds(tl, groups[k].1, 0, groups[k].0, node), out + TliNodeEvents(doc, node), x);
    }
  }

  /** Every group gets its empty token, a part of the document. */
  lemma {:induction false} GroupsEvents(doc: string, groups: seq<(Time, seq<string>)>, k: nat, tl: seq<TimelineEntry>,
                                        out: seq<Event>, g: nat)
    requires k <= g < |groups|
    ensures AddNode(TliNode(doc, groups[g].1), DefaultNodeType) in GroupsOf(doc, groups, k, tl, out).1
    ensures Edge(TliNode(doc, groups[g].1), doc, AnnisNs, PartOf, "") in GroupsOf(doc, groups, k, tl, out).1
    decreases |groups| - k
  {
    var node := TliNode(doc, groups[k].1);
    var out' := out + TliNodeEvents(doc, node);
    var tl' := PutIds(tl, groups[k].1, 0, groups[k].0, node);
    if k == g {
      GroupsPrefix(doc, groups, k + 1, tl', out');
      assert out'[|out|] == AddNode(node, DefaultNodeType) && out'[|out| + 2] == Edge(node, doc, AnnisNs, PartOf, "");
    } else {
      GroupsEvents(doc, groups, k + 1, tl', out', g);
    }
  }

  lemma {:induction false} GroupsPrefix(doc: string, groups: seq<(Time, seq<string>)>, k: nat, tl: seq<TimelineEntry>, out: seq<Event>)
    ensures out <= GroupsOf(doc, groups, k, tl, out).1
    decreases |groups| - k
  {
    if k < |groups| {
      var node := TliNode(doc, groups[k].1);
      GroupsPrefix(doc, groups, k + 1, PutIds(tl, groups[k].1, 0, groups[k].0, node), out + TliNodeEvents(doc, node));
    }
  }

  lemma TimeOfEntryLeTotal()
    ensures TotalPreorder(TimeOfEntryLe)
  {
  }

  /** The ids the common timeline appends are all the timeline's ids, once each, in order of time. */
  lemma OrderedByTime(tl: seq<TimelineEntry>)
    ensures SortedBy(SortBy(tl, TimeOfEntryLe), TimeOfEntryLe)
    ensures multiset(SortBy(tl, TimeOfEntryLe)) == multiset(tl)
  {
    TimeOfEntryLeTotal();
    SortBySorted(tl, TimeOfEntryLe);
    SortByPermutes(tl, TimeOfEntryLe);
  }

  /** A timeline in which every ordered tli id has its entry. */
  predicate AllInTimeline(b: Buffers)
  {
    forall x :: x in b.ordered ==> Get(b.timeline, x).Some?
  }

  /** With every id in the timeline, the tokens of the ids are found, one per id. */
  lemma {:induction false} NodesOfSome(tl: seq<TimelineEntry>, ids: seq<string>)
    requires forall x :: x in ids ==> Get(tl, x).Some?
    ensures NodesOf(tl, ids).Some?
    ensures forall k :: 0 <= k < |ids| ==> NodesOf(tl, ids).value[k] == Get(tl, ids[k]).value.1
  {
    if ids != [] {
      var init := ids[..|ids| - 1];
      assert forall x :: x in init ==> x in ids;
      NodesOfSome(tl, init);
    }
  }

  /** A group never drops an id from the timeline. */
  lemma {:induction false} GroupsKeepSome(doc: string, groups: seq<(Time, seq<string>)>, k: nat, tl: seq<TimelineEntry>,
                                          out: seq<Event>, x: string)
    requires Get(tl, x).Some?
    ensures Get(GroupsOf(doc, groups, k, tl, out).0, x).Some?
    decreases |groups| - k
  {
    if k < |groups| {
      var node := TliNode(doc, groups[k].1);
      PutIdsGet(tl, groups[k].1, 0, groups[k].0, node, x);
      GroupsKeepSome(doc, groups, k + 1, PutIds(tl, groups[k].1, 0, groups[k].0, node), out + TliNodeEvents(doc, node), x);
    }
  }

  /** The common timeline keeps every ordered id, old and new, in the timeline, and never panics. */
  lemma CommonTimelineKeeps(doc: string, b: Buffers)
    requires AllInTimeline(b)
    ensures CommonTimelineEnd(doc, b).Ended? && AllInTimeline(CommonTimelineEnd(doc, b).b)
  {
    var (tl, out) := GroupsOf(doc, b.groups, 0, b.timeline, []);
    var sorted := SortBy(tl, TimeOfEntryLe);
    var ordered := b.ordered + Keys(sorted);
    forall x | x in ordered ensures Get(tl, x).Some? {
      if x in b.ordered {
        GroupsKeepSome(doc, b.groups, 0, b.timeline, [], x);
      } else {
        var k :| 0 <= k < |Keys(sorted)| && Keys(sorted)[k] == x;
        SortByPermutes(tl, TimeOfEntryLe);
        assert sorted[k] in multiset(tl);
        var j :| 0 <= j < |tl| && tl[j] == sorted[k];
        assert Keys(tl)[j] == x;
        GetKeys(tl, x);
      }
    }
    NodesOfSome(tl, ordered);
  }

  // ---------------------------------------------------------------- properties: the base ordering (finding)

  /** The tokens with every token equal to its predecessor dropped. */
  function DedupNodes(s: seq<string>): (r: seq<string>)
    ensures |s| > 0 ==> |r| > 0 && r[|r| - 1] == s[|s| - 1]
  {
    if |s| <= 1 then s
    else
      var init := DedupNodes(s[..|s| - 1]);
      if s[|s| - 2] == s[|s| - 1] then init else init + [s[|s| - 1]]
  }

  /** As written, the base ordering is the chain through the tokens of all ordered ids, repeats included. */
  lemma {:induction false} TimelineOrderingAsWrittenIsChain(nodes: seq<string>)
    ensures TimelineOrderingAsWritten(nodes) == Chain(nodes, AnnisNs, Ordering, "")
  {
    if |nodes| >= 2 {
      TimelineOrderingAsWrittenIsChain(nodes[..|nodes| - 1]);
    }
  }

  /**
   * As written, two tlis with the same time give an ordering edge from their shared
   * empty token to itself.
   */
  lemma SelfLoopAsWritten()
    ensures var r := CommonTimelineEndAsWritten("d", EmptyBuffers.(groups := [(0.0, ["a", "b"])]));
      r.Ended? && Edge("d#a_b", "d#a_b", AnnisNs, Ordering, "") in r.out
  {
    var b := EmptyBuffers.(groups := [(0.0, ["a", "b"])]);
    var node := "d#a_b";
    var tl: seq<TimelineEntry> := [("a", (0.0, node)), ("b", (0.0, node))];
    SelfLoopGroups();
    SelfLoopNodes();
    var (tl', out) := GroupsOf("d", b.groups, 0, b.timeline, []);
    assert tl' == tl;
    assert b.ordered + Keys(SortBy(tl, TimeOfEntryLe)) == ["a", "b"];
    assert [node, node][..1] == [node];
    assert TimelineOrderingAsWritten([node, node]) == [Edge(node, node, AnnisNs, Ordering, "")];
    var r := CommonTimelineEndAsWritten("d", b);
    assert r.out == out + [Edge(node, node, AnnisNs, Ordering, "")];
    assert r.out[|out|] == Edge(node, node, AnnisNs, Ordering, "");
  }

  /** The one group of the example: both ids get the shared token. */
  lemma SelfLoopGroups()
    ensures GroupsOf("d", [(0.0, ["a", "b"])], 0, [], []).0 == [("a", (0.0, "d#a_b")), ("b", (0.0, "d#a_b"))]
  {
    var node := TliNode("d", ["a", "b"]);
    assert node == "d#a_b";
    var ids := ["a", "b"];
    var t1: seq<TimelineEntry> := [("a", (0.0, node))];
    var tl := [("a", (0.0, node)), ("b", (0.0, node))];
    assert StrPut([], ids[0], (0.0, node)) == t1;
    assert CompareStrings("b", "a") == Greater;
    assert StrPut(t1, ids[1], (0.0, node)) == [t1[0]] + StrPut(t1[1..], "b", (0.0, node));
    assert StrPut(t1, ids[1], (0.0, node)) == tl;
    assert PutIds(tl, ids, 2, 0.0, node) == tl;
    assert PutIds(t1, ids, 1, 0.0, node) == tl;
    assert PutIds([], ids, 0, 0.0, node) == tl;
    assert GroupsOf("d", [(0.0, ["a", "b"])], 1, tl, [] + TliNodeEvents("d", node)).0 == tl;
  }

  /** In the example the two ids, in time order, have the same token. */
  lemma SelfLoopNodes()
    ensures SortBy([("a", (0.0, "d#a_b")), ("b", (0.0, "d#a_b"))], TimeOfEntryLe) == [("a", (0.0, "d#a_b")), ("b", (0.0, "d#a_b"))]
    ensures NodesOf([("a", (0.0, "d#a_b")), ("b", (0.0, "d#a_b"))], ["a", "b"]) == Some(["d#a_b", "d#a_b"])
  {
    var node := "d#a_b";
    var tl: seq<TimelineEntry> := [("a", (0.0, node)), ("b", (0.0, node))];
    SortByIdentity(tl, TimeOfEntryLe);
    assert Get(tl, "b") == Some((0.0, node));
    assert Get(tl, "a") == Some((0.0, node));
    assert ["a", "b"][..1] == ["a"];
    assert ["a"][..0] == [];
    assert [] + [node] == [node];
    assert NodesOf(tl, ["a"]) == Some([node]);
    assert [node] + [node] == [node, node];
  }

  /** The base ordering is the chain through the tokens with repeats dropped. */
  lemma {:induction false} TimelineOrderingIsChain(nodes: seq<string>)
    ensures TimelineOrdering(nodes) == Chain(DedupNodes(nodes), AnnisNs, Ordering, "")
  {
    if |nodes| >= 2 {
      var init := nodes[..|nodes| - 1];
      TimelineOrderingIsChain(init);
      var d := DedupNodes(init);
      assert init[|init| - 1] == nodes[|nodes| - 2];
      if nodes[|nodes| - 2] != nodes[|nodes| - 1] {
        var r := d + [nodes[|nodes| - 1]];
        assert r[..|r| - 1] == d;
      }
    }
  }

  /** No base ordering edge leads from an empty token to itself. */
  lemma {:induction false} TimelineOrderingNoSelfLoop(nodes: seq<string>)
    ensures forall e :: e in TimelineOrdering(nodes) ==> e.AddEdge? && e.sourceNode != e.targetNode
  {
    if |nodes| >= 2 {
      TimelineOrderingNoSelfLoop(nodes[..|nodes| - 1]);
    }
  }

  /** Where the tokens of consecutive ids differ, the base ordering links them; where they are one token, it adds nothing. */
  lemma {:induction false} TimelineOrderingLinks(nodes: seq<string>, i: nat)
    requires 0 < i < |nodes|
    ensures nodes[i - 1] != nodes[i] ==> Edge(nodes[i - 1], nodes[i], AnnisNs, Ordering, "") in TimelineOrdering(nodes)
    ensures nodes[i - 1] == nodes[i] ==> Edge(nodes[i - 1], nodes[i], AnnisNs, Ordering, "") !in TimelineOrdering(nodes)
  {
    if nodes[i - 1] == nodes[i] {
      TimelineOrderingNoSelfLoop(nodes);
    } else if i < |nodes| - 1 {
      TimelineOrderingLinks(nodes[..|nodes| - 1], i);
    }
  }

  // ---------------------------------------------------------------- properties: start tags

  /**
   * A `tli` fails the document exactly when its time is missing or does not parse, or it
   * has no id; otherwise its id joins the end of the ids of its time, and no other time changes.
   */
  lemma TliStartOutcome(b: Buffers, attrs: map<string, string>, time': Time)
    ensures TliStart(b, attrs).Fail? <==> "time" !in attrs || ParseTime(attrs["time"]).None? || "id" !in attrs
    ensures TliStart(b, attrs).Go? ==>
      && TliStart(b, attrs).out == []
      && TliStart(b, attrs).b == b.(groups := TliStart(b, attrs).b.groups)
      && ListOf(TliStart(b, attrs).b.groups, time')
         == if time' == ParseTime(attrs["time"]).value then ListOf(b.groups, time') + [attrs["id"]] else ListOf(b.groups, time')
  {
    if "time" in attrs && ParseTime(attrs["time"]).Some? && "id" in attrs {
      GroupPushGet(b.groups, ParseTime(attrs["time"]).value, attrs["id"], time');
    }
  }

  // ---------------------------------------------------------------- properties: events

  /** With every id in the timeline, an event node gets one coverage edge per id, to the id's token. */
  lemma {:induction false} CoverageOfSome(tl: seq<TimelineEntry>, node: string, ids: seq<string>)
    requires forall x :: x in ids ==> Get(tl, x).Some?
    ensures CoverageOf(tl, node, ids).Some?
    ensures forall k :: 0 <= k < |ids| ==> CoverageOf(tl, node, ids).value[k] == Edge(node, Get(tl, ids[k]).value.1, AnnisNs, Coverage, "")
  {
    if ids != [] {
      var init := ids[..|ids| - 1];
      assert forall x :: x in init ==> x in ids;
      CoverageOfSome(tl, node, init);
    }
  }

  /**
   * An event with known tli ids, with the start before the end: a name not yet defined
   * gets its node, covering the ordered ids from the start up to (not including) the
   * end, and joins the defined names; a defined name only gets the labels. `t` events
   * join their category's ordering at their start time.
   */
  lemma EventSpanOutcome(doc: string, b: Buffers, tierType: string, speakerId: string, speakerName: string, annoName: string,
                         startId: string, endId: string, startI: nat, endI: nat)
    requires startI < endI < |b.ordered| && AllInTimeline(b)
    ensures EventSpan(doc, b, tierType, speakerId, speakerName, annoName, startId, endId, startI, endI).Ended?
    ensures EventSpan(doc, b, tierType, speakerId, speakerName, annoName, startId, endId, startI, endI).b
         == b.(defined := b.defined + {EventNode(doc, tierType, speakerId, startId, endId)},
               orderings := if tierType == "t" then OrderPush(b.orderings, annoName, (Get(b.timeline, b.ordered[startI]).value.0,
                                                                                    EventNode(doc, tierType, speakerId, startId, endId)))
                            else b.orderings)
    ensures EventNode(doc, tierType, speakerId, startId, endId) in b.defined ==>
      EventSpan(doc, b, tierType, speakerId, speakerName, annoName, startId, endId, startI, endI).out
        == EventLabels(EventNode(doc, tierType, speakerId, startId, endId), tierType, speakerName, annoName, b.charBuf)
    ensures EventNode(doc, tierType, speakerId, startId, endId) !in b.defined ==>
      EventSpan(doc, b, tierType, speakerId, speakerName, annoName, startId, endId, startI, endI).out[0]
        == AddNode(EventNode(doc, tierType, speakerId, startId, endId), DefaultNodeType)
    ensures EventNode(doc, tierType, speakerId, startId, endId) !in b.defined ==>
      forall k :: startI <= k < endI ==>
        EventSpan(doc, b, tierType, speakerId, speakerName, annoName, startId, endId, startI, endI).out[1 + k - startI]
          == Edge(EventNode(doc, tierType, speakerId, startId, endId), Get(b.timeline, b.ordered[k]).value.1, AnnisNs, Coverage, "")
  {
    var overlapped := b.ordered[startI..endI];
    var node := EventNode(doc, tierType, speakerId, startId, endId);
    assert overlapped[0] == b.ordered[startI];
    assert b.ordered[startI] in b.ordered;
    assert b.ordered[endI] in b.ordered;
    assert forall x :: x in overlapped ==> x in b.ordered;
    CoverageOfSome(b.timeline, node, overlapped);
    if node !in b.defined {
      var cov := CoverageOf(b.timeline, node, overlapped).value;
      var out := EventSpan(doc, b, tierType, speakerId, speakerName, annoName, startId, endId, startI, endI).out;
      forall k | startI <= k < endI ensures out[1 + k - startI] == Edge(node, Get(b.timeline, b.ordered[k]).value.1, AnnisNs, Coverage, "") {
        assert overlapped[k - startI] == b.ordered[k];
        assert out[1 + k - startI] == cov[k - startI];
      }
    } else {
      assert b.defined + {node} == b.defined;
    }
  }

  /**
   * The end of an event whose tier names a known speaker and a category, and whose start
   * and end ids are given: it fails exactly when an id is not an ordered tli id or the
   * start does not come before the end; otherwise it maps the span between their first
   * positions.
   */
  lemma EventEndOutcome(doc: string, b: Buffers, tier: map<string, string>, ev: map<string, string>)
    requires "tier" in b.parents && b.parents["tier"] == tier && "speaker" in tier && tier["speaker"] in b.speakers && "category" in tier
    requires "event" in b.parents && b.parents["event"] == ev && "start" in ev && "end" in ev
    requires AllInTimeline(b)
    ensures EventEnd(doc, b).Aborted? <==>
      ev["start"] !in b.ordered || ev["end"] !in b.ordered || Position(b.ordered, ev["start"]).value >= Position(b.ordered, ev["end"]).value
    ensures ev["start"] !in b.ordered || ev["end"] !in b.ordered ==> EventEnd(doc, b) == Aborted("Unknown time line item: " + ev["start"])
    ensures ev["start"] in b.ordered && ev["end"] in b.ordered && Position(b.ordered, ev["start"]).value < Position(b.ordered, ev["end"]).value ==>
      EventEnd(doc, b) == EventSpan(doc, b, if "type" in tier then tier["type"] else "a", tier["speaker"], b.speakers[tier["speaker"]],
                                    tier["category"], ev["start"], ev["end"],
                                    Position(b.ordered, ev["start"]).value, Position(b.ordered, ev["end"]).value)
  {
    if ev["start"] in b.ordered && ev["end"] in b.ordered && Position(b.ordered, ev["start"]).value < Position(b.ordered, ev["end"]).value {
      var tierType := if "type" in tier then tier["type"] else "a";
      EventSpanOutcome(doc, b, tierType, tier["speaker"], b.speakers[tier["speaker"]], tier["category"], ev["start"], ev["end"],
                       Position(b.ordered, ev["start"]).value, Position(b.ordered, ev["end"]).value);
    }
  }

  /** An event without a start or end id is skipped, its error collected, and nothing mapped. */
  lemma EventEndMissing(doc: string, b: Buffers, tier: map<string, string>, ev: map<string, string>)
    requires "tier" in b.parents && b.parents["tier"] == tier && "speaker" in tier && tier["speaker"] in b.speakers && "category" in tier
    requires "event" in b.parents && b.parents["event"] == ev
    ensures "start" !in ev ==> EventEnd(doc, b) == Skipped(b.(errors := b.errors + [StartMissingMsg(b.charBuf)]), [])
    ensures "start" in ev && "end" !in ev ==> EventEnd(doc, b) == Skipped(b.(errors := b.errors + [EndMissingMsg(b.charBuf)]), [])
  {
  }

  // ---------------------------------------------------------------- properties: the run

  /** What every step keeps: collected errors, defined names, and the timeline entries of the ordered ids. */
  predicate Grows(b: Buffers, b': Buffers)
  {
    && b.errors <= b'.errors
    && b.defined <= b'.defined
    && (AllInTimeline(b) ==> AllInTimeline(b'))
  }

  lemma EventEndGrows(doc: string, b: Buffers)
    ensures EventEnd(doc, b).Ended? || EventEnd(doc, b).Skipped? ==> Grows(b, EventEnd(doc, b).b)
  {
    if "tier" in b.parents && "event" in b.parents {
      var tier := b.parents["tier"];
      if "speaker" in tier && tier["speaker"] in b.speakers && "category" in tier {
        EventIdsGrows(doc, b, if "type" in tier then tier["type"] else "a", tier["speaker"], b.speakers[tier["speaker"]],
                      tier["category"], b.parents["event"]);
      }
    }
  }

  lemma EventIdsGrows(doc: string, b: Buffers, tierType: string, speakerId: string, speakerName: string, annoName: string,
                      ev: map<string, string>)
    ensures var r := EventIds(doc, b, tierType, speakerId, speakerName, annoName, ev);
      r.Ended? || r.Skipped? ==> Grows(b, r.b)
  {
    if "start" in ev && "end" in ev && Position(b.ordered, ev["start"]).Some? && Position(b.ordered, ev["end"]).Some?
       && Position(b.ordered, ev["start"]).value < Position(b.ordered, ev["end"]).value {
      EventSpanGrows(doc, b, tierType, speakerId, speakerName, annoName, ev["start"], ev["end"],
                     Position(b.ordered, ev["start"]).value, Position(b.ordered, ev["end"]).value);
    }
  }

  lemma EventSpanGrows(doc: string, b: Buffers, tierType: string, speakerId: string, speakerName: string, annoName: string,
                       startId: string, endId: string, startI: nat, endI: nat)
    requires startI < endI < |b.ordered|
    ensures var r := EventSpan(doc, b, tierType, speakerId, speakerName, annoName, startId, endId, startI, endI);
      (r.Ended? || r.Skipped?) ==> r.b.timeline == b.timeline && r.b.ordered == b.ordered && Grows(b, r.b)
  {
  }

  lemma EndBodyGrows(doc: string, b: Buffers, name: string)
    ensures EndBody(doc, b, name).Ended? || EndBody(doc, b, name).Skipped? ==> Grows(b, EndBody(doc, b, name).b)
  {
    if IsSpeakerInfo(name) {
    } else if name == "common-timeline" {
      if AllInTimeline(b) {
        CommonTimelineKeeps(doc, b);
      }
    } else if name == "event" {
      EventEndGrows(doc, b);
    }
  }

  /** Every step that goes on keeps the collected errors, the defined names and the timeline of the ordered ids. */
  lemma StepGrows(doc: string, b: Buffers, x: XmlEvent)
    ensures StepOf(doc, b, x).Go? ==> Grows(b, StepOf(doc, b, x).b)
  {
    if x.EndElement? {
      EndBodyGrows(doc, b, x.name);
    }
  }

  /** Once an error is collected the document cannot import: it fails, at the latest when the events run out. */
  lemma {:induction false} RunCollectedFails(doc: string, xml: seq<XmlEvent>, i: nat, b: Buffers, events: seq<Event>)
    requires b.errors != []
    ensures RunOf(doc, xml, i, b, events).1 != Imported
    decreases |xml| - i
  {
    if i < |xml| {
      StepGrows(doc, b, xml[i]);
      match StepOf(doc, b, xml[i])
      case Fail(_) =>
      case Stop(_) =>
      case Go(b', out) =>
        RunCollectedFails(doc, xml, i + 1, b', events + out);
    }
  }

  /** A document imports exactly when no error was collected by the time the reader stops. */
  lemma FinishIff(b: Buffers)
    ensures Finish(b).1 == Imported <==> b.errors == []
    ensures b.errors != [] ==> Finish(b).1 == ConversionFailed(b.errors)
  {
  }

  /** From the empty buffers on, no timeline lookup of an ordered id can fail. */
  lemma {:induction false} RunKeepsTimeline(doc: string, xml: seq<XmlEvent>, i: nat, b: Buffers, j: nat)
    requires AllInTimeline(b) && i <= j
    ensures forall b' :: BuffersAt(doc, xml, i, b, j) == Some(b') ==> AllInTimeline(b')
    decreases j - i
  {
    if i < j && i < |xml| {
      StepGrows(doc, b, xml[i]);
      match StepOf(doc, b, xml[i])
      case Fail(_) =>
      case Stop(_) =>
      case Go(b', out) =>
        RunKeepsTimeline(doc, xml, i + 1, b', j);
    }
  }

  /** The buffers when the `j`-th event is read, if the run gets there. */
  function BuffersAt(doc: string, xml: seq<XmlEvent>, i: nat, b: Buffers, j: nat): Option<Buffers>
    decreases j - i
  {
    if i >= j then Some(b)
    else if i >= |xml| then None
    else match StepOf(doc, b, xml[i])
      case Go(b', _) => BuffersAt(doc, xml, i + 1, b', j)
      case _ => None
  }

  // ---------------------------------------------------------------- properties: named orderings

  lemma StartLeTotal()
    ensures TotalPreorder(StartLe)
  {
  }

  /** Each named ordering runs through its nodes by start time, none lost or added. */
  lemma NamedOrderingSorted(l: seq<(Time, string)>)
    ensures SortedBy(SortBy(l, StartLe), StartLe)
    ensures multiset(SortBy(l, StartLe)) == multiset(l)
  {
    StartLeTotal();
    SortBySorted(l, StartLe);
    SortByPermutes(l, StartLe);
  }

  /** The final ordering events are exactly the chains of the named orderings, each named after its category. */
  lemma {:induction false} OrderingsChains(orderings: seq<(string, seq<(Time, string)>)>, k: nat, e: Event)
    ensures e in OrderingsOf(orderings, k) <==>
      exists j :: k <= j < |orderings| && e in Chain(Values(SortBy(orderings[j].1, StartLe)), AnnisNs, Ordering, orderings[j].0)
    decreases |orderings| - k
  {
    if k < |orderings| {
      var c := Chain(Values(SortBy(orderings[k].1, StartLe)), AnnisNs, Ordering, orderings[k].0);
      assert OrderingsOf(orderings, k) == c + OrderingsOf(orderings, k + 1);
      OrderingsChains(orderings, k + 1, e);
      if e in c {
        assert k <= k < |orderings| && e in Chain(Values(SortBy(orderings[k].1, StartLe)), AnnisNs, Ordering, orderings[k].0);
      } else if e in OrderingsOf(orderings, k + 1) {
        var j :| k + 1 <= j < |orderings| && e in Chain(Values(SortBy(orderings[j].1, StartLe)), AnnisNs, Ordering, orderings[j].0);
        assert k <= j;
      } else {
        forall j | k <= j < |orderings|
          ensures e !in Chain(Values(SortBy(orderings[j].1, StartLe)), AnnisNs, Ordering, orderings[j].0)
        {
          if j == k {
            assert e !in c;
          }
        }
      }
    }
  }

  // ---------------------------------------------------------------- the import

  /**
   * Where control goes after a branch of the loop: on past the `match` (the end tag's
   * attributes are dropped), `continue` (they are kept), `break` at the end of the
   * document, or `return` with an error.
   */
  datatype Control = Proceed(b: Buffers) | Continue(b: Buffers) | Break(b: Buffers) | Return(reason: string)

  /** An end-tag branch did what the spec step says: the same buffers, the same way out, the same events appended. */
  predicate EndMirrors(n: Control, e: EndStep, before: seq<Event>, after: seq<Event>)
  {
    match e
    case Ended(b, out) => n == Proceed(b) && after == before + out
    case Skipped(b, out) => n == Continue(b) && after == before + out
    case Aborted(reason) => n == Return(reason) && after == before
  }

  /** A loop iteration did what the spec step says. */
  predicate StepMirrors(n: Control, st: Step, before: seq<Event>, after: seq<Event>)
  {
    match st
    case Go(b, out) => n == Continue(b) && after == before + out
    case Stop(b) => n == Break(b) && after == before
    case Fail(reason) => n == Return(reason) && after == before
  }

  /** Maps one document read as `xml`, appending its events to `u`. */
  method ImportDocument(u: Update, doc: string, xml: seq<XmlEvent>) returns (r: DocResult)
    modifies u
    ensures u.events == RunOf(doc, xml, 0, EmptyBuffers, old(u.events)).0
    ensures r == RunOf(doc, xml, 0, EmptyBuffers, old(u.events)).1
  {
    var b := EmptyBuffers;
    var i := 0;
    while i < |xml|
      invariant i <= |xml| && AllInTimeline(b)
      invariant RunOf(doc, xml, 0, EmptyBuffers, old(u.events)) == RunOf(doc, xml, i, b, u.events)
      decreases |xml| - i
    {
      var n := Advance(u, doc, xml, i, b);
      if n.Return? {
        return ImportError(n.reason);
      } else if n.Break? {
        r := BuildOrders(u, n.b);
        return;
      }
      b, i := n.b, i + 1;
    }
    r := BuildOrders(u, b);
  }

  /** The `i`-th event of the reader, stated as the step of the run it takes. */
  method Advance(u: Update, doc: string, xml: seq<XmlEvent>, i: nat, b: Buffers) returns (n: Control)
    requires i < |xml| && AllInTimeline(b)
    modifies u
    ensures n.Continue? || n.Break? || n.Return?
    ensures n.Continue? ==> RunOf(doc, xml, i, b, old(u.events)) == RunOf(doc, xml, i + 1, n.b, u.events) && AllInTimeline(n.b)
    ensures n.Break? ==> RunOf(doc, xml, i, b, old(u.events)) == (u.events + Finish(n.b).0, Finish(n.b).1)
    ensures n.Return? ==> RunOf(doc, xml, i, b, old(u.events)) == (u.events, ImportError(n.reason))
  {
    n := ReadEvent(u, doc, b, xml[i]);
    RunNext(doc, xml, i, b, old(u.events), u.events);
    StepGrows(doc, b, xml[i]);
  }

  /** One step of the run, with the log `after` the step appended its events to `before`. */
  lemma RunNext(doc: string, xml: seq<XmlEvent>, i: nat, b: Buffers, before: seq<Event>, after: seq<Event>)
    requires i < |xml|
    ensures StepOf(doc, b, xml[i]).Go? && after == before + StepOf(doc, b, xml[i]).out ==>
      RunOf(doc, xml, i, b, before) == RunOf(doc, xml, i + 1, StepOf(doc, b, xml[i]).b, after)
    ensures StepOf(doc, b, xml[i]).Stop? ==>
      RunOf(doc, xml, i, b, before) == (before + Finish(StepOf(doc, b, xml[i]).b).0, Finish(StepOf(doc, b, xml[i]).b).1)
    ensures StepOf(doc, b, xml[i]).Fail? ==> RunOf(doc, xml, i, b, before) == (before, ImportError(StepOf(doc, b, xml[i]).reason))
  {
  }

  /** One event of the reader. */
  method ReadEvent(u: Update, doc: string, b: Buffers, x: XmlEvent) returns (n: Control)
    requires AllInTimeline(b)
    modifies u
    ensures StepMirrors(n, StepOf(doc, b, x), old(u.events), u.events)
  {
    match x {
      case EndDocument => n := Break(b);
      case StartDocument => n := Continue(b);
      case Characters(v) => n := Continue(b.(charBuf := b.charBuf + v));
      case StartElement(name, attrs) =>
        match StartOf(b, name, attrs) {
          case Go(b', _) => n := Continue(b');
          case Fail(reason) => n := Return(reason);
        }
      case EndElement(name) =>
        var e := EndTag(u, doc, b, name);
        match e {
          case Proceed(b') => n := Continue(b'.(parents := b'.parents - {name}));
          case Continue(b') => n := Continue(b');
          case Return(reason) => n := Return(reason);
        }
      case Malformed => n := Return("Failed parsing EXMARaLDA XML.");
      case Other => n := Continue(b);
    }
  }

  /** The work of an end tag. */
  method EndTag(u: Update, doc: string, b: Buffers, name: string) returns (n: Control)
    requires AllInTimeline(b)
    modifies u
    ensures EndMirrors(n, EndBody(doc, b, name), old(u.events), u.events)
  {
    if IsSpeakerInfo(name) {
      n := SpeakerInfo(u, doc, b, name);
    } else if name == "common-timeline" {
      n := CommonTimeline(u, doc, b);
    } else if name == "event" {
      n := MapEvent(u, doc, b);
    } else if name == "ud-information" {
      n := UdInformation(u, doc, b);
    } else {
      n := Proceed(b);
    }
  }

  method SpeakerInfo(u: Update, doc: string, b: Buffers, name: string) returns (n: Control)
    modifies u
    ensures EndMirrors(n, SpeakerInfoEnd(doc, b, name), old(u.events), u.events)
  {
    if "speaker" !in b.parents || IsBlank(b.charBuf) {
      return Proceed(b);
    }
    if "id" !in b.parents["speaker"] {
      return Return(IndexPanicMsg);
    }
    var id := b.parents["speaker"]["id"];
    var speakers := b.speakers;
    if name == "abbreviation" {
      speakers := speakers[id := b.charBuf];
    }
    u.Add(AddNodeLabel(doc, id, name, b.charBuf));
    n := Proceed(b.(speakers := speakers));
  }

  method UdInformation(u: Update, doc: string, b: Buffers) returns (n: Control)
    modifies u
    ensures EndMirrors(n, UdInformationEnd(doc, b), old(u.events), u.events)
  {
    if "ud-information" !in b.parents {
      return Return(PanicMsg);
    }
    if "attribute-name" in b.parents["ud-information"] {
      var ns := "";
      if "speaker" in b.parents && "id" in b.parents["speaker"] {
        ns := b.parents["speaker"]["id"];
      }
      u.Add(AddNodeLabel(doc, ns, b.parents["ud-information"]["attribute-name"], b.charBuf));
    }
    n := Proceed(b);
  }

  /** The events of one time's empty token, in the order the source adds them. */
  method AddTliNode(u: Update, doc: string, node: string)
    modifies u
    ensures u.events == old(u.events) + TliNodeEvents(doc, node)
  {
    u.Add(AddNode(node, DefaultNodeType));
    u.Add(AddNodeLabel(node, AnnisNs, TokKey, " "));
    u.Add(Edge(node, doc, AnnisNs, PartOf, ""));
  }

  lemma GroupsNext(doc: string, groups: seq<(Time, seq<string>)>, k: nat, tl: seq<TimelineEntry>, out: seq<Event>)
    requires k < |groups|
    ensures GroupsOf(doc, groups, k, tl, out)
         == GroupsOf(doc, groups, k + 1, PutIds(tl, groups[k].1, 0, groups[k].0, TliNode(doc, groups[k].1)),
                     out + TliNodeEvents(doc, TliNode(doc, groups[k].1)))
  {
  }

  /** The empty tokens of the groups, in time order, with their ids put in the timeline. */
  method AddGroups(u: Update, doc: string, groups: seq<(Time, seq<string>)>, tl0: seq<TimelineEntry>)
    returns (tl: seq<TimelineEntry>, ghost out: seq<Event>)
    modifies u
    ensures tl == GroupsOf(doc, groups, 0, tl0, []).0 && out == GroupsOf(doc, groups, 0, tl0, []).1
    ensures u.events == old(u.events) + out
  {
    tl, out := tl0, [];
    var k := 0;
    while k < |groups|
      invariant k <= |groups|
      invariant u.events == old(u.events) + out
      invariant GroupsOf(doc, groups, k, tl, out) == GroupsOf(doc, groups, 0, tl0, [])
      decreases |groups| - k
    {
      var (time, ids) := groups[k];
      var node := TliNode(doc, ids);
      AddTliNode(u, doc, node);
      AppendAssoc(old(u.events), out, TliNodeEvents(doc, node));
      var j := 0;
      var tl' := tl;
      while j < |ids|
        invariant j <= |ids|
        invariant PutIds(tl', ids, j, time, node) == PutIds(tl, ids, 0, time, node)
        decreases |ids| - j
      {
        tl' := StrPut(tl', ids[j], (time, node));
        j := j + 1;
      }
      GroupsNext(doc, groups, k, tl, out);
      tl, out, k := tl', out + TliNodeEvents(doc, node), k + 1;
    }
  }

  /** The base ordering over the empty tokens of the ordered ids. */
  method AddTimelineOrdering(u: Update, tl: seq<TimelineEntry>, ordered: seq<string>)
    requires forall x :: x in ordered ==> Get(tl, x).Some?
    modifies u
    ensures NodesOf(tl, ordered).Some?
    ensures u.events == old(u.events) + TimelineOrdering(NodesOf(tl, ordered).value)
  {
    NodesOfSome(tl, ordered);
    ghost var nodes := NodesOf(tl, ordered).value;
    if |ordered| == 0 {
      return;
    }
    var i := 1;
    while i < |ordered|
      invariant 1 <= i <= |ordered|
      invariant u.events == old(u.events) + TimelineOrdering(nodes[..i])
      decreases |ordered| - i
    {
      assert ordered[i - 1] in ordered && ordered[i] in ordered;
      var source := Get(tl, ordered[i - 1]).value.1;
      var target := Get(tl, ordered[i]).value.1;
      assert nodes[..i + 1][..i] == nodes[..i];
      if source != target {
        u.Add(Edge(source, target, AnnisNs, Ordering, ""));
      }
      i := i + 1;
    }
    assert nodes[..i] == nodes;
  }

  /** The end of the `common-timeline`. */
  method CommonTimeline(u: Update, doc: string, b: Buffers) returns (n: Control)
    requires AllInTimeline(b)
    modifies u
    ensures EndMirrors(n, CommonTimelineEnd(doc, b), old(u.events), u.events)
  {
    var tl, out := AddGroups(u, doc, b.groups, b.timeline);
    var ordered := b.ordered + Keys(SortBy(tl, TimeOfEntryLe));
    CommonTimelineKeeps(doc, b);
    AddTimelineOrdering(u, tl, ordered);
    AppendAssoc(old(u.events), out, TimelineOrdering(NodesOf(tl, ordered).value));
    n := Proceed(b.(timeline := tl, ordered := ordered));
  }

  lemma {:induction false} CoverageOfNext(tl: seq<TimelineEntry>, node: string, ids: seq<string>, j: nat)
    requires j < |ids| && forall x :: x in ids ==> Get(tl, x).Some?
    ensures CoverageOf(tl, node, ids[..j + 1]).Some? && CoverageOf(tl, node, ids[..j]).Some?
    ensures CoverageOf(tl, node, ids[..j + 1]).value
         == CoverageOf(tl, node, ids[..j]).value + [Edge(node, Get(tl, ids[j]).value.1, AnnisNs, Coverage, "")]
  {
    assert ids[..j + 1][..j] == ids[..j];
    assert ids[..j + 1][j] == ids[j];
    assert forall x :: x in ids[..j] ==> x in ids;
    CoverageOfSome(tl, node, ids[..j]);
  }

  /** The labels of an occurrence of an event. */
  method AddEventLabels(u: Update, node: string, tierType: string, speakerName: string, annoName: string, text: string)
    modifies u
    ensures u.events == old(u.events) + EventLabels(node, tierType, speakerName, annoName, text)
  {
    u.Add(AddNodeLabel(node, AnnisNs, LayerKey, speakerName));
    if tierType == "t" {
      u.Add(AddNodeLabel(node, AnnisNs, TokKey, text));
    }
    u.Add(AddNodeLabel(node, speakerName, annoName, text));
  }

  /** The end of an `event`. */
  method MapEvent(u: Update, doc: string, b: Buffers) returns (n: Control)
    requires AllInTimeline(b)
    modifies u
    ensures EndMirrors(n, EventEnd(doc, b), old(u.events), u.events)
  {
    if "tier" !in b.parents {
      return Return(PanicMsg);
    }
    var tier := b.parents["tier"];
    if "speaker" !in tier {
      return Return("Undefined speaker (not defined in tier attributes).");
    }
    if tier["speaker"] !in b.speakers {
      return Return("Speaker `" + tier["speaker"] + "` has not been defined in speaker-table.");
    }
    if "category" !in tier {
      return Return("Tier encountered with undefined category attribute.");
    }
    var tierType := if "type" in tier then tier["type"] else "a";
    if "event" !in b.parents {
      return Return(PanicMsg);
    }
    n := MapEventIds(u, doc, b, tierType, tier["speaker"], b.speakers[tier["speaker"]], tier["category"], b.parents["event"]);
  }

  /** The start and end tli ids of an event. */
  method MapEventIds(u: Update, doc: string, b: Buffers, tierType: string, speakerId: string, speakerName: string, annoName: string,
                     ev: map<string, string>) returns (n: Control)
    requires AllInTimeline(b)
    modifies u
    ensures EndMirrors(n, EventIds(doc, b, tierType, speakerId, speakerName, annoName, ev), old(u.events), u.events)
  {
    if "start" !in ev {
      return Continue(b.(errors := b.errors + [StartMissingMsg(b.charBuf)]));
    }
    if "end" !in ev {
      return Continue(b.(errors := b.errors + [EndMissingMsg(b.charBuf)]));
    }
    var startI := Position(b.ordered, ev["start"]);
    if startI.None? {
      return Return("Unknown time line item: " + ev["start"]);
    }
    var endI := Position(b.ordered, ev["end"]);
    if endI.None? {
      return Return("Unknown time line item: " + ev["start"]);
    }
    if startI.value >= endI.value {
      return Return("Start time is bigger than end time for ids: " + ev["start"] + "--" + ev["end"] + " ");
    }
    n := MapSpan(u, doc, b, tierType, speakerId, speakerName, annoName, ev["start"], ev["end"], startI.value, endI.value);
  }

  /** An event with its tli ids known. */
  method MapSpan(u: Update, doc: string, b: Buffers, tierType: string, speakerId: string, speakerName: string, annoName: string,
                 startId: string, endId: string, startI: nat, endI: nat) returns (n: Control)
    requires startI < endI < |b.ordered| && AllInTimeline(b)
    modifies u
    ensures EndMirrors(n, EventSpan(doc, b, tierType, speakerId, speakerName, annoName, startId, endId, startI, endI),
                       old(u.events), u.events)
  {
    var text := b.charBuf;
    var overlapped := b.ordered[startI..endI];
    var node := EventNode(doc, tierType, speakerId, startId, endId);
    assert overlapped[0] in b.ordered;
    var st := Get(b.timeline, overlapped[0]).value;
    var defined := b.defined;
    ghost var created: seq<Event> := [];
    if node !in b.defined {
      assert b.ordered[endI] in b.ordered;
      var et := Get(b.timeline, b.ordered[endI]).value;
      assert forall x :: x in overlapped ==> x in b.ordered;
      CoverageOfSome(b.timeline, node, overlapped);
      created := CreateEventNode(u, b.timeline, node, overlapped, st.0, et.0);
      defined := defined + {node};
    }
    assert u.events == old(u.events) + created;
    AddEventLabels(u, node, tierType, speakerName, annoName, text);
    AppendAssoc(old(u.events), created, EventLabels(node, tierType, speakerName, annoName, text));
    var orderings := b.orderings;
    if tierType == "t" {
      orderings := OrderPush(orderings, annoName, (st.0, node));
    }
    n := Proceed(b.(defined := defined, orderings := orderings));
  }

  /** A new event node: its coverage of the tokens of `overlapped` and its time label. */
  method CreateEventNode(u: Update, tl: seq<TimelineEntry>, node: string, overlapped: seq<string>, start: Time, end: Time)
    returns (ghost created: seq<Event>)
    requires forall x :: x in overlapped ==> Get(tl, x).Some?
    modifies u
    ensures CoverageOf(tl, node, overlapped).Some?
    ensures created == [AddNode(node, DefaultNodeType)] + CoverageOf(tl, node, overlapped).value
                       + [AddNodeLabel(node, AnnisNs, TimeKey, TimeString(start) + "-" + TimeString(end))]
    ensures u.events == old(u.events) + created
  {
    CoverageOfSome(tl, node, overlapped);
    u.Add(AddNode(node, DefaultNodeType));
    ghost var base := u.events;
    var j := 0;
    while j < |overlapped|
      invariant j <= |overlapped|
      invariant CoverageOf(tl, node, overlapped[..j]).Some?
      invariant u.events == base + CoverageOf(tl, node, overlapped[..j]).value
      decreases |overlapped| - j
    {
      CoverageOfNext(tl, node, overlapped, j);
      assert overlapped[j] in overlapped;
      var target := Get(tl, overlapped[j]).value.1;
      AppendAssoc(base, CoverageOf(tl, node, overlapped[..j]).value, [Edge(node, target, AnnisNs, Coverage, "")]);
      u.Add(Edge(node, target, AnnisNs, Coverage, ""));
      j := j + 1;
    }
    assert overlapped[..j] == overlapped;
    ghost var cov := CoverageOf(tl, node, overlapped).value;
    var timeLabel := AddNodeLabel(node, AnnisNs, TimeKey, TimeString(start) + "-" + TimeString(end));
    u.Add(timeLabel);
    created := [AddNode(node, DefaultNodeType)] + cov + [timeLabel];
    AppendAssoc(old(u.events), [AddNode(node, DefaultNodeType)], cov);
    AppendAssoc(old(u.events), [AddNode(node, DefaultNodeType)] + cov, [timeLabel]);
  }

  /** After the loop: the named orderings, then the collected errors decide the outcome. */
  method BuildOrders(u: Update, b: Buffers) returns (r: DocResult)
    modifies u
    ensures u.events == old(u.events) + Finish(b).0
    ensures r == Finish(b).1
  {
    ghost var done: seq<Event> := [];
    var k := 0;
    while k < |b.orderings|
      invariant k <= |b.orderings|
      invariant u.events == old(u.events) + done
      invariant done + OrderingsOf(b.orderings, k) == OrderingsOf(b.orderings, 0)
      decreases |b.orderings| - k
    {
      var (name, entries) := b.orderings[k];
      var nodes := Values(SortBy(entries, StartLe));
      AddChain(u, nodes, AnnisNs, Ordering, name);
      AppendAssoc(old(u.events), done, Chain(nodes, AnnisNs, Ordering, name));
      AppendAssoc(done, Chain(nodes, AnnisNs, Ordering, name), OrderingsOf(b.orderings, k + 1));
      done, k := done + Chain(nodes, AnnisNs, Ordering, name), k + 1;
    }
    assert OrderingsOf(b.orderings, k) == [];
    r := if b.errors == [] then Imported else ConversionFailed(b.errors);
  }
}
