/**
 * The Python TextGrid importer: tiers of timed intervals are mapped onto a timeline of
 * empty tokens, tier tokens cover the empty tokens inside them, and the values of
 * dependent tiers become spans over the tier tokens, one span per distinct interval.
 * Reading and parsing the file is outside the model; the importer starts from the tier
 * data that parsing produces.
 */
module TextgridImporter {
  import opened Wrappers
  import opened Strings
  import opened Events
  import opened Sorting
  import opened Dicts
  import opened GraphUpdateUtil

  /** One interval of a tier: start, end and text. */
  type Interval = (int, int, string)

  /** Tier name to its intervals, as produced by parsing (a missing tier has none). */
  type TierData = map<string, seq<Interval>>

  /** Token tier to its dependent tiers, in configuration order. */
  type TierMap = seq<(string, seq<string>)>

  /** Keys of the token dictionary for one tier: (start, end) onto the token id. */
  type TierEntries = seq<((int, int), string)>

  function TierIntervals(data: TierData, name: string): seq<Interval>
  {
    if name in data then data[name] else []
  }

  // ---------------------------------------------------------------- value resolution

  /** A parsed TextGrid value: quoted text, a float literal or an integer. */
  datatype Value = Text(text: string) | Float(literal: string) | Integer(i: int)

  /**
   * `resolve_short`: quoted values lose their first and last character, an unquoted value
   * with a '.' must be a float literal and any other one an integer.
   */
  function ResolveShort(value: string): (r: Result<Value>)
    ensures r.Ok? && r.value.Float? ==> '.' in value && IsFloatLiteral(value)
    ensures r.Ok? && r.value.Integer? ==> '.' !in value && ParseInt(value) == Ok(r.value.i)
    ensures r.Err? <==> (|value| == 0 || value[0] != '"') && if '.' in value then !IsFloatLiteral(value) else ParseInt(value).Err?
  {
    if |value| > 0 && value[0] == '"' then Ok(Text(if |value| >= 2 then value[1..|value| - 1] else ""))
    else if '.' in value then
      if IsFloatLiteral(value) then Ok(Float(value)) else Err("could not convert string to float")
    else
      match ParseInt(value)
      case Ok(i) => Ok(Integer(i))
      case Err(msg) => Err(msg)
  }

  /** `resolve_long`: the value after the first " = " is resolved as in the short format. */
  function ResolveLong(value: string): (r: Result<Value>)
    ensures (forall j: nat :: !OccursAt(value, " = ", j)) ==> r == Err("list index out of range")
    ensures forall j: nat :: OccursAt(value, " = ", j) && (forall i: nat :: i < j ==> !OccursAt(value, " = ", i))
                             ==> r == ResolveShort(value[j + 3..])
  {
    match SplitOnce(value, " = ")
    case None => Err("list index out of range")
    case Some((key, bare)) =>
      assert OccursAt(value, " = ", |key|) && value[|key| + 3..] == bare by {
        assert value == key + " = " + bare;
        assert value[|key|..|key| + 3] == " = ";
      }
      ResolveShort(bare)
  }

  /** Quoted text, integers and float literals each resolve to their own kind of value. */
  lemma ResolveShortKinds(s: string, n: nat)
    ensures ResolveShort("\"" + s + "\"") == Ok(Text(s))
    ensures ResolveShort(NatToString(n)) == Ok(Integer(n))
    ensures ResolveShort("-" + NatToString(n)) == Ok(Integer(0 - n))
    ensures '.' in s && (|s| == 0 || s[0] != '"') ==> (ResolveShort(s) == Ok(Float(s)) <==> IsFloatLiteral(s))
  {
    var q := "\"" + s + "\"";
    assert q[1..|q| - 1] == s;
    DigitsValueOfNat(n);
    var d := NatToString(n);
    assert '.' !in d by {
      assert forall i :: 0 <= i < |d| ==> '0' <= d[i] <= '9';
    }
    var m := "-" + d;
    assert m[1..] == d;
    assert '.' !in m by {
      assert forall i :: 1 <= i < |m| ==> m[i] == d[i - 1];
    }
  }

  /** `a.b` with decimal numerals a and b is a float. */
  lemma ResolveShortFloats(a: nat, b: nat)
    ensures ResolveShort(NatToString(a) + "." + NatToString(b)) == Ok(Float(NatToString(a) + "." + NatToString(b)))
  {
    DigitsDotDigits(NatToString(a), NatToString(b));
  }

  /** A '.' among letters is not a float literal. */
  lemma ResolveShortLetters()
    ensures ResolveShort("a.b").Err?
  {
    var x := "a.b";
    assert OccursAt(x, ".", 1) by {
      assert x[1..2] == ".";
    }
    assert !OccursAt(x, ".", 0) by {
      assert x[0..1] == "a";
    }
    assert Find(x, ".") == Some(1);
    assert ExponentMark(x) == |x|;
    assert x[..|x|] == x;
    assert !IsDigitString(x[..1]) by {
      assert x[..1][0] == 'a';
    }
    assert '.' in x;
  }

  /** A second '.' is not part of a float literal. */
  lemma ResolveShortTwoDots()
    ensures ResolveShort("1.2.3").Err?
  {
    var y := "1.2.3";
    assert OccursAt(y, ".", 1) by {
      assert y[1..2] == ".";
    }
    assert !OccursAt(y, ".", 0) by {
      assert y[0..1] == "1";
    }
    assert Find(y, ".") == Some(1);
    ExponentMarkNone(y);
    assert y[..|y|] == y;
    assert !IsDigitString(y[2..]) by {
      assert y[2..][1] == '.';
    }
    assert '.' in y;
  }

  /** In the long format "key = value", the key never contains the separator. */
  lemma ResolveLongKeyValue(key: string, v: string)
    requires forall i :: 0 <= i < |key| ==> key[i] != ' '
    ensures ResolveLong(key + " = " + v) == ResolveShort(v)
  {
    var s := key + " = " + v;
    assert OccursAt(s, " = ", |key|) by {
      assert s[|key|..|key| + 3] == " = ";
    }
    forall j: nat | j < |key| ensures !OccursAt(s, " = ", j) {
      assert s[j] == key[j];
    }
    match SplitOnce(s, " = ")
    case Some((a, b)) =>
      assert |a| == |key| by {
        assert OccursAt(s, " = ", |a|) by {
          assert s[|a|..|a| + 3] == " = ";
        }
      }
      assert a + " = " + b == key + " = " + v;
      assert b == s[|key| + 3..];
      assert v == s[|key| + 3..];
  }

  lemma ResolveLongNoSeparator(value: string)
    requires forall j: nat :: !OccursAt(value, " = ", j)
    ensures ResolveLong(value).Err?
  {
  }

  // ---------------------------------------------------------------- timeline

  /** The token tiers and their dependent tiers, in configuration order. */
  function TierNames(tierMap: TierMap): seq<string>
  {
    if tierMap == [] then []
    else TierNames(tierMap[..|tierMap| - 1]) + [tierMap[|tierMap| - 1].0] + tierMap[|tierMap| - 1].1
  }

  function IntervalBounds(ivs: seq<Interval>): seq<int>
  {
    if ivs == [] then [] else IntervalBounds(ivs[..|ivs| - 1]) + [ivs[|ivs| - 1].0, ivs[|ivs| - 1].1]
  }

  function BoundaryValues(names: seq<string>, data: TierData): seq<int>
  {
    if names == [] then [] else BoundaryValues(names[..|names| - 1], data) + IntervalBounds(TierIntervals(data, names[|names| - 1]))
  }

  /** The sorted, deduplicated start and end times of every configured tier. */
  function Timeline(tierMap: TierMap, data: TierData): seq<int>
  {
    SortedDistinct(BoundaryValues(TierNames(tierMap), data))
  }

  lemma {:induction false} IntervalBoundsMembers(ivs: seq<Interval>, t: int)
    ensures t in IntervalBounds(ivs) <==> exists k :: 0 <= k < |ivs| && (ivs[k].0 == t || ivs[k].1 == t)
  {
    if ivs != [] {
      var init := ivs[..|ivs| - 1];
      IntervalBoundsMembers(init, t);
      if exists k :: 0 <= k < |init| && (init[k].0 == t || init[k].1 == t) {
        var k :| 0 <= k < |init| && (init[k].0 == t || init[k].1 == t);
        assert ivs[k] == init[k];
      }
      if exists k :: 0 <= k < |ivs| && (ivs[k].0 == t || ivs[k].1 == t) {
        var k :| 0 <= k < |ivs| && (ivs[k].0 == t || ivs[k].1 == t);
        if k < |init| {
          assert init[k] == ivs[k];
        }
      }
    }
  }

  /** The timeline is strictly increasing and holds exactly the boundaries of the intervals. */
  lemma TimelineProperties(tierMap: TierMap, data: TierData)
    ensures StrictlyIncreasing(Timeline(tierMap, data))
    ensures forall t :: t in Timeline(tierMap, data) <==> t in BoundaryValues(TierNames(tierMap), data)
  {
    SortedDistinctProperties(BoundaryValues(TierNames(tierMap), data));
  }

  /** The intervals between consecutive timeline points: the empty tokens. */
  function Windows(tl: seq<int>): (ws: seq<(int, int)>)
    ensures |ws| == if |tl| == 0 then 0 else |tl| - 1
    ensures forall i {:trigger ws[i]} :: 0 <= i < |ws| ==> ws[i] == (tl[i], tl[i + 1])
  {
    if |tl| < 2 then [] else Windows(tl[..|tl| - 1]) + [(tl[|tl| - 2], tl[|tl| - 1])]
  }

  /** The window loop as written: every index of the timeline unpacks the two points from it, and a short slice fails. */
  function UnpackWindowsAsWritten(tl: seq<int>, i: nat): (r: Result<seq<(int, int)>>)
    requires i <= |tl|
    decreases |tl| - i
  {
    if i == |tl| then Ok([])
    else
      var slice := tl[i..if i + 2 <= |tl| then i + 2 else |tl|];
      if |slice| != 2 then Err("not enough values to unpack (expected 2, got 1)")
      else
        match UnpackWindowsAsWritten(tl, i + 1)
        case Ok(rest) => Ok([(slice[0], slice[1])] + rest)
        case Err(msg) => Err(msg)
  }

  /** As written, the last index always leaves a one-element slice, so any non-empty timeline fails. */
  lemma {:induction false} UnpackWindowsAsWrittenFails(tl: seq<int>, i: nat)
    requires i < |tl|
    ensures UnpackWindowsAsWritten(tl, i).Err?
    decreases |tl| - i
  {
    if i + 1 < |tl| {
      UnpackWindowsAsWrittenFails(tl, i + 1);
    }
  }

  /** The empty tokens of a timeline are well-ordered intervals that tile it without gaps. */
  lemma WindowsTile(tl: seq<int>)
    requires StrictlyIncreasing(tl)
    ensures forall i :: 0 <= i < |Windows(tl)| ==> Windows(tl)[i].0 < Windows(tl)[i].1
    ensures forall i :: 0 <= i < |Windows(tl)| - 1 ==> Windows(tl)[i].1 == Windows(tl)[i + 1].0
  {
  }

  // ---------------------------------------------------------------- token numbering

  /** As written, tier tokens are numbered from the number of empty tokens. */
  function FirstTierTokenIdAsWritten(multiTok: bool, emptyCount: nat): nat
  {
    if multiTok then emptyCount else 0
  }

  /** The first tier token then takes the id of the last empty token. */
  lemma FirstTierTokenIdAsWrittenCollides(docPath: string, emptyCount: nat)
    requires emptyCount > 0
    ensures TokenId(docPath, FirstTierTokenIdAsWritten(true, emptyCount)) == TokenId(docPath, emptyCount)
  {
  }

  /** Tier tokens are numbered after the empty tokens, whose ids are 1 .. emptyCount. */
  function FirstTierTokenId(multiTok: bool, emptyCount: nat): nat
  {
    if multiTok then emptyCount + 1 else 0
  }

  /** No tier token id equals an empty token id. */
  lemma TierTokenIdsFresh(docPath: string, multiTok: bool, emptyCount: nat, k: nat, i: nat)
    requires multiTok && i < emptyCount
    ensures TokenId(docPath, FirstTierTokenId(multiTok, emptyCount) + k) != TokenId(docPath, i + 1)
  {
    IdsInjective(docPath, FirstTierTokenId(multiTok, emptyCount) + k, i + 1);
  }

  // ---------------------------------------------------------------- empty tokens

  /** The events of one empty token: number `id`, no text, a single space as value. */
  function EmptyTokenStepEvents(docPath: string, w: (int, int), id: nat): seq<Event>
  {
    TokenEvents(docPath, id, "", " ", Some(w.0), Some(w.1))
  }

  /** The events of the first k empty tokens; token i + 1 spans window i. */
  function EmptyTokenEvents(docPath: string, ws: seq<(int, int)>, k: nat): seq<Event>
    requires k <= |ws|
  {
    if k == 0 then [] else EmptyTokenEvents(docPath, ws, k - 1) + EmptyTokenStepEvents(docPath, ws[k - 1], k)
  }

  /** The token dictionary after the first k empty tokens: each window onto its token id. */
  function EmptyEntries(docPath: string, ws: seq<(int, int)>, k: nat): (es: TierEntries)
    requires k <= |ws|
    ensures |es| == k
  {
    if k == 0 then [] else EmptyEntries(docPath, ws, k - 1) + [(ws[k - 1], TokenId(docPath, k))]
  }

  /** The i-th empty token spans the i-th window and has id i + 1. */
  lemma {:induction false} EmptyEntriesAt(docPath: string, ws: seq<(int, int)>, k: nat, i: nat)
    requires i < k <= |ws|
    ensures EmptyEntries(docPath, ws, k)[i] == (ws[i], TokenId(docPath, i + 1))
  {
    if i < k - 1 {
      EmptyEntriesAt(docPath, ws, k - 1, i);
    }
  }

  function StartLe(a: ((int, int), string), b: ((int, int), string)): bool
  {
    a.0.0 <= b.0.0
  }

  lemma StartLeTotal()
    ensures TotalPreorder(StartLe)
  {
  }

  /** The token ids sorted by start, as `sorted(tok_dict.items(), key=start)`. */
  function IdsByStart(es: TierEntries): seq<string>
  {
    Values(SortBy(es, StartLe))
  }

  lemma {:induction false} SortByKeepsSorted(es: TierEntries)
    requires forall i :: 0 <= i < |es| - 1 ==> StartLe(es[i], es[i + 1])
    ensures SortBy(es, StartLe) == es
  {
    if es != [] {
      SortByKeepsSorted(es[..|es| - 1]);
    }
  }

  /** The timeline: one empty token per window, then their ordering chain. */
  function TimelineEvents(docPath: string, tl: seq<int>): seq<Event>
  {
    var ws := Windows(tl);
    EmptyTokenEvents(docPath, ws, |ws|) + Chain(IdsByStart(EmptyEntries(docPath, ws, |ws|)), AnnisNs, Ordering, "")
  }

  /** The empty tokens are chained in time order: the i-th empty token follows the (i-1)-th. */
  lemma TimelineChainInOrder(docPath: string, tl: seq<int>)
    requires StrictlyIncreasing(tl)
    ensures var ws := Windows(tl);
      IdsByStart(EmptyEntries(docPath, ws, |ws|)) == Values(EmptyEntries(docPath, ws, |ws|))
    ensures var ws := Windows(tl);
      forall i :: 0 <= i < |ws| ==> Values(EmptyEntries(docPath, ws, |ws|))[i] == TokenId(docPath, i + 1)
  {
    var ws := Windows(tl);
    var es := EmptyEntries(docPath, ws, |ws|);
    forall i | 0 <= i < |es| - 1 ensures StartLe(es[i], es[i + 1]) {
      EmptyEntriesAt(docPath, ws, |ws|, i);
      EmptyEntriesAt(docPath, ws, |ws|, i + 1);
      assert es[i].0 == ws[i] == (tl[i], tl[i + 1]);
      assert es[i + 1].0 == ws[i + 1] == (tl[i + 1], tl[i + 2]);
    }
    SortByKeepsSorted(es);
    forall i | 0 <= i < |ws| ensures Values(es)[i] == TokenId(docPath, i + 1) {
      EmptyEntriesAt(docPath, ws, |ws|, i);
    }
  }

  lemma EmptyTokenStep(docPath: string, ws: seq<(int, int)>, k: nat, base: seq<Event>)
    requires k < |ws|
    ensures base + EmptyTokenEvents(docPath, ws, k + 1)
      == (base + EmptyTokenEvents(docPath, ws, k)) + EmptyTokenStepEvents(docPath, ws[k], k + 1)
  {
    AppendAssoc(base, EmptyTokenEvents(docPath, ws, k), EmptyTokenStepEvents(docPath, ws[k], k + 1));
  }

  /** The loop over the windows: empty token i + 1 from tl[i] to tl[i + 1]. */
  method MapEmptyTokens(u: Update, docPath: string, ws: seq<(int, int)>) returns (empty: TierEntries)
    requires forall i :: 0 <= i < |ws| ==> ws[i].0 < ws[i].1
    modifies u
    ensures empty == EmptyEntries(docPath, ws, |ws|)
    ensures u.events == old(u.events) + EmptyTokenEvents(docPath, ws, |ws|)
  {
    empty := [];
    var i := 0;
    while i < |ws|
      invariant 0 <= i <= |ws|
      invariant empty == EmptyEntries(docPath, ws, i)
      invariant u.events == old(u.events) + EmptyTokenEvents(docPath, ws, i)
    {
      EmptyTokenStep(docPath, ws, i, old(u.events));
      var (start, end) := ws[i];
      var r := MapToken(u, docPath, i + 1, "", " ", Some(start), Some(end));
      empty := empty + [((start, end), r.value)];
      i := i + 1;
    }
  }

  /** The multi-token timeline: the empty tokens and their unnamed ordering chain. */
  method MapTimeline(u: Update, docPath: string, tl: seq<int>) returns (empty: TierEntries)
    requires StrictlyIncreasing(tl)
    modifies u
    ensures empty == EmptyEntries(docPath, Windows(tl), |Windows(tl)|)
    ensures u.events == old(u.events) + TimelineEvents(docPath, tl)
  {
    var ws := Windows(tl);
    forall i | 0 <= i < |ws| ensures ws[i].0 < ws[i].1 {
      assert ws[i] == (tl[i], tl[i + 1]);
    }
    empty := MapEmptyTokens(u, docPath, ws);
    var ordered := IdsByStart(empty);
    AddOrderRelations(u, ordered, "");
    AppendAssoc(old(u.events), EmptyTokenEvents(docPath, ws, |ws|), Chain(ordered, AnnisNs, Ordering, ""));
  }

  // ---------------------------------------------------------------- tier tokens

  /** The ids of the empty tokens that lie inside [start, end], in timeline order. */
  function CoveredEmpty(empty: TierEntries, start: int, end: int): (ids: seq<string>)
  {
    if empty == [] then []
    else
      var last := empty[|empty| - 1];
      CoveredEmpty(empty[..|empty| - 1], start, end) + (if start <= last.0.0 && end >= last.0.1 then [last.1] else [])
  }

  /** A token covers exactly the entries whose interval lies inside its own. */
  lemma {:induction false} CoveredEmptyIff(empty: TierEntries, start: int, end: int, id: string)
    ensures id in CoveredEmpty(empty, start, end)
        <==> exists k :: 0 <= k < |empty| && empty[k].1 == id && start <= empty[k].0.0 && end >= empty[k].0.1
  {
    if empty != [] {
      var init := empty[..|empty| - 1];
      CoveredEmptyIff(init, start, end, id);
      if exists k :: 0 <= k < |init| && init[k].1 == id && start <= init[k].0.0 && end >= init[k].0.1 {
        var k :| 0 <= k < |init| && init[k].1 == id && start <= init[k].0.0 && end >= init[k].0.1;
        assert empty[k] == init[k];
      }
      if exists k :: 0 <= k < |empty| && empty[k].1 == id && start <= empty[k].0.0 && end >= empty[k].0.1 {
        var k :| 0 <= k < |empty| && empty[k].1 == id && start <= empty[k].0.0 && end >= empty[k].0.1;
        if k < |init| {
          assert init[k] == empty[k];
        }
      }
    }
  }

  predicate WellOrdered(ivs: seq<Interval>)
  {
    forall k :: 0 <= k < |ivs| ==> ivs[k].0 < ivs[k].1
  }

  /** The first k intervals have start < end. */
  predicate OrderedUpTo(ivs: seq<Interval>, k: nat)
    requires k <= |ivs|
  {
    k == 0 || (OrderedUpTo(ivs, k - 1) && ivs[k - 1].0 < ivs[k - 1].1)
  }

  lemma {:induction false} OrderedUpToIff(ivs: seq<Interval>, k: nat)
    requires k <= |ivs|
    ensures OrderedUpTo(ivs, k) <==> forall j :: 0 <= j < k ==> ivs[j].0 < ivs[j].1
  {
    if k > 0 {
      OrderedUpToIff(ivs, k - 1);
    }
  }

  /** One interval with start >= end spoils every longer prefix. */
  lemma {:induction false} NotOrderedBeyond(ivs: seq<Interval>, k: nat, n: nat)
    requires k < n <= |ivs| && ivs[k].0 >= ivs[k].1
    ensures !OrderedUpTo(ivs, n)
    decreases n
  {
    if n > k + 1 {
      NotOrderedBeyond(ivs, k, n - 1);
    }
  }

  /** One tier token and, in multi-token mode, its coverage of the empty tokens inside it. */
  function TierTokenStepEvents(docPath: string, tier: string, id: nat, iv: Interval,
                               empty: TierEntries, multiTok: bool): seq<Event>
  {
    TokenEvents(docPath, id, tier, iv.2, Some(iv.0), Some(iv.1))
    + (if multiTok then EdgeEvents([TokenId(docPath, id)], CoveredEmpty(empty, iv.0, iv.1), Coverage, "") else [])
  }

  /** The events of the first k tokens of a tier, numbered from `firstId`. */
  function TierTokenEvents(docPath: string, tier: string, ivs: seq<Interval>, firstId: nat,
                           empty: TierEntries, multiTok: bool, k: nat): seq<Event>
    requires k <= |ivs|
  {
    if k == 0 then []
    else
      TierTokenEvents(docPath, tier, ivs, firstId, empty, multiTok, k - 1)
      + TierTokenStepEvents(docPath, tier, firstId + k - 1, ivs[k - 1], empty, multiTok)
  }

  /** `tok_dict[(start, end, tier)] = token id` for each of the first k intervals in turn. */
  function TierTokenEntries(docPath: string, ivs: seq<Interval>, firstId: nat, k: nat): TierEntries
    requires k <= |ivs|
  {
    if k == 0 then []
    else Put(TierTokenEntries(docPath, ivs, firstId, k - 1), (ivs[k - 1].0, ivs[k - 1].1), TokenId(docPath, firstId + k - 1))
  }

  /** No key of the tier's token dictionary is entered twice. */
  lemma {:induction false} TierTokenEntriesDistinct(docPath: string, ivs: seq<Interval>, firstId: nat, k: nat)
    requires k <= |ivs|
    ensures DistinctKeys(TierTokenEntries(docPath, ivs, firstId, k))
  {
    if k > 0 {
      TierTokenEntriesDistinct(docPath, ivs, firstId, k - 1);
      PutDistinct(TierTokenEntries(docPath, ivs, firstId, k - 1), (ivs[k - 1].0, ivs[k - 1].1), TokenId(docPath, firstId + k - 1));
    }
  }

  /** The keys of the tier's token dictionary are exactly the intervals of the first k values. */
  lemma {:induction false} TierTokenEntriesKeys(docPath: string, ivs: seq<Interval>, firstId: nat, k: nat)
    requires k <= |ivs|
    ensures forall key :: key in Keys(TierTokenEntries(docPath, ivs, firstId, k)) <==>
      exists j :: 0 <= j < k && key == (ivs[j].0, ivs[j].1)
  {
    if k > 0 {
      TierTokenEntriesKeys(docPath, ivs, firstId, k - 1);
      PutKeys(TierTokenEntries(docPath, ivs, firstId, k - 1), (ivs[k - 1].0, ivs[k - 1].1), TokenId(docPath, firstId + k - 1));
    }
  }

  /** The entry of the last interval of a prefix holds that interval's token. */
  lemma TierTokenEntriesLast(docPath: string, ivs: seq<Interval>, firstId: nat, k: nat)
    requires 0 < k <= |ivs|
    ensures Get(TierTokenEntries(docPath, ivs, firstId, k), (ivs[k - 1].0, ivs[k - 1].1))
      == Some(TokenId(docPath, firstId + k - 1))
  {
    var key := (ivs[k - 1].0, ivs[k - 1].1);
    PutGet(TierTokenEntries(docPath, ivs, firstId, k - 1), key, TokenId(docPath, firstId + k - 1), key);
  }

  /** A later interval with another key leaves the entry of an earlier one as it was. */
  lemma TierTokenEntriesOther(docPath: string, ivs: seq<Interval>, firstId: nat, k: nat, key: (int, int))
    requires 0 < k <= |ivs| && key != (ivs[k - 1].0, ivs[k - 1].1)
    ensures Get(TierTokenEntries(docPath, ivs, firstId, k), key) == Get(TierTokenEntries(docPath, ivs, firstId, k - 1), key)
  {
    PutGet(TierTokenEntries(docPath, ivs, firstId, k - 1), (ivs[k - 1].0, ivs[k - 1].1), TokenId(docPath, firstId + k - 1), key);
  }

  lemma TierTokenStep(docPath: string, tier: string, ivs: seq<Interval>, firstId: nat,
                      empty: TierEntries, multiTok: bool, k: nat, base: seq<Event>)
    requires k < |ivs|
    ensures base + TierTokenEvents(docPath, tier, ivs, firstId, empty, multiTok, k + 1)
      == (base + TierTokenEvents(docPath, tier, ivs, firstId, empty, multiTok, k))
         + TierTokenStepEvents(docPath, tier, firstId + k, ivs[k], empty, multiTok)
    ensures TierTokenEntries(docPath, ivs, firstId, k + 1)
      == Put(TierTokenEntries(docPath, ivs, firstId, k), (ivs[k].0, ivs[k].1), TokenId(docPath, firstId + k))
  {
    AppendAssoc(base, TierTokenEvents(docPath, tier, ivs, firstId, empty, multiTok, k),
                TierTokenStepEvents(docPath, tier, firstId + k, ivs[k], empty, multiTok));
  }

  /** One iteration of the tier-token loop: `map_token`, then `coverage` in multi-token mode. */
  method AddTierToken(u: Update, docPath: string, tier: string, id: nat, iv: Interval,
                      empty: TierEntries, multiTok: bool) returns (r: Result<string>)
    modifies u
    ensures r.Err? <==> iv.0 >= iv.1
    ensures r.Ok? ==> r.value == TokenId(docPath, id)
    ensures r.Ok? ==> u.events == old(u.events) + TierTokenStepEvents(docPath, tier, id, iv, empty, multiTok)
  {
    var (start, end, value) := iv;
    r := MapToken(u, docPath, id, tier, value, Some(start), Some(end));
    if r.Err? {
      return;
    }
    ghost var token := u.events;
    if multiTok {
      var overlapped := CoveredEmpty(empty, start, end);
      AddEdges(u, [r.value], overlapped, Coverage, "");
      AppendAssoc(old(u.events), TokenEvents(docPath, id, tier, value, Some(start), Some(end)),
                  EdgeEvents([r.value], overlapped, Coverage, ""));
    } else {
      assert u.events == token + [];
      AppendAssoc(old(u.events), TokenEvents(docPath, id, tier, value, Some(start), Some(end)), []);
    }
  }

  /** One iteration of the tier-token loop together with its `tok_dict` entry. */
  method AddTierTokenEntry(u: Update, docPath: string, tier: string, ivs: seq<Interval>, firstId: nat,
                           empty: TierEntries, multiTok: bool, k: nat, entries: TierEntries, ghost base: seq<Event>)
    returns (r: Result<TierEntries>)
    requires k < |ivs| && entries == TierTokenEntries(docPath, ivs, firstId, k)
    requires u.events == base + TierTokenEvents(docPath, tier, ivs, firstId, empty, multiTok, k)
    modifies u
    ensures r.Err? <==> ivs[k].0 >= ivs[k].1
    ensures r.Ok? ==> r.value == TierTokenEntries(docPath, ivs, firstId, k + 1)
    ensures r.Ok? ==> u.events == base + TierTokenEvents(docPath, tier, ivs, firstId, empty, multiTok, k + 1)
  {
    TierTokenStep(docPath, tier, ivs, firstId, empty, multiTok, k, base);
    var tok := AddTierToken(u, docPath, tier, firstId + k, ivs[k], empty, multiTok);
    if tok.Err? {
      return Err(tok.msg);
    }
    return Ok(Put(entries, (ivs[k].0, ivs[k].1), tok.value));
  }

  /** The tokens of one token tier; fails at the first interval with start >= end. */
  method MapTierTokens(u: Update, docPath: string, tier: string, ivs: seq<Interval>, firstId: nat,
                       empty: TierEntries, multiTok: bool) returns (r: Result<TierEntries>)
    modifies u
    ensures r.Ok? <==> WellOrdered(ivs)
    ensures r.Ok? ==> r.value == TierTokenEntries(docPath, ivs, firstId, |ivs|)
    ensures r.Ok? ==> u.events == old(u.events) + TierTokenEvents(docPath, tier, ivs, firstId, empty, multiTok, |ivs|)
  {
    ghost var base := u.events;
    assert u.events == base + [];
    var entries: TierEntries := [];
    var k := 0;
    while k < |ivs|
      invariant 0 <= k <= |ivs|
      invariant OrderedUpTo(ivs, k)
      invariant entries == TierTokenEntries(docPath, ivs, firstId, k)
      invariant u.events == base + TierTokenEvents(docPath, tier, ivs, firstId, empty, multiTok, k)
    {
      var next := AddTierTokenEntry(u, docPath, tier, ivs, firstId, empty, multiTok, k, entries, base);
      if next.Err? {
        assert !WellOrdered(ivs);
        return Err(next.msg);
      }
      assert OrderedUpTo(ivs, k + 1);
      entries := next.value;
      k := k + 1;
    }
    OrderedUpToIff(ivs, |ivs|);
    return Ok(entries);
  }

  // ---------------------------------------------------------------- dependent spans

  /** The span dictionary of one token tier, the events so far and the last span number. */
  datatype SpanState = SpanState(events: seq<Event>, spans: TierEntries, count: nat)

  /** The dictionary key of an interval: its (start, end). */
  function IvKey(iv: Interval): (int, int)
  {
    (iv.0, iv.1)
  }

  /**
   * One value of a dependent tier: a value whose (start, end) has no span yet creates
   * span number `count + 1` over the tier tokens inside it; a value whose interval
   * already has a span only labels that span.
   */
  function SpanStep(docPath: string, tier: string, tokens: TierEntries, name: string, iv: Interval,
                    st: SpanState): SpanState
  {
    match Get(st.spans, IvKey(iv))
    case None =>
      var span := SpanId(docPath, st.count + 1);
      SpanState(st.events + LabelledNodeEvents(span, tier, name, iv.2, CoveredEmpty(tokens, iv.0, iv.1), Coverage, ""),
                Put(st.spans, IvKey(iv), span), st.count + 1)
    case Some(span) =>
      SpanState(st.events + [AddNodeLabel(span, tier, name, iv.2)], st.spans, st.count)
  }

  /** The first j values of one dependent tier, starting from `st0`. */
  function SpanTier(docPath: string, tier: string, tokens: TierEntries, name: string, ivs: seq<Interval>,
                    st0: SpanState, j: nat): SpanState
    requires j <= |ivs|
  {
    if j == 0 then st0 else SpanStep(docPath, tier, tokens, name, ivs[j - 1], SpanTier(docPath, tier, tokens, name, ivs, st0, j - 1))
  }

  lemma SpanTierNext(docPath: string, tier: string, tokens: TierEntries, name: string, ivs: seq<Interval>,
                     st0: SpanState, j: nat)
    requires j < |ivs|
    ensures SpanTier(docPath, tier, tokens, name, ivs, st0, j + 1)
      == SpanStep(docPath, tier, tokens, name, ivs[j], SpanTier(docPath, tier, tokens, name, ivs, st0, j))
  {
  }

  /** The first i dependent tiers of a token tier; its span dictionary starts empty. */
  function SpanTiers(docPath: string, tier: string, tokens: TierEntries, deps: seq<string>, data: TierData,
                     count0: nat, i: nat): SpanState
    requires i <= |deps|
  {
    if i == 0 then SpanState([], [], count0)
    else
      var ivs := TierIntervals(data, deps[i - 1]);
      SpanTier(docPath, tier, tokens, deps[i - 1], ivs, SpanTiers(docPath, tier, tokens, deps, data, count0, i - 1), |ivs|)
  }

  /** `key` is the interval of one of the first j values. */
  predicate KeyAmong(ivs: seq<Interval>, j: nat, key: (int, int))
    requires j <= |ivs|
  {
    exists m :: 0 <= m < j && key == IvKey(ivs[m])
  }

  /** `key` is the interval of a value of one of the first i dependent tiers. */
  predicate DepKeyAmong(deps: seq<string>, data: TierData, i: nat, key: (int, int))
    requires i <= |deps|
  {
    exists d :: 0 <= d < i && KeyAmong(TierIntervals(data, deps[d]), |TierIntervals(data, deps[d])|, key)
  }

  /** `ks` with `k` added at the end unless it is there already. */
  function AddKey(ks: seq<(int, int)>, k: (int, int)): seq<(int, int)>
  {
    if k in ks then ks else ks + [k]
  }

  /** After `ks0`, the distinct intervals of the first j values in order of first appearance. */
  function TierKeys(ivs: seq<Interval>, ks0: seq<(int, int)>, j: nat): seq<(int, int)>
    requires j <= |ivs|
  {
    if j == 0 then ks0 else AddKey(TierKeys(ivs, ks0, j - 1), IvKey(ivs[j - 1]))
  }

  /** The distinct intervals of the first i dependent tiers, in order of first appearance. */
  function DepKeys(deps: seq<string>, data: TierData, i: nat): seq<(int, int)>
    requires i <= |deps|
  {
    if i == 0 then []
    else
      var ivs := TierIntervals(data, deps[i - 1]);
      TierKeys(ivs, DepKeys(deps, data, i - 1), |ivs|)
  }

  /** A step keeps every earlier event and the span of every interval that has one. */
  lemma SpanStepKeeps(docPath: string, tier: string, tokens: TierEntries, name: string, iv: Interval,
                      st: SpanState, key: (int, int))
    ensures var st' := SpanStep(docPath, tier, tokens, name, iv, st);
      && st.events <= st'.events
      && (Get(st.spans, key).Some? ==> Get(st'.spans, key) == Get(st.spans, key))
  {
    GetKeys(st.spans, IvKey(iv));
    if Get(st.spans, IvKey(iv)).None? {
      PutGet(st.spans, IvKey(iv), SpanId(docPath, st.count + 1), key);
    }
  }

  /** A step adds the value's interval to the keys and nothing else. */
  lemma SpanStepKeys(docPath: string, tier: string, tokens: TierEntries, name: string, iv: Interval,
                     st: SpanState, key: (int, int))
    ensures key in Keys(SpanStep(docPath, tier, tokens, name, iv, st).spans) <==> key in Keys(st.spans) || key == IvKey(iv)
  {
    GetKeys(st.spans, IvKey(iv));
    if Get(st.spans, IvKey(iv)).None? {
      PutKeys(st.spans, IvKey(iv), SpanId(docPath, st.count + 1));
    }
  }

  /** A step keeps the keys distinct, adds the value's interval if new, and takes a new span number exactly then. */
  lemma SpanStepCount(docPath: string, tier: string, tokens: TierEntries, name: string, iv: Interval, st: SpanState)
    requires DistinctKeys(st.spans)
    ensures var st' := SpanStep(docPath, tier, tokens, name, iv, st);
      && DistinctKeys(st'.spans)
      && Keys(st'.spans) == AddKey(Keys(st.spans), IvKey(iv))
      && st'.count - |st'.spans| == st.count - |st.spans|
  {
    GetKeys(st.spans, IvKey(iv));
    if Get(st.spans, IvKey(iv)).None? {
      PutDistinct(st.spans, IvKey(iv), SpanId(docPath, st.count + 1));
      PutKeysOrder(st.spans, IvKey(iv), SpanId(docPath, st.count + 1));
    }
  }

  /** A named value labels, in the dependent tier's name, the span of its interval. */
  lemma SpanStepLabel(docPath: string, tier: string, tokens: TierEntries, name: string, iv: Interval, st: SpanState)
    requires name != ""
    ensures var st' := SpanStep(docPath, tier, tokens, name, iv, st);
      && Get(st'.spans, IvKey(iv)).Some?
      && AddNodeLabel(Get(st'.spans, IvKey(iv)).value, tier, name, iv.2) in st'.events
  {
    var st' := SpanStep(docPath, tier, tokens, name, iv, st);
    GetKeys(st.spans, IvKey(iv));
    if Get(st.spans, IvKey(iv)).None? {
      var span := SpanId(docPath, st.count + 1);
      var evs := LabelledNodeEvents(span, tier, name, iv.2, CoveredEmpty(tokens, iv.0, iv.1), Coverage, "");
      PutGet(st.spans, IvKey(iv), span, IvKey(iv));
      LabelledNodeEventsContents(span, tier, name, iv.2, CoveredEmpty(tokens, iv.0, iv.1), Coverage, "");
      assert st'.events[|st.events| + 1] == evs[1];
    } else {
      assert st'.events[|st.events|] == AddNodeLabel(Get(st.spans, IvKey(iv)).value, tier, name, iv.2);
    }
  }

  lemma InPrefix(a: seq<Event>, b: seq<Event>, e: Event)
    requires a <= b && e in a
    ensures e in b
  {
    var i :| 0 <= i < |a| && a[i] == e;
    assert b[i] == e;
  }

  /** Across the values of one dependent tier: earlier events and spans are kept. */
  lemma {:induction false} SpanTierKeeps(docPath: string, tier: string, tokens: TierEntries, name: string,
                                         ivs: seq<Interval>, st0: SpanState, j: nat, key: (int, int))
    requires j <= |ivs|
    ensures var st := SpanTier(docPath, tier, tokens, name, ivs, st0, j);
      && st0.events <= st.events
      && (Get(st0.spans, key).Some? ==> Get(st.spans, key) == Get(st0.spans, key))
  {
    if j > 0 {
      var prev := SpanTier(docPath, tier, tokens, name, ivs, st0, j - 1);
      SpanTierKeeps(docPath, tier, tokens, name, ivs, st0, j - 1, key);
      SpanStepKeeps(docPath, tier, tokens, name, ivs[j - 1], prev, key);
    }
  }

  lemma {:induction false} SpanTierCount(docPath: string, tier: string, tokens: TierEntries, name: string,
                                         ivs: seq<Interval>, st0: SpanState, j: nat)
    requires j <= |ivs| && DistinctKeys(st0.spans)
    ensures var st := SpanTier(docPath, tier, tokens, name, ivs, st0, j);
      && DistinctKeys(st.spans)
      && Keys(st.spans) == TierKeys(ivs, Keys(st0.spans), j)
      && st.count - |st.spans| == st0.count - |st0.spans|
  {
    if j > 0 {
      SpanTierCount(docPath, tier, tokens, name, ivs, st0, j - 1);
      SpanStepCount(docPath, tier, tokens, name, ivs[j - 1], SpanTier(docPath, tier, tokens, name, ivs, st0, j - 1));
    }
  }

  /** After j values of one dependent tier, the keys are the earlier keys and the first j intervals. */
  lemma {:induction false} SpanTierKeys(docPath: string, tier: string, tokens: TierEntries, name: string,
                                        ivs: seq<Interval>, st0: SpanState, j: nat, key: (int, int))
    requires j <= |ivs|
    ensures key in Keys(SpanTier(docPath, tier, tokens, name, ivs, st0, j).spans)
      <==> key in Keys(st0.spans) || KeyAmong(ivs, j, key)
  {
    if j > 0 {
      SpanTierKeys(docPath, tier, tokens, name, ivs, st0, j - 1, key);
      SpanStepKeys(docPath, tier, tokens, name, ivs[j - 1], SpanTier(docPath, tier, tokens, name, ivs, st0, j - 1), key);
      if KeyAmong(ivs, j, key) && !KeyAmong(ivs, j - 1, key) {
        var m :| 0 <= m < j && key == IvKey(ivs[m]);
        assert m == j - 1;
      }
      if KeyAmong(ivs, j - 1, key) {
        var m :| 0 <= m < j - 1 && key == IvKey(ivs[m]);
        assert KeyAmong(ivs, j, key);
      }
      if key == IvKey(ivs[j - 1]) {
        assert KeyAmong(ivs, j, key);
      }
    }
  }

  /** After j values of one dependent tier, each named value among them labels the span of its interval. */
  lemma {:induction false} SpanTierLabels(docPath: string, tier: string, tokens: TierEntries, name: string,
                                          ivs: seq<Interval>, st0: SpanState, j: nat, m: nat)
    requires m < j <= |ivs| && name != ""
    ensures var st := SpanTier(docPath, tier, tokens, name, ivs, st0, j);
      && Get(st.spans, IvKey(ivs[m])).Some?
      && AddNodeLabel(Get(st.spans, IvKey(ivs[m])).value, tier, name, ivs[m].2) in st.events
  {
    var prev := SpanTier(docPath, tier, tokens, name, ivs, st0, j - 1);
    var st := SpanTier(docPath, tier, tokens, name, ivs, st0, j);
    var key := IvKey(ivs[m]);
    if m < j - 1 {
      SpanTierLabels(docPath, tier, tokens, name, ivs, st0, j - 1, m);
      SpanStepKeeps(docPath, tier, tokens, name, ivs[j - 1], prev, key);
      InPrefix(prev.events, st.events, AddNodeLabel(Get(prev.spans, key).value, tier, name, ivs[m].2));
    } else {
      SpanStepLabel(docPath, tier, tokens, name, ivs[j - 1], prev);
    }
  }

  /** Across dependent tiers: the events and spans of the earlier tiers are kept. */
  lemma {:induction false} SpanTiersKeep(docPath: string, tier: string, tokens: TierEntries, deps: seq<string>,
                                         data: TierData, count0: nat, i: nat, i': nat, key: (int, int))
    requires i <= i' <= |deps|
    ensures var st := SpanTiers(docPath, tier, tokens, deps, data, count0, i);
      var st' := SpanTiers(docPath, tier, tokens, deps, data, count0, i');
      && st.events <= st'.events
      && (Get(st.spans, key).Some? ==> Get(st'.spans, key) == Get(st.spans, key))
    decreases i'
  {
    if i < i' {
      SpanTiersKeep(docPath, tier, tokens, deps, data, count0, i, i' - 1, key);
      var ivs := TierIntervals(data, deps[i' - 1]);
      var prev := SpanTiers(docPath, tier, tokens, deps, data, count0, i' - 1);
      SpanTierKeeps(docPath, tier, tokens, deps[i' - 1], ivs, prev, |ivs|, key);
    }
  }

  /**
   * The spans of one token tier share nothing: the dictionary never holds an interval
   * twice, its keys are the distinct intervals of the dependent values in order of first
   * appearance, and the span numbers run on from `count0`, one per distinct interval.
   */
  lemma {:induction false} SpanTiersCount(docPath: string, tier: string, tokens: TierEntries, deps: seq<string>,
                                          data: TierData, count0: nat, i: nat)
    requires i <= |deps|
    ensures var st := SpanTiers(docPath, tier, tokens, deps, data, count0, i);
      && DistinctKeys(st.spans)
      && Keys(st.spans) == DepKeys(deps, data, i)
      && st.count == count0 + |DepKeys(deps, data, i)|
  {
    if i > 0 {
      var ivs := TierIntervals(data, deps[i - 1]);
      SpanTiersCount(docPath, tier, tokens, deps, data, count0, i - 1);
      SpanTierCount(docPath, tier, tokens, deps[i - 1], ivs, SpanTiers(docPath, tier, tokens, deps, data, count0, i - 1), |ivs|);
    }
  }

  /** The intervals with a span are exactly the intervals of the dependent values. */
  lemma {:induction false} SpanTiersKeys(docPath: string, tier: string, tokens: TierEntries, deps: seq<string>,
                                         data: TierData, count0: nat, i: nat, key: (int, int))
    requires i <= |deps|
    ensures key in Keys(SpanTiers(docPath, tier, tokens, deps, data, count0, i).spans) <==> DepKeyAmong(deps, data, i, key)
  {
    if i > 0 {
      var ivs := TierIntervals(data, deps[i - 1]);
      SpanTiersKeys(docPath, tier, tokens, deps, data, count0, i - 1, key);
      SpanTierKeys(docPath, tier, tokens, deps[i - 1], ivs, SpanTiers(docPath, tier, tokens, deps, data, count0, i - 1), |ivs|, key);
      if DepKeyAmong(deps, data, i, key) && !DepKeyAmong(deps, data, i - 1, key) {
        var d :| 0 <= d < i && KeyAmong(TierIntervals(data, deps[d]), |TierIntervals(data, deps[d])|, key);
        assert d == i - 1;
      }
      if DepKeyAmong(deps, data, i - 1, key) {
        var d :| 0 <= d < i - 1 && KeyAmong(TierIntervals(data, deps[d]), |TierIntervals(data, deps[d])|, key);
        assert DepKeyAmong(deps, data, i, key);
      }
      if KeyAmong(ivs, |ivs|, key) {
        assert DepKeyAmong(deps, data, i, key);
      }
    }
  }

  /**
   * Every value of a dependent tier with a non-empty name ends up as a label, in the
   * dependent tier's name, of the one span of its interval.
   */
  lemma SpanTiersLabels(docPath: string, tier: string, tokens: TierEntries, deps: seq<string>,
                        data: TierData, count0: nat, d: nat, m: nat)
    requires d < |deps| && deps[d] != "" && m < |TierIntervals(data, deps[d])|
    ensures var st := SpanTiers(docPath, tier, tokens, deps, data, count0, |deps|);
      var iv := TierIntervals(data, deps[d])[m];
      && Get(st.spans, IvKey(iv)).Some?
      && AddNodeLabel(Get(st.spans, IvKey(iv)).value, tier, deps[d], iv.2) in st.events
  {
    var ivs := TierIntervals(data, deps[d]);
    var key := IvKey(ivs[m]);
    var prev := SpanTiers(docPath, tier, tokens, deps, data, count0, d);
    var st := SpanTiers(docPath, tier, tokens, deps, data, count0, d + 1);
    var fin := SpanTiers(docPath, tier, tokens, deps, data, count0, |deps|);
    SpanTierLabels(docPath, tier, tokens, deps[d], ivs, prev, |ivs|, m);
    SpanTiersKeep(docPath, tier, tokens, deps, data, count0, d + 1, |deps|, key);
    InPrefix(st.events, fin.events, AddNodeLabel(Get(st.spans, key).value, tier, deps[d], ivs[m].2));
  }

  /** One value of the inner span loop. */
  method AddSpanValue(u: Update, docPath: string, tier: string, tokens: TierEntries, name: string, iv: Interval,
                      spans0: TierEntries, count0: nat, ghost base: seq<Event>, ghost st: SpanState)
    returns (spans: TierEntries, count: nat)
    requires u.events == base + st.events && spans0 == st.spans && count0 == st.count
    modifies u
    ensures var st' := SpanStep(docPath, tier, tokens, name, iv, st);
      u.events == base + st'.events && spans == st'.spans && count == st'.count
  {
    var (start, end, value) := iv;
    var existing := Get(spans0, (start, end));
    if existing.None? {
      count := count0 + 1;
      var overlapped := CoveredEmpty(tokens, start, end);
      var span := MapAnnotation(u, docPath, count, tier, name, value, overlapped);
      AppendAssoc(base, st.events, LabelledNodeEvents(span, tier, name, value, overlapped, Coverage, ""));
      spans := Put(spans0, (start, end), span);
    } else {
      u.Add(AddNodeLabel(existing.value, tier, name, value));
      AppendAssoc(base, st.events, [AddNodeLabel(existing.value, tier, name, value)]);
      spans, count := spans0, count0;
    }
  }

  /** The inner loop over the values of one dependent tier. */
  method MapTierSpans(u: Update, docPath: string, tier: string, tokens: TierEntries, name: string,
                      ivs: seq<Interval>, spans0: TierEntries, count0: nat,
                      ghost base: seq<Event>, ghost st0: SpanState) returns (spans: TierEntries, count: nat)
    requires u.events == base + st0.events && spans0 == st0.spans && count0 == st0.count
    modifies u
    ensures var st := SpanTier(docPath, tier, tokens, name, ivs, st0, |ivs|);
      u.events == base + st.events && spans == st.spans && count == st.count
  {
    spans, count := spans0, count0;
    var j := 0;
    while j < |ivs|
      invariant 0 <= j <= |ivs|
      invariant u.events == base + SpanTier(docPath, tier, tokens, name, ivs, st0, j).events
      invariant spans == SpanTier(docPath, tier, tokens, name, ivs, st0, j).spans
      invariant count == SpanTier(docPath, tier, tokens, name, ivs, st0, j).count
    {
      ghost var st := SpanTier(docPath, tier, tokens, name, ivs, st0, j);
      SpanTierNext(docPath, tier, tokens, name, ivs, st0, j);
      spans, count := AddSpanValue(u, docPath, tier, tokens, name, ivs[j], spans, count, base, st);
      j := j + 1;
    }
  }

  /** The span loops of one token tier: every dependent tier in turn, one span dictionary. */
  method MapSpans(u: Update, docPath: string, tier: string, tokens: TierEntries, deps: seq<string>,
                  data: TierData, count0: nat) returns (count: nat)
    modifies u
    ensures u.events == old(u.events) + SpanTiers(docPath, tier, tokens, deps, data, count0, |deps|).events
    ensures count == count0 + |DepKeys(deps, data, |deps|)|
  {
    ghost var base := u.events;
    assert u.events == base + [];
    var spans: TierEntries := [];
    count := count0;
    var i := 0;
    while i < |deps|
      invariant 0 <= i <= |deps|
      invariant var st := SpanTiers(docPath, tier, tokens, deps, data, count0, i);
        u.events == base + st.events && spans == st.spans && count == st.count
    {
      var ivs := TierIntervals(data, deps[i]);
      spans, count := MapTierSpans(u, docPath, tier, tokens, deps[i], ivs, spans, count, base,
                                   SpanTiers(docPath, tier, tokens, deps, data, count0, i));
      i := i + 1;
    }
    SpanTiersCount(docPath, tier, tokens, deps, data, count0, |deps|);
  }

  // ---------------------------------------------------------------- the ordering of a tier's tokens

  /** A key of the whole token dictionary: an empty-token window or a token of a named tier. */
  datatype TokKey = WindowKey(start: int, end: int) | TierKey(start: int, end: int, tier: string)

  type TokDict = seq<(TokKey, string)>

  function KeyStartLe(a: (TokKey, string), b: (TokKey, string)): bool
  {
    a.0.start <= b.0.start
  }

  lemma KeyStartLeTotal()
    ensures TotalPreorder(KeyStartLe)
  {
  }

  /** The dictionary entries of the empty tokens. */
  function WindowEntries(empty: TierEntries): (d: TokDict)
    ensures |d| == |empty|
    ensures forall k :: 0 <= k < |empty| ==> d[k] == (WindowKey(empty[k].0.0, empty[k].0.1), empty[k].1)
  {
    if empty == [] then []
    else WindowEntries(empty[..|empty| - 1]) + [(WindowKey(empty[|empty| - 1].0.0, empty[|empty| - 1].0.1), empty[|empty| - 1].1)]
  }

  function Tag(tier: string, e: ((int, int), string)): (TokKey, string)
  {
    (TierKey(e.0.0, e.0.1, tier), e.1)
  }

  /** The dictionary entries of one tier's tokens, keyed by (start, end, tier). */
  function TierDictEntries(tokens: TierEntries, tier: string): (d: TokDict)
    ensures |d| == |tokens|
    ensures forall k :: 0 <= k < |tokens| ==> d[k] == Tag(tier, tokens[k])
  {
    if tokens == [] then [] else TierDictEntries(tokens[..|tokens| - 1], tier) + [Tag(tier, tokens[|tokens| - 1])]
  }

  /**
   * The comprehension that picks the ids of a tier, unpacking each key into three parts, left to right: a
   * two-element window key cannot be unpacked into three names.
   */
  function TierIdsAsWritten(items: TokDict, tier: string): (r: Result<seq<string>>)
  {
    if items == [] then Ok([])
    else if items[0].0.WindowKey? then Err("not enough values to unpack (expected 3, got 2)")
    else
      match TierIdsAsWritten(items[1..], tier)
      case Err(msg) => Err(msg)
      case Ok(ids) => Ok((if items[0].0.tier == tier then [items[0].1] else []) + ids)
  }

  /** As written, any window key in the dictionary makes the comprehension fail. */
  lemma {:induction false} TierIdsAsWrittenFails(items: TokDict, tier: string, k: nat)
    requires k < |items| && items[k].0.WindowKey?
    ensures TierIdsAsWritten(items, tier).Err?
  {
    if k > 0 {
      TierIdsAsWrittenFails(items[1..], tier, k - 1);
    }
  }

  /**
   * In multi-token mode the sorted dictionary holds the empty tokens' window keys, so
   * the ordering of the first token tier always fails as written.
   */
  lemma MultiTokOrderingAsWrittenFails(empty: TierEntries, rest: TokDict, tier: string)
    requires |empty| > 0
    ensures TierIdsAsWritten(SortBy(WindowEntries(empty) + rest, KeyStartLe), tier).Err?
  {
    var all := WindowEntries(empty) + rest;
    var sorted := SortBy(all, KeyStartLe);
    SortByPermutes(all, KeyStartLe);
    assert all[0] in multiset(all);
    assert all[0] in sorted;
    var k :| 0 <= k < |sorted| && sorted[k] == all[0];
    TierIdsAsWrittenFails(sorted, tier, k);
  }

  predicate OfTier(tier: string, e: (TokKey, string))
  {
    e.0.TierKey? && e.0.tier == tier
  }

  /** The entries of the given tier, in dictionary order. */
  function FilterTier(items: TokDict, tier: string): (r: TokDict)
    ensures |r| <= |items|
  {
    if items == [] then []
    else FilterTier(items[..|items| - 1], tier) + (if OfTier(tier, items[|items| - 1]) then [items[|items| - 1]] else [])
  }

  /** The evidently intended comprehension: the ids of the tier's own entries, in the given order. */
  function TierIds(items: TokDict, tier: string): seq<string>
  {
    Values(FilterTier(items, tier))
  }

  lemma {:induction false} FilterTierMembers(items: TokDict, tier: string, e: (TokKey, string))
    ensures e in FilterTier(items, tier) <==> e in items && OfTier(tier, e)
  {
    if items != [] {
      FilterTierMembers(items[..|items| - 1], tier, e);
      assert items == items[..|items| - 1] + [items[|items| - 1]];
    }
  }

  lemma {:induction false} FilterTierAppend(a: TokDict, b: TokDict, tier: string)
    ensures FilterTier(a + b, tier) == FilterTier(a, tier) + FilterTier(b, tier)
  {
    if b == [] {
      assert a + b == a;
    } else {
      var n := |b| - 1;
      var ab := a + b;
      FilterTierAppend(a, b[..n], tier);
      assert ab[..|ab| - 1] == a + b[..n];
      assert ab[|ab| - 1] == b[n];
      ghost var last := if OfTier(tier, b[n]) then [b[n]] else [];
      assert FilterTier(ab, tier) == (FilterTier(a, tier) + FilterTier(b[..n], tier)) + last;
      assert FilterTier(b, tier) == FilterTier(b[..n], tier) + last;
    }
  }

  lemma {:induction false} FilterTierNone(items: TokDict, tier: string)
    requires forall k :: 0 <= k < |items| ==> !OfTier(tier, items[k])
    ensures FilterTier(items, tier) == []
  {
    if items != [] {
      FilterTierNone(items[..|items| - 1], tier);
    }
  }

  lemma {:induction false} FilterTierOwn(tokens: TierEntries, tier: string)
    ensures FilterTier(TierDictEntries(tokens, tier), tier) == TierDictEntries(tokens, tier)
  {
    if tokens != [] {
      var n := |tokens| - 1;
      FilterTierOwn(tokens[..n], tier);
      assert TierDictEntries(tokens, tier)[..n] == TierDictEntries(tokens[..n], tier);
    }
  }

  /** Inserting an element that goes last commutes with keeping one tier's entries. */
  lemma InsertByFilterTierLast(s: TokDict, x: (TokKey, string), tier: string)
    requires SortedBy(s, KeyStartLe) && s != [] && KeyStartLe(s[|s| - 1], x)
    ensures FilterTier(InsertBy(s, x, KeyStartLe), tier)
      == if OfTier(tier, x) then InsertBy(FilterTier(s, tier), x, KeyStartLe) else FilterTier(s, tier)
  {
    var n := |s| - 1;
    assert (s + [x])[..|s|] == s;
    var f := FilterTier(s, tier);
    if f != [] {
      var e := f[|f| - 1];
      FilterTierMembers(s, tier, e);
      var m :| 0 <= m < |s| && s[m] == e;
      assert KeyStartLe(s[m], s[n]) || m == n;
    }
  }

  /** Inserting into a sorted sequence and then filtering is filtering and then inserting. */
  lemma {:induction false} InsertByFilterTier(s: TokDict, x: (TokKey, string), tier: string)
    requires SortedBy(s, KeyStartLe)
    ensures FilterTier(InsertBy(s, x, KeyStartLe), tier)
      == if OfTier(tier, x) then InsertBy(FilterTier(s, tier), x, KeyStartLe) else FilterTier(s, tier)
  {
    if s == [] {
      assert [x][..0] == [];
    } else if KeyStartLe(s[|s| - 1], x) {
      InsertByFilterTierLast(s, x, tier);
    } else {
      var n := |s| - 1;
      var init := s[..n];
      ghost var last := if OfTier(tier, s[n]) then [s[n]] else [];
      assert FilterTier(s, tier) == FilterTier(init, tier) + last;
      var ins := InsertBy(init, x, KeyStartLe);
      assert InsertBy(s, x, KeyStartLe) == ins + [s[n]];
      assert (ins + [s[n]])[..|ins|] == ins;
      assert FilterTier(ins + [s[n]], tier) == FilterTier(ins, tier) + last;
      assert SortedBy(init, KeyStartLe) by {
        forall a, b | 0 <= a < b < |init| ensures KeyStartLe(init[a], init[b]) {
          assert init[a] == s[a] && init[b] == s[b];
        }
      }
      InsertByFilterTier(init, x, tier);
      var fi := FilterTier(init, tier);
      var fx := FilterTier(ins, tier);
      if OfTier(tier, x) && OfTier(tier, s[n]) {
        assert InsertBy(fi + [s[n]], x, KeyStartLe) == InsertBy(fi, x, KeyStartLe) + [s[n]] by {
          assert (fi + [s[n]])[..|fi|] == fi;
        }
      } else if !OfTier(tier, s[n]) {
        assert fx + last == fx && fi + last == fi;
      }
    }
  }

  /** Stable sorting by start commutes with keeping one tier's entries. */
  lemma {:induction false} SortByFilterTier(s: TokDict, tier: string)
    ensures FilterTier(SortBy(s, KeyStartLe), tier) == SortBy(FilterTier(s, tier), KeyStartLe)
  {
    if s != [] {
      var n := |s| - 1;
      var init := s[..n];
      KeyStartLeTotal();
      SortBySorted(init, KeyStartLe);
      InsertByFilterTier(SortBy(init, KeyStartLe), s[n], tier);
      SortByFilterTier(init, tier);
      var f := FilterTier(init, tier);
      ghost var last := if OfTier(tier, s[n]) then [s[n]] else [];
      assert FilterTier(s, tier) == f + last;
      if OfTier(tier, s[n]) {
        assert (f + [s[n]])[..|f|] == f;
      } else {
        assert f + last == f;
      }
    }
  }

  lemma {:induction false} InsertByTag(s: TierEntries, x: ((int, int), string), tier: string)
    ensures TierDictEntries(InsertBy(s, x, StartLe), tier)
      == InsertBy(TierDictEntries(s, tier), Tag(tier, x), KeyStartLe)
  {
    if s != [] {
      var n := |s| - 1;
      if StartLe(s[n], x) {
        assert (s + [x])[..|s|] == s;
      } else {
        var ins := InsertBy(s[..n], x, StartLe);
        assert (ins + [s[n]])[..|ins|] == ins;
        InsertByTag(s[..n], x, tier);
        assert TierDictEntries(s, tier)[..n] == TierDictEntries(s[..n], tier);
      }
    } else {
      assert [x][..0] == [];
    }
  }

  /** Tagging the entries with their tier and sorting by start commute. */
  lemma {:induction false} SortByTag(s: TierEntries, tier: string)
    ensures TierDictEntries(SortBy(s, StartLe), tier) == SortBy(TierDictEntries(s, tier), KeyStartLe)
  {
    if s != [] {
      var n := |s| - 1;
      SortByTag(s[..n], tier);
      InsertByTag(SortBy(s[..n], StartLe), s[n], tier);
      assert TierDictEntries(s, tier)[..n] == TierDictEntries(s[..n], tier);
    }
  }

  /**
   * The intended ordering of a tier, the tier's own entries of the whole sorted
   * dictionary, is the tier's tokens sorted by start: entries of other tiers and of the
   * empty tokens do not change it.
   */
  lemma TierIdsOfTier(prior: TokDict, tokens: TierEntries, tier: string)
    requires forall k :: 0 <= k < |prior| ==> !OfTier(tier, prior[k])
    ensures TierIds(SortBy(prior + TierDictEntries(tokens, tier), KeyStartLe), tier) == IdsByStart(tokens)
  {
    var own := TierDictEntries(tokens, tier);
    OwnFilterTier(prior, tokens, tier);
    SortByFilterTier(prior + own, tier);
    SortByTag(tokens, tier);
    TagValues(SortBy(tokens, StartLe), tier);
  }

  /** Keeping one tier's entries of other entries and that tier's own leaves just its own. */
  lemma OwnFilterTier(prior: TokDict, tokens: TierEntries, tier: string)
    requires forall k :: 0 <= k < |prior| ==> !OfTier(tier, prior[k])
    ensures FilterTier(prior + TierDictEntries(tokens, tier), tier) == TierDictEntries(tokens, tier)
  {
    var own := TierDictEntries(tokens, tier);
    FilterTierAppend(prior, own, tier);
    FilterTierNone(prior, tier);
    FilterTierOwn(tokens, tier);
    assert [] + own == own;
  }

  /** Tagging keeps the token ids. */
  lemma TagValues(tokens: TierEntries, tier: string)
    ensures Values(TierDictEntries(tokens, tier)) == Values(tokens)
  {
  }

  // ---------------------------------------------------------------- document

  /** One token tier: its tokens, their ordering chain named after the tier, then its spans. */
  function TierEvents(docPath: string, tier: string, deps: seq<string>, data: TierData, empty: TierEntries,
                      multiTok: bool, firstId: nat, spans0: nat): seq<Event>
  {
    var ivs := TierIntervals(data, tier);
    var tokens := TierTokenEntries(docPath, ivs, firstId, |ivs|);
    TierTokenEvents(docPath, tier, ivs, firstId, empty, multiTok, |ivs|)
    + Chain(IdsByStart(tokens), AnnisNs, Ordering, tier)
    + SpanTiers(docPath, tier, tokens, deps, data, spans0, |deps|).events
  }

  /** The number of the first token of token tier t: the numbers run on from tier to tier. */
  function NextToken(tierMap: TierMap, data: TierData, firstId: nat, t: nat): nat
    requires t <= |tierMap|
  {
    if t == 0 then firstId else NextToken(tierMap, data, firstId, t - 1) + |TierIntervals(data, tierMap[t - 1].0)|
  }

  /** The last span number after the first t token tiers: one number per distinct interval of each tier's dependents. */
  function SpanCount(tierMap: TierMap, data: TierData, t: nat): nat
    requires t <= |tierMap|
  {
    if t == 0 then 0 else SpanCount(tierMap, data, t - 1) + |DepKeys(tierMap[t - 1].1, data, |tierMap[t - 1].1|)|
  }

  /** The events of each token tier, numbered as the loop over the tiers numbers them. */
  function TierBlocks(docPath: string, tierMap: TierMap, data: TierData, empty: TierEntries, multiTok: bool,
                      firstId: nat): (bs: seq<seq<Event>>)
    ensures |bs| == |tierMap|
  {
    seq(|tierMap|, t requires 0 <= t < |tierMap| =>
      TierEvents(docPath, tierMap[t].0, tierMap[t].1, data, empty, multiTok,
                 NextToken(tierMap, data, firstId, t), SpanCount(tierMap, data, t)))
  }

  /** Block t of a sequence of blocks, named so that the quantifier below triggers on it alone. */
  function BlockAt(blocks: seq<seq<Event>>, t: nat): seq<Event>
    requires t < |blocks|
  {
    blocks[t]
  }

  /** `blocks` holds the events of each token tier, numbered as `TierBlocks` numbers them. */
  predicate AreTierBlocks(blocks: seq<seq<Event>>, docPath: string, tierMap: TierMap, data: TierData,
                          empty: TierEntries, multiTok: bool, firstId: nat)
  {
    |blocks| == |tierMap|
    && forall s {:trigger BlockAt(blocks, s)} :: 0 <= s < |tierMap| ==>
      BlockAt(blocks, s) == TierEvents(docPath, tierMap[s].0, tierMap[s].1, data, empty, multiTok,
                                       NextToken(tierMap, data, firstId, s), SpanCount(tierMap, data, s))
  }

  lemma TierBlocksAre(docPath: string, tierMap: TierMap, data: TierData, empty: TierEntries, multiTok: bool, firstId: nat)
    ensures AreTierBlocks(TierBlocks(docPath, tierMap, data, empty, multiTok, firstId), docPath, tierMap, data, empty, multiTok, firstId)
  {
  }

  /** Token numbers only grow: the tokens of tier s come before those of tier t for s < t. */
  lemma {:induction false} NextTokenGrows(tierMap: TierMap, data: TierData, firstId: nat, s: nat, t: nat)
    requires s < t <= |tierMap|
    ensures NextToken(tierMap, data, firstId, s) + |TierIntervals(data, tierMap[s].0)| <= NextToken(tierMap, data, firstId, t)
    decreases t
  {
    if s < t - 1 {
      NextTokenGrows(tierMap, data, firstId, s, t - 1);
    }
  }

  /** The tokens of two different token tiers never share an id. */
  lemma TierTokenIdsDistinct(docPath: string, tierMap: TierMap, data: TierData, firstId: nat, s: nat, t: nat, a: nat, b: nat)
    requires s < t < |tierMap|
    requires a < |TierIntervals(data, tierMap[s].0)| && b < |TierIntervals(data, tierMap[t].0)|
    ensures TokenId(docPath, NextToken(tierMap, data, firstId, s) + a) != TokenId(docPath, NextToken(tierMap, data, firstId, t) + b)
  {
    NextTokenGrows(tierMap, data, firstId, s, t);
    IdsInjective(docPath, NextToken(tierMap, data, firstId, s) + a, NextToken(tierMap, data, firstId, t) + b);
  }

  predicate TokenTiersWellOrdered(tierMap: TierMap, data: TierData)
  {
    forall t :: 0 <= t < |tierMap| ==> WellOrdered(TierIntervals(data, tierMap[t].0))
  }

  /** One iteration of the loop over the token tiers. */
  method MapTier(u: Update, docPath: string, tier: string, deps: seq<string>, data: TierData, empty: TierEntries,
                 multiTok: bool, firstId: nat, spans0: nat) returns (r: Result<nat>)
    modifies u
    ensures r.Ok? <==> WellOrdered(TierIntervals(data, tier))
    ensures r.Ok? ==> r.value == spans0 + |DepKeys(deps, data, |deps|)|
    ensures r.Ok? ==> u.events == old(u.events) + TierEvents(docPath, tier, deps, data, empty, multiTok, firstId, spans0)
  {
    var ivs := TierIntervals(data, tier);
    var tokens := MapTierTokens(u, docPath, tier, ivs, firstId, empty, multiTok);
    if tokens.Err? {
      return Err(tokens.msg);
    }
    var allTokens := IdsByStart(tokens.value);
    AddOrderRelations(u, allTokens, tier);
    var count := MapSpans(u, docPath, tier, tokens.value, deps, data, spans0);
    ghost var tt := TierTokenEvents(docPath, tier, ivs, firstId, empty, multiTok, |ivs|);
    ghost var ch := Chain(allTokens, AnnisNs, Ordering, tier);
    AppendAssoc(old(u.events), tt, ch);
    AppendAssoc(old(u.events), tt + ch, SpanTiers(docPath, tier, tokens.value, deps, data, spans0, |deps|).events);
    return Ok(count);
  }

  /** Multi-token mode is used iff there is more than one token tier or it is forced. */
  function IsMultiTok(tierMap: TierMap, force: bool): bool
  {
    |tierMap| > 1 || force
  }

  function DocumentEvents(docPath: string, tierMap: TierMap, data: TierData, force: bool): seq<Event>
  {
    var multiTok := IsMultiTok(tierMap, force);
    var tl := if multiTok then Timeline(tierMap, data) else [];
    var ws := Windows(tl);
    var empty := EmptyEntries(docPath, ws, |ws|);
    (if multiTok then TimelineEvents(docPath, tl) else [])
    + Concat(TierBlocks(docPath, tierMap, data, empty, multiTok, FirstTierTokenId(multiTok, |empty|)), |tierMap|)
  }

  /** One iteration of the loop over the token tiers: tier t's events are block t. */
  method MapTierAt(u: Update, docPath: string, tierMap: TierMap, data: TierData, empty: TierEntries,
                   multiTok: bool, firstId: nat, t: nat, tc: nat, spc: nat,
                   ghost start: seq<Event>, ghost blocks: seq<seq<Event>>) returns (r: Result<(nat, nat)>)
    requires AreTierBlocks(blocks, docPath, tierMap, data, empty, multiTok, firstId)
    requires t < |tierMap| && tc == NextToken(tierMap, data, firstId, t) && spc == SpanCount(tierMap, data, t)
    requires u.events == start + Concat(blocks, t)
    modifies u
    ensures r.Ok? <==> WellOrdered(TierIntervals(data, tierMap[t].0))
    ensures r.Ok? ==> r.value.0 == NextToken(tierMap, data, firstId, t + 1)
    ensures r.Ok? ==> r.value.1 == SpanCount(tierMap, data, t + 1)
    ensures r.Ok? ==> u.events == start + Concat(blocks, t + 1)
  {
    var tier := tierMap[t].0;
    var deps := tierMap[t].1;
    var res := MapTier(u, docPath, tier, deps, data, empty, multiTok, tc, spc);
    if res.Err? {
      return Err(res.msg);
    }
    assert blocks[t] == BlockAt(blocks, t) == TierEvents(docPath, tier, deps, data, empty, multiTok, tc, spc);
    AppendAssoc(start, Concat(blocks, t), blocks[t]);
    return Ok((tc + |TierIntervals(data, tier)|, res.value));
  }

  /** The loop over the token tiers: token numbers and span numbers run on from tier to tier. */
  method MapTokenTiers(u: Update, docPath: string, tierMap: TierMap, data: TierData, empty: TierEntries,
                       multiTok: bool, firstId: nat, ghost blocks: seq<seq<Event>>) returns (r: Result<()>)
    requires AreTierBlocks(blocks, docPath, tierMap, data, empty, multiTok, firstId)
    modifies u
    ensures r.Ok? <==> TokenTiersWellOrdered(tierMap, data)
    ensures r.Ok? ==> u.events == old(u.events) + Concat(blocks, |tierMap|)
  {
    ghost var start := u.events;
    assert u.events == start + [];
    var tc := firstId;
    var spc := 0;
    var t := 0;
    while t < |tierMap|
      invariant 0 <= t <= |tierMap|
      invariant forall s :: 0 <= s < t ==> WellOrdered(TierIntervals(data, tierMap[s].0))
      invariant u.events == start + Concat(blocks, t)
      invariant tc == NextToken(tierMap, data, firstId, t) && spc == SpanCount(tierMap, data, t)
    {
      var res := MapTierAt(u, docPath, tierMap, data, empty, multiTok, firstId, t, tc, spc, start, blocks);
      if res.Err? {
        return Err(res.msg);
      }
      ghost var ordered := TierIntervals(data, tierMap[t].0);
      assert WellOrdered(ordered);
      tc, spc := res.value.0, res.value.1;
      t := t + 1;
    }
    return Ok(());
  }

  /** `map_document` on parsed tier data; fails iff some token-tier interval has start >= end. */
  method MapDocument(u: Update, docPath: string, tierMap: TierMap, data: TierData, force: bool) returns (r: Result<()>)
    modifies u
    ensures r.Ok? <==> TokenTiersWellOrdered(tierMap, data)
    ensures r.Ok? ==> u.events == old(u.events) + DocumentEvents(docPath, tierMap, data, force)
  {
    var multiTok := |tierMap| > 1 || force;
    var empty: TierEntries := [];
    var tl: seq<int> := [];
    if multiTok {
      tl := Timeline(tierMap, data);
      TimelineProperties(tierMap, data);
      empty := MapTimeline(u, docPath, tl);
    }
    ghost var start := u.events;
    ghost var prefix := if multiTok then TimelineEvents(docPath, tl) else [];
    assert start == old(u.events) + prefix;
    var firstId := FirstTierTokenId(multiTok, |empty|);
    ghost var blocks := TierBlocks(docPath, tierMap, data, empty, multiTok, firstId);
    TierBlocksAre(docPath, tierMap, data, empty, multiTok, firstId);
    r := MapTokenTiers(u, docPath, tierMap, data, empty, multiTok, firstId, blocks);
    if r.Ok? {
      AppendAssoc(old(u.events), prefix, Concat(blocks, |tierMap|));
    }
  }

  /** As written, the tier names are collected into a set of lists, which cannot be hashed. */
  function TierNamesAsWritten(tierMap: TierMap): (r: Result<set<seq<string>>>)
  {
    if tierMap == [] then Ok({}) else Err("unhashable type: 'list'")
  }

  /** As written, collecting the tier names fails for every non-empty configuration. */
  lemma TierNamesAsWrittenFails(tierMap: TierMap)
    requires |tierMap| > 0
    ensures TierNamesAsWritten(tierMap).Err?
  {
  }

  /** Every configured tier contributes its boundaries to the timeline. */
  lemma {:induction false} TierNamesComplete(tierMap: TierMap, t: nat)
    requires t < |tierMap|
    ensures tierMap[t].0 in TierNames(tierMap)
    ensures forall d :: d in tierMap[t].1 ==> d in TierNames(tierMap)
  {
    if t < |tierMap| - 1 {
      TierNamesComplete(tierMap[..|tierMap| - 1], t);
      assert tierMap[..|tierMap| - 1][t] == tierMap[t];
    }
  }
}
