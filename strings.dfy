/** Text helpers used by the importers: decimal rendering, trimming, splitting and search. */
module Strings {
  import opened Wrappers

  function DigitChar(d: nat): char
    requires d < 10
  {
    (48 + d) as char
  }

  predicate IsDigitString(s: string)
  {
    forall i :: 0 <= i < |s| ==> '0' <= s[i] <= '9'
  }

  /** Decimal rendering of a natural number, as Python's `str` and Rust's `format!`. */
  function NatToString(n: nat): (s: string)
    ensures |s| > 0 && IsDigitString(s)
    ensures n < 10 <==> |s| == 1
  {
    if n < 10 then [DigitChar(n)] else NatToString(n / 10) + [DigitChar(n % 10)]
  }

  /** Distinct numbers have distinct renderings, so numbered ids never collide. */
  lemma {:induction false} NatToStringInjective(a: nat, b: nat)
    requires NatToString(a) == NatToString(b)
    ensures a == b
  {
    if a >= 10 && b >= 10 {
      var sa, sb := NatToString(a), NatToString(b);
      assert sa[|sa| - 1] == sb[|sb| - 1];
      assert a % 10 == b % 10;
      assert sa[..|sa| - 1] == NatToString(a / 10);
      assert sb[..|sb| - 1] == NatToString(b / 10);
      NatToStringInjective(a / 10, b / 10);
    }
  }

  /** Decimal rendering of an integer with a leading '-' for negative values. */
  function IntToString(i: int): (s: string)
    ensures |s| > 0
  {
    if i < 0 then "-" + NatToString(-i) else NatToString(i)
  }

  lemma IntToStringInjective(a: int, b: int)
    requires IntToString(a) == IntToString(b)
    ensures a == b
  {
    assert IntToString(a)[0] == '-' <==> a < 0;
    assert IntToString(b)[0] == '-' <==> b < 0;
    if a < 0 {
      assert IntToString(a)[1..] == NatToString(-a);
      assert IntToString(b)[1..] == NatToString(-b);
      NatToStringInjective(-a, -b);
    } else {
      NatToStringInjective(a, b);
    }
  }

  function DigitsValue(s: string): nat
    requires IsDigitString(s)
  {
    if s == [] then 0 else DigitsValue(s[..|s| - 1]) * 10 + (s[|s| - 1] as int - 48)
  }

  /** Python's `int(s)` on an already stripped string: an optional sign and at least one digit. */
  function ParseInt(s: string): (r: Result<int>)
    ensures r.Ok? ==> |s| > 0
  {
    if |s| > 0 && (s[0] == '-' || s[0] == '+') then
      if |s| > 1 && IsDigitString(s[1..]) then
        Ok(if s[0] == '-' then 0 - DigitsValue(s[1..]) else DigitsValue(s[1..]))
      else Err("invalid literal for int()")
    else if |s| > 0 && IsDigitString(s) then Ok(DigitsValue(s))
    else Err("invalid literal for int()")
  }

  /** The text after one leading sign character, if there is one. */
  function Unsigned(s: string): string
  {
    if |s| > 0 && (s[0] == '-' || s[0] == '+') then s[1..] else s
  }

  /** The position of the first exponent mark `e` or `E`, or the length when there is none. */
  function ExponentMark(s: string): (r: nat)
    ensures r <= |s|
    ensures r < |s| ==> s[r] == 'e' || s[r] == 'E'
  {
    if s == [] then 0 else if s[0] == 'e' || s[0] == 'E' then 0 else 1 + ExponentMark(s[1..])
  }

  lemma {:induction false} ExponentMarkNone(s: string)
    requires forall i :: 0 <= i < |s| ==> s[i] != 'e' && s[i] != 'E'
    ensures ExponentMark(s) == |s|
  {
    if s != [] {
      ExponentMarkNone(s[1..]);
    }
  }

  /** Digits with at most one '.' and at least one digit, such as `12`, `1.5`, `1.` or `.5`. */
  predicate IsMantissa(m: string)
  {
    match Find(m, ".")
    case None => |m| > 0 && IsDigitString(m)
    case Some(d) => |m| > 1 && IsDigitString(m[..d]) && IsDigitString(m[d + 1..])
  }

  /**
   * The decimal literals Python's `float()` reads: an optional sign, a mantissa and an
   * optional exponent, `e` or `E` followed by an optionally signed digit string.
   */
  predicate IsFloatLiteral(s: string)
  {
    var b := Unsigned(s);
    var e := ExponentMark(b);
    IsMantissa(b[..e]) && (e == |b| || (|Unsigned(b[e + 1..])| > 0 && IsDigitString(Unsigned(b[e + 1..]))))
  }

  /** Two digit strings around a '.' make a float literal whose '.' is the first. */
  lemma DigitsDotDigits(da: string, db: string)
    requires |da| > 0 && IsDigitString(da) && IsDigitString(db)
    ensures IsFloatLiteral(da + "." + db) && '.' in da + "." + db
  {
    var s := da + "." + db;
    assert s[|da|] == '.';
    NoExponentInDigits(da, db);
    assert Unsigned(s) == s;
    assert s[..|s|] == s;
    FindDot(da, db);
    assert s[..|da|] == da;
    assert s[|da| + 1..] == db;
  }

  lemma NoExponentInDigits(da: string, db: string)
    requires IsDigitString(da) && IsDigitString(db)
    ensures ExponentMark(da + "." + db) == |da + "." + db|
  {
    var s := da + "." + db;
    forall i | 0 <= i < |s| ensures s[i] != 'e' && s[i] != 'E' {
      if i < |da| { assert s[i] == da[i]; } else if i > |da| { assert s[i] == db[i - |da| - 1]; }
    }
    ExponentMarkNone(s);
  }

  lemma FindDot(da: string, db: string)
    requires IsDigitString(da)
    ensures Find(da + "." + db, ".") == Some(|da|)
  {
    var s := da + "." + db;
    assert OccursAt(s, ".", |da|) by {
      assert s[|da|..|da| + 1] == ".";
    }
    forall j: nat | j < |da| ensures !OccursAt(s, ".", j) {
      assert s[j] == da[j];
    }
  }

  lemma {:induction false} DigitsValueOfNat(n: nat)
    ensures DigitsValue(NatToString(n)) == n
  {
    if n >= 10 {
      var s := NatToString(n);
      assert s[..|s| - 1] == NatToString(n / 10);
      DigitsValueOfNat(n / 10);
    }
  }

  /** The ASCII whitespace characters recognised by `str.strip` and `str::trim`. */
  predicate IsSpace(c: char)
  {
    c == ' ' || c == '\t' || c == '\n' || c == '\r'
  }

  /** Leading whitespace removed. */
  function TrimStart(s: string): string
  {
    if |s| > 0 && IsSpace(s[0]) then TrimStart(s[1..]) else s
  }

  /** `TrimStart` drops a run of whitespace from the front and stops at the first other character. */
  lemma {:induction false} TrimStartShape(s: string)
    ensures var r := TrimStart(s);
      && |r| <= |s| && r == s[|s| - |r|..]
      && (forall i :: 0 <= i < |s| - |r| ==> IsSpace(s[i]))
      && (|r| > 0 ==> !IsSpace(r[0]))
  {
    if |s| > 0 && IsSpace(s[0]) {
      TrimStartShape(s[1..]);
    }
  }

  /** The index of the first character at or after `i` that is not whitespace, or `|s|`. */
  function FirstVisible(s: string, i: nat): (r: nat)
    requires i <= |s|
    ensures i <= r <= |s|
    decreases |s| - i
  {
    if i < |s| && IsSpace(s[i]) then FirstVisible(s, i + 1) else i
  }

  /** The index just after the last character before `j` and at or after `lo` that is not whitespace, or `lo`. */
  function EndVisible(s: string, lo: nat, j: nat): (r: nat)
    requires lo <= j <= |s|
    ensures lo <= r <= j
  {
    if j > lo && IsSpace(s[j - 1]) then EndVisible(s, lo, j - 1) else j
  }

  /** Python's `str.strip()` and Rust's `str::trim()` on ASCII whitespace. */
  function Trim(s: string): string
  {
    var lo := FirstVisible(s, 0);
    s[lo..EndVisible(s, lo, |s|)]
  }

  /** Every character is whitespace. */
  predicate IsBlank(s: string)
  {
    forall i :: 0 <= i < |s| ==> IsSpace(s[i])
  }

  lemma {:induction false} FirstVisibleSpaces(s: string, i: nat)
    requires i <= |s|
    ensures forall j :: i <= j < FirstVisible(s, i) ==> IsSpace(s[j])
    ensures FirstVisible(s, i) < |s| ==> !IsSpace(s[FirstVisible(s, i)])
    decreases |s| - i
  {
    if i < |s| && IsSpace(s[i]) {
      FirstVisibleSpaces(s, i + 1);
    }
  }

  lemma {:induction false} EndVisibleSpaces(s: string, lo: nat, j: nat)
    requires lo <= j <= |s|
    ensures forall m :: EndVisible(s, lo, j) <= m < j ==> IsSpace(s[m])
    ensures EndVisible(s, lo, j) > lo ==> !IsSpace(s[EndVisible(s, lo, j) - 1])
  {
    if j > lo && IsSpace(s[j - 1]) {
      EndVisibleSpaces(s, lo, j - 1);
    }
  }

  /** Trimming leaves nothing exactly when every character is whitespace. */
  lemma TrimEmptyIffBlank(s: string)
    ensures Trim(s) == [] <==> IsBlank(s)
  {
    var lo := FirstVisible(s, 0);
    FirstVisibleSpaces(s, 0);
    EndVisibleSpaces(s, lo, |s|);
  }

  /** Lower-casing one character; only the ASCII capitals change. */
  function LowerChar(c: char): char
  {
    if 'A' <= c <= 'Z' then (c as int + 32) as char else c
  }

  /** `to_lowercase` / `str.lower()` on ASCII letters. */
  function ToLower(s: string): (r: string)
    ensures |r| == |s| && forall i :: 0 <= i < |s| ==> r[i] == LowerChar(s[i])
  {
    seq(|s|, i requires 0 <= i < |s| => LowerChar(s[i]))
  }

  /** `sep.join(parts)`. */
  function Join(parts: seq<string>, sep: string): string
  {
    if |parts| == 0 then ""
    else if |parts| == 1 then parts[0]
    else parts[0] + sep + Join(parts[1..], sep)
  }

  /** Joining two non-empty lists is joining each and putting one separator between. */
  lemma {:induction false} JoinConcat(a: seq<string>, b: seq<string>, sep: string)
    requires a != [] && b != []
    ensures Join(a + b, sep) == Join(a, sep) + sep + Join(b, sep)
  {
    if |a| > 1 {
      assert (a + b)[1..] == a[1..] + b;
      JoinConcat(a[1..], b, sep);
    }
  }

  /** Python's `s.split(c)` and Rust's `s.split(c)`: the pieces between occurrences of `c`. */
  function Split(s: string, c: char): (parts: seq<string>)
    ensures |parts| > 0
    ensures forall k :: 0 <= k < |parts| ==> c !in parts[k]
  {
    if s == [] then [""]
    else
      var rest := Split(s[1..], c);
      if s[0] == c then [""] + rest else [[s[0]] + rest[0]] + rest[1..]
  }

  /** Splitting at `c` undoes joining with `c` when no part contains `c`. */
  lemma {:induction false} SplitJoin(parts: seq<string>, c: char)
    requires forall i :: 0 <= i < |parts| ==> c !in parts[i]
    ensures Split(Join(parts, [c]), c) == if parts == [] then [""] else parts
  {
    if |parts| >= 2 {
      SplitJoin(parts[1..], c);
      SplitPrefix(parts[0], c, Join(parts[1..], [c]));
      assert parts == [parts[0]] + parts[1..];
    } else if |parts| == 1 {
      SplitNone(parts[0], c);
    } else {
      SplitNone("", c);
    }
  }

  lemma {:induction false} SplitNone(s: string, c: char)
    requires c !in s
    ensures Split(s, c) == [s]
  {
    if s != [] {
      assert s[0] in s;
      assert forall x :: x in s[1..] ==> x in s;
      SplitNone(s[1..], c);
      assert [s[0]] + s[1..] == s;
    }
  }

  lemma {:induction false} SplitPrefix(a: string, c: char, rest: string)
    requires c !in a
    ensures Split(a + [c] + rest, c) == [a] + Split(rest, c)
  {
    if a == [] {
      assert a + [c] + rest == [c] + rest;
      assert ([c] + rest)[1..] == rest;
    } else {
      assert (a + [c] + rest)[0] == a[0];
      assert (a + [c] + rest)[1..] == a[1..] + [c] + rest;
      assert forall x :: x in a[1..] ==> x in a;
      assert a[0] in a;
      SplitPrefix(a[1..], c, rest);
      var r := Split(a[1..] + [c] + rest, c);
      assert r[0] == a[1..] && r[1..] == Split(rest, c);
      assert a == [a[0]] + a[1..];
    }
  }

  /** Splitting then joining with the same separator gives back the input. */
  lemma {:induction false} JoinSplit(s: string, c: char)
    ensures Join(Split(s, c), [c]) == s
  {
    if s != [] {
      var rest := Split(s[1..], c);
      JoinSplit(s[1..], c);
      if s[0] != c {
        if |rest| == 1 {
          assert Split(s, c) == [[s[0]] + rest[0]];
        } else {
          assert Split(s, c)[1..] == rest[1..];
          assert Join(rest, [c]) == rest[0] + [c] + Join(rest[1..], [c]);
        }
      } else {
        assert Split(s, c)[1..] == rest;
      }
    }
  }

  /** The number of pieces is one more than the number of separators. */
  lemma {:induction false} SplitCount(s: string, c: char)
    ensures |Split(s, c)| == 1 + multiset(s)[c]
  {
    if s != [] {
      SplitCount(s[1..], c);
      assert s == [s[0]] + s[1..];
      assert multiset(s) == multiset([s[0]]) + multiset(s[1..]);
    }
  }

  predicate OccursAt(s: string, pat: string, i: nat)
  {
    i + |pat| <= |s| && s[i..i + |pat|] == pat
  }

  lemma OccursShift(s: string, pat: string)
    requires |s| > 0
    ensures forall j: nat :: OccursAt(s[1..], pat, j) == OccursAt(s, pat, j + 1)
  {
    forall j: nat ensures OccursAt(s[1..], pat, j) == OccursAt(s, pat, j + 1) {
      if j + 1 + |pat| <= |s| {
        assert s[1..][j..j + |pat|] == s[j + 1..j + 1 + |pat|];
      }
    }
  }

  /** The first position at which `pat` occurs in `s`, as `str::find`. */
  function Find(s: string, pat: string): (r: Option<nat>)
    ensures r.Some? ==> OccursAt(s, pat, r.value)
    ensures r.Some? ==> forall j: nat :: j < r.value ==> !OccursAt(s, pat, j)
    ensures r.None? ==> forall j: nat :: !OccursAt(s, pat, j)
  {
    if |s| < |pat| then None
    else if pat <= s then
      assert s[0..|pat|] == pat;
      Some(0)
    else
      match Find(s[1..], pat)
      case None =>
        OccursShift(s, pat);
        assert !OccursAt(s, pat, 0);
        assert forall j: nat :: j > 0 ==> OccursAt(s, pat, j) == OccursAt(s[1..], pat, j - 1);
        None
      case Some(k) =>
        OccursShift(s, pat);
        assert !OccursAt(s, pat, 0);
        assert forall j: nat :: j > 0 ==> OccursAt(s, pat, j) == OccursAt(s[1..], pat, j - 1);
        Some(k + 1)
  }

  /** Rust's `split_once` and Python's `split(sep, 1)`: the text before and after the first `sep`. */
  function SplitOnce(s: string, sep: string): (r: Option<(string, string)>)
    requires |sep| > 0
    ensures r.Some? ==> r.value.0 + sep + r.value.1 == s
    ensures r.Some? ==> forall j: nat :: j < |r.value.0| ==> !OccursAt(s, sep, j)
    ensures r.None? <==> forall j: nat :: !OccursAt(s, sep, j)
  {
    match Find(s, sep)
    case None => None
    case Some(i) =>
      assert s[..i] + sep + s[i + |sep|..] == s[..i] + s[i..i + |sep|] + s[i + |sep|..];
      assert s[..i] + s[i..i + |sep|] + s[i + |sep|..] == s;
      Some((s[..i], s[i + |sep|..]))
  }

  /** The last position of `c` in `s`, as `str::rfind`. */
  function LastIndexOf(s: string, c: char): (r: Option<nat>)
    ensures r.Some? ==> r.value < |s| && s[r.value] == c && c !in s[r.value + 1..]
    ensures r.None? <==> c !in s
  {
    if s == [] then None
    else if s[|s| - 1] == c then Some(|s| - 1)
    else
      assert s == s[..|s| - 1] + [s[|s| - 1]];
      match LastIndexOf(s[..|s| - 1], c)
      case None => None
      case Some(k) =>
        assert s[k + 1..] == s[..|s| - 1][k + 1..] + [s[|s| - 1]];
        Some(k)
  }

  /** Python's `str.replace(pat, rep)` and Rust's `str::replace`: left-to-right, non-overlapping. */
  function ReplaceAll(s: string, pat: string, rep: string): string
    requires |pat| > 0
  {
    if |s| == 0 then s
    else if pat <= s then rep + ReplaceAll(s[|pat|..], pat, rep)
    else [s[0]] + ReplaceAll(s[1..], pat, rep)
  }

  /** A one-character pattern occurs nowhere in a text without that character. */
  lemma CharAbsent(s: string, c: char)
    requires c !in s
    ensures forall j: nat :: !OccursAt(s, [c], j)
  {
    forall j: nat
      ensures !OccursAt(s, [c], j)
    {
      if j + 1 <= |s| {
        assert s[j..j + 1] == [s[j]];
        assert s[j] in s;
      }
    }
  }

  /** Replacing every `c` by another character leaves no `c`. */
  lemma {:induction false} ReplaceCharGone(s: string, c: char, d: char)
    requires c != d
    ensures c !in ReplaceAll(s, [c], [d])
    decreases |s|
  {
    if |s| > 0 {
      ReplaceCharGone(s[1..], c, d);
      if !([c] <= s) {
        assert s[0] != c by { assert s[..1] == [s[0]]; }
      }
    }
  }

  lemma {:induction false} ReplaceAllAbsent(s: string, pat: string, rep: string)
    requires |pat| > 0
    requires forall j: nat :: !OccursAt(s, pat, j)
    ensures ReplaceAll(s, pat, rep) == s
  {
    if |s| > 0 {
      assert !OccursAt(s, pat, 0);
      assert !(pat <= s);
      OccursShift(s, pat);
      ReplaceAllAbsent(s[1..], pat, rep);
    }
  }

  /** A prefix in which no occurrence of the pattern starts is copied unchanged. */
  lemma {:induction false} ReplaceAllPrefix(a: string, t: string, pat: string, rep: string)
    requires |pat| > 0
    requires forall j: nat :: j < |a| ==> !OccursAt(a + t, pat, j)
    ensures ReplaceAll(a + t, pat, rep) == a + ReplaceAll(t, pat, rep)
    decreases |a|
  {
    if |a| > 0 {
      var s := a + t;
      assert !OccursAt(s, pat, 0);
      assert !(pat <= s);
      OccursShift(s, pat);
      assert s[1..] == a[1..] + t;
      forall j: nat | j < |a[1..]| ensures !OccursAt(a[1..] + t, pat, j) {
        assert !OccursAt(s, pat, j + 1);
      }
      ReplaceAllPrefix(a[1..], t, pat, rep);
      calc {
        ReplaceAll(s, pat, rep);
        [s[0]] + ReplaceAll(s[1..], pat, rep);
        [a[0]] + (a[1..] + ReplaceAll(t, pat, rep));
        { assert [a[0]] + a[1..] == a; }
        a + ReplaceAll(t, pat, rep);
      }
    } else {
      assert a + t == t;
    }
  }

  /** Everything before the first occurrence is copied, the occurrence is replaced. */
  lemma {:induction false} ReplaceAllFirst(s: string, pat: string, rep: string, i: nat)
    requires |pat| > 0 && Find(s, pat) == Some(i)
    ensures ReplaceAll(s, pat, rep) == s[..i] + rep + ReplaceAll(s[i + |pat|..], pat, rep)
  {
    var a, t := s[..i], s[i..];
    assert s == a + t;
    forall j: nat | j < |a| ensures !OccursAt(a + t, pat, j) {
      assert !OccursAt(s, pat, j);
    }
    ReplaceAllPrefix(a, t, pat, rep);
    assert OccursAt(s, pat, i);
    assert t[..|pat|] == s[i..i + |pat|];
    assert pat <= t;
    assert t[|pat|..] == s[i + |pat|..];
    assert ReplaceAll(t, pat, rep) == rep + ReplaceAll(s[i + |pat|..], pat, rep);
    ConcatAssoc(a, rep, ReplaceAll(s[i + |pat|..], pat, rep));
  }

  lemma ConcatAssoc(a: string, b: string, c: string)
    ensures a + (b + c) == a + b + c
  {
  }

  /** Replacing every occurrence is splitting at the occurrences and joining with the replacement. */
  lemma {:induction false} ReplaceAllSplitOn(s: string, pat: string, rep: string)
    requires |pat| > 0
    ensures ReplaceAll(s, pat, rep) == Join(SplitOn(s, pat), rep)
    decreases |s|
  {
    match Find(s, pat)
    case None =>
      ReplaceAllAbsent(s, pat, rep);
    case Some(i) =>
      var a, b := s[..i], s[i + |pat|..];
      assert SplitOnce(s, pat) == Some((a, b));
      var rest := SplitOn(b, pat);
      assert SplitOn(s, pat) == [a] + rest;
      ReplaceAllFirst(s, pat, rep, i);
      ReplaceAllSplitOn(b, pat, rep);
      assert ([a] + rest)[1..] == rest;
  }

  /** Lexicographic comparison on code points, as Rust's `Ord` on `str`. */
  function CompareStrings(a: string, b: string): (r: Ordering)
    ensures r == Equal <==> a == b
  {
    if a == [] && b == [] then Equal
    else if a == [] then Less
    else if b == [] then Greater
    else if a[0] < b[0] then Less
    else if a[0] > b[0] then Greater
    else
      assert a == [a[0]] + a[1..] && b == [b[0]] + b[1..];
      CompareStrings(a[1..], b[1..])
  }

  /** Swapping the operands reverses the comparison. */
  lemma {:induction false} CompareStringsAntisymmetric(a: string, b: string)
    ensures CompareStrings(b, a) == CompareStrings(a, b).Reverse()
  {
    if a != [] && b != [] && a[0] == b[0] {
      CompareStringsAntisymmetric(a[1..], b[1..]);
    }
  }
  /**
   * The parts of `s` between the occurrences of `sep`, found from the left (`str::split`
   * with a non-empty pattern).
   */
  function SplitOn(s: string, sep: string): (parts: seq<string>)
    requires |sep| > 0
    ensures |parts| >= 1
    decreases |s|
  {
    match SplitOnce(s, sep)
    case None => [s]
    case Some((a, b)) =>
      assert |a| + |sep| + |b| == |s|;
      [a] + SplitOn(b, sep)
  }

  /** Joining the parts with the separator gives back the string. */
  lemma {:induction false} JoinSplitOn(s: string, sep: string)
    requires |sep| > 0
    ensures Join(SplitOn(s, sep), sep) == s
    decreases |s|
  {
    match SplitOnce(s, sep)
    case None =>
    case Some((a, b)) =>
      assert |a| + |sep| + |b| == |s|;
      JoinSplitOn(b, sep);
      var rest := SplitOn(b, sep);
      assert SplitOn(s, sep) == [a] + rest;
      assert ([a] + rest)[1..] == rest;
  }

  /** `str::split` with the empty pattern: an empty part, every character on its own, an empty part. */
  function SplitEmpty(s: string): (parts: seq<string>)
    ensures |parts| == |s| + 2 && parts[0] == "" && parts[|s| + 1] == ""
    ensures forall i :: 0 <= i < |s| ==> parts[i + 1] == [s[i]]
  {
    [""] + seq(|s|, i requires 0 <= i < |s| => [s[i]]) + [""]
  }

  /** `s.split(sep)` for every separator. */
  function SplitBy(s: string, sep: string): seq<string>
  {
    if sep == "" then SplitEmpty(s) else SplitOn(s, sep)
  }

  /** `split_qname`: a qualified name `ns::name` splits at its first `::`; without one there is no namespace. */
  function SplitQName(q: string): (r: (Option<string>, string))
    ensures r.0.Some? ==> r.0.value + "::" + r.1 == q
    ensures r.0.None? ==> r.1 == q
  {
    match SplitOnce(q, "::")
    case None => (None, q)
    case Some((ns, name)) => (Some(ns), name)
  }
}
