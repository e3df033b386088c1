/**
 * The Python spreadsheet importer: the first sheet of a workbook becomes tokens and
 * spans. Row 1 names the columns; every further row is a position of the timeline. A
 * merged cell stands for all the rows it spans, so each column has its own set of valid
 * rows, and a cell's value holds from its row up to the next valid row of its column.
 * With one tokenization the token cells become tokens; with several, every row gets an
 * empty token and each tokenization's cells become spans over them. Annotation cells
 * become spans over the tokens of their tokenization, one span per row range, so that
 * cells of several columns covering the same rows share a node. Reading the workbook is
 * outside the model: the importer starts from the cell values.
 */
module SpreadsheetImporter {
  import opened Wrappers
  import opened Strings
  import opened Events
  import opened Dicts
  import opened Sorting
  import opened GraphUpdateUtil

  const KeyErrorMsg := "KeyError"
  const EmptyMaxMsg := "max() arg is an empty sequence"
  const UnpackMsg := "too many or not enough values to unpack (expected 2)"
  const NoHeaderMsg := "StopIteration"

  /** A cell's value as text (`str(cell.value)`), or `None` when the cell is empty. */
  type Cell = Option<string>

  /** A merged range: its first column and its first and last rows, all 1-based. */
  datatype MergedRange = MergedRange(minCol: int, minRow: int, maxRow: int)

  /**
   * A worksheet: its rows from the header row on (row `r` is `rows[r - 1]`, column `c`
   * of it is `rows[r - 1][c - 1]`), the bounds of its used columns and its merged ranges.
   */
  datatype Sheet = Sheet(rows: seq<seq<Cell>>, minColumn: int, maxColumn: int, merged: seq<MergedRange>)

  /** `rows[r - 1][c - 1]`; the rows of a sheet are as wide as its columns, and a cell past them is empty. */
  function CellAt(rows: seq<seq<Cell>>, r: int, c: int): Cell
  {
    if 1 <= r <= |rows| && 1 <= c <= |rows[r - 1]| then rows[r - 1][c - 1] else None
  }

  /** A cell that holds more than whitespace. */
  predicate Filled(cell: Cell)
  {
    cell.Some? && !IsBlank(cell.value)
  }

  // ---------------------------------------------------------------- columns and rows

  /** `name_to_index[name]`: the column headed `name`; with two such columns the later one. */
  function ColumnOf(header: seq<Cell>, name: string): (c: Option<nat>)
    ensures c.Some? ==> 1 <= c.value <= |header|
  {
    if |header| == 0 then None
    else if header[|header| - 1] == Some(name) then Some(|header|)
    else ColumnOf(header[..|header| - 1], name)
  }

  /** A name has a column exactly when some header cell holds it, and then it is the last such cell. */
  lemma {:induction false} ColumnOfLast(header: seq<Cell>, name: string)
    ensures ColumnOf(header, name).None? <==> Some(name) !in header
    ensures ColumnOf(header, name).Some? ==>
      var c := ColumnOf(header, name).value;
      header[c - 1] == Some(name) && forall j :: c <= j < |header| ==> header[j] != Some(name)
  {
    if |header| > 0 && header[|header| - 1] != Some(name) {
      var init := header[..|header| - 1];
      ColumnOfLast(init, name);
      assert header == init + [header[|header| - 1]];
    }
  }

  /** The columns that get a set of valid rows: from the first used column to one past the last. */
  predicate KnownColumn(sheet: Sheet, col: int)
  {
    sheet.minColumn <= col <= sheet.maxColumn + 1
  }

  /** Python's `range(lo, hi)`. */
  function Range(lo: int, hi: int): seq<int>
    decreases hi - lo
  {
    if lo >= hi then [] else [lo] + Range(lo + 1, hi)
  }

  lemma {:induction false} RangeMembers(lo: int, hi: int)
    ensures forall x :: x in Range(lo, hi) <==> lo <= x < hi
    decreases hi - lo
  {
    if lo < hi {
      RangeMembers(lo + 1, hi);
    }
  }

  /** `set(range(lo, hi))`. */
  function RangeSet(lo: int, hi: int): set<int>
  {
    set r | r in Range(lo, hi)
  }

  /** The rows from 2 on: the data rows and the row after them. */
  function DataRows(maxRow: nat): set<int>
  {
    RangeSet(2, maxRow + 2)
  }

  /** The rows a merged range hides below its first row. */
  function Continuation(m: MergedRange): set<int>
  {
    RangeSet(m.minRow + 1, m.maxRow + 1)
  }

  /** The known columns: from the first used column to one past the last. */
  function Columns(sheet: Sheet): seq<int>
  {
    Range(sheet.minColumn, sheet.maxColumn + 2)
  }

  /** The valid rows of `col` once the first merged ranges are taken into account. */
  function ValidRows(maxRow: nat, merged: seq<MergedRange>, col: int): set<int>
  {
    if merged == [] then DataRows(maxRow)
    else
      var m := merged[|merged| - 1];
      ValidRows(maxRow, merged[..|merged| - 1], col) - (if m.minCol == col then Continuation(m) else {})
  }

  /**
   * A row is valid for a column exactly when it is a data row (or the row after them) and
   * no merged range that starts in the column hides it.
   */
  lemma {:induction false} ValidRowsIff(maxRow: nat, merged: seq<MergedRange>, col: int, r: int)
    ensures r in ValidRows(maxRow, merged, col) <==>
      2 <= r < maxRow + 2
      && forall k :: 0 <= k < |merged| && merged[k].minCol == col ==> !(merged[k].minRow < r <= merged[k].maxRow)
  {
    if merged != [] {
      var init := merged[..|merged| - 1];
      var m := merged[|merged| - 1];
      ValidRowsIff(maxRow, init, col, r);
      RangeMembers(m.minRow + 1, m.maxRow + 1);
      assert forall k :: 0 <= k < |init| ==> init[k] == merged[k];
    } else {
      RangeMembers(2, maxRow + 2);
    }
  }

  /** The dictionary `row_indices`, or the `KeyError` of a merged range outside the known columns. */
  function RowIndexMap(sheet: Sheet): Result<map<int, set<int>>>
  {
    if exists k :: 0 <= k < |sheet.merged| && !KnownColumn(sheet, sheet.merged[k].minCol) then Err(KeyErrorMsg)
    else Ok(var cols := Columns(sheet); map c | c in cols :: ValidRows(|sheet.rows|, sheet.merged, c))
  }

  /** Building `row_indices`: every known column starts with all rows, and each merged range removes its hidden rows. */
  method RowIndices(sheet: Sheet) returns (r: Result<map<int, set<int>>>)
    ensures r == RowIndexMap(sheet)
  {
    var n := |sheet.rows|;
    var cols := Columns(sheet);
    var ri := map c | c in cols :: DataRows(n);
    RangeMembers(sheet.minColumn, sheet.maxColumn + 2);
    for k := 0 to |sheet.merged|
      invariant forall j :: 0 <= j < k ==> KnownColumn(sheet, sheet.merged[j].minCol)
      invariant forall c :: c in ri <==> KnownColumn(sheet, c)
      invariant forall c :: c in ri ==> ri[c] == ValidRows(n, sheet.merged[..k], c)
    {
      var m := sheet.merged[k];
      if m.minCol !in ri {
        assert !KnownColumn(sheet, sheet.merged[k].minCol);
        return Err(KeyErrorMsg);
      }
      assert sheet.merged[..k + 1][..k] == sheet.merged[..k];
      ri := ri[m.minCol := ri[m.minCol] - RangeSet(m.minRow + 1, m.maxRow + 1)];
    }
    assert sheet.merged[..|sheet.merged|] == sheet.merged;
    ghost var expected := map c | c in cols :: ValidRows(n, sheet.merged, c);
    assert forall c :: c in ri <==> c in expected;
    assert forall c :: c in ri ==> ri[c] == expected[c];
    assert ri == expected;
    return Ok(ri);
  }

  /** The members of `rs` from `lo` up to `hi`, ascending. */
  function RowsFrom(rs: set<int>, lo: int, hi: int): seq<int>
    decreases hi - lo
  {
    if lo >= hi then [] else (if lo in rs then [lo] else []) + RowsFrom(rs, lo + 1, hi)
  }

  lemma {:induction false} RowsFromMembers(rs: set<int>, lo: int, hi: int)
    ensures forall x :: x in RowsFrom(rs, lo, hi) <==> x in rs && lo <= x < hi
    ensures StrictlyIncreasing(RowsFrom(rs, lo, hi))
    decreases hi - lo
  {
    if lo < hi {
      RowsFromMembers(rs, lo + 1, hi);
      var rest := RowsFrom(rs, lo + 1, hi);
      assert forall k :: 0 <= k < |rest| ==> lo < rest[k] by {
        forall k | 0 <= k < |rest| ensures lo < rest[k] {
          assert rest[k] in rest;
        }
      }
    }
  }

  /**
   * The valid rows of a column in increasing order, then one past the largest of them.
   * The rows lie below `max_row + 2`; an empty set has no largest row, which fails.
   */
  function Boundaries(rs: set<int>, maxRow: nat): Result<seq<int>>
  {
    var sorted := RowsFrom(rs, 2, maxRow + 2);
    if sorted == [] then Err(EmptyMaxMsg) else Ok(sorted + [sorted[|sorted| - 1] + 1])
  }

  lemma ValidRowsWithin(maxRow: nat, merged: seq<MergedRange>, col: int)
    ensures forall r :: r in ValidRows(maxRow, merged, col) ==> 2 <= r < maxRow + 2
  {
    forall r | r in ValidRows(maxRow, merged, col) ensures 2 <= r < maxRow + 2 {
      ValidRowsIff(maxRow, merged, col, r);
    }
  }

  /**
   * Each window of the boundaries runs from a valid row to the next one, exclusive: its
   * start is valid, no valid row lies inside it, and its end is the next valid row or,
   * for the last window, the row after the greatest one.
   */
  lemma BoundariesConsecutive(rs: set<int>, maxRow: nat, i: nat)
    requires forall r :: r in rs ==> 2 <= r < maxRow + 2
    requires Boundaries(rs, maxRow).Ok?
    requires 0 < i < |Boundaries(rs, maxRow).value|
    ensures var b := Boundaries(rs, maxRow).value;
      && b[i - 1] in rs && b[i - 1] < b[i]
      && (forall x :: x in rs ==> !(b[i - 1] < x < b[i]))
      && (i < |b| - 1 ==> b[i] in rs)
      && (i == |b| - 1 ==> forall x :: x in rs ==> x < b[i])
  {
    var sorted := RowsFrom(rs, 2, maxRow + 2);
    RowsFromMembers(rs, 2, maxRow + 2);
    var b := sorted + [sorted[|sorted| - 1] + 1];
    assert b[i - 1] == sorted[i - 1];
    assert sorted[i - 1] in sorted;
    forall x | x in rs ensures !(b[i - 1] < x < b[i]) && (i == |b| - 1 ==> x < b[i]) {
      assert x in sorted;
      var k :| 0 <= k < |sorted| && sorted[k] == x;
      if k < i - 1 {
        assert sorted[k] < sorted[i - 1];
      } else if k > i - 1 {
        assert i < |sorted| ==> sorted[i] <= sorted[k];
      }
    }
    if i < |b| - 1 {
      assert b[i] == sorted[i] && sorted[i] in sorted;
    }
  }

  /** The boundaries of a column are strictly increasing. */
  lemma BoundariesIncreasing(rs: set<int>, maxRow: nat)
    requires Boundaries(rs, maxRow).Ok?
    ensures StrictlyIncreasing(Boundaries(rs, maxRow).value)
    ensures forall k :: 0 <= k < |Boundaries(rs, maxRow).value| ==> Boundaries(rs, maxRow).value[k] >= 2
  {
    var sorted := RowsFrom(rs, 2, maxRow + 2);
    RowsFromMembers(rs, 2, maxRow + 2);
    assert sorted[0] in sorted;
  }

  /** Multi-token mode: more than one tokenization. */
  predicate IsMultiTok(columnMap: seq<(string, seq<string>)>)
  {
    |columnMap| > 1
  }

  /** An annotation name cut once at '::': a qualified name gives its namespace, any other the tokenization's name. */
  function AnnoQName(tokName: string, annoName: string): (r: (string, string))
    ensures (exists j: nat :: OccursAt(annoName, "::", j)) ==> r.0 + "::" + r.1 == annoName
    ensures (forall j: nat :: !OccursAt(annoName, "::", j)) ==> r == (tokName, annoName)
  {
    match SplitOnce(annoName, "::")
    case None => (tokName, annoName)
    case Some((ns, name)) => (ns, name)
  }

  // ---------------------------------------------------------------- parse_config_s

  /** One group `tok = {a, b}`, or the unpacking error when it has not exactly one `=`. */
  function ConfigGroup(group: string): Result<(string, seq<string>)>
  {
    var parts := Split(Trim(group), '=');
    if |parts| != 2 then Err(UnpackMsg)
    else Ok((Trim(parts[0]), TrimAll(Split(ReplaceAll(ReplaceAll(parts[1], "{", ""), "}", ""), ','))))
  }

  function TrimAll(names: seq<string>): (r: seq<string>)
    ensures |r| == |names| && forall k :: 0 <= k < |names| ==> r[k] == Trim(names[k])
  {
    seq(|names|, k requires 0 <= k < |names| => Trim(names[k]))
  }

  /** The configuration after the first `k` groups; a group for a name seen before replaces its list. */
  function ConfigOf(groups: seq<string>, k: nat): Result<seq<(string, seq<string>)>>
    requires k <= |groups|
  {
    if k == 0 then Ok([])
    else
      match ConfigOf(groups, k - 1)
      case Err(e) => Err(e)
      case Ok(config) =>
        match ConfigGroup(groups[k - 1])
        case Err(e) => Err(e)
        case Ok(g) => Ok(Put(config, g.0, g.1))
  }

  /** `parse_config_s`: `tok={a,b};t2={c}` as an ordered dictionary from tokenizations to their annotation columns. */
  method ParseConfig(configS: string) returns (r: Result<seq<(string, seq<string>)>>)
    ensures var groups := Split(Trim(configS), ';');
      r == ConfigOf(groups, |groups|)
  {
    var groups := Split(Trim(configS), ';');
    var config: seq<(string, seq<string>)> := [];
    for k := 0 to |groups|
      invariant ConfigOf(groups, k).Ok? && ConfigOf(groups, k).value == config
    {
      var group := ConfigGroup(groups[k]);
      if group.Err? {
        ConfigErrSticks(groups, k + 1, |groups|);
        return Err(group.msg);
      }
      config := Put(config, group.value.0, group.value.1);
    }
    return Ok(config);
  }

  /** A text without whitespace at either end. */
  predicate Trimmed(s: string)
  {
    s == [] || (!IsSpace(s[0]) && !IsSpace(s[|s| - 1]))
  }

  lemma TrimTrimmed(s: string)
    ensures Trimmed(Trim(s))
    ensures forall x :: x in Trim(s) ==> x in s
  {
    var lo := FirstVisible(s, 0);
    var hi := EndVisible(s, lo, |s|);
    FirstVisibleSpaces(s, 0);
    EndVisibleSpaces(s, lo, |s|);
    forall x | x in Trim(s) ensures x in s {
      var k :| 0 <= k < |Trim(s)| && Trim(s)[k] == x;
      assert s[lo + k] == x;
    }
  }

  lemma {:induction false} SplitChars(s: string, c: char)
    ensures forall k, x :: 0 <= k < |Split(s, c)| && x in Split(s, c)[k] ==> x in s
  {
    if s != [] {
      SplitChars(s[1..], c);
      var rest := Split(s[1..], c);
      assert forall y :: y in s[1..] ==> y in s;
      forall k, x | 0 <= k < |Split(s, c)| && x in Split(s, c)[k] ensures x in s {
        if s[0] != c && k == 0 {
          assert x in [s[0]] + rest[0];
          if x != s[0] {
            assert x in rest[0];
          }
        } else if s[0] != c {
          assert Split(s, c)[k] == rest[k];
        } else if k > 0 {
          assert Split(s, c)[k] == rest[k - 1];
        }
      }
    }
  }

  /** Dropping every `c` keeps every other character and only those. */
  lemma {:induction false} ReplaceDropChars(s: string, c: char)
    ensures forall x :: x in ReplaceAll(s, [c], "") ==> x in s && x != c
    decreases |s|
  {
    if |s| > 0 {
      ReplaceDropChars(s[1..], c);
      if !([c] <= s) {
        assert s[0] != c by { assert s[..1] == [s[0]]; }
      }
    }
  }

  /**
   * Every tokenization name and every annotation name of a parsed configuration is
   * trimmed and holds no `;`; the annotation names hold no brace and no comma.
   */
  lemma {:induction false} ConfigNamesClean(groups: seq<string>, k: nat)
    requires k <= |groups|
    requires forall j :: 0 <= j < |groups| ==> ';' !in groups[j]
    requires ConfigOf(groups, k).Ok?
    ensures forall e :: e in ConfigOf(groups, k).value ==>
      Trimmed(e.0) && ';' !in e.0
      && forall a :: a in e.1 ==> Trimmed(a) && '{' !in a && '}' !in a && ',' !in a && ';' !in a
  {
    if k > 0 {
      ConfigNamesClean(groups, k - 1);
      var config := ConfigOf(groups, k - 1).value;
      var g := ConfigGroup(groups[k - 1]).value;
      GroupNamesClean(groups[k - 1]);
      forall e | e in Put(config, g.0, g.1) ensures e in config || e == g {
        PutEntries(config, g.0, g.1, e);
      }
    }
  }

  /** The names of one group of the configuration are trimmed and free of separators. */
  lemma {:induction false} GroupNamesClean(group: string)
    requires ';' !in group && ConfigGroup(group).Ok?
    ensures Trimmed(ConfigGroup(group).value.0) && ';' !in ConfigGroup(group).value.0
    ensures forall a :: a in ConfigGroup(group).value.1 ==> Trimmed(a) && '{' !in a && '}' !in a && ',' !in a && ';' !in a
  {
    var parts := Split(Trim(group), '=');
    TrimTrimmed(group);
    SplitChars(Trim(group), '=');
    TrimTrimmed(parts[0]);
    assert forall x :: x in parts[1] ==> x in group;
    var unbraced := ReplaceAll(parts[1], "{", "");
    ReplaceDropChars(parts[1], '{');
    assert forall x :: x in unbraced ==> x in group && x != '{';
    var dropped := ReplaceAll(unbraced, "}", "");
    ReplaceDropChars(unbraced, '}');
    assert forall x :: x in dropped ==> x in group && x != '{' && x != '}';
    SplitChars(dropped, ',');
    var names := Split(dropped, ',');
    assert ConfigGroup(group).value.1 == TrimAll(names);
    forall j | 0 <= j < |names|
      ensures Trimmed(Trim(names[j])) && '{' !in Trim(names[j]) && '}' !in Trim(names[j])
              && ',' !in Trim(names[j]) && ';' !in Trim(names[j])
    {
      TrimTrimmed(names[j]);
      assert forall x :: x in names[j] ==> x in dropped;
    }
  }

  /** Every entry after `d[k] = v` is an old entry or the new one. */
  lemma {:induction false} PutEntries<K, V>(d: seq<(K, V)>, k: K, v: V, e: (K, V))
    ensures e in Put(d, k, v) ==> e in d || e == (k, v)
  {
    if d != [] && d[0].0 != k {
      PutEntries(d[1..], k, v, e);
    }
  }

  lemma {:induction false} ConfigErrSticks(groups: seq<string>, k: nat, m: nat)
    requires k <= m <= |groups|
    requires ConfigOf(groups, k).Err?
    ensures ConfigOf(groups, m) == ConfigOf(groups, k)
    decreases m
  {
    if m > k {
      ConfigErrSticks(groups, k, m - 1);
    }
  }

  /** Parsing fails exactly when some group does not have exactly one `=`. */
  lemma {:induction false} ConfigErrIff(groups: seq<string>, k: nat)
    requires k <= |groups|
    ensures ConfigOf(groups, k).Err? <==> exists j :: 0 <= j < k && |Split(Trim(groups[j]), '=')| != 2
  {
    if k > 0 {
      ConfigErrIff(groups, k - 1);
    }
  }

  /** The parsed groups in the order they are written, one for each of the first `k` groups. */
  function Groups(groups: seq<string>, k: nat): (r: seq<(string, seq<string>)>)
    requires k <= |groups| && ConfigOf(groups, k).Ok?
    ensures |r| == k && forall j :: 0 <= j < k ==> ConfigGroup(groups[j]) == Ok(r[j])
  {
    if k == 0 then [] else Groups(groups, k - 1) + [ConfigGroup(groups[k - 1]).value]
  }

  /** The distinct elements of `s` in the order in which each first appears. */
  function FirstOccurrences<T(==)>(s: seq<T>): seq<T>
  {
    if s == [] then []
    else if s[|s| - 1] in s[..|s| - 1] then FirstOccurrences(s[..|s| - 1])
    else FirstOccurrences(s[..|s| - 1]) + [s[|s| - 1]]
  }

  lemma {:induction false} FirstOccurrencesMembers<T>(s: seq<T>)
    ensures forall x :: x in FirstOccurrences(s) <==> x in s
  {
    if s != [] {
      FirstOccurrencesMembers(s[..|s| - 1]);
      assert s == s[..|s| - 1] + [s[|s| - 1]];
    }
  }

  /** The tokenizations of a parse are the names of its groups, in the order of their first group. */
  lemma {:induction false} ConfigKeys(groups: seq<string>, k: nat)
    requires k <= |groups| && ConfigOf(groups, k).Ok?
    ensures Keys(ConfigOf(groups, k).value) == FirstOccurrences(Keys(Groups(groups, k)))
    ensures forall key :: key in Keys(ConfigOf(groups, k).value) <==> key in Keys(Groups(groups, k))
  {
    FirstOccurrencesMembers(Keys(Groups(groups, k)));
    if k > 0 {
      ConfigKeys(groups, k - 1);
      var config := ConfigOf(groups, k - 1).value;
      var g := ConfigGroup(groups[k - 1]).value;
      var gs := Groups(groups, k - 1);
      var ks' := Keys(Groups(groups, k));
      assert ks'[..k - 1] == Keys(gs);
      PutKeysOrder(config, g.0, g.1);
      FirstOccurrencesMembers(Keys(gs));
    }
  }

  /** Each tokenization of a parse has the list of the last group written for it. */
  lemma {:induction false} ConfigValues(groups: seq<string>, k: nat, j: nat)
    requires k <= |groups| && ConfigOf(groups, k).Ok?
    requires j < k
    requires forall j' :: j < j' < k ==> Groups(groups, k)[j'].0 != Groups(groups, k)[j].0
    ensures Get(ConfigOf(groups, k).value, Groups(groups, k)[j].0) == Some(Groups(groups, k)[j].1)
  {
    var config := ConfigOf(groups, k - 1).value;
    var g := ConfigGroup(groups[k - 1]).value;
    var gs := Groups(groups, k - 1);
    var gs' := Groups(groups, k);
    PutGet(config, g.0, g.1, gs'[j].0);
    if j < k - 1 {
      assert gs'[k - 1].0 != gs'[j].0;
      forall j' | j < j' < k - 1 ensures gs[j'].0 != gs[j].0 {
        assert gs'[j'] == gs[j'];
      }
      ConfigValues(groups, k - 1, j);
    }
  }

  // ---------------------------------------------------------------- map_spreadsheet

  /** The key of `existing_spans`: the rows a span runs over and its tokenization. */
  datatype SpanKey = SpanKey(start: int, end: int, tokName: string)

  /**
   * What `map_spreadsheet` has built so far: the update's events, the two counters, the
   * spans by key and, for the current tokenization, `tok_map` from token id to the last
   * row of the token.
   */
  datatype State = State(events: seq<Event>, spanCount: nat, tokCount: nat,
                         existing: seq<(SpanKey, string)>, tokMap: seq<(string, int)>)

  /** The header row, `next(sh.rows)`. */
  function Header(sheet: Sheet): seq<Cell>
  {
    if sheet.rows == [] then [] else sheet.rows[0]
  }

  /** The ids of the empty tokens `t1` … `tn`. */
  function EmptyIds(docPath: string, n: nat): (ids: seq<string>)
    ensures |ids| == n
  {
    seq(n, i requires 0 <= i < n => TokenId(docPath, i + 1))
  }

  /** The empty tokens of multi-token mode, each a token with the text `" "` and no tokenization name. */
  function EmptyTokenEvents(docPath: string, n: nat): seq<Event>
  {
    if n == 0 then [] else EmptyTokenEvents(docPath, n - 1) + TokenEvents(docPath, n, "", " ", None, None)
  }

  /** Python's `ids[start:end]` for 0 <= start. */
  function PySlice(ids: seq<string>, start: nat, end: int): (r: seq<string>)
    ensures |r| <= |ids|
  {
    var hi := if end < 0 then 0 else if end > |ids| then |ids| else end;
    if start >= hi then [] else ids[start..hi]
  }

  /** The span of a multi-token tokenization: a span labelled with the tokenization, covering its empty tokens, with its `annis::tok`. */
  function TokenSpanEvents(span: string, tokName: string, value: string, targets: seq<string>): seq<Event>
  {
    LabelledNodeEvents(span, "", tokName, value, targets, Coverage, "") + [AddNodeLabel(span, AnnisNs, TokKey, value)]
  }

  /**
   * The loop that assigns a new token id every row of its range in turn: the token
   * ends up at the last row, and at none when the range is empty.
   */
  function LastRow(tokMap: seq<(string, int)>, id: string, start: int, end: int): seq<(string, int)>
  {
    if start < end then tokMap + [(id, end - 1)] else tokMap
  }

  /** One token cell, the rows `[start, end)` of its column. */
  function TokenCell(docPath: string, rows: seq<seq<Cell>>, tokName: string, col: nat, multi: bool,
                     emptyIds: seq<string>, start: nat, end: int, st: State): (r: State)
    ensures st.events <= r.events
    ensures st.spanCount <= r.spanCount && st.tokCount <= r.tokCount
  {
    var cell := CellAt(rows, start, col);
    if !Filled(cell) then st
    else
      var value := Trim(cell.value);
      if multi then
        var n := st.spanCount + 1;
        var span := SpanId(docPath, n);
        st.(events := st.events + TokenSpanEvents(span, tokName, value, PySlice(emptyIds, start, end)),
            spanCount := n,
            existing := Put(st.existing, SpanKey(start, end, tokName), span),
            tokMap := LastRow(st.tokMap, span, start, end))
      else
        var n := st.tokCount + 1;
        st.(events := st.events + TokenEvents(docPath, n, tokName, value, None, None),
            tokCount := n,
            tokMap := LastRow(st.tokMap, TokenId(docPath, n), start, end))
  }

  /** The loop over the windows `i - 1, i` of a token column's boundaries, up to the first start past the rows. */
  function TokenCells(docPath: string, rows: seq<seq<Cell>>, tokName: string, col: nat, multi: bool,
                      emptyIds: seq<string>, b: seq<int>, i: nat, st: State): (r: State)
    requires 1 <= i
    requires forall k :: 0 <= k < |b| ==> b[k] >= 2
    ensures st.events <= r.events
    ensures st.spanCount <= r.spanCount && st.tokCount <= r.tokCount
    decreases |b| - i
  {
    if i >= |b| || b[i - 1] - 1 >= |rows| then st
    else TokenCells(docPath, rows, tokName, col, multi, emptyIds, b, i + 1,
                    TokenCell(docPath, rows, tokName, col, multi, emptyIds, b[i - 1], b[i], st))
  }

  /** The order of `sorted(tok_map, key=lambda k: tok_map[k])`: by last row. */
  function EntryLe(a: (string, int), b: (string, int)): bool
  {
    a.1 <= b.1
  }

  /** The tokens of `tok_map` in the order of their last rows. */
  function OrderedTokens(tokMap: seq<(string, int)>): seq<string>
  {
    Keys(SortBy(tokMap, EntryLe))
  }

  /** The entries of `tok_map` whose last row lies in `[start, end)`. */
  function EntriesIn(tokMap: seq<(string, int)>, start: int, end: int): (r: seq<(string, int)>)
    ensures |r| <= |tokMap|
  {
    if tokMap == [] then []
    else
      var last := tokMap[|tokMap| - 1];
      EntriesIn(tokMap[..|tokMap| - 1], start, end) + (if start <= last.1 < end then [last] else [])
  }

  /** `covered_toks`: the tokens whose last row lies in `[start, end)`, by last row. */
  function Covered(tokMap: seq<(string, int)>, start: int, end: int): seq<string>
  {
    OrderedTokens(EntriesIn(tokMap, start, end))
  }

  /**
   * One annotation cell, the rows `[start, end)` of its column: a label on the span of the
   * same rows and tokenization if there is one, otherwise a new span over the covered tokens.
   */
  function AnnoCell(docPath: string, rows: seq<seq<Cell>>, tokName: string, ns: string, name: string, col: nat,
                    start: nat, end: int, st: State): (r: State)
    ensures st.events <= r.events
    ensures st.spanCount <= r.spanCount && r.tokCount == st.tokCount && r.tokMap == st.tokMap
  {
    var cell := CellAt(rows, start, col);
    if !Filled(cell) then st
    else
      var value := Trim(cell.value);
      var key := SpanKey(start, end, tokName);
      match Get(st.existing, key)
      case Some(node) => st.(events := st.events + [AddNodeLabel(node, ns, name, value)])
      case None =>
        var n := st.spanCount + 1;
        var span := SpanId(docPath, n);
        st.(events := st.events + LabelledNodeEvents(span, ns, name, value, Covered(st.tokMap, start, end), Coverage, ""),
            spanCount := n,
            existing := Put(st.existing, key, span))
  }

  /** The loop over the windows of an annotation column's boundaries. */
  function AnnoCells(docPath: string, rows: seq<seq<Cell>>, tokName: string, ns: string, name: string, col: nat,
                     b: seq<int>, i: nat, st: State): (r: State)
    requires 1 <= i
    requires forall k :: 0 <= k < |b| ==> b[k] >= 2
    ensures st.events <= r.events
    ensures st.spanCount <= r.spanCount && r.tokCount == st.tokCount && r.tokMap == st.tokMap
    decreases |b| - i
  {
    if i >= |b| || b[i - 1] - 1 >= |rows| then st
    else AnnoCells(docPath, rows, tokName, ns, name, col, b, i + 1,
                   AnnoCell(docPath, rows, tokName, ns, name, col, b[i - 1], b[i], st))
  }

  /** The column headed `name` and its boundaries, or the `KeyError` / `ValueError` of looking them up. */
  function ColumnRows(sheet: Sheet, ri: map<int, set<int>>, name: string): (r: Result<(nat, seq<int>)>)
    ensures r.Ok? ==> forall k :: 0 <= k < |r.value.1| ==> r.value.1[k] >= 2
    ensures r.Ok? ==> |r.value.1| >= 2 && StrictlyIncreasing(r.value.1)
  {
    match ColumnOf(Header(sheet), name)
    case None => Err(KeyErrorMsg)
    case Some(col) =>
      if col !in ri then Err(KeyErrorMsg)
      else match Boundaries(ri[col], |sheet.rows|)
        case Err(m) => Err(m)
        case Ok(b) =>
          BoundariesIncreasing(ri[col], |sheet.rows|);
          Ok((col, b))
  }

  /** The annotation columns of one tokenization, from the `j`-th on. */
  function AnnoColumns(docPath: string, sheet: Sheet, ri: map<int, set<int>>, tokName: string,
                       annoNames: seq<string>, j: nat, st: State): (r: Result<State>)
    ensures r.Ok? ==> st.events <= r.value.events && st.spanCount <= r.value.spanCount
    ensures r.Ok? ==> r.value.tokCount == st.tokCount && r.value.tokMap == st.tokMap
    decreases |annoNames| - j
  {
    if j >= |annoNames| then Ok(st)
    else
      var (ns, name) := AnnoQName(tokName, annoNames[j]);
      match ColumnRows(sheet, ri, annoNames[j])
      case Err(m) => Err(m)
      case Ok((col, b)) =>
        AnnoColumns(docPath, sheet, ri, tokName, annoNames, j + 1,
                    AnnoCells(docPath, sheet.rows, tokName, ns, name, col, b, 1, st))
  }

  /** One tokenization: its tokens, their ordering chain named after it, then its annotations. */
  function Tokenization(docPath: string, sheet: Sheet, ri: map<int, set<int>>, tokName: string,
                        annoNames: seq<string>, multi: bool, emptyIds: seq<string>, st: State): (r: Result<State>)
    ensures r.Ok? ==> st.events <= r.value.events && st.spanCount <= r.value.spanCount
  {
    match ColumnRows(sheet, ri, tokName)
    case Err(m) => Err(m)
    case Ok((col, b)) =>
      var st1 := TokenCells(docPath, sheet.rows, tokName, col, multi, emptyIds, b, 1, st.(tokMap := []));
      var st2 := st1.(events := st1.events + Chain(OrderedTokens(st1.tokMap), AnnisNs, Ordering, tokName));
      AnnoColumns(docPath, sheet, ri, tokName, annoNames, 0, st2)
  }

  /** The tokenizations of the configuration, from the `k`-th on. */
  function Tokenizations(docPath: string, sheet: Sheet, ri: map<int, set<int>>, columnMap: seq<(string, seq<string>)>,
                         emptyIds: seq<string>, k: nat, st: State): (r: Result<State>)
    ensures r.Ok? ==> st.events <= r.value.events && st.spanCount <= r.value.spanCount
    decreases |columnMap| - k
  {
    if k >= |columnMap| then Ok(st)
    else match Tokenization(docPath, sheet, ri, columnMap[k].0, columnMap[k].1, IsMultiTok(columnMap), emptyIds, st)
      case Err(m) => Err(m)
      case Ok(st1) => Tokenizations(docPath, sheet, ri, columnMap, emptyIds, k + 1, st1)
  }

  /** The state after the empty tokens of multi-token mode and their unnamed ordering chain. */
  function Initial(log: seq<Event>, docPath: string, sheet: Sheet, multi: bool): State
  {
    if multi then
      var n := |sheet.rows| + 2;
      State(log + EmptyTokenEvents(docPath, n) + Chain(EmptyIds(docPath, n), AnnisNs, Ordering, ""), 0, n, [], [])
    else State(log, 0, 0, [], [])
  }

  /** `map_spreadsheet`: the update `log` grows to the returned log, or the import fails. */
  function Spreadsheet(log: seq<Event>, docPath: string, sheet: Sheet, columnMap: seq<(string, seq<string>)>): (r: Result<seq<Event>>)
    ensures r.Ok? ==> log <= r.value
  {
    if sheet.rows == [] then Err(NoHeaderMsg)
    else match RowIndexMap(sheet)
      case Err(m) => Err(m)
      case Ok(ri) =>
        var multi := IsMultiTok(columnMap);
        var st := Initial(log, docPath, sheet, multi);
        match Tokenizations(docPath, sheet, ri, columnMap, if multi then EmptyIds(docPath, |sheet.rows| + 2) else [], 0, st)
        case Err(m) => Err(m)
        case Ok(st1) => Ok(st1.events)
  }

  // ---------------------------------------------------------------- properties

  /** A multi-token span over the rows `[start, end)` covers the empty tokens `t(start + 1)` … `t(end)`. */
  lemma SliceIds(docPath: string, n: nat, start: nat, end: nat)
    requires start <= end <= n
    ensures PySlice(EmptyIds(docPath, n), start, end)
         == seq(end - start, i requires 0 <= i < end - start => TokenId(docPath, start + i + 1))
  {
  }

  /** `tok_map`'s last rows strictly increase in the order its entries were made. */
  predicate RowOrdered(tokMap: seq<(string, int)>)
  {
    forall i, j :: 0 <= i < j < |tokMap| ==> tokMap[i].1 < tokMap[j].1
  }

  predicate Below(tokMap: seq<(string, int)>, bound: int)
  {
    forall k :: 0 <= k < |tokMap| ==> tokMap[k].1 < bound
  }

  /** The tokens of a column are made in row order: each ends before the next starts. */
  lemma {:induction false} TokenCellsRowOrdered(docPath: string, rows: seq<seq<Cell>>, tokName: string, col: nat, multi: bool,
                                                emptyIds: seq<string>, b: seq<int>, i: nat, st: State)
    requires 1 <= i <= |b|
    requires forall k :: 0 <= k < |b| ==> b[k] >= 2
    requires StrictlyIncreasing(b)
    requires RowOrdered(st.tokMap) && Below(st.tokMap, b[i - 1])
    ensures RowOrdered(TokenCells(docPath, rows, tokName, col, multi, emptyIds, b, i, st).tokMap)
    decreases |b| - i
  {
    if !(i >= |b| || b[i - 1] - 1 >= |rows|) {
      var st1 := TokenCell(docPath, rows, tokName, col, multi, emptyIds, b[i - 1], b[i], st);
      assert b[i - 1] < b[i];
      assert RowOrdered(st1.tokMap) && Below(st1.tokMap, b[i]);
      TokenCellsRowOrdered(docPath, rows, tokName, col, multi, emptyIds, b, i + 1, st1);
    }
  }

  /** Sorting `tok_map` by last row keeps the order the tokens were made in, so the ordering chain follows the rows. */
  lemma TokensInRowOrder(tokMap: seq<(string, int)>)
    requires RowOrdered(tokMap)
    ensures OrderedTokens(tokMap) == Keys(tokMap)
  {
    SortByIdentity(tokMap, EntryLe);
  }

  /** The ordering chain of a tokenization links its tokens in row order. */
  lemma TokenChainInRowOrder(docPath: string, sheet: Sheet, ri: map<int, set<int>>, tokName: string, multi: bool,
                             emptyIds: seq<string>, st: State)
    requires ColumnRows(sheet, ri, tokName).Ok?
    ensures var (col, b) := ColumnRows(sheet, ri, tokName).value;
      var tm := TokenCells(docPath, sheet.rows, tokName, col, multi, emptyIds, b, 1, st.(tokMap := [])).tokMap;
      OrderedTokens(tm) == Keys(tm)
  {
    var (col, b) := ColumnRows(sheet, ri, tokName).value;
    TokenCellsRowOrdered(docPath, sheet.rows, tokName, col, multi, emptyIds, b, 1, st.(tokMap := []));
    TokensInRowOrder(TokenCells(docPath, sheet.rows, tokName, col, multi, emptyIds, b, 1, st.(tokMap := [])).tokMap);
  }

  lemma {:induction false} EntriesInMembers(tokMap: seq<(string, int)>, start: int, end: int, e: (string, int))
    ensures e in EntriesIn(tokMap, start, end) <==> e in tokMap && start <= e.1 < end
  {
    if tokMap != [] {
      var init := tokMap[..|tokMap| - 1];
      EntriesInMembers(init, start, end, e);
      assert tokMap == init + [tokMap[|tokMap| - 1]];
    }
  }

  /** A token is covered by the rows `[start, end)` exactly when its last row lies in them. */
  lemma CoveredIff(tokMap: seq<(string, int)>, start: int, end: int, id: string)
    ensures id in Covered(tokMap, start, end) <==> exists k :: 0 <= k < |tokMap| && tokMap[k].0 == id && start <= tokMap[k].1 < end
  {
    var es := EntriesIn(tokMap, start, end);
    var sorted := SortBy(es, EntryLe);
    SortByPermutes(es, EntryLe);
    if id in Covered(tokMap, start, end) {
      var k :| 0 <= k < |sorted| && sorted[k].0 == id;
      assert sorted[k] in multiset(sorted);
      EntriesInMembers(tokMap, start, end, sorted[k]);
    }
    if exists k :: 0 <= k < |tokMap| && tokMap[k].0 == id && start <= tokMap[k].1 < end {
      var k :| 0 <= k < |tokMap| && tokMap[k].0 == id && start <= tokMap[k].1 < end;
      EntriesInMembers(tokMap, start, end, tokMap[k]);
      assert tokMap[k] in multiset(sorted);
      var m :| 0 <= m < |sorted| && sorted[m] == tokMap[k];
      assert Keys(sorted)[m] == id;
    }
  }

  /**
   * Two filled annotation cells over the same rows of one tokenization share a node: the
   * second only adds its label to the span the first one found or made.
   */
  lemma AnnoCellsShareSpan(docPath: string, rows: seq<seq<Cell>>, tokName: string,
                           ns1: string, name1: string, col1: nat, ns2: string, name2: string, col2: nat,
                           start: nat, end: int, st: State)
    requires Filled(CellAt(rows, start, col1)) && Filled(CellAt(rows, start, col2))
    ensures var st1 := AnnoCell(docPath, rows, tokName, ns1, name1, col1, start, end, st);
      var node := Get(st1.existing, SpanKey(start, end, tokName));
      && node.Some?
      && AnnoCell(docPath, rows, tokName, ns2, name2, col2, start, end, st1)
         == st1.(events := st1.events + [AddNodeLabel(node.value, ns2, name2, Trim(CellAt(rows, start, col2).value))])
  {
    var key := SpanKey(start, end, tokName);
    if Get(st.existing, key).None? {
      PutGet(st.existing, key, SpanId(docPath, st.spanCount + 1), key);
    }
  }

  /**
   * In multi-token mode an annotation cell over exactly the rows of a token cell labels
   * that token's span instead of making a new one.
   */
  lemma AnnoOnTokenSpan(docPath: string, rows: seq<seq<Cell>>, tokName: string, col: nat, emptyIds: seq<string>,
                        ns: string, name: string, annoCol: nat, start: nat, end: int, st: State)
    requires Filled(CellAt(rows, start, col)) && Filled(CellAt(rows, start, annoCol))
    ensures var st1 := TokenCell(docPath, rows, tokName, col, true, emptyIds, start, end, st);
      AnnoCell(docPath, rows, tokName, ns, name, annoCol, start, end, st1)
      == st1.(events := st1.events + [AddNodeLabel(SpanId(docPath, st.spanCount + 1), ns, name, Trim(CellAt(rows, start, annoCol).value))])
  {
    var key := SpanKey(start, end, tokName);
    PutGet(st.existing, key, SpanId(docPath, st.spanCount + 1), key);
  }

  // ---------------------------------------------------------------- the importer

  /** The empty tokens of multi-token mode and their unnamed ordering chain. */
  method MapEmptyTokens(u: Update, docPath: string, n: nat) returns (ids: seq<string>)
    modifies u
    ensures ids == EmptyIds(docPath, n)
    ensures u.events == old(u.events) + EmptyTokenEvents(docPath, n) + Chain(ids, AnnisNs, Ordering, "")
  {
    ids := [];
    for i := 0 to n
      invariant ids == EmptyIds(docPath, i)
      invariant u.events == old(u.events) + EmptyTokenEvents(docPath, i)
    {
      ghost var before := u.events;
      var r := MapToken(u, docPath, i + 1, "", " ", None, None);
      AppendAssoc(old(u.events), EmptyTokenEvents(docPath, i), TokenEvents(docPath, i + 1, "", " ", None, None));
      assert ids + [r.value] == EmptyIds(docPath, i + 1);
      ids := ids + [r.value];
    }
    AddOrderRelations(u, ids, "");
  }

  /** `tok_map[tok_id] = t` for every row of the token. */
  method SetLastRow(tm0: seq<(string, int)>, id: string, start: int, end: int) returns (tm: seq<(string, int)>)
    ensures tm == LastRow(tm0, id, start, end)
  {
    tm := tm0;
    var t := start;
    while t < end
      invariant t <= end || t == start
      invariant tm == if t == start then tm0 else tm0 + [(id, t - 1)]
    {
      tm := tm0 + [(id, t)];
      t := t + 1;
    }
  }

  /** One token cell: a span over its empty tokens in multi-token mode, a token otherwise. */
  method MapTokenCell(u: Update, docPath: string, rows: seq<seq<Cell>>, tokName: string, col: nat, multi: bool,
                      emptyIds: seq<string>, start: nat, end: int,
                      sc0: nat, tc0: nat, ex0: seq<(SpanKey, string)>, tm0: seq<(string, int)>)
    returns (sc: nat, tc: nat, ex: seq<(SpanKey, string)>, tm: seq<(string, int)>)
    modifies u
    ensures var r := TokenCell(docPath, rows, tokName, col, multi, emptyIds, start, end, State(old(u.events), sc0, tc0, ex0, tm0));
      u.events == r.events && sc == r.spanCount && tc == r.tokCount && ex == r.existing && tm == r.tokMap
  {
    sc, tc, ex, tm := sc0, tc0, ex0, tm0;
    var cell := CellAt(rows, start, col);
    if cell.Some? {
      var value := Trim(cell.value);
      TrimEmptyIffBlank(cell.value);
      if value != "" {
        if multi {
          sc := sc0 + 1;
          var span := MapAnnotation(u, docPath, sc, "", tokName, value, PySlice(emptyIds, start, end));
          u.Add(AddNodeLabel(span, AnnisNs, TokKey, value));
          AppendAssoc(old(u.events), LabelledNodeEvents(span, "", tokName, value, PySlice(emptyIds, start, end), Coverage, ""),
                      [AddNodeLabel(span, AnnisNs, TokKey, value)]);
          tm := SetLastRow(tm0, span, start, end);
          ex := Put(ex0, SpanKey(start, end, tokName), span);
        } else {
          tc := tc0 + 1;
          var r := MapToken(u, docPath, tc, tokName, value, None, None);
          tm := SetLastRow(tm0, r.value, start, end);
        }
      }
    }
  }

  /** The token cells of one column, window by window, stopping at the first start past the rows. */
  method MapTokenColumn(u: Update, docPath: string, rows: seq<seq<Cell>>, tokName: string, col: nat, multi: bool,
                        emptyIds: seq<string>, b: seq<int>, sc0: nat, tc0: nat, ex0: seq<(SpanKey, string)>)
    returns (sc: nat, tc: nat, ex: seq<(SpanKey, string)>, tm: seq<(string, int)>)
    requires forall k :: 0 <= k < |b| ==> b[k] >= 2
    modifies u
    ensures var r := TokenCells(docPath, rows, tokName, col, multi, emptyIds, b, 1, State(old(u.events), sc0, tc0, ex0, []));
      u.events == r.events && sc == r.spanCount && tc == r.tokCount && ex == r.existing && tm == r.tokMap
  {
    sc, tc, ex, tm := sc0, tc0, ex0, [];
    ghost var st0 := State(u.events, sc0, tc0, ex0, []);
    var i := 1;
    while i < |b|
      invariant 1 <= i
      invariant TokenCells(docPath, rows, tokName, col, multi, emptyIds, b, 1, st0)
             == TokenCells(docPath, rows, tokName, col, multi, emptyIds, b, i, State(u.events, sc, tc, ex, tm))
      decreases |b| - i
    {
      if b[i - 1] - 1 >= |rows| {
        break;
      }
      sc, tc, ex, tm := MapTokenCell(u, docPath, rows, tokName, col, multi, emptyIds, b[i - 1], b[i], sc, tc, ex, tm);
      i := i + 1;
    }
  }

  /** One annotation cell: a label on the span of the same rows if there is one, else a new span over the covered tokens. */
  method MapAnnoCell(u: Update, docPath: string, rows: seq<seq<Cell>>, tokName: string, ns: string, name: string, col: nat,
                     start: nat, end: int, sc0: nat, ghost tc: nat, ex0: seq<(SpanKey, string)>, tm: seq<(string, int)>)
    returns (sc: nat, ex: seq<(SpanKey, string)>)
    modifies u
    ensures var r := AnnoCell(docPath, rows, tokName, ns, name, col, start, end, State(old(u.events), sc0, tc, ex0, tm));
      u.events == r.events && sc == r.spanCount && ex == r.existing
  {
    sc, ex := sc0, ex0;
    var covered := Covered(tm, start, end);
    var cell := CellAt(rows, start, col);
    if cell.Some? {
      var value := Trim(cell.value);
      TrimEmptyIffBlank(cell.value);
      if value != "" {
        var key := SpanKey(start, end, tokName);
        var node := Get(ex0, key);
        if node.None? {
          sc := sc0 + 1;
          var span := MapAnnotation(u, docPath, sc, ns, name, value, covered);
          ex := Put(ex0, key, span);
        } else {
          u.Add(AddNodeLabel(node.value, ns, name, value));
        }
      }
    }
  }

  /** The annotation cells of one column, window by window. */
  method MapAnnoColumn(u: Update, docPath: string, rows: seq<seq<Cell>>, tokName: string, ns: string, name: string, col: nat,
                       b: seq<int>, sc0: nat, tc: nat, ex0: seq<(SpanKey, string)>, tm: seq<(string, int)>)
    returns (sc: nat, ex: seq<(SpanKey, string)>)
    requires forall k :: 0 <= k < |b| ==> b[k] >= 2
    modifies u
    ensures var r := AnnoCells(docPath, rows, tokName, ns, name, col, b, 1, State(old(u.events), sc0, tc, ex0, tm));
      u.events == r.events && sc == r.spanCount && ex == r.existing
  {
    sc, ex := sc0, ex0;
    ghost var st0 := State(u.events, sc0, tc, ex0, tm);
    var i := 1;
    while i < |b|
      invariant 1 <= i
      invariant AnnoCells(docPath, rows, tokName, ns, name, col, b, 1, st0)
             == AnnoCells(docPath, rows, tokName, ns, name, col, b, i, State(u.events, sc, tc, ex, tm))
      decreases |b| - i
    {
      if b[i - 1] - 1 >= |rows| {
        break;
      }
      sc, ex := MapAnnoCell(u, docPath, rows, tokName, ns, name, col, b[i - 1], b[i], sc, tc, ex, tm);
      i := i + 1;
    }
  }

  /** An annotation column whose rows are found hands its cells' state on to the next column. */
  lemma AnnoColumnsNext(docPath: string, sheet: Sheet, ri: map<int, set<int>>, tokName: string,
                        annoNames: seq<string>, j: nat, st: State)
    requires j < |annoNames| && ColumnRows(sheet, ri, annoNames[j]).Ok?
    ensures var (ns, name) := AnnoQName(tokName, annoNames[j]);
      var (col, b) := ColumnRows(sheet, ri, annoNames[j]).value;
      AnnoColumns(docPath, sheet, ri, tokName, annoNames, j, st)
        == AnnoColumns(docPath, sheet, ri, tokName, annoNames, j + 1, AnnoCells(docPath, sheet.rows, tokName, ns, name, col, b, 1, st))
  {
  }

  /** The annotation columns of one tokenization, in the configured order. */
  method MapAnnoColumns(u: Update, docPath: string, sheet: Sheet, ri: map<int, set<int>>, tokName: string,
                        annoNames: seq<string>, sc0: nat, tc: nat, ex0: seq<(SpanKey, string)>, tm: seq<(string, int)>)
    returns (r: Result<()>, sc: nat, ex: seq<(SpanKey, string)>)
    modifies u
    ensures var res := AnnoColumns(docPath, sheet, ri, tokName, annoNames, 0, State(old(u.events), sc0, tc, ex0, tm));
      && (r.Ok? <==> res.Ok?)
      && (r.Ok? ==> u.events == res.value.events && sc == res.value.spanCount && ex == res.value.existing)
  {
    sc, ex := sc0, ex0;
    ghost var st0 := State(u.events, sc0, tc, ex0, tm);
    for j := 0 to |annoNames|
      invariant AnnoColumns(docPath, sheet, ri, tokName, annoNames, 0, st0)
             == AnnoColumns(docPath, sheet, ri, tokName, annoNames, j, State(u.events, sc, tc, ex, tm))
    {
      var c;
      c, sc, ex := MapAnnoColumnAt(u, docPath, sheet, ri, tokName, annoNames, j, sc, tc, ex, tm);
      if c.Err? {
        return c, sc, ex;
      }
    }
    return Ok(()), sc, ex;
  }

  /** The `j`-th annotation column: its rows are looked up, then its cells mapped. */
  method MapAnnoColumnAt(u: Update, docPath: string, sheet: Sheet, ri: map<int, set<int>>, tokName: string,
                         annoNames: seq<string>, j: nat, sc0: nat, tc: nat, ex0: seq<(SpanKey, string)>, tm: seq<(string, int)>)
    returns (r: Result<()>, sc: nat, ex: seq<(SpanKey, string)>)
    requires j < |annoNames|
    modifies u
    ensures r.Err? ==> AnnoColumns(docPath, sheet, ri, tokName, annoNames, j, State(old(u.events), sc0, tc, ex0, tm)).Err?
    ensures r.Ok? ==>
      AnnoColumns(docPath, sheet, ri, tokName, annoNames, j, State(old(u.events), sc0, tc, ex0, tm))
        == AnnoColumns(docPath, sheet, ri, tokName, annoNames, j + 1, State(u.events, sc, tc, ex, tm))
  {
    var (ns, name) := AnnoQName(tokName, annoNames[j]);
    var cr := ColumnRows(sheet, ri, annoNames[j]);
    if cr.Err? {
      return Err(cr.msg), sc0, ex0;
    }
    var (col, b) := cr.value;
    ghost var before := State(u.events, sc0, tc, ex0, tm);
    AnnoColumnsNext(docPath, sheet, ri, tokName, annoNames, j, before);
    sc, ex := MapAnnoColumn(u, docPath, sheet.rows, tokName, ns, name, col, b, sc0, tc, ex0, tm);
    assert State(u.events, sc, tc, ex, tm) == AnnoCells(docPath, sheet.rows, tokName, ns, name, col, b, 1, before);
    return Ok(()), sc, ex;
  }

  /** One tokenization: its token column, the ordering of its tokens, then its annotation columns. */
  method MapTokenization(u: Update, docPath: string, sheet: Sheet, ri: map<int, set<int>>, tokName: string,
                         annoNames: seq<string>, multi: bool, emptyIds: seq<string>,
                         sc0: nat, tc0: nat, ex0: seq<(SpanKey, string)>, ghost tm0: seq<(string, int)>)
    returns (r: Result<()>, sc: nat, tc: nat, ex: seq<(SpanKey, string)>, tm: seq<(string, int)>)
    modifies u
    ensures var res := Tokenization(docPath, sheet, ri, tokName, annoNames, multi, emptyIds, State(old(u.events), sc0, tc0, ex0, tm0));
      && (r.Ok? <==> res.Ok?)
      && (r.Ok? ==> u.events == res.value.events && sc == res.value.spanCount && tc == res.value.tokCount
                    && ex == res.value.existing && tm == res.value.tokMap)
  {
    var cr := ColumnRows(sheet, ri, tokName);
    if cr.Err? {
      return Err(cr.msg), sc0, tc0, ex0, [];
    }
    var (col, b) := cr.value;
    sc, tc, ex, tm := MapTokenColumn(u, docPath, sheet.rows, tokName, col, multi, emptyIds, b, sc0, tc0, ex0);
    AddOrderRelations(u, OrderedTokens(tm), tokName);
    r, sc, ex := MapAnnoColumns(u, docPath, sheet, ri, tokName, annoNames, sc, tc, ex, tm);
  }

  /** `map_spreadsheet`: appends the document's tokens, spans and orderings to the update, or fails. */
  method MapSpreadsheet(u: Update, docPath: string, sheet: Sheet, columnMap: seq<(string, seq<string>)>) returns (r: Result<()>)
    modifies u
    ensures r.Ok? <==> Spreadsheet(old(u.events), docPath, sheet, columnMap).Ok?
    ensures r.Ok? ==> u.events == Spreadsheet(old(u.events), docPath, sheet, columnMap).value
  {
    if sheet.rows == [] {
      return Err(NoHeaderMsg);
    }
    var ri := RowIndices(sheet);
    if ri.Err? {
      return Err(ri.msg);
    }
    var multi := IsMultiTok(columnMap);
    var emptyIds: seq<string> := [];
    var tc: nat := 0;
    if multi {
      emptyIds := MapEmptyTokens(u, docPath, |sheet.rows| + 2);
      tc := |emptyIds|;
    }
    ghost var st0 := State(u.events, 0, tc, [], []);
    assert st0 == Initial(old(u.events), docPath, sheet, multi);
    var sc: nat := 0;
    var ex: seq<(SpanKey, string)> := [];
    var tm: seq<(string, int)> := [];
    for k := 0 to |columnMap|
      invariant Tokenizations(docPath, sheet, ri.value, columnMap, emptyIds, 0, st0)
             == Tokenizations(docPath, sheet, ri.value, columnMap, emptyIds, k, State(u.events, sc, tc, ex, tm))
    {
      var res;
      res, sc, tc, ex, tm := MapTokenization(u, docPath, sheet, ri.value, columnMap[k].0, columnMap[k].1, multi, emptyIds, sc, tc, ex, tm);
      if res.Err? {
        return Err(res.msg);
      }
    }
    return Ok(());
  }
}
