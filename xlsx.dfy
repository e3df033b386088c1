/**
 * The Rust spreadsheet importer: the data sheet of an Excel workbook becomes one empty
 * base token per data row and, for every configured column, one node per run of rows
 * that a merged cell (or a single cell) spans. Row 1 names the columns. Merged cells
 * hide the rows below their first one, so each column has its own set of valid rows,
 * and consecutive valid rows delimit the nodes. Reading the workbook is outside the
 * model: the importer starts from the header cells, the cell values by column and row,
 * the highest row and the parsed coordinates of the merged ranges.
 */
module Xlsx {
  import opened Wrappers
  import opened Strings
  import opened Events
  import opened Sorting
  import opened GraphUpdateUtil
  import opened Dicts
  import opened SpreadsheetImporter

  const MultiColumnMsg := "Merged cells across multiple columns cannot be mapped."
  const DefaultLayer := "default_layer"

  /** A 1-based column number. */
  type ColNum = x: nat | x >= 1 witness 1

  /** A merged range as far as its coordinates could be parsed. */
  datatype MergeCell = MergeCell(startCol: Option<ColNum>, endCol: Option<ColNum>, startRow: Option<nat>, endRow: Option<nat>)

  /**
   * `MergedCellHelper`: the valid rows of each 0-based column, and for the rows a merged
   * cell spans (except its last) the first row of that cell.
   */
  datatype Helper = Helper(validRows: map<nat, set<int>>, startRowByColumn: map<nat, map<int, int>>)

  // ---------------------------------------------------------------- MergedCellHelper::new

  /** Every known column starts with the rows `2..=highest + 1` and no merged cells. */
  function Prefill(cols: set<nat>, highest: nat): Helper
  {
    Helper(map c | c in cols :: RangeSet(2, highest + 2), map c | c in cols :: map[])
  }

  /** `for i in start..end { starts.insert(i, start) }`. */
  function MarkStarts(starts: map<int, int>, start: int, end: int): map<int, int>
    decreases end - start
  {
    if end <= start then starts else MarkStarts(starts, start, end - 1)[end - 1 := start]
  }

  /** A merged range over more than one column, which the importer refuses. */
  predicate MultiColumn(mc: MergeCell)
  {
    mc.startCol.Some? && mc.endCol.Some? && mc.endCol.value != mc.startCol.value
  }

  /** A merged range whose start column and start row could be parsed; the end defaults to the start. */
  predicate Usable(mc: MergeCell)
  {
    mc.startCol.Some? && !MultiColumn(mc) && mc.startRow.Some?
  }

  function StartRow(mc: MergeCell): nat
    requires Usable(mc)
  {
    mc.startRow.value
  }

  function EndRow(mc: MergeCell): nat
    requires Usable(mc)
  {
    if mc.endRow.Some? then mc.endRow.value else mc.startRow.value
  }

  /** The 0-based column of a merged range. */
  function Column(mc: MergeCell): nat
    requires Usable(mc)
  {
    mc.startCol.value - 1
  }

  /**
   * One merged range: a range over several columns fails; one without a start column or
   * start row is skipped; otherwise the rows below its first are removed from its column
   * (if the column is known) and its rows but the last are marked with its first row.
   */
  function MergeStep(h: Helper, mc: MergeCell): Result<Helper>
  {
    if mc.startCol.None? then Ok(h)
    else if MultiColumn(mc) then Err(MultiColumnMsg)
    else if mc.startRow.None? then Ok(h)
    else
      var c, s, e := Column(mc), StartRow(mc), EndRow(mc);
      var valid := if c in h.validRows then h.validRows[c := h.validRows[c] - RangeSet(s + 1, e + 1)] else h.validRows;
      var starts := if c in h.startRowByColumn then h.startRowByColumn[c] else map[];
      Ok(Helper(valid, if s < e then h.startRowByColumn[c := MarkStarts(starts, s, e)] else h.startRowByColumn))
  }

  /** The merged ranges from the `k`-th on. */
  function HelperFrom(h: Helper, merges: seq<MergeCell>, k: nat): Result<Helper>
    decreases |merges| - k
  {
    if k >= |merges| then Ok(h)
    else match MergeStep(h, merges[k])
      case Err(m) => Err(m)
      case Ok(h1) => HelperFrom(h1, merges, k + 1)
  }

  /** `MergedCellHelper::new` for the columns of the header. */
  function NewHelperOf(cols: set<nat>, highest: nat, merges: seq<MergeCell>): Result<Helper>
  {
    HelperFrom(Prefill(cols, highest), merges, 0)
  }

  /** The marks: the rows `[start, end)` point to `start`, every other row keeps its mark. */
  lemma {:induction false} MarkStartsAt(starts: map<int, int>, start: int, end: int)
    ensures forall i :: i in MarkStarts(starts, start, end) <==> i in starts || start <= i < end
    ensures forall i :: start <= i < end ==> MarkStarts(starts, start, end)[i] == start
    ensures forall i :: i in starts && !(start <= i < end) ==> MarkStarts(starts, start, end)[i] == starts[i]
    decreases end - start
  {
    if start < end {
      MarkStartsAt(starts, start, end - 1);
    }
  }

  /** Building the helper fails exactly when some merged range spans several columns. */
  lemma {:induction false} HelperErrIff(h: Helper, merges: seq<MergeCell>, k: nat)
    ensures HelperFrom(h, merges, k).Err? <==> exists j :: k <= j < |merges| && MultiColumn(merges[j])
    decreases |merges| - k
  {
    if k < |merges| {
      match MergeStep(h, merges[k])
      case Err(_) =>
      case Ok(h1) => HelperErrIff(h1, merges, k + 1);
    }
  }

  /** A usable merged range in column `c` hides row `r`: `r` lies below its first row, up to its last. */
  predicate Hides(mc: MergeCell, c: nat, r: int)
  {
    Usable(mc) && Column(mc) == c && StartRow(mc) < r <= EndRow(mc)
  }

  /**
   * What the helper's valid rows and marks satisfy after the ranges before `k`: the
   * prefilled columns and no others; a row is valid when it lies in `2..=highest + 1` and
   * no earlier range hides it; a valid row carries no mark but its own; and every known
   * column has a map of marks.
   */
  ghost predicate HelperInv(h: Helper, cols: set<nat>, highest: nat, merges: seq<MergeCell>, k: nat)
    requires k <= |merges|
  {
    && h.validRows.Keys == cols
    && cols <= h.startRowByColumn.Keys
    && (forall c, r :: c in cols ==>
          (r in h.validRows[c] <==> 2 <= r < highest + 2 && forall j :: 0 <= j < k ==> !Hides(merges[j], c, r)))
    && (forall c, r :: c in cols && r in h.validRows[c] && r in h.startRowByColumn[c] ==> h.startRowByColumn[c][r] == r)
  }

  lemma PrefillInv(cols: set<nat>, highest: nat, merges: seq<MergeCell>)
    ensures HelperInv(Prefill(cols, highest), cols, highest, merges, 0)
  {
    forall c, r | c in cols
      ensures r in Prefill(cols, highest).validRows[c] <==> 2 <= r < highest + 2
    {
      RangeMembers(2, highest + 2);
    }
  }

  lemma {:induction false} MergeStepInv(h: Helper, cols: set<nat>, highest: nat, merges: seq<MergeCell>, k: nat)
    requires k < |merges|
    requires HelperInv(h, cols, highest, merges, k)
    requires MergeStep(h, merges[k]).Ok?
    ensures HelperInv(MergeStep(h, merges[k]).value, cols, highest, merges, k + 1)
  {
    var mc := merges[k];
    var h1 := MergeStep(h, mc).value;
    if Usable(mc) {
      var c, s, e := Column(mc), StartRow(mc), EndRow(mc);
      RangeMembers(s + 1, e + 1);
      var starts := if c in h.startRowByColumn then h.startRowByColumn[c] else map[];
      MarkStartsAt(starts, s, e);
      forall c', r | c' in cols
        ensures r in h1.validRows[c'] <==> 2 <= r < highest + 2 && forall j :: 0 <= j < k + 1 ==> !Hides(merges[j], c', r)
      {
        assert Hides(mc, c', r) <==> c' == c && s < r <= e;
      }
    } else {
      forall c', r | c' in cols
        ensures r in h1.validRows[c'] <==> 2 <= r < highest + 2 && forall j :: 0 <= j < k + 1 ==> !Hides(merges[j], c', r)
      {
        assert !Hides(mc, c', r);
      }
    }
  }

  lemma {:induction false} HelperFromInv(h: Helper, cols: set<nat>, highest: nat, merges: seq<MergeCell>, k: nat)
    requires k <= |merges|
    requires HelperInv(h, cols, highest, merges, k)
    requires HelperFrom(h, merges, k).Ok?
    ensures HelperInv(HelperFrom(h, merges, k).value, cols, highest, merges, |merges|)
    decreases |merges| - k
  {
    if k < |merges| {
      MergeStepInv(h, cols, highest, merges, k);
      HelperFromInv(MergeStep(h, merges[k]).value, cols, highest, merges, k + 1);
    }
  }

  /**
   * The helper has a set of valid rows for exactly the header's columns; a row is valid
   * for a column exactly when it lies in `2..=highest + 1` and no merged range of that
   * column hides it; a valid row is marked, if at all, with itself; and every column has
   * its marks.
   */
  lemma NewHelperValid(cols: set<nat>, highest: nat, merges: seq<MergeCell>)
    requires NewHelperOf(cols, highest, merges).Ok?
    ensures HelperInv(NewHelperOf(cols, highest, merges).value, cols, highest, merges, |merges|)
  {
    PrefillInv(cols, highest, merges);
    HelperFromInv(Prefill(cols, highest), cols, highest, merges, 0);
  }

  /** One merged range, with the loop that marks its rows. */
  method ApplyMerge(valid: map<nat, set<int>>, starts: map<nat, map<int, int>>, mc: MergeCell)
    returns (r: Result<()>, valid1: map<nat, set<int>>, starts1: map<nat, map<int, int>>)
    ensures MergeStep(Helper(valid, starts), mc).Err? <==> r.Err?
    ensures r.Ok? ==> MergeStep(Helper(valid, starts), mc).value == Helper(valid1, starts1)
  {
    valid1, starts1 := valid, starts;
    if mc.startCol.None? {
      return Ok(()), valid1, starts1;
    }
    var col := mc.startCol.value;
    var endCol := if mc.endCol.Some? then mc.endCol.value else col;
    if col != endCol {
      return Err(MultiColumnMsg), valid1, starts1;
    }
    if mc.startRow.None? {
      return Ok(()), valid1, starts1;
    }
    var s := mc.startRow.value;
    var e := if mc.endRow.Some? then mc.endRow.value else s;
    var c: nat := col as int - 1;
    if c in valid {
      valid1 := valid[c := valid[c] - RangeSet(s + 1, e + 1)];
    }
    var i := s;
    while i < e
      invariant s <= i <= if s < e then e else s
      invariant starts1 == if i == s then starts
                           else starts[c := MarkStarts(if c in starts then starts[c] else map[], s, i)]
    {
      var marks := if c in starts1 then starts1[c] else map[];
      starts1 := starts1[c := marks[i := s]];
      i := i + 1;
    }
    return Ok(()), valid1, starts1;
  }

  /** `MergedCellHelper::new`: prefills every header column, then applies the merged ranges in order. */
  method NewHelper(nameToCol: map<string, nat>, highest: nat, merges: seq<MergeCell>) returns (r: Result<Helper>)
    ensures r == NewHelperOf(nameToCol.Values, highest, merges)
  {
    var valid: map<nat, set<int>> := map[];
    var starts: map<nat, map<int, int>> := map[];
    var todo := nameToCol.Values;
    while todo != {}
      invariant todo <= nameToCol.Values
      invariant valid == map c | c in nameToCol.Values - todo :: RangeSet(2, highest + 2)
      invariant starts == map c | c in nameToCol.Values - todo :: map[]
      decreases |todo|
    {
      var c :| c in todo;
      valid := valid[c := RangeSet(2, highest + 2)];
      starts := starts[c := map[]];
      todo := todo - {c};
    }
    ghost var h0 := Helper(valid, starts);
    assert h0 == Prefill(nameToCol.Values, highest);
    for k := 0 to |merges|
      invariant NewHelperOf(nameToCol.Values, highest, merges) == HelperFrom(Helper(valid, starts), merges, k)
    {
      var res;
      res, valid, starts := ApplyMerge(valid, starts, merges[k]);
      if res.Err? {
        return Err(MultiColumnMsg);
      }
    }
    return Ok(Helper(valid, starts));
  }

  // ---------------------------------------------------------------- the data sheet

  /**
   * A data sheet: the header cells in the order the workbook lists them (column number and
   * text), the text of every present cell by (column, row), the highest row and the
   * merged ranges.
   */
  datatype DataSheet = DataSheet(header: seq<(ColNum, string)>, cells: map<(nat, int), string>, highest: nat,
                                 merges: seq<MergeCell>)

  /** A `BTreeMap<String, BTreeSet<String>>`: its entries in key order, each set in order. */
  type ColumnMap = seq<(string, seq<string>)>

  /** `name_to_col_0index` after the first `k` header cells: a non-blank name points to its 0-based column, the later cell winning. */
  function HeaderNames(header: seq<(ColNum, string)>, k: nat): map<string, nat>
    requires k <= |header|
  {
    if k == 0 then map[]
    else
      var m := HeaderNames(header, k - 1);
      var name := Trim(header[k - 1].1);
      if name != "" then m[name := header[k - 1].0 as int - 1] else m
  }

  function SeqSet(names: seq<string>): set<string>
  {
    set n | n in names
  }

  /** `known_names`: every annotation name of the configuration. */
  function KnownNames(cm: ColumnMap): set<string>
  {
    if cm == [] then {} else KnownNames(cm[..|cm| - 1]) + SeqSet(cm[|cm| - 1].1)
  }

  /** An empty fallback adds (or resets) the entry `"" => {}`, which sorts first. */
  function FallbackKey(cm: ColumnMap, fallback: Option<string>): ColumnMap
  {
    if fallback != Some("") then cm
    else if cm != [] && cm[0].0 == "" then [("", [])] + cm[1..]
    else [("", [])] + cm
  }

  /** `BTreeSet::insert`. */
  function SetInsert(names: seq<string>, x: string): seq<string>
  {
    if x in names then names else InsertBy(names, x, StringLe)
  }

  /**
   * The full map after the first `k` header cells: a non-blank name that is neither an
   * annotation name nor a key joins the fallback group when that group exists.
   */
  function WithFallback(header: seq<(ColNum, string)>, k: nat, known: set<string>, fm0: ColumnMap,
                        fallback: Option<string>): ColumnMap
    requires k <= |header|
  {
    if k == 0 then fm0
    else
      var fm := WithFallback(header, k - 1, known, fm0, fallback);
      var name := Trim(header[k - 1].1);
      if name != "" && fallback.Some? && name !in known && name !in Keys(fm) && Get(fm, fallback.value).Some?
      then Put(fm, fallback.value, SetInsert(Get(fm, fallback.value).value, name))
      else fm
  }

  /** The base tokens `t1` … `t(highest - 1)`, one per data row. */
  function BaseTokens(docPath: string, highest: nat): (ids: seq<string>)
    ensures |ids| == if highest < 2 then 0 else highest - 1
  {
    var n := if highest < 2 then 0 else highest - 1;
    seq(n, k requires 0 <= k < n => TokenId(docPath, k + 1))
  }

  /** One base token: a node with an empty text, in the default layer, part of the document. */
  function BaseTokenEvents(docPath: string, tok: string): seq<Event>
  {
    [Node(tok), AddNodeLabel(tok, AnnisNs, TokKey, " "), AddNodeLabel(tok, AnnisNs, LayerKey, DefaultLayer),
     Edge(tok, docPath, AnnisNs, PartOf, "")]
  }

  function AllBaseEvents(docPath: string, n: nat): seq<Event>
  {
    if n == 0 then [] else AllBaseEvents(docPath, n - 1) + BaseTokenEvents(docPath, TokenId(docPath, n))
  }

  /** The node of a column's rows `[start, end)`: `doc#tok_start-end`. */
  function NodeName(docPath: string, tokName: string, start: int, end: int): string
  {
    docPath + "#" + tokName + "_" + IntToString(start) + "-" + IntToString(end)
  }

  /** The base tokens of the rows `[start, end)`, `base_tokens[start - 2..end - 2]`. */
  function Overlapped(base: seq<string>, start: int, end: int): seq<string>
  {
    if 2 <= start <= end <= |base| + 2 then base[start - 2..end - 2] else []
  }

  /** The column headed `name`, or else the one headed with the name part of `name`. */
  function ColumnIndex(nameToCol: map<string, nat>, name: string): Option<nat>
  {
    if name in nameToCol then Some(nameToCol[name])
    else
      var k := SplitQName(name).1;
      if k in nameToCol then Some(nameToCol[k]) else None
  }

  /** The valid rows of the segmentation column, when it has some. */
  function SegRows(h: Helper, nameToCol: map<string, nat>, tokName: string): Option<set<int>>
  {
    if tokName in nameToCol && nameToCol[tokName] in h.validRows then Some(h.validRows[nameToCol[tokName]]) else None
  }

  /** The row after the segmentation node starting at row `r`: the next valid row of its column. */
  function SegEnd(segRows: set<int>, highest: nat, r: int): int
  {
    var later := RowsFrom(segRows, r + 1, highest + 2);
    if later != [] then later[0] else r + 1
  }

  /** The end row the source computes instead: the row's mark, or the row itself. */
  function SegEndAsWritten(marks: map<int, int>, r: int): int
  {
    if r in marks then marks[r] else r
  }

  /** The coverage edges from an annotation node to the segmentation nodes starting in `[start, r)`. */
  function SegEdges(docPath: string, tokName: string, node: string, segRows: set<int>, highest: nat, start: int, r: int): seq<Event>
    decreases r - start
  {
    if r <= start then []
    else
      SegEdges(docPath, tokName, node, segRows, highest, start, r - 1)
      + (if r - 1 in segRows
         then [Edge(node, NodeName(docPath, tokName, r - 1, SegEnd(segRows, highest, r - 1)), AnnisNs, Coverage, "")]
         else [])
  }

  /** What one window `[start, end)` of a column adds. */
  datatype ColState = ColState(events: seq<Event>, nodes: seq<string>)

  /** The cell text of a window, unless the cell is absent or blank. */
  function WindowValue(sheet: DataSheet, col: nat, start: int): Option<string>
  {
    if (col + 1, start) !in sheet.cells then None
    else
      var value := Trim(sheet.cells[(col + 1, start)]);
      if value == "" then None else Some(value)
  }

  /**
   * The events of a filled window: its node, part of the document; for a tokenization its
   * layer and either its text (the token column) or coverage of the segmentation nodes;
   * its annotation; and coverage of its base tokens.
   */
  function WindowEvents(docPath: string, sheet: DataSheet, seg: Option<set<int>>, tokName: string, name: string,
                        base: seq<string>, start: int, end: int, value: string): seq<Event>
  {
    var node := NodeName(docPath, tokName, start, end);
    var (ns, annoName) := SplitQName(name);
    [Node(node), Edge(node, docPath, AnnisNs, PartOf, "")]
    + LayerEvents(docPath, sheet, seg, tokName, name, node, start, end, value)
    + [AddNodeLabel(node, if ns.Some? then ns.value else tokName, annoName, value)]
    + EdgeRow(node, Overlapped(base, start, end), Coverage, "")
  }

  /** The tokenization part of a window: its layer, and its text or its segmentation coverage. */
  function LayerEvents(docPath: string, sheet: DataSheet, seg: Option<set<int>>, tokName: string, name: string,
                       node: string, start: int, end: int, value: string): seq<Event>
  {
    if tokName == "" then []
    else [AddNodeLabel(node, AnnisNs, LayerKey, tokName)]
         + (if name == tokName then [AddNodeLabel(node, AnnisNs, TokKey, value)]
            else if seg.Some? then SegEdges(docPath, tokName, node, seg.value, sheet.highest, start, end)
            else [])
  }

  function WindowStep(docPath: string, sheet: DataSheet, seg: Option<set<int>>, tokName: string, name: string, col: nat,
                      base: seq<string>, start: int, end: int, cs: ColState): ColState
  {
    match WindowValue(sheet, col, start)
    case None => cs
    case Some(value) =>
      ColState(cs.events + WindowEvents(docPath, sheet, seg, tokName, name, base, start, end, value),
               if name != "" && name == tokName then cs.nodes + [NodeName(docPath, tokName, start, end)] else cs.nodes)
  }

  /** The windows `(b[i - 1], b[i])` of a column's sorted valid rows, from the `i`-th on. */
  function Windows(docPath: string, sheet: DataSheet, seg: Option<set<int>>, tokName: string, name: string, col: nat,
                   base: seq<string>, b: seq<int>, i: nat, cs: ColState): ColState
    requires 1 <= i
    decreases |b| - i
  {
    if i >= |b| then cs
    else Windows(docPath, sheet, seg, tokName, name, col, base, b, i + 1,
                 WindowStep(docPath, sheet, seg, tokName, name, col, base, b[i - 1], b[i], cs))
  }

  /** The windows only append to the log they start from. */
  lemma {:induction false} WindowsShift(docPath: string, sheet: DataSheet, seg: Option<set<int>>, tokName: string,
                                        name: string, col: nat, base: seq<string>, b: seq<int>, i: nat,
                                        log: seq<Event>, events: seq<Event>, nodes: seq<string>)
    requires 1 <= i
    ensures var w := Windows(docPath, sheet, seg, tokName, name, col, base, b, i, ColState(log + events, nodes));
      var w0 := Windows(docPath, sheet, seg, tokName, name, col, base, b, i, ColState(events, nodes));
      w.events == log + w0.events && w.nodes == w0.nodes
    decreases |b| - i
  {
    if i < |b| {
      var st := WindowStep(docPath, sheet, seg, tokName, name, col, base, b[i - 1], b[i], ColState(events, nodes));
      var st' := WindowStep(docPath, sheet, seg, tokName, name, col, base, b[i - 1], b[i], ColState(log + events, nodes));
      if WindowValue(sheet, col, b[i - 1]).Some? {
        AppendAssoc(log, events, WindowEvents(docPath, sheet, seg, tokName, name, base, b[i - 1], b[i],
                                              WindowValue(sheet, col, b[i - 1]).value));
      }
      assert st' == ColState(log + st.events, st.nodes);
      WindowsShift(docPath, sheet, seg, tokName, name, col, base, b, i + 1, log, st.events, st.nodes);
    }
  }

  /** A column's sorted valid rows; they lie in `2..=highest + 1`. */
  function SortedRows(sheet: DataSheet, rows: set<int>): seq<int>
  {
    RowsFrom(rows, 2, sheet.highest + 2)
  }

  /** One name of a group: nothing for an unknown column, else its windows and, for the token column, their ordering. */
  function ColumnEvents(docPath: string, sheet: DataSheet, h: Helper, nameToCol: map<string, nat>, tokName: string,
                        name: string, base: seq<string>): seq<Event>
  {
    match ColumnIndex(nameToCol, name)
    case None => []
    case Some(col) =>
      if col !in h.validRows then []
      else
        var cs := Windows(docPath, sheet, SegRows(h, nameToCol, tokName), tokName, name, col, base,
                          SortedRows(sheet, h.validRows[col]), 1, ColState([], []));
        cs.events + Chain(cs.nodes, DefaultNs, Ordering, tokName)
  }

  /** The names of a group: its tokenization (unless it is the empty fallback group) and then its annotations. */
  function GroupNames(entry: (string, seq<string>)): seq<string>
  {
    (if entry.0 == "" then [] else [entry.0]) + entry.1
  }

  function GroupEvents(docPath: string, sheet: DataSheet, h: Helper, nameToCol: map<string, nat>, tokName: string,
                       names: seq<string>, base: seq<string>, j: nat): seq<Event>
    requires j <= |names|
  {
    if j == 0 then []
    else GroupEvents(docPath, sheet, h, nameToCol, tokName, names, base, j - 1)
         + ColumnEvents(docPath, sheet, h, nameToCol, tokName, names[j - 1], base)
  }

  function AllGroups(docPath: string, sheet: DataSheet, h: Helper, nameToCol: map<string, nat>, fm: ColumnMap,
                     base: seq<string>, k: nat): seq<Event>
    requires k <= |fm|
  {
    if k == 0 then []
    else AllGroups(docPath, sheet, h, nameToCol, fm, base, k - 1)
         + GroupEvents(docPath, sheet, h, nameToCol, fm[k - 1].0, GroupNames(fm[k - 1]), base, |GroupNames(fm[k - 1])|)
  }

  /** `import_datasheet`: the events of the data sheet, or the error of a merged range. */
  function Datasheet(docPath: string, sheet: DataSheet, cm: ColumnMap, fallback: Option<string>): Result<seq<Event>>
  {
    var nameToCol := HeaderNames(sheet.header, |sheet.header|);
    var fm := WithFallback(sheet.header, |sheet.header|, KnownNames(cm), FallbackKey(cm, fallback), fallback);
    match NewHelperOf(nameToCol.Values, sheet.highest, sheet.merges)
    case Err(m) => Err(m)
    case Ok(h) => Ok(DatasheetEvents(docPath, sheet, h, nameToCol, fm))
  }

  /** The events of a data sheet once its header and merged cells are known. */
  function DatasheetEvents(docPath: string, sheet: DataSheet, h: Helper, nameToCol: map<string, nat>, fm: ColumnMap): seq<Event>
  {
    var base := BaseTokens(docPath, sheet.highest);
    AllBaseEvents(docPath, |base|) + Chain(base, AnnisNs, Ordering, "") + AllGroups(docPath, sheet, h, nameToCol, fm, base, |fm|)
  }

  // ---------------------------------------------------------------- properties of the data sheet

  /** `BTreeSet::insert` adds exactly the new name. */
  lemma SetInsertMembers(names: seq<string>, x: string)
    ensures forall y :: y in SetInsert(names, x) <==> y in names || y == x
  {
    if x !in names {
      InsertByPermutes(names, x, StringLe);
      forall y ensures y in SetInsert(names, x) <==> y in names || y == x {
        assert y in SetInsert(names, x) <==> y in multiset(SetInsert(names, x));
        assert y in names <==> y in multiset(names);
      }
    }
  }

  /** Collecting unknown columns never adds or reorders a group. */
  lemma {:induction false} WithFallbackKeys(header: seq<(ColNum, string)>, k: nat, known: set<string>, fm0: ColumnMap,
                                            fallback: Option<string>)
    requires k <= |header|
    ensures Keys(WithFallback(header, k, known, fm0, fallback)) == Keys(fm0)
  {
    if k > 0 {
      WithFallbackKeys(header, k - 1, known, fm0, fallback);
      var fm := WithFallback(header, k - 1, known, fm0, fallback);
      if fallback.Some? && Get(fm, fallback.value).Some? {
        GetKeys(fm, fallback.value);
        PutKeysOrder(fm, fallback.value, SetInsert(Get(fm, fallback.value).value, Trim(header[k - 1].1)));
      }
    }
  }

  /** Without a group of that name the fallback is only a warning: the map stays as it is. */
  lemma {:induction false} WithFallbackNoGroup(header: seq<(ColNum, string)>, k: nat, known: set<string>, fm0: ColumnMap,
                                               fallback: Option<string>)
    requires k <= |header|
    requires fallback.None? || Get(fm0, fallback.value).None?
    ensures WithFallback(header, k, known, fm0, fallback) == fm0
  {
    if k > 0 {
      WithFallbackNoGroup(header, k - 1, known, fm0, fallback);
    }
  }

  /**
   * With a fallback group, that group ends up with its configured names and every
   * non-blank header name that is neither a configured annotation nor a group; every
   * other group keeps its names.
   */
  lemma {:induction false} FallbackCollects(header: seq<(ColNum, string)>, k: nat, known: set<string>, fm0: ColumnMap,
                                            f: string)
    requires k <= |header|
    requires Get(fm0, f).Some?
    ensures Get(WithFallback(header, k, known, fm0, Some(f)), f).Some?
    ensures forall x :: x in Get(WithFallback(header, k, known, fm0, Some(f)), f).value <==>
      x in Get(fm0, f).value
      || exists j :: 0 <= j < k && x == Trim(header[j].1) && Unknown(x, known, fm0)
  {
    FallbackCollected(header, k, known, fm0, f);
    forall x ensures UnknownIn(header, k, known, fm0, x) <==> exists j :: 0 <= j < k && x == Trim(header[j].1) && Unknown(x, known, fm0)
    {
      UnknownInIff(header, k, known, fm0, x);
    }
  }

  /** Some of the first `k` header names is `x`, and `x` is unknown. */
  predicate UnknownIn(header: seq<(ColNum, string)>, k: nat, known: set<string>, fm0: ColumnMap, x: string)
    requires k <= |header|
  {
    k > 0 && ((x == Trim(header[k - 1].1) && Unknown(x, known, fm0)) || UnknownIn(header, k - 1, known, fm0, x))
  }

  lemma {:induction false} UnknownInIff(header: seq<(ColNum, string)>, k: nat, known: set<string>, fm0: ColumnMap, x: string)
    requires k <= |header|
    ensures UnknownIn(header, k, known, fm0, x) <==> exists j :: 0 <= j < k && x == Trim(header[j].1) && Unknown(x, known, fm0)
  {
    if k > 0 {
      UnknownInIff(header, k - 1, known, fm0, x);
      if j :| 0 <= j < k && x == Trim(header[j].1) && Unknown(x, known, fm0) {
        if j < k - 1 {
          assert UnknownIn(header, k - 1, known, fm0, x);
        }
      }
    }
  }

  /** The fallback group's names at header cell `k`, with the one-cell-at-a-time predicate. */
  lemma {:induction false} FallbackCollected(header: seq<(ColNum, string)>, k: nat, known: set<string>, fm0: ColumnMap,
                                             f: string)
    requires k <= |header|
    requires Get(fm0, f).Some?
    ensures Get(WithFallback(header, k, known, fm0, Some(f)), f).Some?
    ensures forall x :: x in Get(WithFallback(header, k, known, fm0, Some(f)), f).value <==>
      x in Get(fm0, f).value || UnknownIn(header, k, known, fm0, x)
  {
    if k > 0 {
      FallbackCollected(header, k - 1, known, fm0, f);
      var names := Get(WithFallback(header, k - 1, known, fm0, Some(f)), f).value;
      FallbackStep(header, k, known, fm0, f);
      SetInsertMembers(names, Trim(header[k - 1].1));
    }
  }

  /** One header cell adds its name to the existing fallback group exactly when the name is unknown. */
  lemma FallbackStep(header: seq<(ColNum, string)>, k: nat, known: set<string>, fm0: ColumnMap, f: string)
    requires 0 < k <= |header|
    requires Get(WithFallback(header, k - 1, known, fm0, Some(f)), f).Some?
    ensures var names := Get(WithFallback(header, k - 1, known, fm0, Some(f)), f).value;
      var name := Trim(header[k - 1].1);
      Get(WithFallback(header, k, known, fm0, Some(f)), f) == Some(if Unknown(name, known, fm0) then SetInsert(names, name) else names)
  {
    WithFallbackKeys(header, k - 1, known, fm0, Some(f));
    var fm := WithFallback(header, k - 1, known, fm0, Some(f));
    PutGet(fm, f, SetInsert(Get(fm, f).value, Trim(header[k - 1].1)), f);
  }

  /** A header name that names neither a configured annotation nor a group. */
  predicate Unknown(x: string, known: set<string>, fm0: ColumnMap)
  {
    x != "" && x !in known && x !in Keys(fm0)
  }

  /** Every group but the fallback keeps its configured names. */
  lemma {:induction false} FallbackOthers(header: seq<(ColNum, string)>, k: nat, known: set<string>, fm0: ColumnMap,
                                          f: string, g: string)
    requires k <= |header|
    requires g != f
    ensures Get(WithFallback(header, k, known, fm0, Some(f)), g) == Get(fm0, g)
  {
    if k > 0 {
      FallbackOthers(header, k - 1, known, fm0, f, g);
      var fm := WithFallback(header, k - 1, known, fm0, Some(f));
      if Get(fm, f).Some? {
        PutGet(fm, f, SetInsert(Get(fm, f).value, Trim(header[k - 1].1)), g);
      }
    }
  }

  /** The base events are four per token, in row order. */
  lemma {:induction false} BaseEventsAt(docPath: string, n: nat)
    ensures |AllBaseEvents(docPath, n)| == 4 * n
    ensures forall i :: 0 <= i < n ==> AllBaseEvents(docPath, n)[4 * i..4 * i + 4] == BaseTokenEvents(docPath, TokenId(docPath, i + 1))
  {
    if n > 0 {
      BaseEventsAt(docPath, n - 1);
      var prev := AllBaseEvents(docPath, n - 1);
      forall i | 0 <= i < n
        ensures AllBaseEvents(docPath, n)[4 * i..4 * i + 4] == BaseTokenEvents(docPath, TokenId(docPath, i + 1))
      {
        if i < n - 1 {
          assert AllBaseEvents(docPath, n)[4 * i..4 * i + 4] == prev[4 * i..4 * i + 4];
        }
      }
    }
  }

  /** The base tokens are ordered in the unnamed ordering, each row before the next. */
  lemma BaseTokensOrdered(docPath: string, highest: nat)
    ensures |Chain(BaseTokens(docPath, highest), AnnisNs, Ordering, "")| == if highest < 2 then 0 else highest - 2
    ensures var base := BaseTokens(docPath, highest);
      forall i :: 0 <= i < |base| - 1 ==>
        Chain(base, AnnisNs, Ordering, "")[i] == Edge(TokenId(docPath, i + 1), TokenId(docPath, i + 2), AnnisNs, Ordering, "")
  {
    var base := BaseTokens(docPath, highest);
    ChainAt(base, AnnisNs, Ordering, "");
    forall i | 0 <= i < |base| - 1
      ensures Chain(base, AnnisNs, Ordering, "")[i] == Edge(TokenId(docPath, i + 1), TokenId(docPath, i + 2), AnnisNs, Ordering, "")
    {
      assert base[i] == TokenId(docPath, i + 1) && base[i + 1] == TokenId(docPath, i + 2);
    }
  }

  /** The smallest row of a range comes first. */
  lemma RowsFromFirst(rs: set<int>, lo: int, hi: int, x: int)
    requires x in rs && lo <= x < hi
    ensures RowsFrom(rs, lo, hi) != [] && RowsFrom(rs, lo, hi)[0] <= x
  {
    RowsFromMembers(rs, lo, hi);
    var b := RowsFrom(rs, lo, hi);
    assert x in b;
    var k :| 0 <= k < |b| && b[k] == x;
    assert k == 0 || b[0] < b[k];
  }

  /**
   * A window of a column's valid rows lies within the data rows, so it covers the base
   * tokens of its rows: row `r` is token `r - 1`.
   */
  lemma WindowInBounds(docPath: string, rs: set<int>, highest: nat, i: nat)
    requires forall r :: r in rs ==> 2 <= r < highest + 2
    requires 1 <= i < |RowsFrom(rs, 2, highest + 2)|
    ensures var b := RowsFrom(rs, 2, highest + 2);
      2 <= b[i - 1] < b[i] <= highest + 1
      && Overlapped(BaseTokens(docPath, highest), b[i - 1], b[i])
         == seq(b[i] - b[i - 1], k requires 0 <= k < b[i] - b[i - 1] => TokenId(docPath, b[i - 1] - 1 + k))
  {
    var b := RowsFrom(rs, 2, highest + 2);
    RowsFromMembers(rs, 2, highest + 2);
    assert b[i - 1] in b && b[i] in b;
    OverlappedBase(docPath, highest, b[i - 1], b[i]);
  }

  /** The base tokens of rows `start` up to `end`: row `r` is token `r - 1`. */
  lemma OverlappedBase(docPath: string, highest: nat, start: int, end: int)
    requires 2 <= start <= end <= highest + 1
    ensures Overlapped(BaseTokens(docPath, highest), start, end)
         == seq(end - start, k requires 0 <= k < end - start => TokenId(docPath, start - 1 + k))
  {
    var o := Overlapped(BaseTokens(docPath, highest), start, end);
    var w := seq(end - start, k requires 0 <= k < end - start => TokenId(docPath, start - 1 + k));
    assert |o| == |w|;
    forall k | 0 <= k < |o| ensures o[k] == w[k] {
      assert o[k] == BaseTokens(docPath, highest)[start - 2 + k];
    }
  }

  /** In a strictly increasing sequence nothing lies between two neighbours. */
  lemma BetweenNeighbours(b: seq<int>, i: nat, x: int)
    requires StrictlyIncreasing(b) && 1 <= i < |b|
    requires x in b && b[i - 1] < x <= b[i]
    ensures x == b[i]
  {
    var k :| 0 <= k < |b| && b[k] == x;
  }

  /** The segmentation node that starts at a valid row ends at the next valid row of its column. */
  lemma SegEndNext(segRows: set<int>, highest: nat, i: nat)
    requires 1 <= i < |RowsFrom(segRows, 2, highest + 2)|
    ensures var b := RowsFrom(segRows, 2, highest + 2); SegEnd(segRows, highest, b[i - 1]) == b[i]
  {
    var b := RowsFrom(segRows, 2, highest + 2);
    RowsFromMembers(segRows, 2, highest + 2);
    assert b[i - 1] in b && b[i] in b;
    var lo := b[i - 1] + 1;
    RowsFromFirst(segRows, lo, highest + 2, b[i]);
    var later := RowsFrom(segRows, lo, highest + 2);
    RowsFromMembers(segRows, lo, highest + 2);
    assert later[0] in later;
    BetweenNeighbours(b, i, later[0]);
  }

  /** The mark the source reads for a valid row is the row itself. */
  lemma SegEndAsWrittenIsStart(h: Helper, cols: set<nat>, highest: nat, merges: seq<MergeCell>, c: nat, r: int)
    requires HelperInv(h, cols, highest, merges, |merges|)
    requires c in cols && r in h.validRows[c]
    ensures SegEndAsWritten(h.startRowByColumn[c], r) == r
  {
  }

  /** A dash splits two digit strings in one way only. */
  lemma DashSplit(a: string, b: string, a': string, b': string)
    requires IsDigitString(a) && IsDigitString(a')
    requires a + "-" + b == a' + "-" + b'
    ensures a == a' && b == b'
  {
    var x := a + "-" + b;
    assert x[|a|] == '-' && x[|a'|] == '-';
    assert forall j :: 0 <= j < |a| ==> x[j] == a[j];
    assert forall j :: 0 <= j < |a'| ==> x[j] == a'[j];
    assert a == x[..|a|] == a';
    assert b == x[|a| + 1..] == b';
  }

  /** A node name is its layer prefix followed by the digits of its two rows. */
  lemma NodeNameSplit(docPath: string, tokName: string, s: nat, e: nat)
    ensures NodeName(docPath, tokName, s, e) == (docPath + "#" + tokName + "_") + (NatToString(s) + "-" + NatToString(e))
  {
    assert IntToString(s) == NatToString(s) && IntToString(e) == NatToString(e);
  }

  lemma PrefixCancel(p: string, x: string, y: string)
    requires p + x == p + y
    ensures x == y
  {
    assert x == (p + x)[|p|..];
    assert y == (p + y)[|p|..];
  }

  /** Two different row ranges of a layer name two different nodes. */
  lemma NodeNameInjective(docPath: string, tokName: string, s: nat, e: nat, s': nat, e': nat)
    requires NodeName(docPath, tokName, s, e) == NodeName(docPath, tokName, s', e')
    ensures s == s' && e == e'
  {
    NodeNameSplit(docPath, tokName, s, e);
    NodeNameSplit(docPath, tokName, s', e');
    PrefixCancel(docPath + "#" + tokName + "_", NatToString(s) + "-" + NatToString(e), NatToString(s') + "-" + NatToString(e'));
    DashSplit(NatToString(s), NatToString(e), NatToString(s'), NatToString(e'));
    NatToStringInjective(s, s');
    NatToStringInjective(e, e');
  }

  /**
   * The coverage target the source names for a segmentation row, `r-r`, is none of the
   * segmentation nodes, which all span two distinct valid rows.
   */
  lemma SegTargetAsWrittenMissing(docPath: string, h: Helper, cols: set<nat>, highest: nat, merges: seq<MergeCell>,
                                  tokName: string, c: nat, r: int, i: nat)
    requires HelperInv(h, cols, highest, merges, |merges|)
    requires c in cols && r in h.validRows[c]
    requires 1 <= i < |RowsFrom(h.validRows[c], 2, highest + 2)|
    ensures var b := RowsFrom(h.validRows[c], 2, highest + 2);
      NodeName(docPath, tokName, r, SegEndAsWritten(h.startRowByColumn[c], r)) != NodeName(docPath, tokName, b[i - 1], b[i])
  {
    var b := RowsFrom(h.validRows[c], 2, highest + 2);
    RowsFromMembers(h.validRows[c], 2, highest + 2);
    assert b[i - 1] in b && b[i] in b;
    if NodeName(docPath, tokName, r, r) == NodeName(docPath, tokName, b[i - 1], b[i]) {
      NodeNameInjective(docPath, tokName, r, r, b[i - 1], b[i]);
    }
  }

  /** The corrected target of a segmentation row is the node of the window it starts. */
  lemma SegTargetIsWindow(docPath: string, tokName: string, segRows: set<int>, highest: nat, i: nat)
    requires 1 <= i < |RowsFrom(segRows, 2, highest + 2)|
    ensures var b := RowsFrom(segRows, 2, highest + 2);
      NodeName(docPath, tokName, b[i - 1], SegEnd(segRows, highest, b[i - 1])) == NodeName(docPath, tokName, b[i - 1], b[i])
  {
    SegEndNext(segRows, highest, i);
  }

  /** A data sheet is refused exactly when one of its merged ranges spans several columns. */
  lemma DatasheetErrIff(docPath: string, sheet: DataSheet, cm: ColumnMap, fallback: Option<string>)
    ensures Datasheet(docPath, sheet, cm, fallback).Err? <==> exists j :: 0 <= j < |sheet.merges| && MultiColumn(sheet.merges[j])
  {
    var nameToCol := HeaderNames(sheet.header, |sheet.header|);
    HelperErrIff(Prefill(nameToCol.Values, sheet.highest), sheet.merges, 0);
  }

  // ---------------------------------------------------------------- import_datasheet

  /** `known_names`: the configured annotation names, group by group. */
  method CollectKnown(cm: ColumnMap) returns (known: set<string>)
    ensures known == KnownNames(cm)
  {
    known := {};
    for i := 0 to |cm|
      invariant known == KnownNames(cm[..i])
    {
      assert cm[..i + 1][..i] == cm[..i];
      known := known + SeqSet(cm[i].1);
    }
    assert cm[..|cm|] == cm;
  }

  /** The header row: the column of every name, and the fallback group filled with the unknown names. */
  method ReadHeader(header: seq<(ColNum, string)>, cm: ColumnMap, fallback: Option<string>)
    returns (nameToCol: map<string, nat>, fm: ColumnMap)
    ensures nameToCol == HeaderNames(header, |header|)
    ensures fm == WithFallback(header, |header|, KnownNames(cm), FallbackKey(cm, fallback), fallback)
  {
    var known := CollectKnown(cm);
    fm := cm;
    if fallback == Some("") {
      if cm != [] && cm[0].0 == "" {
        fm := [("", [])] + cm[1..];
      } else {
        fm := [("", [])] + cm;
      }
    }
    ghost var fm0 := fm;
    nameToCol := map[];
    for k := 0 to |header|
      invariant nameToCol == HeaderNames(header, k)
      invariant fm == WithFallback(header, k, known, fm0, fallback)
    {
      var name := Trim(header[k].1);
      if name != "" {
        nameToCol := nameToCol[name := header[k].0 as int - 1];
        if fallback.Some? && name !in known && name !in Keys(fm) {
          var group := Get(fm, fallback.value);
          if group.Some? {
            fm := Put(fm, fallback.value, SetInsert(group.value, name));
          }
        }
      }
    }
  }

  /** The base tokens, one per data row, and their ordering. */
  method AddBaseTokens(u: Update, docPath: string, highest: nat) returns (base: seq<string>)
    modifies u
    ensures base == BaseTokens(docPath, highest)
    ensures u.events == old(u.events) + AllBaseEvents(docPath, |base|) + Chain(base, AnnisNs, Ordering, "")
  {
    base := [];
    var i := 2;
    while i <= highest
      invariant 2 <= i <= if highest < 2 then 2 else highest + 1
      invariant base == BaseTokens(docPath, i - 1)
      invariant u.events == old(u.events) + AllBaseEvents(docPath, |base|)
    {
      var tok := TokenId(docPath, i - 1);
      u.Add(Node(tok));
      u.Add(AddNodeLabel(tok, AnnisNs, TokKey, " "));
      u.Add(AddNodeLabel(tok, AnnisNs, LayerKey, DefaultLayer));
      u.Add(Edge(tok, docPath, AnnisNs, PartOf, ""));
      base := base + [tok];
      i := i + 1;
    }
    assert base == BaseTokens(docPath, highest);
    AddChain(u, base, AnnisNs, Ordering, "");
  }

  /** The coverage edges to the segmentation nodes that start within the rows of a node. */
  method MapSegEdges(u: Update, docPath: string, tokName: string, node: string, segRows: set<int>, highest: nat,
                     start: int, end: int)
    modifies u
    ensures u.events == old(u.events) + SegEdges(docPath, tokName, node, segRows, highest, start, end)
  {
    var r := start;
    while r < end
      invariant start <= r <= if start < end then end else start
      invariant u.events == old(u.events) + SegEdges(docPath, tokName, node, segRows, highest, start, r)
      decreases end - r
    {
      if r in segRows {
        u.Add(Edge(node, NodeName(docPath, tokName, r, SegEnd(segRows, highest, r)), AnnisNs, Coverage, ""));
      }
      r := r + 1;
    }
  }

  /** A filled window of one column: its node, labels and coverage. */
  method MapWindowEvents(u: Update, docPath: string, sheet: DataSheet, seg: Option<set<int>>, tokName: string, name: string,
                         base: seq<string>, start: int, end: int, value: string)
    modifies u
    ensures u.events == old(u.events) + WindowEvents(docPath, sheet, seg, tokName, name, base, start, end, value)
  {
    var node := NodeName(docPath, tokName, start, end);
    var q := SplitQName(name);
    ghost var e0 := u.events;
    ghost var hd := [Node(node), Edge(node, docPath, AnnisNs, PartOf, "")];
    ghost var l := LayerEvents(docPath, sheet, seg, tokName, name, node, start, end, value);
    ghost var a := [AddNodeLabel(node, if q.0.Some? then q.0.value else tokName, q.1, value)];
    ghost var c := EdgeRow(node, Overlapped(base, start, end), Coverage, "");
    assert WindowEvents(docPath, sheet, seg, tokName, name, base, start, end, value) == hd + l + a + c;
    u.Add(Node(node));
    u.Add(Edge(node, docPath, AnnisNs, PartOf, ""));
    assert u.events == e0 + hd;
    MapLayer(u, docPath, sheet, seg, tokName, name, node, start, end, value);
    AppendAssoc(e0, hd, l);
    u.Add(AddNodeLabel(node, if q.0.Some? then q.0.value else tokName, q.1, value));
    AppendAssoc(e0, hd + l, a);
    AddEdgeRow(u, node, Overlapped(base, start, end), Coverage, "");
    AppendAssoc(e0, hd + l + a, c);
  }

  method MapLayer(u: Update, docPath: string, sheet: DataSheet, seg: Option<set<int>>, tokName: string, name: string,
                  node: string, start: int, end: int, value: string)
    modifies u
    ensures u.events == old(u.events) + LayerEvents(docPath, sheet, seg, tokName, name, node, start, end, value)
  {
    if tokName != "" {
      u.Add(AddNodeLabel(node, AnnisNs, LayerKey, tokName));
      if name == tokName {
        u.Add(AddNodeLabel(node, AnnisNs, TokKey, value));
      } else if seg.Some? {
        MapSegEdges(u, docPath, tokName, node, seg.value, sheet.highest, start, end);
      }
    }
  }

  /** One window `(start, end)` of a column: nothing for an empty cell. */
  method MapWindow(u: Update, docPath: string, sheet: DataSheet, seg: Option<set<int>>, tokName: string, name: string,
                   col: nat, base: seq<string>, start: int, end: int, nodes0: seq<string>) returns (nodes: seq<string>)
    modifies u
    ensures var cs := WindowStep(docPath, sheet, seg, tokName, name, col, base, start, end, ColState(old(u.events), nodes0));
      u.events == cs.events && nodes == cs.nodes
  {
    nodes := nodes0;
    if (col + 1, start) !in sheet.cells {
      return;
    }
    var value := Trim(sheet.cells[(col + 1, start)]);
    if value == "" {
      return;
    }
    MapWindowEvents(u, docPath, sheet, seg, tokName, name, base, start, end, value);
    if name != "" && name == tokName {
      nodes := nodes + [NodeName(docPath, tokName, start, end)];
    }
  }

  /** One name of a group: the windows of its column and the ordering of the token nodes. */
  method MapColumn(u: Update, docPath: string, sheet: DataSheet, h: Helper, nameToCol: map<string, nat>, tokName: string,
                   name: string, base: seq<string>)
    modifies u
    ensures u.events == old(u.events) + ColumnEvents(docPath, sheet, h, nameToCol, tokName, name, base)
  {
    var index := ColumnIndex(nameToCol, name);
    if index.None? || index.value !in h.validRows {
      return;
    }
    var col := index.value;
    var seg := SegRows(h, nameToCol, tokName);
    var b := SortedRows(sheet, h.validRows[col]);
    ghost var cs0 := ColState(u.events, []);
    var nodes := [];
    var i := 1;
    while i < |b|
      invariant 1 <= i
      invariant Windows(docPath, sheet, seg, tokName, name, col, base, b, 1, cs0)
             == Windows(docPath, sheet, seg, tokName, name, col, base, b, i, ColState(u.events, nodes))
      decreases |b| - i
    {
      nodes := MapWindow(u, docPath, sheet, seg, tokName, name, col, base, b[i - 1], b[i], nodes);
      i := i + 1;
    }
    assert ColState(u.events, nodes) == Windows(docPath, sheet, seg, tokName, name, col, base, b, 1, cs0);
    WindowsShift(docPath, sheet, seg, tokName, name, col, base, b, 1, old(u.events), [], []);
    assert old(u.events) + [] == old(u.events);
    AddChain(u, nodes, DefaultNs, Ordering, tokName);
    ghost var cs := Windows(docPath, sheet, seg, tokName, name, col, base, b, 1, ColState([], []));
    AppendAssoc(old(u.events), cs.events, Chain(nodes, DefaultNs, Ordering, tokName));
  }

  /** One group: its tokenization column first, then its annotation columns. */
  method MapGroup(u: Update, docPath: string, sheet: DataSheet, h: Helper, nameToCol: map<string, nat>,
                  entry: (string, seq<string>), base: seq<string>)
    modifies u
    ensures u.events == old(u.events) + GroupEvents(docPath, sheet, h, nameToCol, entry.0, GroupNames(entry), base, |GroupNames(entry)|)
  {
    var names := GroupNames(entry);
    for j := 0 to |names|
      invariant u.events == old(u.events) + GroupEvents(docPath, sheet, h, nameToCol, entry.0, names, base, j)
    {
      ghost var e := u.events;
      MapColumn(u, docPath, sheet, h, nameToCol, entry.0, names[j], base);
      AppendAssoc(old(u.events), GroupEvents(docPath, sheet, h, nameToCol, entry.0, names, base, j),
                  ColumnEvents(docPath, sheet, h, nameToCol, entry.0, names[j], base));
    }
  }

  /** The groups in key order. */
  method MapGroups(u: Update, docPath: string, sheet: DataSheet, h: Helper, nameToCol: map<string, nat>, fm: ColumnMap,
                   base: seq<string>)
    modifies u
    ensures u.events == old(u.events) + AllGroups(docPath, sheet, h, nameToCol, fm, base, |fm|)
  {
    for k := 0 to |fm|
      invariant u.events == old(u.events) + AllGroups(docPath, sheet, h, nameToCol, fm, base, k)
    {
      MapGroup(u, docPath, sheet, h, nameToCol, fm[k], base);
      AppendAssoc(old(u.events), AllGroups(docPath, sheet, h, nameToCol, fm, base, k),
                  GroupEvents(docPath, sheet, h, nameToCol, fm[k].0, GroupNames(fm[k]), base, |GroupNames(fm[k])|));
    }
  }

  /**
   * `import_datasheet`: header, merged-cell helper, base tokens and every group. The only
   * failure is a merged range over several columns, found before anything is added.
   */
  method ImportDatasheet(u: Update, docPath: string, sheet: DataSheet, cm: ColumnMap, fallback: Option<string>)
    returns (r: Result<()>)
    modifies u
    ensures r.Ok? <==> Datasheet(docPath, sheet, cm, fallback).Ok?
    ensures r.Ok? ==> u.events == old(u.events) + Datasheet(docPath, sheet, cm, fallback).value
    ensures r.Err? ==> u.events == old(u.events)
  {
    var nameToCol, fm := ReadHeader(sheet.header, cm, fallback);
    var helper := NewHelper(nameToCol, sheet.highest, sheet.merges);
    if helper.Err? {
      assert Datasheet(docPath, sheet, cm, fallback).Err?;
      return Err(helper.msg);
    }
    var h := helper.value;
    assert Datasheet(docPath, sheet, cm, fallback) == Ok(DatasheetEvents(docPath, sheet, h, nameToCol, fm));
    var base := AddBaseTokens(u, docPath, sheet.highest);
    ghost var bs := AllBaseEvents(docPath, |base|);
    ghost var ch := Chain(base, AnnisNs, Ordering, "");
    ghost var g := AllGroups(docPath, sheet, h, nameToCol, fm, base, |fm|);
    AppendAssoc(old(u.events), bs, ch);
    MapGroups(u, docPath, sheet, h, nameToCol, fm, base);
    AppendAssoc(old(u.events), bs + ch, g);
    r := Ok(());
  }
}
