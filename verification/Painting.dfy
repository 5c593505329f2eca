/** What a patch does to the cells of a screen, told by coordinates: which cell of which row ends up where. */
module Painting {
  import opened Wire
  import opened Grammar
  import opened Slices
  import opened Surfaces
  import opened Screens

  /** The column that a row of a patch begins at: its first number. */
  function Column(row: bytes): (r: Option<nat>) {
    var x :- ReadNumber(row);
    Some(x.value)
  }

  /** Its line: its second number. */
  function Line(row: bytes): Option<nat> {
    var x :- ReadNumber(row);
    var y :- ReadNumber(row[x.size..]);
    Some(y.value)
  }

  /** And its cells, which follow the two numbers. */
  function Cells(l: Layout, row: bytes): seq<bytes> {
    match ReadNumber(row)
    case None => []
    case Some(x) =>
      match ReadNumber(row[x.size..])
      case None => []
      case Some(y) => Elements(l.cell, row[x.size + y.size..])
  }

  /** The `i`-th cell of the row is for position `k`: positions count line by line, with 64 bits. */
  predicate Lands(l: Layout, row: bytes, width: nat, i: nat, k: nat) {
    && Column(row).Some? && Line(row).Some? && i < |Cells(l, row)|
    && k == (Line(row).value * width + Column(row).value + i) % UINT64
  }

  /** Nothing of what comes later, in the same row or in the rows after it, is for the same position. */
  ghost predicate Final(l: Layout, rows: seq<bytes>, width: nat, j: nat, i: nat, k: nat) {
    && j < |rows| && Lands(l, rows[j], width, i, k)
    && (forall m: nat :: m > i ==> !Lands(l, rows[j], width, m, k))
    && (forall n: nat, m: nat :: j < n < |rows| ==> !Lands(l, rows[n], width, m, k))
  }

  ghost predicate Untouched(l: Layout, rows: seq<bytes>, width: nat, k: nat) {
    forall j: nat, i: nat :: j < |rows| ==> !Lands(l, rows[j], width, i, k)
  }

  /** At `k` there is afterwards the last cell that was for `k`, or what was there if none was. */
  ghost predicate PaintedAt(l: Layout, rows: seq<bytes>, width: nat, k: nat, was: bytes, now: bytes) {
    && (forall j: nat, i: nat :: Final(l, rows, width, j, i, k) ==> now == Cells(l, rows[j])[i])
    && (Untouched(l, rows, width, k) ==> now == was)
  }

  ghost predicate Repainted(l: Layout, rows: seq<bytes>, width: nat, before: seq<bytes>, after: seq<bytes>) {
    |after| == |before| && forall k :: 0 <= k < |before| ==> PaintedAt(l, rows, width, k, before[k], after[k])
  }

  /** A row that may be painted: its line is on the screen, it ends within the width, with 64 bits, and every cell
      of it has a position there. */
  ghost predicate Fits(l: Layout, row: bytes, width: nat, height: nat, size: nat) {
    && Column(row).Some? && Line(row).Some? && Line(row).value < height
    && (Column(row).value + |Cells(l, row)|) % UINT64 <= width
    && forall i: nat, k: nat :: Lands(l, row, width, i, k) ==> k < size
  }

  // Runs ----------------------------------------------------------------------------------------

  /** The `i`-th cell of a run that begins at `at` is for `k`. */
  predicate Falls(at: nat, run: seq<bytes>, i: nat, k: nat) {
    i < |run| && k == (at + i) % UINT64
  }

  ghost predicate RunAt(at: nat, run: seq<bytes>, k: nat, was: bytes, now: bytes) {
    && (forall i: nat :: Falls(at, run, i, k) && (forall m: nat :: m > i ==> !Falls(at, run, m, k)) ==> now == run[i])
    && ((forall i: nat :: !Falls(at, run, i, k)) ==> now == was)
  }

  /** A run can be painted exactly if every cell of it is for a position that there is. */
  lemma {:induction false} RunFits(at: nat, run: seq<bytes>, cells: seq<bytes>)
    ensures PaintRun(at, run, cells).Some? <==> forall i: nat, k: nat :: Falls(at, run, i, k) ==> k < |cells|
    decreases |run|
  {
    if run != [] {
      assert Falls(at, run, 0, at % UINT64);
      if at % UINT64 < |cells| {
        var rest := run[1..];
        RunFits(at + 1, rest, cells[at % UINT64 := run[0]]);
        forall i: nat, k: nat | Falls(at, run, i, k)
          ensures i > 0 ==> Falls(at + 1, rest, i - 1, k)
        {
        }
        var next := at + 1;
        assert forall i: nat, k: nat :: Falls(next, rest, i, k) ==> Falls(at, run, i + 1, k);
      }
    }
  }

  lemma {:induction false} RunPainted(at: nat, run: seq<bytes>, cells: seq<bytes>)
    requires PaintRun(at, run, cells).Some?
    ensures forall k :: 0 <= k < |cells| ==> RunAt(at, run, k, cells[k], PaintRun(at, run, cells).value[k])
    decreases |run|
  {
    if run != [] {
      var mid := cells[at % UINT64 := run[0]];
      RunPainted(at + 1, run[1..], mid);
      forall k | 0 <= k < |cells|
        ensures RunAt(at, run, k, cells[k], PaintRun(at, run, cells).value[k])
      {
        RunStep(at, run, at + 1, run[1..], k, cells[k], mid[k], PaintRun(at, run, cells).value[k]);
      }
    }
  }

  lemma RunStep(at: nat, run: seq<bytes>, next: nat, rest: seq<bytes>, k: nat, was: bytes, mid: bytes, now: bytes)
    requires run != [] && next == at + 1 && rest == run[1..] && RunAt(next, rest, k, mid, now)
    requires mid == if k == at % UINT64 then run[0] else was
    ensures RunAt(at, run, k, was, now)
  {
    assert forall i: nat :: Falls(next, rest, i, k) ==> Falls(at, run, i + 1, k);
    forall i: nat | Falls(at, run, i, k) && (forall m: nat :: m > i ==> !Falls(at, run, m, k))
      ensures now == run[i]
    {
      if i > 0 {
        assert Falls(next, rest, i - 1, k) && rest[i - 1] == run[i];
      }
    }
    if forall i: nat :: !Falls(at, run, i, k) {
      assert !Falls(at, run, 0, k);
    }
  }

  // Rows ----------------------------------------------------------------------------------------

  lemma ReadRunIs(l: Layout, row: bytes)
    ensures ReadRun(l, row).Some? <==> Column(row).Some? && Line(row).Some?
    ensures ReadRun(l, row).Some? ==> ReadRun(l, row).value == Run(Column(row).value, Line(row).value, Cells(l, row))
  {
    if ReadNumber(row).Some? {
      var x := ReadNumber(row).value.size;
      if ReadNumber(row[x..]).Some? {
        var y := ReadNumber(row[x..]).value.size;
        assert row[x..][y..] == row[x + y..];
      }
    }
  }

  lemma RowFalls(l: Layout, row: bytes, width: nat, i: nat, k: nat)
    requires ReadRun(l, row).Some?
    ensures Lands(l, row, width, i, k)
            <==> Falls(Offset(ReadRun(l, row).value, width), ReadRun(l, row).value.cells, i, k)
  {
    ReadRunIs(l, row);
  }

  lemma RowPainted(l: Layout, row: bytes, cells: seq<bytes>, width: nat, height: nat, k: nat)
    requires PaintRow(l, row, cells, width, height).Some? && k < |cells|
    ensures RowAt(l, row, width, k, cells[k], PaintRow(l, row, cells, width, height).value[k])
  {
    var run := ReadRun(l, row).value;
    ReadRunIs(l, row);
    RunPainted(Offset(run, width), run.cells, cells);
    forall i: nat
      ensures Lands(l, row, width, i, k) <==> Falls(Offset(run, width), run.cells, i, k)
    {
      RowFalls(l, row, width, i, k);
    }
  }

  /** What one row makes of what is at `k`. */
  ghost predicate RowAt(l: Layout, row: bytes, width: nat, k: nat, was: bytes, now: bytes) {
    && (forall i: nat :: Lands(l, row, width, i, k) && (forall m: nat :: m > i ==> !Lands(l, row, width, m, k))
                         ==> now == Cells(l, row)[i])
    && ((forall i: nat :: !Lands(l, row, width, i, k)) ==> now == was)
  }

  /** One row, the first of `rows`, was painted onto `was`, and the others onto `mid`. */
  lemma RowStep(l: Layout, rows: seq<bytes>, width: nat, k: nat, was: bytes, mid: bytes, now: bytes)
    requires rows != [] && RowAt(l, rows[0], width, k, was, mid) && PaintedAt(l, rows[1..], width, k, mid, now)
    ensures PaintedAt(l, rows, width, k, was, now)
  {
    forall j: nat, i: nat | Final(l, rows, width, j, i, k)
      ensures now == Cells(l, rows[j])[i]
    {
      if j > 0 {
        assert Final(l, rows[1..], width, j - 1, i, k);
      } else {
        assert Untouched(l, rows[1..], width, k);
      }
    }
    if Untouched(l, rows, width, k) {
      assert Untouched(l, rows[1..], width, k);
    }
  }

  /** What one row makes of the cells. */
  function PaintRow(l: Layout, row: bytes, cells: seq<bytes>, width: nat, height: nat): (r: Option<seq<bytes>>)
    ensures r.Some? ==> |r.value| == |cells|
  {
    var run :- ReadRun(l, row);
    if Within(run, width, height) then PaintRun(Offset(run, width), run.cells, cells) else None
  }

  lemma PaintFirst(l: Layout, rows: seq<bytes>, cells: seq<bytes>, width: nat, height: nat)
    requires rows != []
    ensures Paint(l, rows, cells, width, height)
            == match PaintRow(l, rows[0], cells, width, height)
               case None => None
               case Some(mid) => Paint(l, rows[1..], mid, width, height)
  {
  }

  lemma RowFits(l: Layout, row: bytes, cells: seq<bytes>, width: nat, height: nat)
    ensures Fits(l, row, width, height, |cells|) <==> PaintRow(l, row, cells, width, height).Some?
  {
    ReadRunIs(l, row);
    if ReadRun(l, row).Some? {
      RunFitsIf(l, row, cells, width, height, Offset(ReadRun(l, row).value, width));
    }
  }

  lemma RunFitsIf(l: Layout, row: bytes, cells: seq<bytes>, width: nat, height: nat, at: nat)
    requires Column(row).Some? && Line(row).Some?
    requires ReadRun(l, row) == Some(Run(Column(row).value, Line(row).value, Cells(l, row)))
    requires at == Offset(ReadRun(l, row).value, width)
    ensures Fits(l, row, width, height, |cells|)
            <==> Within(ReadRun(l, row).value, width, height) && PaintRun(at, Cells(l, row), cells).Some?
  {
    forall i: nat, k: nat
      ensures Lands(l, row, width, i, k) <==> Falls(at, Cells(l, row), i, k)
    {
      RowFalls(l, row, width, i, k);
    }
    RunFits(at, Cells(l, row), cells);
  }

  /** Rows are painted exactly if each of them fits. */
  lemma {:induction false} PaintsIfAllFit(l: Layout, rows: seq<bytes>, cells: seq<bytes>, width: nat, height: nat)
    ensures Paint(l, rows, cells, width, height).Some?
            <==> forall j :: 0 <= j < |rows| ==> Fits(l, rows[j], width, height, |cells|)
    decreases |rows|
  {
    if rows != [] {
      RowFits(l, rows[0], cells, width, height);
      PaintFirst(l, rows, cells, width, height);
      if Fits(l, rows[0], width, height, |cells|) {
        PaintsIfAllFit(l, rows[1..], PaintRow(l, rows[0], cells, width, height).value, width, height);
        assert forall j :: 0 < j < |rows| ==> rows[j] == rows[1..][j - 1];
      }
    }
  }

  /** And they are painted by coordinates. */
  lemma {:induction false} PaintsByCoordinates(l: Layout, rows: seq<bytes>, cells: seq<bytes>, width: nat, height: nat)
    requires Paint(l, rows, cells, width, height).Some?
    ensures Repainted(l, rows, width, cells, Paint(l, rows, cells, width, height).value)
    decreases |rows|
  {
    if rows != [] {
      PaintFirst(l, rows, cells, width, height);
      var mid := PaintRow(l, rows[0], cells, width, height).value;
      PaintsByCoordinates(l, rows[1..], mid, width, height);
      var after := Paint(l, rows[1..], mid, width, height).value;
      forall k | 0 <= k < |cells|
        ensures PaintedAt(l, rows, width, k, cells[k], after[k])
      {
        RowPainted(l, rows[0], cells, width, height, k);
        RowStep(l, rows, width, k, cells[k], mid[k], after[k]);
      }
    }
  }

  // Frames --------------------------------------------------------------------------------------

  /** What a patch makes of a screen: the cells that its rows are for, its cursor and its revision. */
  ghost predicate Amended(l: Layout, s: Screen, b: bytes, t: Screen) {
    match ReadPatch(l, b)
    case None => false
    case Some(p) =>
      && Repainted(l, p.delta.rows, s.width, s.cells, t.cells)
      && (forall j :: 0 <= j < |p.delta.rows| ==> Fits(l, p.delta.rows[j], s.width, s.height, |s.cells|))
      && t.width == s.width && t.height == s.height
      && t.cursor == p.delta.cursor
      && t.revision == p.next == s.revision + 1
  }

  lemma PatchAmends(l: Layout, s: Screen, b: bytes)
    requires Patch(l, s, b).Some?
    ensures Amended(l, s, b, Patch(l, s, b).value)
  {
    var p := ReadPatch(l, b).value;
    PaintsIfAllFit(l, p.delta.rows, s.cells, s.width, s.height);
    PaintsByCoordinates(l, p.delta.rows, s.cells, s.width, s.height);
  }

  /** What a full frame makes a screen: its cells, then its width, then its height. */
  ghost predicate Begun(l: Layout, b: bytes, t: Screen) {
    match ReadHeader(b)
    case None => false
    case Some(h) =>
      var cells := Take(Many(l.cell), b[h.size..]);
      && cells.Some?
      && var width := ReadNumber(cells.value.rest);
      && width.Some?
      && var height := ReadNumber(cells.value.rest[width.value.size..]);
      && height.Some?
      && t.cells == Elements(l.cell, b[h.size..])
      && t.width == width.value.value && t.height == height.value.value
      && t.revision == h.revision && t.header == b[..h.size]
  }

  lemma LoadBegins(l: Layout, b: bytes, had: map<bytes, bytes>)
    requires Load(l, b, had).Some?
    ensures Begun(l, b, Load(l, b, had).value)
  {
  }

  /** What a frame that was taken in makes of what was retained. */
  ghost predicate Taken(l: Layout, s: Option<Screen>, b: bytes, t: Screen) {
    match ReadNumber(b)
    case None => false
    case Some(tag) =>
      if tag.value == FULL_TAG then Begun(l, b, t)
      else tag.value == PATCH_TAG && s.Some? && Amended(l, s.value, b, t)
  }

  lemma UpdateTakes(l: Layout, s: Option<Screen>, b: bytes)
    requires Update(l, s, b).Some?
    ensures Taken(l, s, b, Update(l, s, b).value)
  {
    if ReadNumber(b).value.value == FULL_TAG {
      LoadBegins(l, b, if s.Some? then s.value.assets else map[]);
    } else {
      PatchAmends(l, s.value, b);
      TagFirst(b);
    }
  }

  lemma TagFirst(b: bytes)
    requires ReadHeader(b).Some?
    ensures ReadNumber(b).Some? && ReadNumber(b).value.value == ReadHeader(b).value.tag
  {
  }

  // Lines and columns ---------------------------------------------------------------------------

  /** The row has its `i`-th cell in column `c` of line `r`. */
  predicate Covers(l: Layout, row: bytes, i: nat, c: nat, r: nat) {
    && Line(row) == Some(r) && Column(row).Some? && Column(row).value + i == c
    && i < |Cells(l, row)|
  }

  /** A line ends before the next one begins. */
  lemma {:induction false} LinesFollow(width: nat, a: nat, b: nat)
    requires a < b
    ensures a * width + width <= b * width
  {
    assert b * width == (b - 1) * width + width;
    if a + 1 < b {
      LinesFollow(width, a, b - 1);
    }
  }

  /** Where the row ends is a 64-bit number. */
  predicate Unwrapped(l: Layout, row: bytes) {
    Column(row).Some? && Column(row).value + |Cells(l, row)| < UINT64
  }

  /** Two places on a screen are at the same position only if they are the same. */
  lemma PositionsDiffer(width: nat, x: nat, y: nat, c: nat, r: nat)
    requires x < width && c < width
    ensures y * width + x == r * width + c <==> y == r && x == c
  {
    if y < r {
      LinesFollow(width, y, r);
    } else if y > r {
      LinesFollow(width, r, y);
    }
  }

  lemma PositionInside(width: nat, height: nat, c: nat, r: nat)
    requires c < width && r < height
    ensures r * width + c < width * height
  {
    LinesFollow(width, r, height);
  }

  lemma PositionUnwrapped(width: nat, height: nat, x: nat, y: nat, i: nat, k: nat, c: nat, r: nat)
    requires x + i < width && y < height && c < width && r < height && width * height < UINT64
    requires k == r * width + c
    ensures k == (y * width + x + i) % UINT64 <==> y == r && x + i == c
  {
    PositionInside(width, height, x + i, y);
    PositionsDiffer(width, x + i, y, c, r);
  }

  /** On a screen whose size does not wrap, the position that a row's cell is for is that of its line and
      column. */
  lemma LandsWhereItCovers(l: Layout, row: bytes, width: nat, height: nat, size: nat, i: nat, k: nat, c: nat, r: nat)
    requires Fits(l, row, width, height, size) && Unwrapped(l, row)
    requires width * height < UINT64 && c < width && r < height && k == r * width + c
    ensures Lands(l, row, width, i, k) <==> Covers(l, row, i, c, r)
  {
    if i < |Cells(l, row)| {
      PositionUnwrapped(width, height, Column(row).value, Line(row).value, i, k, c, r);
    }
  }

  /** In column `c` of line `r` there is the cell of the last row that covers it, or what was there if none
      does. */
  ghost predicate CoveredAt(l: Layout, rows: seq<bytes>, c: nat, r: nat, was: bytes, now: bytes) {
    && (forall j: nat, i: nat :: j < |rows| && Covers(l, rows[j], i, c, r)
                                 && (forall n: nat, m: nat :: j < n < |rows| ==> !Covers(l, rows[n], m, c, r))
                                 ==> now == Cells(l, rows[j])[i])
    && ((forall j: nat, i: nat :: j < |rows| ==> !Covers(l, rows[j], i, c, r)) ==> now == was)
  }

  lemma CoveredIfPainted(l: Layout, rows: seq<bytes>, width: nat, k: nat, c: nat, r: nat, was: bytes, now: bytes)
    requires PaintedAt(l, rows, width, k, was, now)
    requires forall j: nat, i: nat :: j < |rows| ==> (Lands(l, rows[j], width, i, k) <==> Covers(l, rows[j], i, c, r))
    ensures CoveredAt(l, rows, c, r, was, now)
  {
    forall j: nat, i: nat | j < |rows| && Covers(l, rows[j], i, c, r)
                            && (forall n: nat, m: nat :: j < n < |rows| ==> !Covers(l, rows[n], m, c, r))
      ensures now == Cells(l, rows[j])[i]
    {
      assert Final(l, rows, width, j, i, k);
    }
    if forall j: nat, i: nat :: j < |rows| ==> !Covers(l, rows[j], i, c, r) {
      assert Untouched(l, rows, width, k);
    }
  }

  lemma CellByCoordinates(l: Layout, rows: seq<bytes>, width: nat, height: nat, k: nat, c: nat, r: nat)
    requires width * height < UINT64 && c < width && r < height && k == r * width + c
    requires forall j :: 0 <= j < |rows| ==> Fits(l, rows[j], width, height, width * height) && Unwrapped(l, rows[j])
    ensures k < width * height
    ensures forall was, now :: PaintedAt(l, rows, width, k, was, now) ==> CoveredAt(l, rows, c, r, was, now)
  {
    PositionInside(width, height, c, r);
    forall j: nat, i: nat | j < |rows|
      ensures Lands(l, rows[j], width, i, k) <==> Covers(l, rows[j], i, c, r)
    {
      LandsWhereItCovers(l, rows[j], width, height, width * height, i, k, c, r);
    }
    forall was, now | PaintedAt(l, rows, width, k, was, now)
      ensures CoveredAt(l, rows, c, r, was, now)
    {
      CoveredIfPainted(l, rows, width, k, c, r, was, now);
    }
  }

  /** Every cell of a screen after a patch, by line and column. The rows are inside the screen, and neither its
      size nor where they end wraps. */
  lemma {:induction false} CellsByCoordinates(l: Layout, s: Screen, b: bytes, t: Screen, k: nat, c: nat, r: nat)
    requires Amended(l, s, b, t) && |s.cells| < UINT64
    requires |s.cells| == s.width * s.height && c < s.width && r < s.height && k == r * s.width + c
    requires forall row :: row in ReadPatch(l, b).value.delta.rows ==> Unwrapped(l, row)
    ensures k < |s.cells| == |t.cells|
    ensures CoveredAt(l, ReadPatch(l, b).value.delta.rows, c, r, s.cells[k], t.cells[k])
  {
    CellByCoordinates(l, ReadPatch(l, b).value.delta.rows, s.width, s.height, k, c, r);
  }
}
