/** The blank surface that a viewer without a source is shown: whoever takes its frame in has an empty screen of
    the viewer's size, whatever was there before. */
module Blanks {
  import opened Wire
  import opened Grammar
  import opened Slices
  import opened Surfaces
  import opened Screens
  import opened Retention
  import opened Forwarding
  import opened Viewing
  import opened Endpoint
  import opened Popups

  /** No links, panes, splits, popup or images. */
  function BlankScenery(): Scenery {
    Scenery([0] + [0], NO_ITEMS, Gallery([0] + [0], NO_ITEMS, NO_ITEMS, NO_ITEMS))
  }

  /** Spaces all over, no cursor, and nothing else. */
  function BlankScreen(boot: bytes, revision: nat, n: nat, columns: nat, rows: nat): Screen {
    Screen(HeaderBytes(FULL_TAG, boot, revision, n), Repeated(BLANK_CELL, columns * rows), columns, rows, [0],
           [0, 0, 0, 0, 0, 0, 0, 0], n, map[])
  }

  lemma SpaceIs()
    ensures Is(Txt, [1, 32])
  {
    assert ReadNumber([1, 32]) == Some(Read(1, 1));
    AtomIs(Txt, [1, 32]);
  }

  lemma NoAttributesIs()
    ensures Is(Seq(Raw(1), Optional(Num)), [0] + [0])
  {
    AtomIs(Raw(1), [0]);
    ZeroIs();
    FlagIs(Num, [0]);
    SeqIs(Raw(1), Optional(Num), [0], [0], IDENTITY);
  }

  lemma ThreeAre(a: Prog, b: Prog, rest: Prog, x: bytes, y: bytes, v: bytes)
    requires Solid(a) && Solid(b) && Solid(rest) && Is(a, x) && Is(b, y) && Is(rest, v)
    ensures Is(Seq(a, Seq(b, rest)), x + (y + v))
  {
    SeqIs(b, rest, y, v, IDENTITY);
    SeqIs(a, Seq(b, rest), x, y + v, IDENTITY);
  }

  lemma BlankCellIs()
    ensures Is(Cell(), BLANK_CELL)
  {
    BlankCellBytes();
    BlankCellOf(Cell(), [1, 32], Zeros(3), [0] + [0], BLANK_CELL);
  }

  lemma BlankCellOf(cell: Prog, x: bytes, y: bytes, v: bytes, c: bytes)
    requires cell == Cell() && x == [1, 32] && y == Zeros(3) && v == [0] + [0] && c == x + (y + v)
    ensures Is(cell, c)
  {
    SpaceIs();
    ZerosAre(3);
    NoAttributesIs();
    ThreeAre(Txt, Nums(3), Seq(Raw(1), Optional(Num)), x, y, v);
  }

  lemma BlankCellBytes()
    ensures [1, 32] + (Zeros(3) + ([0] + [0])) == BLANK_CELL
  {
  }

  lemma NoPopupIs(p: Prog)
    requires Solid(p)
    ensures Is(Optional(p), [0])
  {
    assert Parse(Optional(p), [0], IDENTITY) == Flagged(p, [0], IDENTITY);
  }

  lemma BlankPanelsIs(item: Prog, p: Prog)
    requires Element(item) && Solid(p)
    ensures Is(Seq(Many(item), Optional(p)), [0] + [0])
  {
    NoneAre(item);
    NoPopupIs(p);
    SeqIs(Many(item), Optional(p), [0], [0], IDENTITY);
  }

  lemma BlankSceneryOf(l: Layout)
    requires l.Sound() && l.links == Links() && l.panels == Panels(true)
    ensures BlankScenery().Of(l)
  {
    SplitElement();
    PopupElement(true);
    BlankPanelsIs(Split(), Popup(true));
    LinksIs();
    NoneAre(l.Pane());
    NoneAre(l.Image());
    NoneAre(l.Placement());
    NoneAre(l.asset);
  }

  lemma BlankSceneryBytes()
    ensures BlankScenery().Bytes() == [0, 0, 0, 0, 0, 0, 0, 0]
  {
    assert NO_ITEMS.Bytes() == [0];
    assert BlankScenery().art.Pictures() == [0, 0];
    assert BlankScenery().art.Bytes() == [0, 0, 0, 0, 0];
  }

  lemma BlankBodyGood(l: Layout, columns: nat, rows: nat)
    requires l.cell == Cell() && l.cursor == Cursor() && columns < UINT64 && rows < UINT64
    requires columns * rows <= MAX_CELLS
    ensures GoodBody(l, Body(Repeated(BLANK_CELL, columns * rows), columns, rows, [0], [0, 0, 0, 0, 0, 0, 0, 0]))
  {
    BlankCellIs();
    CursorIs();
  }

  lemma BlankTailGood(l: Layout, tail: bytes)
    requires l.Sound() && l.links == Links() && l.panels == Panels(true) && tail == BlankScenery().Bytes()
    ensures GoodTail(l, tail, map[])
  {
    BlankSceneryOf(l);
    BareGood(l, BlankScenery());
  }

  /** A screen that was just begun, of parts that are good. */
  lemma BegunGood(l: Layout, s: Screen, boot: bytes, projection: nat)
    requires s.header == HeaderBytes(FULL_TAG, boot, projection, s.revision) && |boot| <= MAX_FRAME
    requires projection < UINT64 && s.revision < UINT64
    requires GoodBody(l, AsBody(s)) && GoodTail(l, s.tail, s.assets) && Consistent(s)
    ensures Good(l, s)
  {
    FreshHeaderGood(s, boot, projection);
  }

  lemma BlankScreenGood(l: Layout, boot: bytes, revision: nat, n: nat, columns: nat, rows: nat)
    requires l.Sound() && l.links == Links() && l.panels == Panels(true) && l.cell == Cell() && l.cursor == Cursor()
    requires |boot| <= MAX_FRAME && revision < UINT64 && n < UINT64
    requires columns < UINT64 && rows < UINT64 && columns * rows <= MAX_CELLS
    ensures Good(l, BlankScreen(boot, revision, n, columns, rows))
  {
    var s := BlankScreen(boot, revision, n, columns, rows);
    BlankBodyGood(l, columns, rows);
    BlankSceneryBytes();
    BlankTailGood(l, s.tail);
    BlankArea(columns, rows);
    BegunGood(l, s, boot, revision);
  }

  lemma BlankArea(columns: nat, rows: nat)
    requires columns * rows <= MAX_CELLS
    ensures Area(columns, rows) == columns * rows
  {
    ProductIsProduct(columns, rows);
  }

  /** Whoever takes the blank frame in, whatever they had before, has a screen of this size, and every cell of it
      is blank. */
  lemma {:induction false} BlankShows(boot: bytes, revision: nat, n: nat, columns: nat, rows: nat,
                                      viewer: Option<Screen>)
    requires |boot| <= MAX_FRAME && revision < UINT64 && n < UINT64
    requires columns < UINT64 && rows < UINT64 && columns * rows <= MAX_CELLS
    ensures var s := Apply(Native(), viewer, BlankFrame(boot, revision, n, columns, rows));
            && s == Some(BlankScreen(boot, revision, n, columns, rows))
            && |s.value.cells| == columns * rows && s.value.width == columns && s.value.height == rows
            && s.value.cursor == [0]
            && forall k :: 0 <= k < |s.value.cells| ==> s.value.cells[k] == [1, ' ' as int, 0, 0, 0, 0, 0]
  {
    var s := BlankScreen(boot, revision, n, columns, rows);
    var had := if viewer.Some? then viewer.value.assets else map[];
    NativeSound();
    BlankScreenGood(Native(), boot, revision, n, columns, rows);
    GoodLoads(Native(), s, had);
    LoadTag(Native(), Bytes(s), had);
  }
}
