/** Where the rewriter and the retention part: the kinds of a popup's sizes. The rewriter takes every kind
    but 0 for a percentage, and retention knows only 0 and 1, so a frame can pass the one and fail the
    other. Exactly these frames do: every other one is retained as if retention read popups as the rewriter
    does. */
module Popups {
  import opened Wire
  import opened Grammar
  import opened Slices
  import opened Surfaces
  import opened Screens
  import opened Retention
  import opened Forwarding
  import opened Viewing
  import opened Endpoint

  /** The layout of retention if it read popups as the rewriter does. */
  function Tolerant(): Layout {
    Native().(panels := Panels(false))
  }

  // The kinds in a frame --------------------------------------------------------------------------

  /** The kind of the size that begins `s`, if one is there. */
  function KindOf(s: bytes): seq<nat> {
    if s == [] || s[0] != 1 || ReadNumber(s[1..]).None? then [] else [ReadNumber(s[1..]).value.value]
  }

  /** The kinds of the two sizes that begin `s`. */
  function SizeKinds(s: bytes): seq<nat> {
    match Take(Optional(Size(false)), s)
    case None => []
    case Some(width) => KindOf(s) + KindOf(width.rest)
  }

  /** The kinds of the sizes of the popup that begins `s`. */
  function PopupKinds(s: bytes): seq<nat> {
    match Take(Id, s)
    case None => []
    case Some(id) =>
      match Take(Txt, id.rest)
      case None => []
      case Some(title) => SizeKinds(title.rest)
  }

  /** The kinds of the sizes of the popup in the panels that begin `s`, if there is a popup. */
  function PanelKinds(s: bytes): seq<nat> {
    match Take(Many(Split()), s)
    case None => []
    case Some(splits) =>
      if splits.rest == [] || splits.rest[0] != 1 then [] else PopupKinds(splits.rest[1..])
  }

  /** The kinds of the sizes of the popup in what follows the cursor of a scene. */
  function TailKinds(tail: bytes): seq<nat> {
    match Take(BeforeArt(Native()), tail)
    case None => []
    case Some(head) => PanelKinds(head.rest)
  }

  /** What follows the header of a full frame. A patch has nothing of this kind. */
  function BodyOf(l: Layout, p: bytes): Option<Body> {
    var h :- ReadHeader(p);
    if h.tag == FULL_TAG then ReadBody(l, p[h.size..]) else None
  }

  /** The kinds of the sizes of the popup in a frame. */
  function FrameKinds(p: bytes): seq<nat> {
    match BodyOf(Native(), p)
    case None => []
    case Some(y) => TailKinds(y.tail)
  }

  /** These are the kinds that retention knows. */
  predicate Known(kinds: seq<nat>) {
    forall k :: k in kinds ==> k <= 1
  }

  lemma KnownNone()
    ensures Known([])
  {
  }

  lemma KnownOne(k: nat)
    ensures Known([k]) <==> k <= 1
  {
    assert k in [k];
  }

  lemma KnownBoth(a: seq<nat>, b: seq<nat>)
    ensures Known(a + b) <==> Known(a) && Known(b)
  {
    if Known(a + b) {
      assert forall k :: k in a || k in b ==> k in a + b;
    }
  }

  // What retention makes of them ------------------------------------------------------------------

  /** `p` reads what `q` reads, if `known`, and otherwise nothing. */
  predicate Only(p: Prog, q: Prog, s: bytes, known: bool) {
    Take(p, s) == if known then Take(q, s) else None
  }

  lemma SameOnly(p: Prog, s: bytes)
    ensures Only(p, p, s, true)
  {
  }

  /** Two in a row are taken one after the other. */
  lemma SeqTakes(a: Prog, b: Prog, s: bytes)
    ensures Take(Seq(a, b), s) == Joined(Take(a, s), if Take(a, s).Some? then Take(b, Take(a, s).value.rest) else None)
  {
    if Take(a, s).Some? && Take(b, Take(a, s).value.rest).Some? {
      TakeTwo(a, b, s);
    } else if Parse(Seq(a, b), s, IDENTITY).Some? {
      SeqSplits(a, b, s, IDENTITY);
    }
  }

  function Joined(x: Option<Cut>, y: Option<Cut>): Option<Cut> {
    if x.None? || y.None? then None else Some(Cut(x.value.slice + y.value.slice, y.value.rest))
  }

  lemma SeqOnly(a: Prog, b: Prog, c: Prog, d: Prog, s: bytes, first: bool, second: bool)
    requires Only(a, c, s, first) && (Take(c, s).Some? ==> Only(b, d, Take(c, s).value.rest, second))
    ensures Only(Seq(a, b), Seq(c, d), s, first && second)
  {
    SeqTakes(a, b, s);
    SeqTakes(c, d, s);
  }

  /** An option is taken by its flag. */
  lemma OptionalTakes(p: Prog, s: bytes)
    ensures s == [] || s[0] > 1 ==> Take(Optional(p), s).None?
    ensures s != [] && s[0] == 0 ==> Take(Optional(p), s) == Some(Cut(s[..1], s[1..]))
    ensures s != [] && s[0] == 1 ==>
              Take(Optional(p), s) == Joined(Some(Cut(s[..1], s[1..])), Take(p, s[1..]))
  {
    assert Parse(Optional(p), s, IDENTITY) == Flagged(p, s, IDENTITY);
    if s != [] && s[0] == 1 && Parse(p, s[1..], IDENTITY).Some? {
      var n := Parse(p, s[1..], IDENTITY).value.size;
      SliceJoin(s, 1, n);
      DropTwice(s, 1, n);
    }
  }

  lemma OptionalOnly(p: Prog, q: Prog, s: bytes, known: bool)
    requires s != [] && s[0] == 1 ==> Only(p, q, s[1..], known)
    ensures Only(Optional(p), Optional(q), s, s != [] && s[0] == 1 ==> known)
  {
    OptionalTakes(p, s);
    OptionalTakes(q, s);
  }

  /** A single size: retention takes it from the rewriter exactly if its kind is 0 or 1. */
  lemma SizeOnly(s: bytes)
    ensures Only(Size(true), Size(false), s, ReadNumber(s).Some? ==> ReadNumber(s).value.value <= 1)
  {
    assert Parse(Size(true), s, IDENTITY) == Chosen(Size(true), s, IDENTITY);
    assert Parse(Size(false), s, IDENTITY) == Chosen(Size(false), s, IDENTITY);
  }

  lemma OneSizeOnly(s: bytes)
    ensures Only(Optional(Size(true)), Optional(Size(false)), s, Known(KindOf(s)))
  {
    if s != [] && s[0] == 1 {
      SizeOnly(s[1..]);
      if ReadNumber(s[1..]).Some? {
        KnownOne(ReadNumber(s[1..]).value.value);
      } else {
        KnownNone();
      }
      OptionalOnly(Size(true), Size(false), s, Known(KindOf(s)));
    } else {
      OptionalOnly(Size(true), Size(false), s, true);
    }
  }

  lemma TwoSizesOnly(rest: Prog, s: bytes)
    ensures Only(Seq(Optional(Size(true)), Seq(Optional(Size(true)), rest)),
                 Seq(Optional(Size(false)), Seq(Optional(Size(false)), rest)), s, Known(SizeKinds(s)))
  {
    var o, o' := Optional(Size(true)), Optional(Size(false));
    OneSizeOnly(s);
    var width := Take(o', s);
    if width.Some? {
      var t := width.value.rest;
      OneSizeOnly(t);
      if Take(o', t).Some? {
        SameOnly(rest, Take(o', t).value.rest);
      }
      SeqOnly(o, rest, o', rest, t, Known(KindOf(t)), true);
      SeqOnly(o, Seq(o, rest), o', Seq(o', rest), s, Known(KindOf(s)), Known(KindOf(t)));
      KnownBoth(KindOf(s), KindOf(t));
    } else {
      SeqOnly(o, Seq(o, rest), o', Seq(o', rest), s, true, true);
    }
  }

  lemma PopupOnly(s: bytes)
    ensures Only(Popup(true), Popup(false), s, Known(PopupKinds(s)))
  {
    var rest := Frame(Seq(Raw(2), Nums(2)));
    var o, o' := Optional(Size(true)), Optional(Size(false));
    var sizes, sizes' := Seq(o, Seq(o, rest)), Seq(o', Seq(o', rest));
    SameOnly(Id, s);
    if Take(Id, s).Some? {
      var t := Take(Id, s).value.rest;
      SameOnly(Txt, t);
      if Take(Txt, t).Some? {
        TwoSizesOnly(rest, Take(Txt, t).value.rest);
      }
      SeqOnly(Txt, sizes, Txt, sizes', t, true, Known(PopupKinds(s)));
    }
    SeqOnly(Id, Seq(Txt, sizes), Id, Seq(Txt, sizes'), s, true, Known(PopupKinds(s)));
  }

  lemma PanelsOnly(s: bytes)
    ensures Only(Panels(true), Panels(false), s, Known(PanelKinds(s)))
  {
    SameOnly(Many(Split()), s);
    if Take(Many(Split()), s).Some? {
      var t := Take(Many(Split()), s).value.rest;
      if t != [] && t[0] == 1 {
        PopupOnly(t[1..]);
      }
      OptionalOnly(Popup(true), Popup(false), t, Known(PanelKinds(s)));
    }
    SeqOnly(Many(Split()), Optional(Popup(true)), Many(Split()), Optional(Popup(false)), s, true,
            Known(PanelKinds(s)));
  }

  lemma ArtOnly(r: bytes)
    ensures ReadArt(Native(), r) == if Known(PanelKinds(r)) then ReadArt(Tolerant(), r) else None
  {
    PanelsOnly(r);
    SameArt(Native(), Tolerant(), r, Known(PanelKinds(r)));
  }

  /** Art is read alike by layouts that differ in their panels alone. */
  lemma SameArt(l: Layout, m: Layout, r: bytes, known: bool)
    requires m == l.(panels := m.panels) && Only(l.panels, m.panels, r, known)
    ensures ReadArt(l, r) == if known then ReadArt(m, r) else None
  {
    if known && Take(m.panels, r).Some? {
      var images := Take(Many(l.Image()), Take(m.panels, r).value.rest);
      assert images == Take(Many(m.Image()), Take(m.panels, r).value.rest);
      if images.Some? {
        SameWanted(l, m, images.value.rest);
      }
    }
  }

  lemma SameWanted(l: Layout, m: Layout, s: bytes)
    requires m == l.(panels := m.panels)
    ensures ReadWanted(l, s) == ReadWanted(m, s)
  {
    var xs := Elements(l.Placement(), s);
    assert forall x :: Key(l, x) == Key(m, x);
    assert Keys(l, xs) == Keys(m, xs);
  }

  lemma RetainOnly(tail: bytes, had: map<bytes, bytes>)
    ensures Retain(Native(), tail, had) == if Known(TailKinds(tail)) then Retain(Tolerant(), tail, had) else None
  {
    assert BeforeArt(Native()) == BeforeArt(Tolerant());
    if Take(BeforeArt(Native()), tail).Some? {
      var r := Take(BeforeArt(Native()), tail).value.rest;
      ArtOnly(r);
      if ReadArt(Tolerant(), r).Some? {
        SameIncoming(Native(), Tolerant(), ReadArt(Tolerant(), r).value.images);
      }
    }
  }

  lemma {:induction false} SameIncoming(l: Layout, m: Layout, images: seq<bytes>)
    requires l.asset == m.asset
    ensures Incoming(l, images) == Incoming(m, images)
  {
    if images != [] {
      SameIncoming(l, m, images[..|images| - 1]);
    }
  }

  lemma LoadOnly(p: bytes, had: map<bytes, bytes>)
    ensures Load(Native(), p, had) == if Known(FrameKinds(p)) then Load(Tolerant(), p, had) else None
  {
    var y := BodyOf(Native(), p);
    SameBody(Native(), Tolerant(), p);
    if y.Some? {
      RetainOnly(y.value.tail, had);
    }
    SameLoad(Native(), Tolerant(), p, had, Known(FrameKinds(p)));
  }

  lemma SameBody(l: Layout, m: Layout, p: bytes)
    requires m == l.(panels := m.panels)
    ensures BodyOf(l, p) == BodyOf(m, p)
  {
  }

  lemma SameLoad(l: Layout, m: Layout, p: bytes, had: map<bytes, bytes>, known: bool)
    requires m == l.(panels := m.panels)
    requires BodyOf(l, p).Some? ==>
               Retain(l, BodyOf(l, p).value.tail, had) ==
               if known then Retain(m, BodyOf(l, p).value.tail, had) else None
    ensures Load(l, p, had) == if known then Load(m, p, had) else None
  {
    SameBody(l, m, p);
  }

  // Patches have no popups ------------------------------------------------------------------------

  lemma {:induction false} SamePaint(l: Layout, m: Layout, rows: seq<bytes>, cells: seq<bytes>, width: nat, height: nat)
    requires l.cell == m.cell
    ensures Paint(l, rows, cells, width, height) == Paint(m, rows, cells, width, height)
    decreases |rows|
  {
    if rows != [] && ReadRun(l, rows[0]).Some? {
      var run := ReadRun(l, rows[0]).value;
      assert ReadRun(m, rows[0]) == Some(run);
      if Screens.Within(run, width, height) {
        var painted := PaintRun(Offset(run, width), run.cells, cells);
        if painted.Some? {
          SamePaint(l, m, rows[1..], painted.value, width, height);
        }
      }
    }
  }

  lemma SamePatch(l: Layout, m: Layout, s: Screen, b: bytes)
    requires m == l.(panels := m.panels)
    ensures Patch(l, s, b) == Patch(m, s, b)
  {
    SameRead(l, m, b);
    if ReadPatch(l, b).Some? {
      var d := ReadPatch(l, b).value.delta;
      SamePaint(l, m, d.rows, s.cells, s.width, s.height);
      SameTail(l, m, s.tail, Updates(d.panes));
    }
  }

  lemma SameRead(l: Layout, m: Layout, b: bytes)
    requires m == l.(panels := m.panels)
    ensures ReadPatch(l, b) == ReadPatch(m, b)
  {
    assert l.Pane() == m.Pane() && l.Row() == m.Row();
  }

  lemma SameTail(l: Layout, m: Layout, tail: bytes, updates: map<bytes, bytes>)
    requires m == l.(panels := m.panels)
    ensures PatchTail(l, tail, updates) == PatchTail(m, tail, updates)
  {
    assert l.Pane() == m.Pane();
  }

  // What is retained ------------------------------------------------------------------------------

  /** Whatever is on screen: a frame is retained exactly if it would be by a reader of popups like the
      rewriter, and every kind of a popup's size in it is 0 or 1; and then as the same screen. */
  lemma RetainedIfKnown(s: Option<Screen>, p: bytes)
    ensures Update(Native(), s, p) == if Known(FrameKinds(p)) then Update(Tolerant(), s, p) else None
  {
    LoadOnly(p, if s.Some? then s.value.assets else map[]);
    PatchKnown(p);
    UpdateOnly(Native(), Tolerant(), s, p, Known(FrameKinds(p)));
  }

  lemma PatchKnown(p: bytes)
    ensures ReadNumber(p).Some? && ReadNumber(p).value.value != FULL_TAG ==> Known(FrameKinds(p))
  {
    if ReadHeader(p).Some? {
      HeaderTag(p);
    }
  }

  lemma UpdateOnly(l: Layout, m: Layout, s: Option<Screen>, p: bytes, known: bool)
    requires m == l.(panels := m.panels)
    requires var had := if s.Some? then s.value.assets else map[];
             Load(l, p, had) == if known then Load(m, p, had) else None
    requires ReadNumber(p).Some? && ReadNumber(p).value.value != FULL_TAG ==> known
    ensures Update(l, s, p) == if known then Update(m, s, p) else None
  {
    if s.Some? {
      SamePatch(l, m, s.value, p);
    }
  }

  lemma TolerantFits()
    ensures Wired(Tolerant(), Panels(false), SurfaceFrame())
  {
    NativeSound();
    PanelsSolid(false);
    NativeFrames();
  }

  /** What a good screen that was written out is read as. */
  lemma GoodBodyOf(l: Layout, s: Screen)
    requires l.Sound() && Good(l, s)
    ensures BodyOf(l, Bytes(s)) == Some(AsBody(s))
  {
    var b := Bytes(s);
    assert s.header[..|s.header|] == s.header;
    HeaderPrefix(s.header, b);
    assert b[|s.header|..] == BodyBytes(AsBody(s));
    ReadBodyBytes(l, AsBody(s));
  }

  /** A screen that such a reader could retain, written out, is accepted by the rewriter, and whatever is
      on screen, it is the kinds of its popup alone that decide whether it is retained. */
  lemma AcceptedNotRetained(s: Screen, other: Option<Screen>, e: Env)
    requires Good(Tolerant(), s) && Retained(s) <= MAX_FRAME
    ensures Surface(Bytes(s), e).Some?
    ensures Update(Native(), other, Bytes(s)) == if Known(TailKinds(s.tail)) then Some(s) else None
  {
    TolerantFits();
    PresentIs(Tolerant(), Panels(false), SurfaceFrame(), s, IDENTITY, 0);
    WholeAnyway(SurfaceFrame(), Bytes(s), IDENTITY, e);
    GoodUpdates(Tolerant(), s, other);
    RetainedIfKnown(other, Bytes(s));
    GoodBodyOf(Tolerant(), s);
    SameBody(Native(), Tolerant(), Bytes(s));
  }

  // A frame that fails ----------------------------------------------------------------------------

  /** Nothing, of which there are none. */
  const NO_ITEMS := List([0], [])

  /** The panels of a scene without splits, with a popup without a name, a title, a height or cells: the kind
      of its width is 2. */
  function OddPanels(): bytes {
    [0] + ([1] + ([0] + ([0] + ([1, 2, 7] + ([0] + Zeros(10))))))
  }

  function OddGallery(): Gallery {
    Gallery(OddPanels(), NO_ITEMS, NO_ITEMS, NO_ITEMS)
  }

  function OddScenery(): Scenery {
    Scenery([0] + [0], NO_ITEMS, OddGallery())
  }

  /** A screen without cells that shows this popup. */
  function OddScreen(): Screen {
    Screen(HeaderBytes(FULL_TAG, [], 0, 0), [], 0, 0, [0], OddScenery().Bytes(), 0, map[])
  }

  lemma OddSize()
    ensures Is(Size(false), [2, 7]) && Take(Size(true), [2, 7]).None?
  {
    assert Parse(Size(false), [2, 7], IDENTITY) == Chosen(Size(false), [2, 7], IDENTITY);
    SizeOnly([2, 7]);
  }

  lemma FlagIs(p: Prog, x: bytes)
    requires Solid(p) && Is(p, x)
    ensures Is(Optional(p), [1] + x) && Is(Optional(p), [0])
  {
    assert ([1] + x)[1..] == x;
    assert Parse(Optional(p), [1] + x, IDENTITY) == Flagged(p, [1] + x, IDENTITY);
    assert Parse(Optional(p), [0], IDENTITY) == Flagged(p, [0], IDENTITY);
  }

  lemma NoneAre(item: Prog)
    requires Element(item)
    ensures NO_ITEMS.Of(item) && Is(Many(item), [0])
  {
    assert NO_ITEMS.Bytes() == [0];
    ListIs(item, NO_ITEMS, IDENTITY);
  }

  lemma ZeroIs()
    ensures Is(Num, [0]) && Is(Txt, [0]) && Is(Id, [0]) && Is(Raw(2), [0, 0])
  {
    assert ReadNumber([0]) == Some(Read(0, 1)) && ReadText([0]) == Some(Read([], 1));
    AtomIs(Num, [0]);
    AtomIs(Txt, [0]);
    AtomIs(Id, [0]);
    AtomIs(Raw(2), [0, 0]);
  }

  lemma AtomIs(p: Prog, x: bytes)
    requires !p.Seq? && !p.Many? && !p.Optional? && !p.Case?
    requires Atom(p, x, IDENTITY).Some? && Atom(p, x, IDENTITY).value.size == |x|
    ensures Is(p, x)
  {
  }

  /** `k` zeros are `k` numbers. */
  lemma {:induction false} ZerosAre(k: nat)
    ensures NumbersSize(k, Zeros(k)) == Some(k) && Is(Nums(k), Zeros(k))
  {
    if k > 0 {
      ZerosAre(k - 1);
      assert Zeros(k)[1..] == Zeros(k - 1);
      NumbersStep(k, Zeros(k), 1, k - 1);
    }
    AtomIs(Nums(k), Zeros(k));
  }

  function Zeros(k: nat): (z: bytes)
    ensures |z| == k && forall i :: 0 <= i < k ==> z[i] == 0
  {
    seq(k, _ => 0)
  }

  /** Five in a row. */
  lemma FiveAre(a: Prog, b: Prog, c: Prog, d: Prog, rest: Prog, x: bytes, y: bytes, z: bytes, u: bytes, v: bytes)
    requires Solid(a) && Solid(b) && Solid(c) && Solid(d) && Solid(rest)
    requires Is(a, x) && Is(b, y) && Is(c, z) && Is(d, u) && Is(rest, v)
    ensures Is(Seq(a, Seq(b, Seq(c, Seq(d, rest)))), x + (y + (z + (u + v))))
  {
    SeqIs(d, rest, u, v, IDENTITY);
    SeqIs(c, Seq(d, rest), z, u + v, IDENTITY);
    SeqIs(b, Seq(c, Seq(d, rest)), y, z + (u + v), IDENTITY);
    SeqIs(a, Seq(b, Seq(c, Seq(d, rest))), x, y + (z + (u + v)), IDENTITY);
  }

  lemma CursorIs()
    ensures Is(Cursor(), [0])
  {
    CursorElement();
    FlagIs(Seq(Nums(2), Raw(2)), Zeros(2) + [0, 0]) by {
      ZeroIs();
      ZerosAre(2);
      SeqIs(Nums(2), Raw(2), Zeros(2), [0, 0], IDENTITY);
    }
  }

  lemma LinksIs()
    ensures Is(Links(), [0] + [0])
  {
    ZeroIs();
    NoneAre(Txt);
    SeqIs(Many(Txt), Txt, [0], [0], IDENTITY);
  }

  /** What ends a popup: no cells, links or cursor, and some flags. */
  lemma EndIs()
    ensures Is(Linked(Seq(Raw(2), Nums(2))), [0] + [0] + ([0, 0] + Zeros(2)))
  {
    ZeroIs();
    ZerosAre(2);
    LinksIs();
    LinksElement();
    SeqIs(Raw(2), Nums(2), [0, 0], Zeros(2), IDENTITY);
    SeqIs(Links(), Seq(Raw(2), Nums(2)), [0] + [0], [0, 0] + Zeros(2), IDENTITY);
  }

  lemma NoCellsIs()
    ensures Is(Frame(Seq(Raw(2), Nums(2))), Zeros(10))
  {
    EndIs();
    LinksElement();
    SeqSolid(Links(), Seq(Raw(2), Nums(2)));
    EmptyFrameIs(Seq(Raw(2), Nums(2)), [0] + [0] + ([0, 0] + Zeros(2)));
    TenZeros();
  }

  lemma TenZeros()
    ensures [0] + ([0] + ([0] + ([0] + ([0] + [0] + ([0, 0] + Zeros(2)))))) == Zeros(10)
  {
  }

  lemma EmptyFrameIs(rest: Prog, end: bytes)
    requires Solid(Linked(rest)) && Is(Linked(rest), end)
    ensures Is(Frame(rest), [0] + ([0] + ([0] + ([0] + end))))
  {
    ZeroIs();
    CursorIs();
    CursorElement();
    CellElement();
    NoneAre(Cell());
    FiveAre(Many(Cell()), Num, Num, Cursor(), Linked(rest), [0], [0], [0], [0], end);
  }

  lemma OddPopupIs()
    ensures Is(Popup(false), [0] + ([0] + ([1, 2, 7] + ([0] + Zeros(10)))))
  {
    var rest := Frame(Seq(Raw(2), Nums(2)));
    ZeroIs();
    NoCellsIs();
    FrameElement(Seq(Raw(2), Nums(2)));
    OddSize();
    FlagIs(Size(false), [2, 7]);
    assert [1] + [2, 7] == [1, 2, 7];
    FiveAre(Id, Txt, Optional(Size(false)), Optional(Size(false)), rest, [0], [0], [1, 2, 7], [0], Zeros(10));
  }

  lemma OddPanelsIs()
    ensures Is(Panels(false), OddPanels())
  {
    OddPopupIs();
    PopupElement(false);
    FlagIs(Popup(false), [0] + ([0] + ([1, 2, 7] + ([0] + Zeros(10)))));
    SplitElement();
    NoneAre(Split());
    PartElement(Popup(false));
    SeqIs(Many(Split()), Optional(Popup(false)), [0], [1] + ([0] + ([0] + ([1, 2, 7] + ([0] + Zeros(10))))), IDENTITY);
  }

  lemma OddSceneryOf()
    ensures OddScenery().Of(Tolerant())
  {
    OddPanelsIs();
    LinksIs();
    PaneElement();
    AssetElement();
    NoneAre(Pane());
    NoneAre(Image());
    NoneAre(Placement());
    NoneAre(Asset());
  }

  /** Scenery that wants no images and has none is settled. */
  lemma BareGood(l: Layout, t: Scenery)
    requires l.Sound() && t.Of(l) && t.art.images == NO_ITEMS && t.art.placements == t.art.references == NO_ITEMS
    ensures GoodTail(l, t.Bytes(), map[])
  {
    var g := t.art;
    TakeScenery(l, t);
    ReadGallery(l, g);
    assert g.Wanted(l) == [];
    assert Number(0) + Flat([]) == [0] == NO_ITEMS.Bytes();
    OwnArtSettles(l, Kept(g.Bytes(), map[]), Art(g.panels, [], g.Pictures(), []));
  }

  lemma OddScreenIsGood()
    ensures Good(Tolerant(), OddScreen()) && Retained(OddScreen()) <= MAX_FRAME
  {
    NativeSound();
    PanelsSolid(false);
    OddSceneryOf();
    BareGood(Tolerant(), OddScenery());
    CursorIs();
    BlankGood(OddScreen());
    OddSizeIs();
  }

  lemma BlankGood(s: Screen)
    requires s.header == HeaderBytes(FULL_TAG, [], 0, 0) && s.revision == 0 && s.cells == [] && s.height == 0
    ensures GoodHeader(s) && Consistent(s)
  {
    FreshHeaderGood(s, [], 0);
  }

  lemma OddSizeIs()
    ensures Retained(OddScreen()) <= MAX_FRAME
  {
  }

  // The kinds in panels, by their parts

  lemma SizeKindsBy(width: bytes, rest: bytes)
    requires Is(Optional(Size(false)), width)
    ensures SizeKinds(width + rest) == KindOf(width + rest) + KindOf(rest)
  {
    SizeElement(false);
    PartElement(Size(false));
    TakeSlice(Optional(Size(false)), width, rest);
  }

  lemma PopupKindsBy(id: bytes, title: bytes, sizes: bytes)
    requires Is(Id, id) && Is(Txt, title)
    ensures PopupKinds(id + (title + sizes)) == SizeKinds(sizes)
  {
    TakeSlice(Id, id, title + sizes);
    TakeSlice(Txt, title, sizes);
  }

  lemma PanelKindsBy(splits: bytes, popup: bytes)
    requires Is(Many(Split()), splits)
    ensures PanelKinds(splits + ([1] + popup)) == PopupKinds(popup)
  {
    SplitElement();
    PartElement(Split());
    TakeSlice(Many(Split()), splits, [1] + popup);
    assert ([1] + popup)[1..] == popup;
  }

  /** This screen, written out, passes the rewriter, and is never retained, although a reader of popups like
      the rewriter would retain it. */
  lemma OddScreenIsLost(other: Option<Screen>, e: Env)
    ensures Surface(Bytes(OddScreen()), e).Some?
    ensures Update(Native(), other, Bytes(OddScreen())).None?
    ensures Update(Tolerant(), other, Bytes(OddScreen())) == Some(OddScreen())
  {
    OddScreenIsGood();
    AcceptedNotRetained(OddScreen(), other, e);
    OddKinds();
    NativeSound();
    PanelsSolid(false);
    GoodUpdates(Tolerant(), OddScreen(), other);
  }

  /** The frame, byte by byte. */
  lemma OddFrame()
    ensures Bytes(OddScreen()) == [13, 0, 0, 0] + Zeros(8) + [1, 0, 0, 1, 2, 7] + Zeros(14)
  {
    OddArt();
    assert HeaderBytes(FULL_TAG, [], 0, 0) == [13, 0, 0, 0];
    assert OddScenery().Bytes() == Zeros(4) + [1, 0, 0, 1, 2, 7] + Zeros(14);
    assert BodyBytes(AsBody(OddScreen())) == Zeros(4) + OddScenery().Bytes();
  }

  lemma OddKinds()
    ensures !Known(TailKinds(OddScenery().Bytes()))
  {
    NativeSound();
    PanelsSolid(false);
    OddSceneryOf();
    TakeScenery(Tolerant(), OddScenery());
    OddArtKinds();
    assert BeforeArt(Native()) == BeforeArt(Tolerant());
  }

  lemma OddArtKinds()
    ensures !Known(PanelKinds(OddGallery().Bytes()))
  {
    var more := [0] + Zeros(10) + OddRest();
    OddArt();
    SplitElement();
    NoneAre(Split());
    PanelKindsBy([0], [0] + ([0] + ([1, 2, 7] + more)));
    ZeroIs();
    PopupKindsBy([0], [0], [1, 2, 7] + more);
    OddSizeKinds(more);
  }

  lemma OddSizeKinds(more: bytes)
    ensures !Known(SizeKinds([1, 2, 7] + more))
  {
    OddSize();
    FlagIs(Size(false), [2, 7]);
    assert [1] + [2, 7] == [1, 2, 7];
    SizeKindsBy([1, 2, 7], more);
    KnownOne(2);
    KnownBoth(KindOf([1, 2, 7] + more), KindOf(more));
  }

  function OddRest(): bytes {
    NO_ITEMS.Bytes() + (NO_ITEMS.Bytes() + NO_ITEMS.Bytes())
  }

  lemma OddArt()
    ensures OddGallery().Bytes() == [0] + ([1] + ([0] + ([0] + ([1, 2, 7] + ([0] + Zeros(10) + OddRest())))))
  {
  }
}
