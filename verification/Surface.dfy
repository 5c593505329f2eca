/** The surface frames: full scenes and patches, and the structural rewriting of their identifiers. */
module Surfaces {
  import opened Wire
  import opened Grammar
  import opened Slices
  import Decoding

  function Cell(): Prog {
    Seq(Txt, Seq(Nums(3), Seq(Raw(1), Optional(Num))))
  }

  function Cursor(): Prog {
    Optional(Seq(Nums(2), Raw(2)))
  }

  /** The hyperlinks and the legacy graphics text. */
  function Links(): Prog {
    Seq(Many(Txt), Txt)
  }

  function Pane(): Prog {
    Seq(Id, PaneBody())
  }

  function PaneBody(): Prog {
    Seq(Nums(9), Seq(Optional(Nums(4)), Seq(Optional(Nums(3)), Seq(Raw(4), Nums(2)))))
  }

  function Split(): Prog {
    Seq(Nums(10), Many(Raw(1)))
  }

  function Asset(): Prog {
    Seq(Case(0, Seq(Enum(1), Seq(Id, Num)), 1, Seq(Id, Txt), Fail), Nums(5))
  }

  function Image(): Prog {
    Seq(Asset(), Txt)
  }

  function Placement(): Prog {
    Seq(Asset(), Nums(13))
  }

  function Frame(rest: Prog): Prog {
    Seq(Many(Cell()), Measured(rest))
  }

  /** The width, the height and the cursor. */
  function Measured(rest: Prog): Prog {
    Seq(Num, Seq(Num, Pointed(rest)))
  }

  function Pointed(rest: Prog): Prog {
    Seq(Cursor(), Linked(rest))
  }

  function Linked(rest: Prog): Prog {
    Seq(Links(), rest)
  }

  /** The rewriter takes any size kind other than 0 for a percentage byte; retention insists on 0 or 1. */
  function Size(strict: bool): Prog {
    if strict then Case(0, Num, 1, Raw(1), Fail) else Case(0, Num, 0, Num, Raw(1))
  }

  function Popup(strict: bool): Prog {
    Seq(Id, Seq(Txt, Seq(Optional(Size(strict)), Seq(Optional(Size(strict)), Frame(Seq(Raw(2), Nums(2)))))))
  }

  function Graphics(): Prog {
    Seq(Many(Image()), Seq(Many(Placement()), Many(Asset())))
  }

  /** The splits and the popup. */
  function Panels(strict: bool): Prog {
    Seq(Many(Split()), Optional(Popup(strict)))
  }

  function AfterPanes(strict: bool): Prog {
    Seq(Panels(strict), Graphics())
  }

  function AfterLinks(strict: bool): Prog {
    Seq(Many(Pane()), AfterPanes(strict))
  }

  /** A full scene after its header. */
  function Scene(strict: bool): Prog {
    Frame(AfterLinks(strict))
  }

  /** A run of cells from a coordinate. */
  function Row(): Prog {
    Seq(Num, Seq(Num, Many(Cell())))
  }

  /** A patch after its two surface revisions. */
  function Changes(): Prog {
    Seq(Many(Row()), Seq(Many(Pane()), Cursor()))
  }

  const FULL_TAG := 13
  const PATCH_TAG := 19

  function Numbered(): Prog {
    Seq(Num, Scene(false))
  }

  function FullFrame(): Prog {
    Seq(Boot, Seq(Revision, Numbered()))
  }

  function PatchFrame(): Prog {
    Seq(Boot, Seq(Revision, Seq(Num, Seq(Num, Changes()))))
  }

  function SurfaceFrame(): Prog {
    Case(FULL_TAG, FullFrame(), PATCH_TAG, PatchFrame(), Fail)
  }

  // The grammar is sound: whatever is repeated occupies at least one byte -----------------------------

  lemma CellElement()
    ensures Element(Cell()) && Plain(Cell())
  {
    assert Element(Seq(Raw(1), Optional(Num)));
  }

  lemma CursorElement()
    ensures Element(Cursor()) && Plain(Cursor())
  {
  }

  lemma LinksElement()
    ensures Element(Links()) && Plain(Links())
  {
  }

  lemma PaneElement()
    ensures Element(PaneBody()) && Plain(PaneBody()) && Element(Pane())
  {
    assert Element(Seq(Raw(4), Nums(2)));
    assert Element(Seq(Optional(Nums(3)), Seq(Raw(4), Nums(2))));
    assert Element(PaneBody()) && Plain(PaneBody());
  }

  lemma AssetElement()
    ensures Element(Asset()) && Element(Image()) && Element(Placement())
  {
    assert Element(Seq(Enum(1), Seq(Id, Num))) && Element(Seq(Id, Txt));
    assert Element(Asset());
  }

  lemma SplitElement()
    ensures Element(Split())
  {
  }

  lemma FrameElement(rest: Prog)
    requires Solid(rest)
    ensures Element(Frame(rest))
  {
    CellElement();
    CursorElement();
    LinksElement();
    SeqSolid(Links(), rest);
    SeqSolid(Cursor(), Linked(rest));
    SeqSolid(Num, Pointed(rest));
    SeqSolid(Num, Seq(Num, Pointed(rest)));
    PartElement(Cell());
    SeqSolid(Many(Cell()), Measured(rest));
  }

  lemma SizeElement(strict: bool)
    ensures Element(Size(strict))
  {
    assert Solid(Num) && Solid(Raw(1)) && Solid(Fail);
  }

  lemma PopupElement(strict: bool)
    ensures Element(Popup(strict))
  {
    var size, body := Size(strict), Frame(Seq(Raw(2), Nums(2)));
    SizeElement(strict);
    FrameElement(Seq(Raw(2), Nums(2)));
    PartElement(size);
    SeqSolid(Optional(size), body);
    SeqSolid(Optional(size), Seq(Optional(size), body));
    SeqSolid(Txt, Seq(Optional(size), Seq(Optional(size), body)));
    SeqSolid(Id, Seq(Txt, Seq(Optional(size), Seq(Optional(size), body))));
  }

  lemma PanelsSolid(strict: bool)
    ensures Solid(Panels(strict))
  {
    SplitElement();
    PopupElement(strict);
    PartElement(Split());
    PartElement(Popup(strict));
    SeqSolid(Many(Split()), Optional(Popup(strict)));
  }

  lemma GraphicsSolid()
    ensures Solid(Graphics())
  {
    AssetElement();
    PartElement(Image());
    PartElement(Placement());
    PartElement(Asset());
    SeqSolid(Many(Placement()), Many(Asset()));
    SeqSolid(Many(Image()), Seq(Many(Placement()), Many(Asset())));
  }

  lemma SceneElement(strict: bool)
    ensures Element(Scene(strict))
  {
    PanelsSolid(strict);
    GraphicsSolid();
    SeqSolid(Panels(strict), Graphics());
    PaneElement();
    PartElement(Pane());
    SeqSolid(Many(Pane()), AfterPanes(strict));
    FrameElement(AfterLinks(strict));
  }

  lemma ChangesSolid()
    ensures Solid(Changes())
  {
    CellElement();
    PaneElement();
    CursorElement();
    PartElement(Cell());
    SeqSolid(Num, Many(Cell()));
    SeqSolid(Num, Seq(Num, Many(Cell())));
    PartElement(Row());
    PartElement(Pane());
    SeqSolid(Many(Pane()), Cursor());
    SeqSolid(Many(Row()), Seq(Many(Pane()), Cursor()));
  }

  lemma SurfaceSolid()
    ensures Element(SurfaceFrame())
  {
    SceneElement(false);
    SeqSolid(Num, Scene(false));
    LedSolid(Numbered());
    ChangesSolid();
    SeqSolid(Num, Changes());
    SeqSolid(Num, Seq(Num, Changes()));
    LedSolid(Seq(Num, Seq(Num, Changes())));
    assert Solid(FullFrame()) && Solid(PatchFrame()) && Solid(Fail);
  }

  lemma LedSolid(rest: Prog)
    requires Solid(rest)
    ensures Solid(Seq(Boot, Seq(Revision, rest)))
  {
    SeqSolid(Revision, rest);
    SeqSolid(Boot, Seq(Revision, rest));
  }

  /** Rewrites the whole of `b`, which must be exactly one `q`. */
  function Whole(q: Prog, b: bytes, e: Env): Option<bytes> {
    match Parse(q, b, e)
    case None => None
    case Some(r) => if r.size == |b| then Some(r.out) else None
  }

  function Surface(b: bytes, e: Env): Option<bytes> {
    Whole(SurfaceFrame(), b, e)
  }

  /** Every substituted text can be read back. */
  predicate FitsAs(q: Prog, b: bytes, e: Env) {
    Parse(q, b, e).Some? ==> Parse(q, b, e).value.fits
  }

  predicate Fits(b: bytes, e: Env) {
    FitsAs(SurfaceFrame(), b, e)
  }

  method RewriteWhole(q: Prog, b: bytes, e: Env) returns (r: Option<bytes>)
    ensures r == Whole(q, b, e)
  {
    var d := new Decoding.Decoder(b);
    d.Run(q, e);
    assert b[0..] == b;
    if d.err || d.p != |b| {
      return None;
    }
    ghost var out := Parse(q, b, e).value.out;
    assert [] + out == out;
    return Some(d.out);
  }

  method RewriteSurface(b: bytes, e: Env) returns (r: Option<bytes>)
    ensures r == Surface(b, e)
  {
    r := RewriteWhole(SurfaceFrame(), b, e);
  }

  lemma {:induction false} WholePrefixFree(q: Prog, b: bytes, n: nat, e1: Env, e2: Env)
    requires Solid(q) && Whole(q, b, e1).Some? && n < |b|
    ensures Whole(q, b[..n], e2).None?
  {
    if Whole(q, b[..n], e2).Some? {
      assert b[..n][..n] <= b;
      ParseIndependent(q, b, e1, e2);
      ParsePrefix(q, b[..n], b, e2);
    }
  }

  /** An accepted frame has no accepted proper prefix: a frame cannot be cut short unnoticed. */
  lemma {:induction false} SurfacePrefixFree(b: bytes, n: nat, e1: Env, e2: Env)
    requires Surface(b, e1).Some? && n < |b|
    ensures Surface(b[..n], e2).None?
  {
    SurfaceSolid();
    WholePrefixFree(SurfaceFrame(), b, n, e1, e2);
  }

  lemma {:induction false} WholeComposes(q: Prog, b: bytes, e1: Env, e2: Env, e: Env)
    requires Solid(q) && Whole(q, b, e1).Some? && FitsAs(q, b, e1) && Composed(e1, e2, e)
    ensures Whole(q, b, e).Some?
    ensures Whole(q, Whole(q, b, e1).value, e2) == Whole(q, b, e)
    ensures FitsAs(q, b, e) ==> FitsAs(q, Whole(q, b, e1).value, e2)
  {
    ParseComposes(q, b, Whole(q, b, e1).value, e1, e2, e);
  }

  /** Rewriting a rewritten frame gives, byte for byte, one rewriting by the composed substitution;
      in particular the rewritten frame is accepted again. */
  lemma {:induction false} SurfaceComposes(b: bytes, e1: Env, e2: Env, e: Env)
    requires Surface(b, e1).Some? && Fits(b, e1) && Composed(e1, e2, e)
    ensures Surface(b, e).Some?
    ensures Surface(Surface(b, e1).value, e2) == Surface(b, e)
  {
    SurfaceSolid();
    WholeComposes(SurfaceFrame(), b, e1, e2, e);
  }

  /** Substitutions that respect the text limit always fit. */
  lemma {:induction false} LimitFits(p: Prog, s: bytes, e: Env)
    requires |e.boot| <= MAX_FRAME && e.revision < UINT64
    requires forall x: bytes :: |x| <= MAX_FRAME ==> |e.id(x)| <= MAX_FRAME
    ensures FitsAs(p, s, e)
    decreases p, 1, 0
  {
    match p
    case Seq(a, b) =>
      LimitFits(a, s, e);
      if Parse(a, s, e).Some? { LimitFits(b, s[Parse(a, s, e).value.size..], e); }
    case Many(item) =>
      if ReadNumber(s).Some? { LimitFitsRepeat(item, ReadNumber(s).value.value, s[ReadNumber(s).value.size..], e); }
    case Optional(item) =>
      if s != [] { LimitFits(item, s[1..], e); }
    case Case(_, _, _, _, _) =>
      if ReadNumber(s).Some? { LimitFits(Pick(p, ReadNumber(s).value.value), s[ReadNumber(s).value.size..], e); }
    case _ =>
  }

  lemma {:induction false} LimitFitsRepeat(item: Prog, k: nat, s: bytes, e: Env)
    requires |e.boot| <= MAX_FRAME && e.revision < UINT64
    requires forall x: bytes :: |x| <= MAX_FRAME ==> |e.id(x)| <= MAX_FRAME
    ensures Repeat(item, k, s, e).Some? ==> Repeat(item, k, s, e).value.fits
    decreases item, 2, k
  {
    if k > 0 {
      LimitFits(item, s, e);
      if Parse(item, s, e).Some? { LimitFitsRepeat(item, k - 1, s[Parse(item, s, e).value.size..], e); }
    }
  }

  /** So does any substitution whose output is no longer than a frame may be. */
  lemma {:induction false} LengthFits(p: Prog, s: bytes, e: Env)
    requires e.revision < UINT64
    requires Parse(p, s, e).Some? && |Parse(p, s, e).value.out| <= MAX_FRAME
    ensures FitsAs(p, s, e)
    decreases p, 1, 0
  {
    match p
    case Seq(a, b) =>
      LengthFits(a, s, e);
      LengthFits(b, s[Parse(a, s, e).value.size..], e);
    case Many(item) =>
      LengthFitsRepeat(item, ReadNumber(s).value.value, s[ReadNumber(s).value.size..], e);
    case Optional(item) =>
      if s[0] == 1 { LengthFits(item, s[1..], e); }
    case Case(_, _, _, _, _) =>
      LengthFits(Pick(p, ReadNumber(s).value.value), s[ReadNumber(s).value.size..], e);
    case _ =>
  }

  lemma {:induction false} LengthFitsRepeat(item: Prog, k: nat, s: bytes, e: Env)
    requires e.revision < UINT64
    requires Repeat(item, k, s, e).Some? && |Repeat(item, k, s, e).value.out| <= MAX_FRAME
    ensures Repeat(item, k, s, e).value.fits
    decreases item, 2, k
  {
    if k > 0 {
      LengthFits(item, s, e);
      LengthFitsRepeat(item, k - 1, s[Parse(item, s, e).value.size..], e);
    }
  }
}
