/** The surface frames of the wire: what was proved of any sound layout, for the native one. */
module Endpoint {
  import opened Wire
  import opened Grammar
  import opened Slices
  import opened Surfaces
  import opened Screens
  import opened Retention
  import opened Forwarding
  import opened Viewing

  /** `q` reads whatever `p` reads, in the same way. */
  ghost predicate Weaker(p: Prog, q: Prog) {
    forall s, e :: Parse(p, s, e).Some? ==> Parse(q, s, e) == Parse(p, s, e)
  }

  lemma WeakerSeq(a: Prog, a': Prog, b: Prog, b': Prog)
    requires Weaker(a, a') && Weaker(b, b')
    ensures Weaker(Seq(a, b), Seq(a', b'))
  {
    forall s, e | Parse(Seq(a, b), s, e).Some?
      ensures Parse(Seq(a', b'), s, e) == Parse(Seq(a, b), s, e)
    {
      SeqSplits(a, b, s, e);
      var u := Parse(a, s, e).value;
      Slices.SeqStep(a', b', s, e, u, Parse(b, s[u.size..], e).value);
    }
  }

  lemma WeakerOptional(p: Prog, q: Prog)
    requires Weaker(p, q)
    ensures Weaker(Optional(p), Optional(q))
  {
    forall s, e | Parse(Optional(p), s, e).Some?
      ensures Parse(Optional(q), s, e) == Parse(Optional(p), s, e)
    {
      assert Parse(Optional(p), s, e) == Flagged(p, s, e) && Parse(Optional(q), s, e) == Flagged(q, s, e);
      WeakerFlagged(p, q, s, e);
    }
  }

  lemma WeakerFlagged(p: Prog, q: Prog, s: bytes, e: Env)
    requires Weaker(p, q) && Flagged(p, s, e).Some?
    ensures Flagged(q, s, e) == Flagged(p, s, e)
  {
    if s[0] == 1 {
      assert Parse(p, s[1..], e).Some?;
      assert Parse(q, s[1..], e) == Parse(p, s[1..], e);
    }
  }

  lemma WeakerSize()
    ensures Weaker(Size(true), Size(false))
  {
    forall s, e | Parse(Size(true), s, e).Some?
      ensures Parse(Size(false), s, e) == Parse(Size(true), s, e)
    {
      assert Parse(Size(true), s, e) == Chosen(Size(true), s, e);
      assert Parse(Size(false), s, e) == Chosen(Size(false), s, e);
      var v := ReadNumber(s).value.value;
      assert v == 0 || v == 1;
      assert Pick(Size(true), v) == Pick(Size(false), v);
    }
  }

  lemma WeakerPanels()
    ensures Weaker(Panels(true), Panels(false))
  {
    WeakerSize();
    WeakerOptional(Size(true), Size(false));
    var rest := Frame(Seq(Raw(2), Nums(2)));
    var o, o' := Optional(Size(true)), Optional(Size(false));
    WeakerSeq(o, o', rest, rest);
    WeakerSeq(o, o', Seq(o, rest), Seq(o', rest));
    WeakerSeq(Txt, Txt, Seq(o, Seq(o, rest)), Seq(o', Seq(o', rest)));
    WeakerSeq(Id, Id, Seq(Txt, Seq(o, Seq(o, rest))), Seq(Txt, Seq(o', Seq(o', rest))));
    assert Weaker(Popup(true), Popup(false));
    WeakerOptional(Popup(true), Popup(false));
    WeakerSeq(Many(Split()), Many(Split()), Optional(Popup(true)), Optional(Popup(false)));
  }

  /** What is proved of any sound layout holds of the native one. */
  ghost predicate Wired(l: Layout, loose: Prog, q: Prog) {
    l.Sound() && Lenient(l, loose) && Frames(l, loose, q)
  }

  lemma NativeSurface()
    ensures NumberedScene(Native(), Panels(false)) == Numbered()
    ensures NumberedPatch(Native()) == Seq(Num, Seq(Num, Changes()))
  {
    var l := Native();
    assert PicturesOf(l) == Seq(Many(Placement()), Many(Asset()));
    assert ArtOf(l, Panels(false)) == AfterPanes(false);
    assert PanesOf(l, ArtOf(l, Panels(false))) == Linked(AfterLinks(false));
    assert SceneOf(l, Panels(false)) == Scene(false);
    assert ChangesOf(l) == Changes();
  }

  lemma NativeLenient()
    ensures Lenient(Native(), Panels(false))
  {
    PanelsSolid(false);
    WeakerPanels();
  }

  lemma NativeFrames()
    ensures Frames(Native(), Panels(false), SurfaceFrame())
  {
    NativeSurface();
    SurfaceSolid();
    EitherFrames(Native(), Panels(false), SurfaceFrame());
  }

  lemma EitherFrames(l: Layout, loose: Prog, q: Prog)
    requires Solid(q)
    requires q == Case(FULL_TAG, Led(NumberedScene(l, loose)), PATCH_TAG, Led(NumberedPatch(l)), Fail)
    ensures Frames(l, loose, q)
  {
  }

  lemma NativeFits()
    ensures Wired(Native(), Panels(false), SurfaceFrame())
  {
    NativeSound();
    NativeLenient();
    NativeFrames();
  }

  // What the gateway writes -----------------------------------------------------------------------

  /** The viewer's boot and revision, and identifiers prefixed for a source. */
  function ViewerEnv(boot: bytes, revision: nat, prefix: bytes): Env {
    Env(boot, revision, id => prefix + id)
  }

  lemma PrefixInjective(boot: bytes, revision: nat, prefix: bytes)
    ensures Injective(ViewerEnv(boot, revision, prefix).id)
  {
    forall x: bytes, y: bytes | prefix + x == prefix + y ensures x == y {
      assert (prefix + x)[|prefix|..] == x && (prefix + y)[|prefix|..] == y;
    }
  }

  /** A full scene for the viewer, with surface revision `n`. */
  function FullFrameFor(s: Screen, e: Env, n: nat): Option<bytes> {
    Present(SurfaceFrame(), s, e, n)
  }

  /** A source's patch for the viewer, from surface revision `n` to the next. */
  function PatchFrameFor(p: bytes, e: Env, n: nat): Option<bytes> {
    Relay(SurfaceFrame(), p, e, n, n + 1)
  }

  lemma PresentFits(l: Layout, loose: Prog, q: Prog, s: Screen, e: Env, n: nat)
    requires Wired(l, loose, q) && Good(l, s) && Legal(e)
    requires Present(q, s, e, n).Some? && |Present(q, s, e, n).value| <= MAX_FRAME
    ensures Showable(l, s, e)
  {
    PresentIs(l, loose, q, s, e, n);
    SceneryCuts(l, s.tail, s.assets);
    var t := SceneryOf(l, s.tail).value;
    RewriteScenery(l, loose, t, e);
    var q := PanesOf(l, ArtOf(l, loose));
    ParseIndependent(q, s.tail, IDENTITY, e);
    LengthFits(q, s.tail, e);
  }

  lemma RelayFits(l: Layout, loose: Prog, q: Prog, p: bytes, e: Env, n: nat)
    requires Wired(l, loose, q) && Legal(e)
    requires Is(q, p) && ReadHeader(p).Some? && ReadHeader(p).value.tag == PATCH_TAG
    requires Relay(q, p, e, n, n + 1).Some? && |Relay(q, p, e, n, n + 1).value| <= MAX_FRAME
    ensures FitsIn(q, p, e)
  {
    var x := LetterOf(l, loose, q, p);
    RelayIs(l, loose, q, x, e, n, n + 1);
    RewriteEdits(l, x.edits, e);
    ParseIndependent(ChangesOf(l), x.edits.Bytes(), IDENTITY, e);
    LengthFits(ChangesOf(l), x.edits.Bytes(), e);
  }

  /** Every retained screen can be written for a viewer. */
  lemma GoodScreensAreFrames(s: Screen, e: Env, n: nat)
    requires Good(Native(), s) && Legal(e)
    ensures FullFrameFor(s, e, n).Some?
  {
    NativeFits();
    PresentIs(Native(), Panels(false), SurfaceFrame(), s, e, n);
  }

  /** Whatever frames of a source led to it, the retained screen written out is again a surface frame,
      whatever is substituted in it, and from it alone anyone rebuilds the screen. */
  lemma RetainedScreenIsAFrame(frames: seq<bytes>, other: Option<Screen>, e: Env)
    requires Replay(Native(), frames).Some?
    ensures Surface(Bytes(Replay(Native(), frames).value), e).Some?
    ensures Update(Native(), other, Bytes(Replay(Native(), frames).value)) == Replay(Native(), frames)
  {
    NativeFits();
    ReplayIsAFrame(Native(), Panels(false), SurfaceFrame(), frames, other, e);
  }

  lemma ReplayIsAFrame(l: Layout, loose: Prog, q: Prog, frames: seq<bytes>, other: Option<Screen>, e: Env)
    requires Wired(l, loose, q) && Replay(l, frames).Some?
    ensures Whole(q, Bytes(Replay(l, frames).value), e).Some?
    ensures Update(l, other, Bytes(Replay(l, frames).value)) == Replay(l, frames)
  {
    var s := Replay(l, frames).value;
    ReplayGood(l, frames);
    PresentIs(l, loose, q, s, IDENTITY, 0);
    WholeAnyway(q, Bytes(s), IDENTITY, e);
    RetainedScreenIsComplete(l, frames, other);
  }

  /** A full scene that fits a frame puts the view of the screen before the viewer, whatever the
      viewer had before. */
  lemma FullFrameShows(s: Screen, e: Env, n: nat, viewer: Option<Screen>)
    requires Good(Native(), s) && Legal(e) && n < UINT64
    requires FullFrameFor(s, e, n).Some? && |FullFrameFor(s, e, n).value| <= MAX_FRAME
    ensures Showable(Native(), s, e) && View(Native(), s, e, n).Some?
    ensures Apply(Native(), viewer, FullFrameFor(s, e, n).value) == View(Native(), s, e, n)
  {
    NativeFits();
    PresentShows(Native(), Panels(false), SurfaceFrame(), s, e, n, viewer);
  }

  lemma PresentShows(l: Layout, loose: Prog, q: Prog, s: Screen, e: Env, n: nat, viewer: Option<Screen>)
    requires Wired(l, loose, q) && Good(l, s) && Legal(e) && n < UINT64
    requires Present(q, s, e, n).Some? && |Present(q, s, e, n).value| <= MAX_FRAME
    ensures Showable(l, s, e) && View(l, s, e, n).Some?
    ensures Apply(l, viewer, Present(q, s, e, n).value) == View(l, s, e, n)
  {
    PresentFits(l, loose, q, s, e, n);
    var had := if viewer.Some? then viewer.value.assets else map[];
    PresentLoads(l, loose, q, s, e, n, had);
    LoadTag(l, Present(q, s, e, n).value, had);
  }

  lemma PatchTag(l: Layout, s: Screen, b: bytes)
    requires Patch(l, s, b).Some?
    ensures ReadHeader(b).Some? && ReadHeader(b).value.tag == PATCH_TAG
    ensures ReadNumber(b).Some? && ReadNumber(b).value.value == PATCH_TAG
  {
    HeaderTag(b);
  }

  /** A translated patch that fits a frame, sent to a viewer that holds the view of the screen before
      the patch, is taken, and leaves the view of the screen after it: what the full scene would have
      given. */
  lemma PatchFrameShows(s: Screen, p: bytes, e: Env, n: nat)
    requires Good(Native(), s) && Showable(Native(), s, e) && Injective(e.id) && n < UINT64 - 1
    requires Surface(p, e).Some? && Patch(Native(), s, p).Some?
    requires PatchFrameFor(p, e, n).Some? && |PatchFrameFor(p, e, n).value| <= MAX_FRAME
    ensures View(Native(), s, e, n).Some?
    ensures var t := Patch(Native(), s, p).value;
            && Showable(Native(), t, e) && View(Native(), t, e, n + 1).Some?
            && Apply(Native(), View(Native(), s, e, n), PatchFrameFor(p, e, n).value) == View(Native(), t, e, n + 1)
  {
    NativeFits();
    SurfaceAccepts(p, e);
    RelayShows(Native(), Panels(false), SurfaceFrame(), s, p, e, n);
  }

  lemma SurfaceAccepts(p: bytes, e: Env)
    requires Surface(p, e).Some?
    ensures Is(SurfaceFrame(), p)
  {
    ParseIndependent(SurfaceFrame(), p, IDENTITY, e);
  }

  lemma ApplyPatch(l: Layout, s: Screen, b: bytes)
    requires Patch(l, s, b).Some?
    ensures Apply(l, Some(s), b) == Patch(l, s, b)
  {
    PatchTag(l, s, b);
  }

  lemma RelayShows(l: Layout, loose: Prog, q: Prog, s: Screen, p: bytes, e: Env, n: nat)
    requires Wired(l, loose, q) && Injective(e.id) && n < UINT64 - 1
    requires Good(l, s) && Showable(l, s, e)
    requires Is(q, p) && Patch(l, s, p).Some?
    requires Relay(q, p, e, n, n + 1).Some? && |Relay(q, p, e, n, n + 1).value| <= MAX_FRAME
    ensures View(l, s, e, n).Some?
    ensures var t := Patch(l, s, p).value;
            && Showable(l, t, e) && View(l, t, e, n + 1).Some?
            && Apply(l, View(l, s, e, n), Relay(q, p, e, n, n + 1).value) == View(l, t, e, n + 1)
  {
    PatchTag(l, s, p);
    RelayFits(l, loose, q, p, e, n);
    RelayRefines(l, loose, q, s, p, e, n);
    ApplyPatch(l, View(l, s, e, n).value, Relay(q, p, e, n, n + 1).value);
  }

  lemma WholeAnyway(q: Prog, p: bytes, e: Env, f: Env)
    requires Whole(q, p, e).Some?
    ensures Whole(q, p, f).Some?
  {
    ParseIndependent(q, p, e, f);
  }

  /** Whether a frame is well formed does not depend on what is written into it. */
  lemma SurfaceAnyway(p: bytes, e: Env, f: Env)
    requires Surface(p, e).Some?
    ensures Surface(p, f).Some?
  {
    WholeAnyway(SurfaceFrame(), p, e, f);
  }

  // Blanking --------------------------------------------------------------------------------------

  /** A space without colours or attributes. */
  const BLANK_CELL: bytes := [1, 32, 0, 0, 0, 0, 0]

  function Repeated(x: bytes, n: nat): (xs: seq<bytes>)
    ensures |xs| == n && forall i :: 0 <= i < n ==> xs[i] == x
  {
    seq(n, _ => x)
  }

  /** A full frame of blank cells, without cursor, links, panes, panels or images. */
  function BlankFrame(boot: bytes, revision: nat, n: nat, columns: nat, rows: nat): bytes {
    HeaderBytes(FULL_TAG, boot, revision, n)
    + BodyBytes(Body(Repeated(BLANK_CELL, columns * rows), columns, rows, [0], [0, 0, 0, 0, 0, 0, 0, 0]))
  }
}
