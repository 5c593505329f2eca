/** Forwarding frames to a viewer: full scenes, and patches in their place. Everything is rewritten
    to the viewer's own boot, revision and identifiers, and renumbered. */
module Forwarding {
  import opened Wire
  import opened Grammar
  import opened Slices
  import opened Surfaces
  import opened Screens
  import opened Retention

  // The two layouts of a surface frame, for any element layouts ----------------------------------

  function PicturesOf(l: Layout): (p: Prog)
    ensures l.Sound() ==> Solid(p)
  {
    Seq(Many(l.Placement()), Many(l.asset))
  }

  function GraphicsOf(l: Layout): (p: Prog)
    ensures l.Sound() ==> Solid(p)
  {
    Seq(Many(l.Image()), PicturesOf(l))
  }

  function ArtOf(l: Layout, panels: Prog): (p: Prog)
    ensures l.Sound() && Solid(panels) ==> Solid(p)
  {
    Seq(panels, GraphicsOf(l))
  }

  function CanvasOf(l: Layout, rest: Prog): (p: Prog)
    ensures l.Sound() && Solid(rest) ==> Solid(p)
  {
    var pointed := Seq(l.cursor, rest);
    assert l.Sound() && Solid(rest) ==> Solid(pointed);
    Seq(Num, Seq(Num, pointed))
  }

  function PanesOf(l: Layout, rest: Prog): (p: Prog)
    ensures l.Sound() && Solid(rest) ==> Solid(p)
  {
    var panes := Seq(Many(l.Pane()), rest);
    assert l.Sound() && Solid(rest) ==> Solid(panes);
    Seq(l.links, panes)
  }

  function SceneOf(l: Layout, panels: Prog): (p: Prog)
    ensures l.Sound() && Solid(panels) ==> Solid(p)
  {
    Seq(Many(l.cell), CanvasOf(l, PanesOf(l, ArtOf(l, panels))))
  }

  function PaneChangesOf(l: Layout): (p: Prog)
    ensures l.Sound() ==> Solid(p)
  {
    Seq(Many(l.Pane()), l.cursor)
  }

  function ChangesOf(l: Layout): (p: Prog)
    ensures l.Sound() ==> Solid(p)
  {
    Seq(Many(l.Row()), PaneChangesOf(l))
  }

  /** The panels as the rewriter reads them: it accepts all that retention accepts, and rewrites it
      in the same way. */
  ghost predicate Lenient(l: Layout, loose: Prog) {
    Solid(loose) && forall s, e :: Parse(l.panels, s, e).Some? ==> Parse(loose, s, e) == Parse(l.panels, s, e)
  }

  // Art -----------------------------------------------------------------------------------------

  /** A counted repetition as its slices. */
  datatype List = List(count: bytes, items: seq<bytes>) {
    function Bytes(): bytes {
      count + Flat(items)
    }

    ghost predicate Of(item: Prog) {
      AllAre(item, items) && |items| <= MAX_FRAME && ReadNumber(count) == Some(Read(|items|, |count|))
    }

    function Rewritten(item: Prog, e: Env): List {
      List(count, RewriteAll(item, items, e))
    }
  }

  lemma ListIs(item: Prog, x: List, e: Env)
    requires Element(item) && x.Of(item)
    ensures Is(Many(item), x.Bytes())
    ensures Rewrite(Many(item), x.Bytes(), e) == x.Rewritten(item, e).Bytes()
    ensures FitsIn(Many(item), x.Bytes(), e) <==> AllFit(item, x.items, e)
  {
    ManyPieces(item, x.count, x.items, e);
  }

  lemma ListComposes(item: Prog, x: List, e: Env)
    requires Element(item) && x.Of(item) && AllFit(item, x.items, e)
    ensures x.Rewritten(item, e).Of(item)
  {
    forall i | 0 <= i < |x.items| ensures Is(item, Rewrite(item, x.items[i], e)) {
      assert FitsIn(item, x.items[i], e) && Is(item, x.items[i]);
      RewriteIs(item, x.items[i], e);
    }
  }

  lemma TakeList(item: Prog, x: List, t: bytes)
    requires Element(item) && x.Of(item)
    ensures Take(Many(item), x.Bytes() + t) == Some(Cut(x.Bytes(), t))
    ensures Elements(item, x.Bytes() + t) == x.items
  {
    TakeCounted(item, x.count, x.items, t);
  }

  /** The list that a repetition begins with. */
  function ListOf(item: Prog, s: bytes): List {
    List(Count(s), Elements(item, s))
  }

  lemma ListCuts(item: Prog, s: bytes)
    requires Element(item) && Take(Many(item), s).Some?
    ensures ListOf(item, s).Of(item)
    ensures Take(Many(item), s).value.slice == ListOf(item, s).Bytes()
    ensures s == ListOf(item, s).Bytes() + Take(Many(item), s).value.rest
  {
    TakeManyCuts(item, s);
    var m := Take(Many(item), s).value.slice;
    var n := ReadNumber(s).value.size;
    assert m[..n] == s[..n];
  }

  /** Art as its slices. */
  datatype Gallery = Gallery(panels: bytes, images: List, placements: List, references: List) {
    function Pictures(): bytes {
      placements.Bytes() + references.Bytes()
    }

    function Bytes(): bytes {
      panels + (images.Bytes() + Pictures())
    }

    ghost predicate Of(l: Layout) {
      Is(l.panels, panels) && images.Of(l.Image()) && placements.Of(l.Placement()) && references.Of(l.asset)
    }

    function Wanted(l: Layout): seq<bytes> {
      Keys(l, placements.items) + references.items
    }

    ghost predicate Fits(l: Layout, e: Env) {
      && FitsIn(l.panels, panels, e) && AllFit(l.Image(), images.items, e)
      && AllFit(l.Placement(), placements.items, e) && AllFit(l.asset, references.items, e)
    }

    function Rewritten(l: Layout, e: Env): Gallery {
      Gallery(Rewrite(l.panels, panels, e), images.Rewritten(l.Image(), e),
              placements.Rewritten(l.Placement(), e), references.Rewritten(l.asset, e))
    }
  }

  lemma ReadWantedGallery(l: Layout, g: Gallery)
    requires l.Sound() && g.Of(l)
    ensures ReadWanted(l, g.Pictures()) == Some(Distinct(g.Wanted(l)))
  {
    TakeList(l.Placement(), g.placements, g.references.Bytes());
    TakeList(l.asset, g.references, []);
    assert g.references.Bytes() + [] == g.references.Bytes();
  }

  lemma ReadGallery(l: Layout, g: Gallery)
    requires l.Sound() && g.Of(l)
    ensures ReadArt(l, g.Bytes()) == Some(Art(g.panels, g.images.items, g.Pictures(), Distinct(g.Wanted(l))))
  {
    TakeSlice(l.panels, g.panels, g.images.Bytes() + g.Pictures());
    TakeList(l.Image(), g.images, g.Pictures());
    ReadWantedGallery(l, g);
  }

  function GalleryOf(l: Layout, r: bytes): Gallery
    requires ReadArt(l, r).Some?
  {
    var panels := Take(l.panels, r).value;
    var images := Take(Many(l.Image()), panels.rest).value;
    var placements := Take(Many(l.Placement()), images.rest).value;
    Gallery(panels.slice, ListOf(l.Image(), panels.rest), ListOf(l.Placement(), images.rest),
            ListOf(l.asset, placements.rest))
  }

  lemma GalleryCuts(l: Layout, r: bytes)
    requires l.Sound() && ReadArt(l, r).Some?
    ensures GalleryOf(l, r).Of(l) && r == GalleryOf(l, r).Bytes()
  {
    TakeCuts(l.panels, r);
    var panels := Take(l.panels, r).value;
    ListCuts(l.Image(), panels.rest);
    var images := Take(Many(l.Image()), panels.rest).value;
    ListCuts(l.Placement(), images.rest);
    var placements := Take(Many(l.Placement()), images.rest).value;
    ListCuts(l.asset, placements.rest);
    var references := Take(Many(l.asset), placements.rest).value;
    assert references.slice + [] == references.slice;
  }

  /** How art is rewritten: panel by panel, image by image. */
  lemma RewriteGallery(l: Layout, loose: Prog, g: Gallery, e: Env)
    requires l.Sound() && Lenient(l, loose) && g.Of(l)
    ensures Is(ArtOf(l, loose), g.Bytes())
    ensures Rewrite(ArtOf(l, loose), g.Bytes(), e) == g.Rewritten(l, e).Bytes()
    ensures FitsIn(ArtOf(l, loose), g.Bytes(), e) <==> g.Fits(l, e)
  {
    LenientIs(l, loose, g.panels, e);
    ListIs(l.Image(), g.images, e);
    ListIs(l.Placement(), g.placements, e);
    ListIs(l.asset, g.references, e);
    SeqIs(Many(l.Placement()), Many(l.asset), g.placements.Bytes(), g.references.Bytes(), e);
    SeqIs(Many(l.Image()), PicturesOf(l), g.images.Bytes(), g.Pictures(), e);
    SeqIs(loose, GraphicsOf(l), g.panels, g.images.Bytes() + g.Pictures(), e);
  }

  lemma LenientIs(l: Layout, loose: Prog, x: bytes, e: Env)
    requires l.Sound() && Lenient(l, loose) && Is(l.panels, x)
    ensures Is(loose, x) && Rewrite(loose, x, e) == Rewrite(l.panels, x, e)
    ensures FitsIn(loose, x, e) <==> FitsIn(l.panels, x, e)
  {
    ParseIndependent(l.panels, x, IDENTITY, e);
  }

  lemma GalleryComposes(l: Layout, g: Gallery, e: Env)
    requires l.Sound() && g.Of(l) && g.Fits(l, e)
    ensures g.Rewritten(l, e).Of(l)
  {
    RewriteIs(l.panels, g.panels, e);
    ListComposes(l.Image(), g.images, e);
    ListComposes(l.Placement(), g.placements, e);
    ListComposes(l.asset, g.references, e);
  }

  /** The key of a rewritten image or placement is the rewritten key. */
  lemma RewriteKey(l: Layout, q: Prog, x: bytes, e: Env)
    requires l.Sound() && Solid(q) && Is(Seq(l.asset, q), x) && FitsIn(Seq(l.asset, q), x, e)
    ensures Is(l.asset, Key(l, x))
    ensures Key(l, Rewrite(Seq(l.asset, q), x, e)) == Rewrite(l.asset, Key(l, x), e)
  {
    KeyCuts(l, q, x);
    SeqIs(l.asset, q, Key(l, x), Data(l, x), e);
    RewriteIs(l.asset, Key(l, x), e);
    KeyOf(l, Rewrite(l.asset, Key(l, x), e), Rewrite(q, Data(l, x), e));
  }

  lemma {:induction false} IncomingKeys(l: Layout, images: seq<bytes>)
    ensures forall k :: k in Incoming(l, images) <==> k in Keys(l, images)
  {
    if images != [] {
      var n := |images| - 1;
      IncomingKeys(l, images[..n]);
      assert Keys(l, images) == Keys(l, images[..n]) + [Key(l, images[n])];
    }
  }

  /** Rewriting loses no image that is wanted. */
  lemma GallerySupplied(l: Layout, g: Gallery, e: Env)
    requires l.Sound() && g.Of(l) && g.Fits(l, e)
    requires Supplied(g.Wanted(l), Incoming(l, g.images.items))
    ensures Supplied(g.Rewritten(l, e).Wanted(l), Incoming(l, g.Rewritten(l, e).images.items))
  {
    var h := g.Rewritten(l, e);
    IncomingKeys(l, g.images.items);
    IncomingKeys(l, h.images.items);
    forall i | 0 <= i < |h.Wanted(l)| ensures h.Wanted(l)[i] in Keys(l, h.images.items) {
      var k := g.Wanted(l)[i];
      WantedRewritten(l, g, e, i);
      assert k in Keys(l, g.images.items);
      var j :| 0 <= j < |g.images.items| && Keys(l, g.images.items)[j] == k;
      assert Is(l.Image(), g.images.items[j]) && FitsIn(l.Image(), g.images.items[j], e);
      RewriteKey(l, Txt, g.images.items[j], e);
      assert Keys(l, h.images.items)[j] == Rewrite(l.asset, k, e);
    }
  }

  lemma WantedRewritten(l: Layout, g: Gallery, e: Env, i: nat)
    requires l.Sound() && g.Of(l) && g.Fits(l, e) && i < |g.Wanted(l)|
    ensures |g.Rewritten(l, e).Wanted(l)| == |g.Wanted(l)|
    ensures g.Rewritten(l, e).Wanted(l)[i] == Rewrite(l.asset, g.Wanted(l)[i], e)
  {
    var ks, xs := Keys(l, g.placements.items), g.references.items;
    var js, ys := Keys(l, RewriteAll(l.Placement(), g.placements.items, e)), RewriteAll(l.asset, xs, e);
    forall j | 0 <= j < |ks| ensures js[j] == Rewrite(l.asset, ks[j], e) {
      KeyRewritten(l, g.placements.items, e, j);
    }
    RewrittenAt(l.asset, ks, xs, js, ys, e, i);
  }

  lemma RewrittenAt(p: Prog, ks: seq<bytes>, xs: seq<bytes>, js: seq<bytes>, ys: seq<bytes>, e: Env, i: nat)
    requires |js| == |ks| && |ys| == |xs| && i < |ks + xs|
    requires forall j :: 0 <= j < |ks| ==> js[j] == Rewrite(p, ks[j], e)
    requires forall j :: 0 <= j < |xs| ==> ys[j] == Rewrite(p, xs[j], e)
    ensures (js + ys)[i] == Rewrite(p, (ks + xs)[i], e)
  {
  }

  lemma KeyRewritten(l: Layout, xs: seq<bytes>, e: Env, i: nat)
    requires l.Sound() && AllAre(l.Placement(), xs) && AllFit(l.Placement(), xs, e) && i < |xs|
    ensures Keys(l, RewriteAll(l.Placement(), xs, e))[i] == Rewrite(l.asset, Keys(l, xs)[i], e)
  {
    assert Is(l.Placement(), xs[i]) && FitsIn(l.Placement(), xs[i], e);
    RewriteKey(l, l.placing, xs[i], e);
  }

  // Scenes --------------------------------------------------------------------------------------

  /** The tail of a scene as its slices. */
  datatype Scenery = Scenery(links: bytes, panes: List, art: Gallery) {
    function Bytes(): bytes {
      links + panes.Bytes() + art.Bytes()
    }

    ghost predicate Of(l: Layout) {
      Is(l.links, links) && panes.Of(l.Pane()) && art.Of(l)
    }

    ghost predicate Fits(l: Layout, e: Env) {
      AllFit(l.Pane(), panes.items, e) && art.Fits(l, e)
    }

    function Rewritten(l: Layout, e: Env): Scenery {
      Scenery(links, panes.Rewritten(l.Pane(), e), art.Rewritten(l, e))
    }

    ghost predicate Supplied(l: Layout) {
      Screens.Supplied(art.Wanted(l), Incoming(l, art.images.items))
    }
  }

  lemma RewriteScenery(l: Layout, loose: Prog, t: Scenery, e: Env)
    requires l.Sound() && Lenient(l, loose) && t.Of(l)
    ensures Is(PanesOf(l, ArtOf(l, loose)), t.Bytes())
    ensures Rewrite(PanesOf(l, ArtOf(l, loose)), t.Bytes(), e) == t.Rewritten(l, e).Bytes()
    ensures FitsIn(PanesOf(l, ArtOf(l, loose)), t.Bytes(), e) <==> t.Fits(l, e)
  {
    RewriteGallery(l, loose, t.art, e);
    ListIs(l.Pane(), t.panes, e);
    RewritePlain(l.links, t.links, e);
    SeqIs(Many(l.Pane()), ArtOf(l, loose), t.panes.Bytes(), t.art.Bytes(), e);
    SeqIs(l.links, Seq(Many(l.Pane()), ArtOf(l, loose)), t.links, t.panes.Bytes() + t.art.Bytes(), e);
    Associates(t.links, t.panes.Bytes(), t.art.Bytes());
    var u := t.Rewritten(l, e);
    Associates(u.links, u.panes.Bytes(), u.art.Bytes());
  }

  lemma SceneryComposes(l: Layout, t: Scenery, e: Env)
    requires l.Sound() && t.Of(l) && t.Fits(l, e)
    ensures t.Rewritten(l, e).Of(l)
    ensures t.Supplied(l) ==> t.Rewritten(l, e).Supplied(l)
  {
    ListComposes(l.Pane(), t.panes, e);
    GalleryComposes(l, t.art, e);
    if t.Supplied(l) {
      GallerySupplied(l, t.art, e);
    }
  }

  lemma TakeScenery(l: Layout, t: Scenery)
    requires l.Sound() && t.Of(l)
    ensures Take(BeforeArt(l), t.Bytes()) == Some(Cut(t.links + t.panes.Bytes(), t.art.Bytes()))
  {
    ListIs(l.Pane(), t.panes, IDENTITY);
    SeqIs(l.links, Many(l.Pane()), t.links, t.panes.Bytes(), IDENTITY);
    TakeSlice(BeforeArt(l), t.links + t.panes.Bytes(), t.art.Bytes());
  }

  /** What retention makes of scenery depends only on its art. */
  lemma RetainScenery(l: Layout, t: Scenery, had: map<bytes, bytes>)
    requires l.Sound() && t.Of(l) && t.Supplied(l)
    ensures RetainArt(l, t.art.Bytes(), map[]).Some?
    ensures var kept := RetainArt(l, t.art.Bytes(), map[]).value;
            Retain(l, t.Bytes(), had) == Some(Kept(t.links + t.panes.Bytes() + kept.tail, kept.assets))
  {
    TakeScenery(l, t);
    ReadGallery(l, t.art);
    SelfContainedRetains(l, t.art.Bytes(), had);
  }

  function SceneryOf(l: Layout, tail: bytes): Option<Scenery> {
    var links :- Take(l.links, tail);
    var panes :- Take(Many(l.Pane()), links.rest);
    if ReadArt(l, panes.rest).None? then None
    else Some(Scenery(links.slice, ListOf(l.Pane(), links.rest), GalleryOf(l, panes.rest)))
  }

  lemma SceneryCuts(l: Layout, tail: bytes, assets: map<bytes, bytes>)
    requires l.Sound() && GoodTail(l, tail, assets)
    ensures SceneryOf(l, tail).Some?
    ensures var t := SceneryOf(l, tail).value;
            t.Of(l) && t.Supplied(l) && t.Bytes() == tail && t.links == Take(l.links, tail).value.slice
  {
    BeforeArtCuts(l, tail);
    TakeCuts(l.links, tail);
    var links := Take(l.links, tail).value;
    ListCuts(l.Pane(), links.rest);
    var panes := Take(Many(l.Pane()), links.rest).value;
    GalleryCuts(l, panes.rest);
    var g := GalleryOf(l, panes.rest);
    ReadGallery(l, g);
    Associates(links.slice, ListOf(l.Pane(), links.rest).Bytes(), g.Bytes());
  }

  /** A body whose scenery is rewritten. */
  lemma RewriteBody(l: Layout, loose: Prog, y: Body, t: Scenery, e: Env)
    requires l.Sound() && Lenient(l, loose) && GoodBody(l, y) && t.Of(l) && y.tail == t.Bytes()
    ensures Is(SceneOf(l, loose), BodyBytes(y))
    ensures Rewrite(SceneOf(l, loose), BodyBytes(y), e) == BodyBytes(y.(tail := t.Rewritten(l, e).Bytes()))
    ensures FitsIn(SceneOf(l, loose), BodyBytes(y), e) <==> t.Fits(l, e)
  {
    var rest := PanesOf(l, ArtOf(l, loose));
    RewriteScenery(l, loose, t, e);
    RewritePlain(l.cursor, y.cursor, e);
    SeqIs(l.cursor, rest, y.cursor, y.tail, e);
    RewriteCanvas(l, rest, y.width, y.height, y.cursor + y.tail, e);
    RewriteCells(l.cell, y.cells, e);
    SeqIs(Many(l.cell), CanvasOf(l, rest), Number(|y.cells|) + Flat(y.cells),
          Number(y.width) + Number(y.height) + (y.cursor + y.tail), e);
  }

  lemma RewriteCells(p: Prog, xs: seq<bytes>, e: Env)
    requires Element(p) && Plain(p) && AllAre(p, xs) && |xs| <= MAX_FRAME
    ensures var z := Number(|xs|) + Flat(xs);
            Is(Many(p), z) && Rewrite(Many(p), z, e) == z && FitsIn(Many(p), z, e)
  {
    NumberAlone(|xs|);
    ListIs(p, List(Number(|xs|), xs), e);
    RewriteAllPlain(p, xs, e);
  }

  lemma RewriteAllPlain(p: Prog, xs: seq<bytes>, e: Env)
    requires Solid(p) && Plain(p) && AllAre(p, xs)
    ensures RewriteAll(p, xs, e) == xs && AllFit(p, xs, e)
  {
    forall i | 0 <= i < |xs| ensures Rewrite(p, xs[i], e) == xs[i] && FitsIn(p, xs[i], e) {
      assert Is(p, xs[i]);
      RewritePlain(p, xs[i], e);
    }
  }

  lemma NumberIs(v: nat, e: Env)
    requires v < UINT64
    ensures Is(Num, Number(v)) && Rewrite(Num, Number(v), e) == Number(v) && FitsIn(Num, Number(v), e)
  {
    NumberAlone(v);
    assert Number(v)[..|Number(v)|] == Number(v);
  }

  lemma RewriteCanvas(l: Layout, rest: Prog, width: nat, height: nat, x: bytes, e: Env)
    requires l.Sound() && Solid(rest) && width < UINT64 && height < UINT64 && Is(Seq(l.cursor, rest), x)
    ensures var z := Number(width) + Number(height) + x;
            && Is(CanvasOf(l, rest), z)
            && Rewrite(CanvasOf(l, rest), z, e) == Number(width) + Number(height) + Rewrite(Seq(l.cursor, rest), x, e)
            && (FitsIn(CanvasOf(l, rest), z, e) <==> FitsIn(Seq(l.cursor, rest), x, e))
  {
    NumberIs(width, e);
    NumberIs(height, e);
    RewriteAfterTwo(Num, Seq(l.cursor, rest), Number(width), Number(height), x, e);
  }

  /** Two slices that are left as they are, and a third. */
  lemma RewriteAfterTwo(p: Prog, q: Prog, a: bytes, b: bytes, x: bytes, e: Env)
    requires Solid(p) && Solid(q) && Is(p, a) && Is(p, b) && Is(q, x)
    requires Rewrite(p, a, e) == a && Rewrite(p, b, e) == b && FitsIn(p, a, e) && FitsIn(p, b, e)
    ensures var z := a + b + x;
            && Is(Seq(p, Seq(p, q)), z) && Rewrite(Seq(p, Seq(p, q)), z, e) == a + b + Rewrite(q, x, e)
            && (FitsIn(Seq(p, Seq(p, q)), z, e) <==> FitsIn(q, x, e))
  {
    SeqIs(p, q, b, x, e);
    SeqIs(p, Seq(p, q), a, b + x, e);
    Associates(a, b, x);
    Associates(a, b, Rewrite(q, x, e));
  }

  // Whole frames --------------------------------------------------------------------------------

  function Led(rest: Prog): Prog {
    Seq(Boot, Seq(Revision, rest))
  }

  function NumberedScene(l: Layout, loose: Prog): Prog {
    Seq(Num, SceneOf(l, loose))
  }

  function NumberedPatch(l: Layout): Prog {
    Seq(Num, Seq(Num, ChangesOf(l)))
  }

  /** `q` reads a full frame after the one tag, with panels as `loose` reads them, and a patch after
      the other. */
  ghost predicate Frames(l: Layout, loose: Prog, q: Prog) {
    && q.Case? && Solid(q)
    && Pick(q, FULL_TAG) == Led(NumberedScene(l, loose))
    && Pick(q, PATCH_TAG) == Led(NumberedPatch(l))
  }

  lemma PatchSolid(l: Layout)
    requires l.Sound()
    ensures Solid(NumberedPatch(l))
  {
    SeqSolid(Num, ChangesOf(l));
    SeqSolid(Num, Seq(Num, ChangesOf(l)));
  }

  lemma SceneSolid(l: Layout, loose: Prog)
    requires l.Sound() && Solid(loose)
    ensures Solid(NumberedScene(l, loose))
  {
    SeqSolid(Num, SceneOf(l, loose));
  }

  lemma CaseIs(p: Prog, c: bytes, v: nat, x: bytes, e: Env)
    requires p.Case? && Solid(p) && ReadNumber(c) == Some(Read(v, |c|)) && Is(Pick(p, v), x)
    ensures Is(p, c + x) && Rewrite(p, c + x, e) == c + Rewrite(Pick(p, v), x, e)
    ensures FitsIn(p, c + x, e) <==> FitsIn(Pick(p, v), x, e)
  {
    CaseIsIn(p, c, v, x, e);
    CaseIsIn(p, c, v, x, IDENTITY);
  }

  lemma CaseIsIn(p: Prog, c: bytes, v: nat, x: bytes, e: Env)
    requires p.Case? && Solid(p) && ReadNumber(c) == Some(Read(v, |c|)) && Is(Pick(p, v), x)
    ensures Parse(p, c + x, e)
         == Some(Parsed(|c| + |x|, c + Rewrite(Pick(p, v), x, e), FitsIn(Pick(p, v), x, e)))
  {
    var z := c + x;
    assert c[..|c|] == c;
    PrefixNumber(c, z);
    assert z[|c|..] == x && z[..|c|] == c;
    IsParses(Pick(p, v), x, x, e);
  }

  /** The raw slices that open a frame: tag, boot and projection. */
  datatype Opening = Opening(tag: bytes, boot: bytes, projection: bytes) {
    function Bytes(): bytes {
      tag + boot + projection
    }

    ghost predicate Of(v: nat) {
      && ReadNumber(tag) == Some(Read(v, |tag|))
      && ReadText(boot).Some? && ReadText(boot).value.size == |boot|
      && ReadNumber(projection).Some? && ReadNumber(projection).value.size == |projection|
    }

    function Rewritten(e: Env): Opening {
      Opening(tag, Text(e.boot), Number(e.revision))
    }
  }

  ghost predicate Legal(e: Env) {
    |e.boot| <= MAX_FRAME && e.revision < UINT64
  }

  lemma OpeningComposes(o: Opening, v: nat, e: Env)
    requires o.Of(v) && Legal(e)
    ensures o.Rewritten(e).Of(v)
    ensures ReadText(o.Rewritten(e).boot).value.value == e.boot
    ensures ReadNumber(o.Rewritten(e).projection).value.value == e.revision
  {
    TextAlone(e.boot);
    NumberAlone(e.revision);
  }

  lemma RewriteLed(o: Opening, v: nat, rest: Prog, x: bytes, e: Env)
    requires o.Of(v) && Solid(rest) && Is(rest, x) && Legal(e)
    ensures var z := o.boot + o.projection + x;
            && Is(Led(rest), z)
            && Rewrite(Led(rest), z, e) == Text(e.boot) + Number(e.revision) + Rewrite(rest, x, e)
            && (FitsIn(Led(rest), z, e) <==> FitsIn(rest, x, e))
  {
    SeqIs(Revision, rest, o.projection, x, e);
    SeqIs(Boot, Seq(Revision, rest), o.boot, o.projection + x, e);
    Associates(o.boot, o.projection, x);
    Associates(Text(e.boot), Number(e.revision), Rewrite(rest, x, e));
  }

  /** A frame is rewritten by rewriting its opening and its contents. */
  lemma RewriteFrame(p: Prog, o: Opening, v: nat, rest: Prog, x: bytes, e: Env)
    requires p.Case? && Solid(p) && Pick(p, v) == Led(rest) && o.Of(v) && Solid(rest) && Is(rest, x) && Legal(e)
    ensures Is(p, o.Bytes() + x)
    ensures Rewrite(p, o.Bytes() + x, e) == o.Rewritten(e).Bytes() + Rewrite(rest, x, e)
    ensures FitsIn(p, o.Bytes() + x, e) <==> FitsIn(rest, x, e)
  {
    RewriteLed(o, v, rest, x, e);
    CaseIs(p, o.tag, v, o.boot + o.projection + x, e);
    OpeningAppend(o, x);
    OpeningAppend(o.Rewritten(e), Rewrite(rest, x, e));
  }

  lemma OpeningAppend(o: Opening, x: bytes)
    ensures o.Bytes() + x == o.tag + (o.boot + o.projection + x)
  {
  }

  /** What follows the next number or text. */
  function SkipNumber(s: bytes): Option<bytes> {
    var r :- ReadNumber(s);
    Some(s[r.size..])
  }

  function SkipText(s: bytes): Option<bytes> {
    var r :- ReadText(s);
    Some(s[r.size..])
  }

  function SkipOpening(s: bytes): Option<bytes> {
    var a :- SkipNumber(s);
    var b :- SkipText(a);
    SkipNumber(b)
  }

  lemma SkipNumberIs(c: bytes, x: bytes)
    requires ReadNumber(c).Some? && ReadNumber(c).value.size == |c|
    ensures SkipNumber(c + x) == Some(x) && ReadNumber(c + x) == ReadNumber(c)
  {
    assert c[..|c|] == c;
    PrefixNumber(c, c + x);
  }

  lemma SkipTextIs(c: bytes, x: bytes)
    requires ReadText(c).Some? && ReadText(c).value.size == |c|
    ensures SkipText(c + x) == Some(x) && ReadText(c + x) == ReadText(c)
  {
    assert c[..|c|] == c;
    PrefixText(c, c + x);
  }

  lemma SkipOpeningIs(o: Opening, v: nat, x: bytes)
    requires o.Of(v)
    ensures SkipOpening(o.Bytes() + x) == Some(x)
  {
    OpeningAppend(o, x);
    Associates(o.boot, o.projection, x);
    SkipNumberIs(o.tag, o.boot + (o.projection + x));
    SkipTextIs(o.boot, o.projection + x);
    SkipNumberIs(o.projection, x);
  }

  /** Puts `n` in place of the surface revision of a full frame. */
  function Renumber(p: bytes, n: nat): Option<bytes> {
    var after :- SkipOpening(p);
    var rest :- SkipNumber(after);
    if |after| > |p| then None
    else Some(p[..|p| - |after|] + Number(n) + rest)
  }

  /** Puts `n` and `m` in place of the two surface revisions of a patch. */
  function RenumberPatch(p: bytes, n: nat, m: nat): Option<bytes> {
    var after :- SkipOpening(p);
    var once :- SkipNumber(after);
    var rest :- SkipNumber(once);
    if |after| > |p| then None
    else Some(p[..|p| - |after|] + Number(n) + Number(m) + rest)
  }

  lemma RenumberIs(o: Opening, v: nat, c: bytes, x: bytes, n: nat)
    requires o.Of(v) && ReadNumber(c).Some? && ReadNumber(c).value.size == |c|
    ensures Renumber(o.Bytes() + (c + x), n) == Some(o.Bytes() + Number(n) + x)
  {
    var p := o.Bytes() + (c + x);
    SkipOpeningIs(o, v, c + x);
    SkipNumberIs(c, x);
    assert p[..|p| - |c + x|] == o.Bytes();
  }

  lemma RenumberPatchIs(o: Opening, v: nat, c: bytes, d: bytes, x: bytes, n: nat, m: nat)
    requires o.Of(v)
    requires ReadNumber(c).Some? && ReadNumber(c).value.size == |c|
    requires ReadNumber(d).Some? && ReadNumber(d).value.size == |d|
    ensures RenumberPatch(o.Bytes() + (c + (d + x)), n, m) == Some(o.Bytes() + Number(n) + Number(m) + x)
  {
    var p := o.Bytes() + (c + (d + x));
    SkipOpeningIs(o, v, c + (d + x));
    SkipNumberIs(c, d + x);
    SkipNumberIs(d, x);
    assert p[..|p| - |c + (d + x)|] == o.Bytes();
  }

  /** The first text of `s`, raw. */
  function FirstText(s: bytes): bytes {
    match ReadText(s)
    case None => []
    case Some(r) => s[..r.size]
  }

  lemma NumberCuts(s: bytes)
    requires ReadNumber(s).Some?
    ensures SkipNumber(s).Some? && s == Count(s) + SkipNumber(s).value
    ensures ReadNumber(Count(s)) == ReadNumber(s) && ReadNumber(s).value.size == |Count(s)|
  {
    PrefixNumber(s, Count(s));
  }

  lemma TextCuts(s: bytes)
    requires ReadText(s).Some?
    ensures SkipText(s).Some? && s == FirstText(s) + SkipText(s).value
    ensures ReadText(FirstText(s)) == ReadText(s) && ReadText(s).value.size == |FirstText(s)|
  {
    PrefixText(s, FirstText(s));
  }

  /** The raw slices of a header. */
  function OpeningOf(b: bytes): Option<Opening> {
    var s :- SkipNumber(b);
    var t :- SkipText(s);
    Some(Opening(Count(b), FirstText(s), Count(t)))
  }

  lemma SkipsOpening(b: bytes, s: bytes, t: bytes)
    requires SkipNumber(b) == Some(s) && SkipText(s) == Some(t)
    ensures SkipOpening(b) == SkipNumber(t) && OpeningOf(b) == Some(Opening(Count(b), FirstText(s), Count(t)))
  {
  }

  lemma OpeningParts(b: bytes)
    requires ReadHeader(b).Some?
    ensures OpeningOf(b).Some? && SkipOpening(b).Some?
    ensures OpeningOf(b).value.Of(ReadHeader(b).value.tag)
    ensures b == OpeningOf(b).value.Bytes() + SkipOpening(b).value
    ensures ReadNumber(SkipOpening(b).value).Some?
  {
    NumberField(4, b);
    NumberCuts(b);
    var s := SkipNumber(b).value;
    TextField(s);
    TextCuts(s);
    var t := SkipText(s).value;
    NumberField(2, t);
    NumberCuts(t);
    NumberField(1, SkipNumber(t).value);
    SkipsOpening(b, s, t);
    OpeningAppend(OpeningOf(b).value, SkipOpening(b).value);
    Associates(FirstText(s), Count(t), SkipNumber(t).value);
  }

  lemma OpeningCuts(b: bytes)
    requires ReadHeader(b).Some?
    ensures OpeningOf(b).Some? && SkipOpening(b).Some?
    ensures var o, h, c := OpeningOf(b).value, ReadHeader(b).value, SkipOpening(b).value;
            && o.Of(h.tag) && b == o.Bytes() + c
            && ReadNumber(c).Some? && h == HeaderOf(o, h.tag, Count(c))
  {
    OpeningParts(b);
    var o, c := OpeningOf(b).value, SkipOpening(b).value;
    NumberCuts(c);
    OpeningHeader(o, ReadHeader(b).value.tag, Count(c), SkipNumber(c).value);
    Associates(o.Bytes(), Count(c), SkipNumber(c).value);
  }

  /** What a header says, from its raw slices. */
  function HeaderOf(o: Opening, v: nat, c: bytes): Header {
    Header(v,
           if ReadText(o.boot).Some? then ReadText(o.boot).value.value else [],
           if ReadNumber(o.projection).Some? then ReadNumber(o.projection).value.value else 0,
           if ReadNumber(c).Some? then ReadNumber(c).value.value else 0,
           |o.Bytes()| + |c|)
  }

  lemma OpeningJoins(o: Opening, c: bytes, t: bytes)
    ensures o.Bytes() + c + t == o.tag + (o.boot + (o.projection + (c + t)))
    ensures |o.Bytes()| + |c| == |o.tag| + (|o.boot| + (|o.projection| + |c|))
  {
    Associates(o.Bytes(), c, t);
    OpeningAppend(o, c + t);
    Associates(o.boot, o.projection, c + t);
  }

  lemma OpeningHeader(o: Opening, v: nat, c: bytes, t: bytes)
    requires o.Of(v) && ReadNumber(c).Some? && ReadNumber(c).value.size == |c|
    ensures ReadHeader(o.Bytes() + c + t) == Some(HeaderOf(o, v, c))
  {
    OpeningJoins(o, c, t);
    var projection, revision := ReadNumber(o.projection).value.value, ReadNumber(c).value.value;
    NumeralSo(o.tag, v);
    NumeralSo(o.projection, projection);
    NumeralSo(c, revision);
    TextualSo(o.boot, ReadText(o.boot).value.value);
    FieldsRead(o.tag, v, o.boot, ReadText(o.boot).value.value, o.projection, projection, c, revision, t);
  }
}
