/** What the viewer sees. A scene sent in full, and a patch relayed in its place, leave the viewer
    with the same screen: the retained one, under the viewer's own names and numbers. */
module Viewing {
  import opened Wire
  import opened Grammar
  import opened Slices
  import opened Surfaces
  import opened Screens
  import opened Retention
  import opened Forwarding

  /** The full frame sent for a retained screen. */
  function Present(q: Prog, s: Screen, e: Env, n: nat): Option<bytes> {
    var p :- Whole(q, Bytes(s), e);
    Renumber(p, n)
  }

  /** The patch sent in place of a source's patch. */
  function Relay(q: Prog, p: bytes, e: Env, n: nat, m: nat): Option<bytes> {
    var r :- Whole(q, p, e);
    RenumberPatch(r, n, m)
  }

  /** Every text that the viewer is to read is one it can read. */
  ghost predicate Showable(l: Layout, s: Screen, e: Env) {
    Legal(e) && SceneryOf(l, s.tail).Some? && SceneryOf(l, s.tail).value.Fits(l, e)
  }

  /** The retained screen under the viewer's names, with surface revision `n`. */
  function View(l: Layout, s: Screen, e: Env, n: nat): Option<Screen> {
    var o :- OpeningOf(s.header);
    var t :- SceneryOf(l, s.tail);
    var u := t.Rewritten(l, e);
    var kept :- RetainArt(l, u.art.Bytes(), map[]);
    Some(Shown(o.Rewritten(e), s, u, kept, n))
  }

  function Shown(o: Opening, s: Screen, u: Scenery, kept: Kept, n: nat): Screen {
    Screen(o.Bytes() + Number(n), s.cells, s.width, s.height, s.cursor,
           u.links + u.panes.Bytes() + kept.tail, n, kept.assets)
  }

  lemma GoodOpening(s: Screen)
    requires GoodHeader(s)
    ensures OpeningOf(s.header).Some?
    ensures var o, c := OpeningOf(s.header).value, SkipOpening(s.header);
            && o.Of(FULL_TAG) && c.Some? && s.header == o.Bytes() + c.value
            && ReadNumber(c.value).Some? && ReadNumber(c.value).value.size == |c.value|
  {
    OpeningCuts(s.header);
  }

  /** What `Present` writes. */
  lemma PresentIs(l: Layout, loose: Prog, q: Prog, s: Screen, e: Env, n: nat)
    requires l.Sound() && Lenient(l, loose) && Frames(l, loose, q) && Good(l, s) && Legal(e)
    ensures OpeningOf(s.header).Some? && SceneryOf(l, s.tail).Some?
    ensures var o := OpeningOf(s.header).value.Rewritten(e);
            var y := AsBody(s).(tail := SceneryOf(l, s.tail).value.Rewritten(l, e).Bytes());
            Present(q, s, e, n) == Some(o.Bytes() + Number(n) + BodyBytes(y))
  {
    GoodOpening(s);
    SceneryCuts(l, s.tail, s.assets);
    var o, c, t := OpeningOf(s.header).value, SkipOpening(s.header).value, SceneryOf(l, s.tail).value;
    var x := BodyBytes(AsBody(s));
    RewriteBody(l, loose, AsBody(s), t, e);
    RawNumberIs(c, e);
    SceneSolid(l, loose);
    SeqIs(Num, SceneOf(l, loose), c, x, e);
    RewriteFrame(q, o, FULL_TAG, NumberedScene(l, loose), c + x, e);
    Associates(o.Bytes(), c, x);
    WholeIs(q, Bytes(s), e);
    OpeningComposes(o, FULL_TAG, e);
    RenumberIs(o.Rewritten(e), FULL_TAG, c, Rewrite(SceneOf(l, loose), x, e), n);
  }

  lemma RawNumberIs(c: bytes, e: Env)
    requires ReadNumber(c).Some? && ReadNumber(c).value.size == |c|
    ensures Is(Num, c) && Rewrite(Num, c, e) == c && FitsIn(Num, c, e)
  {
    assert c[..|c|] == c;
  }

  lemma WholeIs(q: Prog, b: bytes, e: Env)
    requires Is(q, b)
    ensures Whole(q, b, e) == Some(Rewrite(q, b, e))
  {
    ParseIndependent(q, b, IDENTITY, e);
  }

  /** The view in terms of the rewritten scenery. */
  lemma ViewIs(l: Layout, s: Screen, e: Env, n: nat)
    requires l.Sound() && Good(l, s) && Showable(l, s, e)
    ensures OpeningOf(s.header).Some? && OpeningOf(s.header).value.Rewritten(e).Of(FULL_TAG)
    ensures SceneryOf(l, s.tail).Some?
    ensures var u := SceneryOf(l, s.tail).value.Rewritten(l, e);
            && u.Of(l) && u.Supplied(l) && RetainArt(l, u.art.Bytes(), map[]).Some?
            && View(l, s, e, n) == Some(Shown(OpeningOf(s.header).value.Rewritten(e), s, u,
                                              RetainArt(l, u.art.Bytes(), map[]).value, n))
  {
    GoodOpening(s);
    OpeningComposes(OpeningOf(s.header).value, FULL_TAG, e);
    SceneryCuts(l, s.tail, s.assets);
    var u := SceneryOf(l, s.tail).value.Rewritten(l, e);
    SceneryComposes(l, SceneryOf(l, s.tail).value, e);
    RetainScenery(l, u, map[]);
  }

  /** The presented scene loads as the view, whatever the viewer had before. */
  lemma PresentLoads(l: Layout, loose: Prog, q: Prog, s: Screen, e: Env, n: nat, had: map<bytes, bytes>)
    requires l.Sound() && Lenient(l, loose) && Frames(l, loose, q) && Good(l, s) && Showable(l, s, e) && n < UINT64
    ensures Present(q, s, e, n).Some? && View(l, s, e, n).Some?
    ensures Load(l, Present(q, s, e, n).value, had) == View(l, s, e, n)
  {
    PresentIs(l, loose, q, s, e, n);
    ViewIs(l, s, e, n);
    var o := OpeningOf(s.header).value.Rewritten(e);
    var u := SceneryOf(l, s.tail).value.Rewritten(l, e);
    var y := AsBody(s).(tail := u.Bytes());
    RetainScenery(l, u, had);
    ReadBodyBytes(l, y);
    LoadView(l, o, y, n, had);
  }

  /** Loading a frame put together from an opening, a revision and a body. */
  lemma LoadView(l: Layout, o: Opening, y: Body, n: nat, had: map<bytes, bytes>)
    requires o.Of(FULL_TAG) && n < UINT64 && ReadBody(l, BodyBytes(y)) == Some(y)
    requires Retain(l, y.tail, had).Some? && Area(y.width, y.height) == |y.cells|
    ensures Load(l, o.Bytes() + Number(n) + BodyBytes(y), had)
         == Some(Screen(o.Bytes() + Number(n), y.cells, y.width, y.height, y.cursor,
                        Retain(l, y.tail, had).value.tail, n, Retain(l, y.tail, had).value.assets))
  {
    NumberAlone(n);
    OpeningHeader(o, FULL_TAG, Number(n), BodyBytes(y));
    var b := o.Bytes() + Number(n) + BodyBytes(y);
    assert b[|o.Bytes() + Number(n)|..] == BodyBytes(y);
    assert b[..|o.Bytes() + Number(n)|] == o.Bytes() + Number(n);
  }

  // Panes ---------------------------------------------------------------------------------------

  ghost predicate Injective(f: bytes -> bytes) {
    forall x, y :: f(x) == f(y) ==> x == y
  }

  lemma RewritePane(l: Layout, x: bytes, e: Env)
    requires l.Sound() && Is(l.Pane(), x) && FitsIn(l.Pane(), x, e)
    ensures PaneId(Rewrite(l.Pane(), x, e)) == e.id(PaneId(x))
    ensures Is(l.Pane(), Rewrite(l.Pane(), x, e))
  {
    RewriteIs(l.Pane(), x, e);
    SeqCuts(Id, l.paneBody, x);
    TakeCuts(Id, x);
    var cut := Take(Id, x).value;
    SeqIs(Id, l.paneBody, cut.slice, cut.rest, e);
    ParseIndependent(Id, cut.slice, IDENTITY, e);
    PaneIdIs(cut.slice, cut.rest, e, Rewrite(l.paneBody, cut.rest, e));
  }

  lemma PaneIdIs(i: bytes, x: bytes, e: Env, y: bytes)
    requires Is(Id, i) && FitsIn(Id, i, e) && Parse(Id, i, e).Some?
    ensures PaneId(Rewrite(Id, i, e) + y) == e.id(PaneId(i + x))
  {
    assert i[..|i|] == i;
    PrefixText(i, i + x);
    TextRoundTrip(e.id(PaneId(i)), y);
  }

  /** Keyed by rewritten identifiers, `v` has the rewritten panes of `u`. */
  ghost predicate Renamed(l: Layout, e: Env, u: map<bytes, bytes>, v: map<bytes, bytes>) {
    forall a :: RenamedAt(l.Pane(), e, u, v, a)
  }

  ghost predicate RenamedAt(p: Prog, e: Env, u: map<bytes, bytes>, v: map<bytes, bytes>, a: bytes) {
    && (e.id(a) in v <==> a in u)
    && (a in u ==> v[e.id(a)] == Rewrite(p, u[a], e) && Is(p, u[a]) && FitsIn(p, u[a], e))
  }

  lemma RenamedMore(l: Layout, e: Env, u: map<bytes, bytes>, v: map<bytes, bytes>, id: bytes, pane: bytes)
    requires Renamed(l, e, u, v) && Injective(e.id) && Is(l.Pane(), pane) && FitsIn(l.Pane(), pane, e)
    ensures Renamed(l, e, u[id := pane], v[e.id(id) := Rewrite(l.Pane(), pane, e)])
  {
    var more, after := u[id := pane], v[e.id(id) := Rewrite(l.Pane(), pane, e)];
    forall a ensures RenamedAt(l.Pane(), e, more, after, a) {
      assert RenamedAt(l.Pane(), e, u, v, a);
    }
  }

  /** Keyed by rewritten identifiers, the updates are the rewritten updates, if no two identifiers
      fall together. */
  lemma {:induction false} RewriteUpdates(l: Layout, panes: seq<bytes>, e: Env)
    requires l.Sound() && Injective(e.id) && AllAre(l.Pane(), panes) && AllFit(l.Pane(), panes, e)
    ensures Renamed(l, e, Updates(panes), Updates(RewriteAll(l.Pane(), panes, e)))
  {
    if panes != [] {
      var n := |panes| - 1;
      RewriteUpdates(l, panes[..n], e);
      var all := RewriteAll(l.Pane(), panes, e);
      assert all[..n] == RewriteAll(l.Pane(), panes[..n], e);
      assert Is(l.Pane(), panes[n]) && FitsIn(l.Pane(), panes[n], e);
      RewritePane(l, panes[n], e);
      UpdatesLast(panes);
      UpdatesLast(all);
      RenamedMore(l, e, Updates(panes[..n]), Updates(all[..n]), PaneId(panes[n]), panes[n]);
    }
  }

  lemma UpdatesLast(panes: seq<bytes>)
    requires panes != []
    ensures var n := |panes| - 1;
            Updates(panes) == Updates(panes[..n])[PaneId(panes[n]) := panes[n]]
  {
  }

  /** Replacing panes and rewriting them commute. */
  lemma ReplaceCommutes(l: Layout, panes: seq<bytes>, changed: seq<bytes>, e: Env)
    requires l.Sound() && Injective(e.id)
    requires AllAre(l.Pane(), panes) && AllFit(l.Pane(), panes, e)
    requires AllAre(l.Pane(), changed) && AllFit(l.Pane(), changed, e)
    ensures Replace(RewriteAll(l.Pane(), panes, e), Updates(RewriteAll(l.Pane(), changed, e)))
         == RewriteAll(l.Pane(), Replace(panes, Updates(changed)), e)
    ensures AllAre(l.Pane(), Replace(panes, Updates(changed))) && AllFit(l.Pane(), Replace(panes, Updates(changed)), e)
  {
    RewriteUpdates(l, changed, e);
    var u, v := Updates(changed), Updates(RewriteAll(l.Pane(), changed, e));
    var r := Replace(panes, u);
    var left := Replace(RewriteAll(l.Pane(), panes, e), v);
    forall i | 0 <= i < |panes|
      ensures left[i] == Rewrite(l.Pane(), r[i], e) && Is(l.Pane(), r[i]) && FitsIn(l.Pane(), r[i], e)
    {
      assert Is(l.Pane(), panes[i]) && FitsIn(l.Pane(), panes[i], e);
      RewritePane(l, panes[i], e);
      assert RenamedAt(l.Pane(), e, u, v, PaneId(panes[i]));
    }
  }

  /** The pane with an identifier and a body, and what it is rewritten to. */
  lemma PaneMade(l: Layout, id: bytes, body: bytes, e: Env)
    requires l.Sound() && |id| <= MAX_FRAME && |e.id(id)| <= MAX_FRAME && Is(l.paneBody, body)
    ensures var x := Text(id) + body;
            && Is(l.Pane(), x) && FitsIn(l.Pane(), x, e) && PaneId(x) == id
            && Rewrite(l.Pane(), x, e) == Text(e.id(id)) + body
  {
    TextRoundTrip(id, []);
    assert Text(id) + [] == Text(id);
    TextRoundTrip(id, body);
    assert Is(Id, Text(id));
    assert Rewrite(Id, Text(id), e) == Text(e.id(id)) && FitsIn(Id, Text(id), e);
    SeqIs(Id, l.paneBody, Text(id), body, e);
    RewritePlain(l.paneBody, body, e);
  }

  /** Identifiers have to stay apart: if two of them fall together, then replacing a pane of the one by
      itself, which changes nothing, makes the pane of the other the same after rewriting. */
  lemma {:induction false} CollisionsDoNotCommute(l: Layout, a: bytes, b: bytes, u: bytes, v: bytes, e: Env)
    requires l.Sound() && a != b && e.id(a) == e.id(b) && u != v && Is(l.paneBody, u) && Is(l.paneBody, v)
    requires |a| <= MAX_FRAME && |b| <= MAX_FRAME && |e.id(a)| <= MAX_FRAME
    ensures var panes, changed := [Text(a) + u, Text(b) + v], [Text(a) + u];
            && Replace(panes, Updates(changed)) == panes
            && Replace(RewriteAll(l.Pane(), panes, e), Updates(RewriteAll(l.Pane(), changed, e)))
               != RewriteAll(l.Pane(), Replace(panes, Updates(changed)), e)
  {
    var panes, changed := [Text(a) + u, Text(b) + v], [Text(a) + u];
    PaneMade(l, a, u, e);
    PaneMade(l, b, v, e);
    PaneMade(l, e.id(a), u, IDENTITY);
    PaneMade(l, e.id(a), v, IDENTITY);
    OneUpdate(changed[0]);
    var rewritten := RewriteAll(l.Pane(), changed, e);
    OneUpdate(rewritten[0]);
    assert rewritten == [rewritten[0]];
    var all := RewriteAll(l.Pane(), panes, e);
    assert all[1] == Text(e.id(a)) + v && rewritten[0] == Text(e.id(a)) + u;
    assert all[1][|Text(e.id(a))|..] == v && rewritten[0][|Text(e.id(a))|..] == u;
    assert Replace(all, Updates(rewritten))[1] == rewritten[0];
  }

  lemma OneUpdate(pane: bytes)
    ensures Updates([pane]) == map[PaneId(pane) := pane]
  {
    assert [pane][..0] == [];
    assert Updates([]) == map[];
  }

  // Patches -------------------------------------------------------------------------------------

  /** What follows the revisions of a patch, as its slices. */
  datatype Edits = Edits(rows: List, panes: List, cursor: bytes) {
    function Bytes(): bytes {
      rows.Bytes() + (panes.Bytes() + cursor)
    }

    ghost predicate Of(l: Layout) {
      rows.Of(l.Row()) && panes.Of(l.Pane()) && Is(l.cursor, cursor)
    }

    function Rewritten(l: Layout, e: Env): Edits {
      Edits(rows, panes.Rewritten(l.Pane(), e), cursor)
    }

    function AsDelta(): Delta {
      Delta(rows.items, panes.items, cursor)
    }
  }

  lemma ReadEdits(l: Layout, d: Edits)
    requires l.Sound() && d.Of(l)
    ensures ReadDelta(l, d.Bytes()) == Some(d.AsDelta())
  {
    TakeList(l.Row(), d.rows, d.panes.Bytes() + d.cursor);
    TakeList(l.Pane(), d.panes, d.cursor);
    assert d.cursor + [] == d.cursor;
    TakeSlice(l.cursor, d.cursor, []);
  }

  lemma RewriteEdits(l: Layout, d: Edits, e: Env)
    requires l.Sound() && d.Of(l)
    ensures Is(ChangesOf(l), d.Bytes())
    ensures Rewrite(ChangesOf(l), d.Bytes(), e) == d.Rewritten(l, e).Bytes()
    ensures FitsIn(ChangesOf(l), d.Bytes(), e) <==> AllFit(l.Pane(), d.panes.items, e)
  {
    ListIs(l.Row(), d.rows, e);
    RewriteAllPlain(l.Row(), d.rows.items, e);
    ListIs(l.Pane(), d.panes, e);
    RewritePlain(l.cursor, d.cursor, e);
    SeqIs(Many(l.Pane()), l.cursor, d.panes.Bytes(), d.cursor, e);
    SeqIs(Many(l.Row()), PaneChangesOf(l), d.rows.Bytes(), d.panes.Bytes() + d.cursor, e);
  }

  lemma EditsOf(l: Layout, x: bytes) returns (d: Edits)
    requires l.Sound() && Is(ChangesOf(l), x)
    ensures d.Of(l) && x == d.Bytes()
  {
    SeqCuts(Many(l.Row()), PaneChangesOf(l), x);
    var one := Take(Many(l.Row()), x).value;
    ListCuts(l.Row(), x);
    SeqCuts(Many(l.Pane()), l.cursor, one.rest);
    var two := Take(Many(l.Pane()), one.rest).value;
    ListCuts(l.Pane(), one.rest);
    d := Edits(ListOf(l.Row(), x), ListOf(l.Pane(), one.rest), two.rest);
  }

  /** An accepted patch as its slices. */
  datatype Letter = Letter(opening: Opening, base: bytes, next: bytes, edits: Edits) {
    function Bytes(): bytes {
      opening.Bytes() + (base + (next + edits.Bytes()))
    }

    ghost predicate Of(l: Layout) {
      && opening.Of(PATCH_TAG) && edits.Of(l)
      && ReadNumber(base).Some? && ReadNumber(base).value.size == |base|
      && ReadNumber(next).Some? && ReadNumber(next).value.size == |next|
    }
  }

  lemma CaseCuts(p: Prog, z: bytes)
    requires p.Case? && Is(p, z)
    ensures ReadNumber(z).Some? && SkipNumber(z).Some? && Is(Pick(p, ReadNumber(z).value.value), SkipNumber(z).value)
  {
    assert Parse(p, z, IDENTITY) == Chosen(p, z, IDENTITY);
    var r := ReadNumber(z).value;
    assert Chosen(p, z, IDENTITY) == Some(Join(Copy(z, r.size), Parse(Pick(p, r.value), z[r.size..], IDENTITY).value));
  }

  lemma TakeIsSkip(p: Prog, z: bytes)
    requires Take(p, z).Some?
    ensures p.Boot? ==> SkipText(z) == Some(Take(p, z).value.rest)
    ensures p.Num? || p.Revision? ==> SkipNumber(z) == Some(Take(p, z).value.rest)
  {
  }

  lemma LedCuts(rest: Prog, z: bytes)
    requires Solid(rest) && Is(Led(rest), z)
    ensures SkipText(z).Some? && SkipNumber(SkipText(z).value).Some?
    ensures Is(rest, SkipNumber(SkipText(z).value).value)
  {
    SeqCuts(Boot, Seq(Revision, rest), z);
    TakeIsSkip(Boot, z);
    var y := Take(Boot, z).value.rest;
    SeqCuts(Revision, rest, y);
    TakeIsSkip(Revision, y);
  }

  /** The numbers and changes that follow an opening. */
  lemma ChangesCuts(l: Layout, a: bytes) returns (base: bytes, next: bytes, d: Edits)
    requires l.Sound() && Is(NumberedPatch(l), a)
    ensures a == base + (next + d.Bytes()) && d.Of(l) && base == Count(a)
    ensures ReadNumber(base).Some? && ReadNumber(base).value.size == |base|
    ensures ReadNumber(next).Some? && ReadNumber(next).value.size == |next|
  {
    SeqCuts(Num, Seq(Num, ChangesOf(l)), a);
    TakeIsSkip(Num, a);
    NumberCuts(a);
    var b := SkipNumber(a).value;
    SeqCuts(Num, ChangesOf(l), b);
    TakeIsSkip(Num, b);
    NumberCuts(b);
    base, next := Count(a), Count(b);
    d := EditsOf(l, SkipNumber(b).value);
  }

  lemma FrameCuts(q: Prog, v: nat, rest: Prog, z: bytes)
    requires q.Case? && Pick(q, v) == Led(rest) && Solid(rest) && Is(q, z)
    requires ReadNumber(z).Some? && ReadNumber(z).value.value == v
    ensures SkipOpening(z).Some? && Is(rest, SkipOpening(z).value)
  {
    CaseCuts(q, z);
    LedCuts(rest, SkipNumber(z).value);
  }

  /** A patch that the rewriter accepts consists of nothing but its slices. */
  lemma LetterOf(l: Layout, loose: Prog, q: Prog, p: bytes) returns (x: Letter)
    requires l.Sound() && Frames(l, loose, q) && Is(q, p)
    requires ReadHeader(p).Some? && ReadHeader(p).value.tag == PATCH_TAG
    ensures x.Of(l) && x.Bytes() == p
    ensures ReadHeader(p) == Some(HeaderOf(x.opening, PATCH_TAG, x.base))
  {
    HeaderTag(p);
    PatchSolid(l);
    FrameCuts(q, PATCH_TAG, NumberedPatch(l), p);
    OpeningCuts(p);
    var base, next, d := ChangesCuts(l, SkipOpening(p).value);
    x := Letter(OpeningOf(p).value, base, next, d);
  }

  lemma RewriteChanges(l: Layout, x: Letter, e: Env)
    requires l.Sound() && x.Of(l)
    ensures var z := x.base + (x.next + x.edits.Bytes());
            && Is(NumberedPatch(l), z)
            && Rewrite(NumberedPatch(l), z, e) == x.base + (x.next + x.edits.Rewritten(l, e).Bytes())
            && (FitsIn(NumberedPatch(l), z, e) <==> AllFit(l.Pane(), x.edits.panes.items, e))
  {
    var d := x.edits.Bytes();
    RewriteEdits(l, x.edits, e);
    RawNumberIs(x.base, e);
    RawNumberIs(x.next, e);
    SeqIs(Num, ChangesOf(l), x.next, d, e);
    SeqIs(Num, Seq(Num, ChangesOf(l)), x.base, x.next + d, e);
  }

  /** What `Relay` writes. */
  lemma RelayIs(l: Layout, loose: Prog, q: Prog, x: Letter, e: Env, n: nat, m: nat)
    requires l.Sound() && Frames(l, loose, q) && x.Of(l) && Legal(e)
    ensures Is(q, x.Bytes())
    ensures Relay(q, x.Bytes(), e, n, m)
         == Some(x.opening.Rewritten(e).Bytes() + Number(n) + Number(m) + x.edits.Rewritten(l, e).Bytes())
    ensures FitsIn(q, x.Bytes(), e) <==> AllFit(l.Pane(), x.edits.panes.items, e)
  {
    RewriteLetter(l, loose, q, x, e);
    WholeIs(q, x.Bytes(), e);
    RenumberLetter(l, x, e, n, m);
  }

  lemma RenumberLetter(l: Layout, x: Letter, e: Env, n: nat, m: nat)
    requires x.Of(l) && Legal(e)
    ensures var d := x.edits.Rewritten(l, e).Bytes();
            RenumberPatch(x.opening.Rewritten(e).Bytes() + (x.base + (x.next + d)), n, m)
            == Some(x.opening.Rewritten(e).Bytes() + Number(n) + Number(m) + d)
  {
    OpeningComposes(x.opening, PATCH_TAG, e);
    RenumberPatchIs(x.opening.Rewritten(e), PATCH_TAG, x.base, x.next, x.edits.Rewritten(l, e).Bytes(), n, m);
  }

  lemma RewriteLetter(l: Layout, loose: Prog, q: Prog, x: Letter, e: Env)
    requires l.Sound() && Frames(l, loose, q) && x.Of(l) && Legal(e)
    ensures Is(q, x.Bytes())
    ensures Rewrite(q, x.Bytes(), e)
         == x.opening.Rewritten(e).Bytes() + (x.base + (x.next + x.edits.Rewritten(l, e).Bytes()))
    ensures FitsIn(q, x.Bytes(), e) <==> AllFit(l.Pane(), x.edits.panes.items, e)
  {
    PatchSolid(l);
    RewriteChanges(l, x, e);
    RewriteFrame(q, x.opening, PATCH_TAG, NumberedPatch(l), x.base + (x.next + x.edits.Bytes()), e);
  }

  lemma ReadChangesIs(l: Layout, h: Header, next: bytes, d: Edits)
    requires l.Sound() && d.Of(l)
    requires ReadNumber(next).Some? && ReadNumber(next).value.size == |next|
    ensures ReadChanges(l, h, next + d.Bytes()) == Some(PatchRead(h, ReadNumber(next).value.value, d.AsDelta()))
  {
    SkipNumberIs(next, d.Bytes());
    ReadEdits(l, d);
  }

  lemma ReadPatchIs(l: Layout, b: bytes, h: Header, s: bytes)
    requires ReadHeader(b) == Some(h) && b[h.size..] == s
    ensures ReadPatch(l, b) == ReadChanges(l, h, s)
  {
  }

  /** A patch in slices, applied. */
  lemma PatchLetter(l: Layout, s: Screen, x: Letter)
    requires l.Sound() && x.Of(l)
    ensures Patch(l, s, x.Bytes())
         == Patched(l, s, HeaderOf(x.opening, PATCH_TAG, x.base), ReadNumber(x.next).value.value, x.edits.AsDelta())
  {
    var o := x.opening.Bytes();
    var rest := x.next + x.edits.Bytes();
    var h := HeaderOf(x.opening, PATCH_TAG, x.base);
    OpeningHeader(x.opening, PATCH_TAG, x.base, rest);
    Associates(o, x.base, rest);
    assert (o + x.base + rest)[|o + x.base|..] == rest;
    ReadPatchIs(l, x.Bytes(), h, rest);
    ReadChangesIs(l, h, x.next, x.edits);
  }

  // Slices are determined by their bytes ----------------------------------------------------------

  lemma ListOfIs(item: Prog, x: List, t: bytes)
    requires Element(item) && x.Of(item)
    ensures ListOf(item, x.Bytes() + t) == x && Take(Many(item), x.Bytes() + t) == Some(Cut(x.Bytes(), t))
  {
    TakeList(item, x, t);
    Associates(x.count, Flat(x.items), t);
    SkipNumberIs(x.count, Flat(x.items) + t);
    assert (x.count + (Flat(x.items) + t))[..|x.count|] == x.count;
  }

  lemma Unextended(x: bytes)
    ensures x + [] == x
  {
  }

  lemma GalleryOfIs(l: Layout, g: Gallery)
    requires l.Sound() && g.Of(l)
    ensures ReadArt(l, g.Bytes()).Some? && GalleryOf(l, g.Bytes()) == g
  {
    ReadGallery(l, g);
    TakeSlice(l.panels, g.panels, g.images.Bytes() + g.Pictures());
    ListOfIs(l.Image(), g.images, g.Pictures());
    ListOfIs(l.Placement(), g.placements, g.references.Bytes());
    Unextended(g.references.Bytes());
    ListOfIs(l.asset, g.references, []);
  }

  lemma SceneryOfIs(l: Layout, t: Scenery)
    requires l.Sound() && t.Of(l)
    ensures SceneryOf(l, t.Bytes()) == Some(t)
  {
    Associates(t.links, t.panes.Bytes(), t.art.Bytes());
    TakeSlice(l.links, t.links, t.panes.Bytes() + t.art.Bytes());
    ListOfIs(l.Pane(), t.panes, t.art.Bytes());
    GalleryOfIs(l, t.art);
  }

  lemma PatchTailIs(l: Layout, links: bytes, panes: List, rest: bytes, updates: map<bytes, bytes>)
    requires l.Sound() && Is(l.links, links) && panes.Of(l.Pane())
    ensures PatchTail(l, links + panes.Bytes() + rest, updates)
         == Some(links + Replaced(panes, updates).Bytes() + rest)
  {
    Associates(links, panes.Bytes(), rest);
    TakeSlice(l.links, links, panes.Bytes() + rest);
    TakeList(l.Pane(), panes, rest);
  }

  /** The panes of a screen after a patch; their count is written anew. */
  function Replaced(panes: List, updates: map<bytes, bytes>): List {
    List(Number(|panes.items|), Replace(panes.items, updates))
  }

  lemma FreshOpening(boot: bytes, projection: nat, revision: nat)
    requires |boot| <= MAX_FRAME && projection < UINT64 && revision < UINT64
    ensures OpeningOf(HeaderBytes(FULL_TAG, boot, projection, revision))
         == Some(Opening(Number(FULL_TAG), Text(boot), Number(projection)))
  {
    var t := Number(projection) + Number(revision);
    NumberRoundTrip(FULL_TAG, Text(boot) + t);
    TextRoundTrip(boot, t);
    NumberRoundTrip(projection, Number(revision));
    assert (Number(FULL_TAG) + (Text(boot) + t))[..|Number(FULL_TAG)|] == Number(FULL_TAG);
    assert (Text(boot) + t)[..|Text(boot)|] == Text(boot);
    assert t[..|Number(projection)|] == Number(projection);
  }

  lemma FreshBytes(e: Env, n: nat)
    ensures Opening(Number(FULL_TAG), Text(e.boot), Number(e.revision)).Bytes() + Number(n)
         == HeaderBytes(FULL_TAG, e.boot, e.revision, n)
  {
  }

  // The refinement ------------------------------------------------------------------------------

  /** The scenery of a patched screen. */
  lemma PatchedScenery(l: Layout, t: Scenery, changed: seq<bytes>, e: Env)
    requires l.Sound() && t.Of(l) && t.Fits(l, e) && Injective(e.id)
    requires AllAre(l.Pane(), changed) && AllFit(l.Pane(), changed, e)
    ensures var u := Scenery(t.links, Replaced(t.panes, Updates(changed)), t.art);
            && PatchTail(l, t.Bytes(), Updates(changed)) == Some(u.Bytes())
            && SceneryOf(l, u.Bytes()) == Some(u) && u.Of(l) && u.Fits(l, e)
            && Replaced(t.panes.Rewritten(l.Pane(), e), Updates(RewriteAll(l.Pane(), changed, e)))
            == u.panes.Rewritten(l.Pane(), e)
  {
    var u := Scenery(t.links, Replaced(t.panes, Updates(changed)), t.art);
    ReplaceCommutes(l, t.panes.items, changed, e);
    PatchTailIs(l, t.links, t.panes, t.art.Bytes(), Updates(changed));
    NumberAlone(|t.panes.items|);
    SceneryOfIs(l, u);
  }

  /** Patching the view as the screen was patched gives the view of the patched screen. */
  lemma ChangeViews(l: Layout, s: Screen, e: Env, n: nat, header: bytes, revision: nat, d: Delta)
    requires l.Sound() && Good(l, s) && Showable(l, s, e) && Injective(e.id)
    requires AllAre(l.Pane(), d.panes) && AllFit(l.Pane(), d.panes, e)
    requires Change(l, s, header, revision, d).Some?
    requires OpeningOf(header).Some? && OpeningOf(header).value.tag == Number(FULL_TAG)
    ensures View(l, s, e, n).Some?
    ensures var t := Change(l, s, header, revision, d).value;
            && Showable(l, t, e) && View(l, t, e, n + 1).Some?
            && Change(l, View(l, s, e, n).value, HeaderBytes(FULL_TAG, e.boot, e.revision, n + 1), n + 1,
                      d.(panes := RewriteAll(l.Pane(), d.panes, e)))
            == View(l, t, e, n + 1)
  {
    ViewIs(l, s, e, n);
    SceneryCuts(l, s.tail, s.assets);
    var t := SceneryOf(l, s.tail).value;
    var u := t.Rewritten(l, e);
    var kept := RetainArt(l, u.art.Bytes(), map[]).value;
    PatchedScenery(l, t, d.panes, e);
    PatchTailIs(l, u.links, u.panes, kept.tail, Updates(RewriteAll(l.Pane(), d.panes, e)));
    FreshBytes(e, n + 1);
  }

  lemma FollowsView(v: Screen, o: Opening, e: Env, n: nat, p: Opening)
    requires o.Of(FULL_TAG) && p.Of(PATCH_TAG) && Legal(e) && n < UINT64 - 1
    requires v.header == o.Rewritten(e).Bytes() + Number(n) && v.revision == n
    ensures var h := HeaderOf(p.Rewritten(e), PATCH_TAG, Number(n));
            && Follows(v, h, n + 1) && h.boot == e.boot && h.projection == e.revision && h.revision == n
  {
    NumberAlone(n);
    OpeningComposes(o, FULL_TAG, e);
    OpeningComposes(p, PATCH_TAG, e);
    OpeningHeader(o.Rewritten(e), FULL_TAG, Number(n), []);
    assert o.Rewritten(e).Bytes() + Number(n) + [] == v.header;
  }

  /** The relayed patch, in slices. */
  function Translated(l: Layout, x: Letter, e: Env, n: nat): Letter {
    Letter(x.opening.Rewritten(e), Number(n), Number(n + 1), x.edits.Rewritten(l, e))
  }

  lemma EditsCompose(l: Layout, d: Edits, e: Env)
    requires l.Sound() && d.Of(l) && AllFit(l.Pane(), d.panes.items, e)
    ensures d.Rewritten(l, e).Of(l)
  {
    ListComposes(l.Pane(), d.panes, e);
  }

  lemma TranslatedOf(l: Layout, x: Letter, e: Env, n: nat)
    requires l.Sound() && x.Of(l) && Legal(e) && AllFit(l.Pane(), x.edits.panes.items, e) && n < UINT64 - 1
    ensures Translated(l, x, e, n).Of(l)
    ensures ReadNumber(Number(n + 1)).value.value == n + 1
  {
    OpeningComposes(x.opening, PATCH_TAG, e);
    EditsCompose(l, x.edits, e);
    NumberAlone(n);
    NumberAlone(n + 1);
    LetterMade(l, x.opening.Rewritten(e), Number(n), Number(n + 1), x.edits.Rewritten(l, e));
  }

  lemma LetterMade(l: Layout, o: Opening, base: bytes, next: bytes, d: Edits)
    requires o.Of(PATCH_TAG) && d.Of(l)
    requires ReadNumber(base).Some? && ReadNumber(base).value.size == |base|
    requires ReadNumber(next).Some? && ReadNumber(next).value.size == |next|
    ensures Letter(o, base, next, d).Of(l)
  {
  }

  lemma TranslatedBytes(l: Layout, x: Letter, e: Env, n: nat)
    ensures Translated(l, x, e, n).Bytes()
         == x.opening.Rewritten(e).Bytes() + Number(n) + Number(n + 1) + x.edits.Rewritten(l, e).Bytes()
  {
    Reassociates(x.opening.Rewritten(e).Bytes(), Number(n), Number(n + 1), x.edits.Rewritten(l, e).Bytes());
  }

  lemma Reassociates(a: bytes, b: bytes, c: bytes, d: bytes)
    ensures a + (b + (c + d)) == a + b + c + d
  {
  }

  lemma AreaKept(l: Layout, s: Screen, header: bytes, revision: nat, d: Delta)
    requires Consistent(s) && Change(l, s, header, revision, d).Some?
    ensures Consistent(Change(l, s, header, revision, d).value)
  {
  }

  /** The viewer holds the view of a screen. A patch extends the screen, and its translation is
      relayed: the viewer takes it, and holds the view of the extended screen, which is what sending
      that screen in full would have given it. */
  lemma RelayRefines(l: Layout, loose: Prog, q: Prog, s: Screen, p: bytes, e: Env, n: nat)
    requires l.Sound() && Frames(l, loose, q) && Injective(e.id) && n < UINT64 - 1
    requires Good(l, s) && Showable(l, s, e)
    requires Is(q, p) && FitsIn(q, p, e) && Patch(l, s, p).Some?
    ensures Relay(q, p, e, n, n + 1).Some? && View(l, s, e, n).Some?
    ensures Showable(l, Patch(l, s, p).value, e) && View(l, Patch(l, s, p).value, e, n + 1).Some?
    ensures Patch(l, View(l, s, e, n).value, Relay(q, p, e, n, n + 1).value)
         == View(l, Patch(l, s, p).value, e, n + 1)
  {
    ReadPatchCuts(l, p);
    var x := LetterOf(l, loose, q, p);
    RelayIs(l, loose, q, x, e, n, n + 1);
    PatchLetter(l, s, x);
    TranslatedOf(l, x, e, n);
    TranslatedBytes(l, x, e, n);
    ViewIs(l, s, e, n);
    var v := View(l, s, e, n).value;
    PatchLetter(l, v, Translated(l, x, e, n));
    PatchedViews(l, s, x, e, n);
  }

  lemma PatchedIs(l: Layout, s: Screen, h: Header, next: nat, d: Delta, t: Screen)
    requires Follows(s, h, next) && Consistent(t)
    requires Change(l, s, HeaderBytes(FULL_TAG, h.boot, h.projection, next), next, d) == Some(t)
    ensures Patched(l, s, h, next, d) == Some(t)
  {
  }

  lemma PatchedChanges(l: Layout, s: Screen, h: Header, next: nat, d: Delta)
    requires Patched(l, s, h, next, d).Some?
    ensures Change(l, s, HeaderBytes(FULL_TAG, h.boot, h.projection, next), next, d) == Patched(l, s, h, next, d)
    ensures Follows(s, h, next)
  {
  }

  lemma PatchedViews(l: Layout, s: Screen, x: Letter, e: Env, n: nat)
    requires l.Sound() && Injective(e.id) && n < UINT64 - 1
    requires Good(l, s) && Showable(l, s, e) && x.Of(l) && AllFit(l.Pane(), x.edits.panes.items, e)
    requires |HeaderOf(x.opening, PATCH_TAG, x.base).boot| <= MAX_FRAME
    requires HeaderOf(x.opening, PATCH_TAG, x.base).projection < UINT64
    requires HeaderOf(x.opening, PATCH_TAG, x.base).revision < UINT64
    requires View(l, s, e, n).Some?
    requires Patched(l, s, HeaderOf(x.opening, PATCH_TAG, x.base), ReadNumber(x.next).value.value,
                     x.edits.AsDelta()).Some?
    ensures var t := Patched(l, s, HeaderOf(x.opening, PATCH_TAG, x.base), ReadNumber(x.next).value.value,
                             x.edits.AsDelta()).value;
            && Showable(l, t, e)
            && View(l, t, e, n + 1).Some?
            && Patched(l, View(l, s, e, n).value, HeaderOf(x.opening.Rewritten(e), PATCH_TAG, Number(n)), n + 1,
                       x.edits.Rewritten(l, e).AsDelta())
            == View(l, t, e, n + 1)
  {
    var h, m, d := HeaderOf(x.opening, PATCH_TAG, x.base), ReadNumber(x.next).value.value, x.edits.AsDelta();
    var header := HeaderBytes(FULL_TAG, h.boot, h.projection, m);
    PatchedChanges(l, s, h, m, d);
    FreshOpening(h.boot, h.projection, m);
    ChangeViews(l, s, e, n, header, m, d);
    ViewIs(l, s, e, n);
    GoodOpening(s);
    var v := View(l, s, e, n).value;
    FollowsView(v, OpeningOf(s.header).value, e, n, x.opening);
    var k := x.edits.Rewritten(l, e).AsDelta();
    AreaKept(l, v, HeaderBytes(FULL_TAG, e.boot, e.revision, n + 1), n + 1, k);
    PatchedIs(l, v, HeaderOf(x.opening.Rewritten(e), PATCH_TAG, Number(n)), n + 1, k,
              View(l, Change(l, s, header, m, d).value, e, n + 1).value);
  }
}
