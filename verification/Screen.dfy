/** The retained screen: what one source's surface frames add up to, as slices of their own bytes. */
module Screens {
  import opened Wire
  import opened Grammar
  import opened Slices
  import opened Surfaces

  const MAX_CELLS := 65536

  /** The element layouts. What is proved about screens needs only `Sound`, so it is proved of any. */
  datatype Layout = Layout(
    cell: Prog,
    cursor: Prog,
    links: Prog,
    paneBody: Prog,
    panels: Prog,
    asset: Prog,
    placing: Prog)
  {
    function Pane(): (p: Prog)
      ensures Solid(paneBody) ==> Element(p)
    {
      assert Element(Id);
      Seq(Id, paneBody)
    }

    function Image(): (p: Prog)
      ensures Element(asset) ==> Element(p)
    {
      assert Element(Txt);
      Seq(asset, Txt)
    }

    function Placement(): (p: Prog)
      ensures Element(asset) && Solid(placing) ==> Element(p)
    {
      Seq(asset, placing)
    }

    function Row(): (p: Prog)
      ensures Element(cell) ==> Element(p)
      ensures Plain(cell) ==> Plain(p)
    {
      assert Visible(Seq(Num, Many(cell)));
      assert Element(cell) ==> Element(Seq(Num, Many(cell)));
      assert Plain(cell) ==> Plain(Many(cell)) && Plain(Num);
      assert Plain(cell) ==> Plain(Seq(Num, Many(cell)));
      Seq(Num, Seq(Num, Many(cell)))
    }

    predicate Sound() {
      && Element(cell) && Plain(cell)
      && Element(cursor) && Plain(cursor)
      && Element(links) && Plain(links)
      && Solid(paneBody) && Plain(paneBody)
      && Element(asset) && Solid(panels)
      && Solid(placing) && Plain(placing)
    }
  }

  datatype Screen = Screen(
    header: bytes,
    cells: seq<bytes>,
    width: nat,
    height: nat,
    cursor: bytes,
    tail: bytes,
    revision: nat,
    assets: map<bytes, bytes>)

  /** The tag, boot, projection and first surface revision that open both kinds of frame. */
  datatype Header = Header(tag: nat, boot: bytes, projection: nat, revision: nat, size: nat)

  /** Two numbers and how many bytes they occupy. */
  function ReadPair(s: bytes): (r: Option<(nat, nat, nat)>)
    ensures r.Some? ==> r.value.0 < UINT64 && r.value.1 < UINT64 && 2 <= r.value.2 <= |s|
  {
    var first :- ReadNumber(s);
    var second :- ReadNumber(s[first.size..]);
    Some((first.value, second.value, first.size + second.size))
  }

  /** The last `k` of the four fields of a header; the third last is the boot text. */
  function ReadFields(k: nat, s: bytes): (r: Option<Header>)
    ensures r.Some? ==> k <= r.value.size <= |s|
    ensures r.Some? ==> |r.value.boot| <= MAX_FRAME && r.value.projection < UINT64 && r.value.revision < UINT64
    decreases |s|
  {
    if k == 0 then Some(Header(0, [], 0, 0, 0))
    else if k == 3 then
      var boot :- ReadText(s);
      var h :- ReadFields(2, s[boot.size..]);
      Some(h.(boot := boot.value, size := boot.size + h.size))
    else
      var n :- ReadNumber(s);
      var h :- ReadFields(k - 1, s[n.size..]);
      Some(WithNumber(h, k, n))
  }

  function WithNumber(h: Header, k: nat, n: Read<nat>): Header {
    var g := h.(size := n.size + h.size);
    if k == 4 then g.(tag := n.value) else if k == 2 then g.(projection := n.value) else g.(revision := n.value)
  }

  function ReadHeader(b: bytes): (r: Option<Header>)
    ensures r.Some? ==> 4 <= r.value.size <= |b|
    ensures r.Some? ==> |r.value.boot| <= MAX_FRAME && r.value.projection < UINT64 && r.value.revision < UINT64
  {
    ReadFields(4, b)
  }

  function HeaderBytes(tag: nat, boot: bytes, projection: nat, revision: nat): bytes {
    Number(tag) + (Text(boot) + (Number(projection) + Number(revision)))
  }

  /** What follows the header of a full frame. */
  datatype Body = Body(cells: seq<bytes>, width: nat, height: nat, cursor: bytes, tail: bytes)

  function ReadBody(l: Layout, s: bytes): Option<Body> {
    var count :- ReadNumber(s);
    if count.value > MAX_CELLS then None
    else
      var cells :- Take(Many(l.cell), s);
      var size :- ReadPair(cells.rest);
      var cursor :- Take(l.cursor, cells.rest[size.2..]);
      Some(Body(Elements(l.cell, s), size.0, size.1, cursor.slice, cursor.rest))
  }

  function BodyBytes(y: Body): bytes {
    Number(|y.cells|) + Flat(y.cells) + (Number(y.width) + Number(y.height) + (y.cursor + y.tail))
  }

  function AsBody(s: Screen): Body {
    Body(s.cells, s.width, s.height, s.cursor, s.tail)
  }

  ghost predicate GoodBody(l: Layout, y: Body) {
    && |y.cells| <= MAX_CELLS && AllAre(l.cell, y.cells)
    && y.width < UINT64 && y.height < UINT64
    && Is(l.cursor, y.cursor)
  }

  /** The full frame that a screen amounts to. */
  function Bytes(s: Screen): bytes {
    s.header + BodyBytes(AsBody(s))
  }

  // Graphics ------------------------------------------------------------------------------------

  datatype Kept = Kept(tail: bytes, assets: map<bytes, bytes>)

  /** The asset that an image, a placement or a reference begins with. */
  function Key(l: Layout, x: bytes): bytes {
    match Take(l.asset, x)
    case None => []
    case Some(cut) => cut.slice
  }

  function Data(l: Layout, x: bytes): bytes {
    match Take(l.asset, x)
    case None => x
    case Some(cut) => cut.rest
  }

  function Keys(l: Layout, xs: seq<bytes>): (ks: seq<bytes>)
    ensures |ks| == |xs| && forall i :: 0 <= i < |xs| ==> ks[i] == Key(l, xs[i])
  {
    seq(|xs|, i requires 0 <= i < |xs| => Key(l, xs[i]))
  }

  /** Image data by asset; a later image replaces an earlier one. */
  function Incoming(l: Layout, images: seq<bytes>): map<bytes, bytes> {
    if images == [] then map[]
    else Incoming(l, images[..|images| - 1])[Key(l, images[|images| - 1]) := Data(l, images[|images| - 1])]
  }

  /** The keys in order of first appearance. */
  function Distinct(ks: seq<bytes>): (ds: seq<bytes>)
    ensures |ds| <= |ks|
    ensures forall k :: k in ds <==> k in ks
    ensures forall i, j :: 0 <= i < j < |ds| ==> ds[i] != ds[j]
  {
    if ks == [] then []
    else
      var ds := Distinct(ks[..|ks| - 1]);
      assert ks == ks[..|ks| - 1] + [ks[|ks| - 1]];
      if ks[|ks| - 1] in ds then ds else ds + [ks[|ks| - 1]]
  }

  datatype Art = Art(panels: bytes, images: seq<bytes>, rest: bytes, wanted: seq<bytes>)

  /** The keys wanted by the placements and references, which must end the bytes. */
  function ReadWanted(l: Layout, s: bytes): Option<seq<bytes>> {
    var placements :- Take(Many(l.Placement()), s);
    var references :- Take(Many(l.asset), placements.rest);
    if references.rest != [] then None
    else Some(Distinct(Keys(l, Elements(l.Placement(), s)) + Elements(l.asset, placements.rest)))
  }

  function ReadArt(l: Layout, r: bytes): Option<Art> {
    var panels :- Take(l.panels, r);
    var images :- Take(Many(l.Image()), panels.rest);
    var wanted :- ReadWanted(l, images.rest);
    Some(Art(panels.slice, Elements(l.Image(), panels.rest), images.rest, wanted))
  }

  function Supply(incoming: map<bytes, bytes>, had: map<bytes, bytes>): map<bytes, bytes> {
    had + incoming
  }

  predicate Supplied(ks: seq<bytes>, supply: map<bytes, bytes>) {
    forall k :: k in ks ==> k in supply
  }

  function Entries(ks: seq<bytes>, supply: map<bytes, bytes>): (xs: seq<bytes>)
    requires Supplied(ks, supply)
    ensures |xs| == |ks| && forall i :: 0 <= i < |ks| ==> ks[i] in supply && xs[i] == ks[i] + supply[ks[i]]
  {
    seq(|ks|, i requires 0 <= i < |ks| => assert ks[i] in ks; ks[i] + supply[ks[i]])
  }

  function Restrict(ks: seq<bytes>, supply: map<bytes, bytes>): (m: map<bytes, bytes>)
    requires Supplied(ks, supply)
    ensures forall k :: k in m <==> k in ks
    ensures forall k :: k in m ==> m[k] == supply[k]
  {
    map k | k in ks :: supply[k]
  }

  /** Writes out exactly the wanted images. */
  function Expand(panels: bytes, wanted: seq<bytes>, rest: bytes, supply: map<bytes, bytes>): Option<Kept> {
    if !Supplied(wanted, supply) then None
    else Some(Kept(panels + (Number(|wanted|) + Flat(Entries(wanted, supply)) + rest), Restrict(wanted, supply)))
  }

  /** Expands the images of a scene into exactly those that its placements and references want. */
  function RetainArt(l: Layout, r: bytes, had: map<bytes, bytes>): Option<Kept> {
    var art :- ReadArt(l, r);
    Expand(art.panels, art.wanted, art.rest, Supply(Incoming(l, art.images), had))
  }

  function BeforeArt(l: Layout): (p: Prog)
    ensures l.Sound() ==> Solid(p)
  {
    Seq(l.links, Many(l.Pane()))
  }

  function Retain(l: Layout, tail: bytes, had: map<bytes, bytes>): Option<Kept> {
    var head :- Take(BeforeArt(l), tail);
    var kept :- RetainArt(l, head.rest, had);
    Some(Kept(head.slice + kept.tail, kept.assets))
  }

  // Updates -------------------------------------------------------------------------------------

  /** The product, as repeated addition: see `ProductIsProduct`. */
  function Product(width: nat, height: nat): nat {
    if height == 0 then 0 else Product(width, height - 1) + width
  }

  lemma {:induction false} ProductIsProduct(width: nat, height: nat)
    ensures Product(width, height) == width * height
  {
    if height > 0 {
      ProductIsProduct(width, height - 1);
      assert width * height == width * (height - 1) + width;
    }
  }

  function Area(width: nat, height: nat): nat {
    Product(width, height) % UINT64
  }

  predicate Consistent(s: Screen) {
    Area(s.width, s.height) == |s.cells|
  }

  function Load(l: Layout, b: bytes, had: map<bytes, bytes>): Option<Screen> {
    var h :- ReadHeader(b);
    var y :- ReadBody(l, b[h.size..]);
    var kept :- Retain(l, y.tail, had);
    var s := Screen(b[..h.size], y.cells, y.width, y.height, y.cursor, kept.tail, h.revision, kept.assets);
    if h.tag == FULL_TAG && Consistent(s) then Some(s) else None
  }

  /** A row of a patch: where it begins and its cells. */
  datatype Run = Run(x: nat, y: nat, cells: seq<bytes>)

  function ReadRun(l: Layout, row: bytes): Option<Run> {
    var at :- ReadPair(row);
    Some(Run(at.0, at.1, Elements(l.cell, row[at.2..])))
  }

  predicate Within(run: Run, width: nat, height: nat) {
    run.y < height && (run.x + |run.cells|) % UINT64 <= width
  }

  function Offset(run: Run, width: nat): nat {
    run.y * width + run.x
  }

  /** Overwrites cells from `at` on. Coordinates are 64-bit and wrap. */
  function PaintRun(at: nat, run: seq<bytes>, cells: seq<bytes>): (r: Option<seq<bytes>>)
    ensures r.Some? ==> |r.value| == |cells|
    decreases |run|
  {
    if run == [] then Some(cells)
    else if at % UINT64 >= |cells| then None
    else PaintRun(at + 1, run[1..], cells[at % UINT64 := run[0]])
  }

  function Paint(l: Layout, rows: seq<bytes>, cells: seq<bytes>, width: nat, height: nat): (r: Option<seq<bytes>>)
    ensures r.Some? ==> |r.value| == |cells|
    decreases |rows|
  {
    if rows == [] then Some(cells)
    else
      var run :- ReadRun(l, rows[0]);
      if !Within(run, width, height) then None
      else
        var painted :- PaintRun(Offset(run, width), run.cells, cells);
        Paint(l, rows[1..], painted, width, height)
  }

  function PaneId(pane: bytes): bytes {
    match ReadText(pane)
    case None => []
    case Some(r) => r.value
  }

  /** Panes by identifier; a later pane replaces an earlier one. */
  function Updates(panes: seq<bytes>): map<bytes, bytes> {
    if panes == [] then map[]
    else Updates(panes[..|panes| - 1])[PaneId(panes[|panes| - 1]) := panes[|panes| - 1]]
  }

  function Replace(panes: seq<bytes>, updates: map<bytes, bytes>): (r: seq<bytes>)
    ensures |r| == |panes|
    ensures forall i :: 0 <= i < |panes| ==>
      r[i] == if PaneId(panes[i]) in updates then updates[PaneId(panes[i])] else panes[i]
  {
    seq(|panes|, i requires 0 <= i < |panes| =>
      if PaneId(panes[i]) in updates then updates[PaneId(panes[i])] else panes[i])
  }

  function PatchTail(l: Layout, tail: bytes, updates: map<bytes, bytes>): Option<bytes> {
    var links :- Take(l.links, tail);
    var panes :- Take(Many(l.Pane()), links.rest);
    var panesWere := Elements(l.Pane(), links.rest);
    Some(links.slice + (Number(|panesWere|) + Flat(Replace(panesWere, updates))) + panes.rest)
  }

  /** What follows the two revisions of a patch. */
  datatype Delta = Delta(rows: seq<bytes>, panes: seq<bytes>, cursor: bytes)

  function ReadDelta(l: Layout, s: bytes): Option<Delta> {
    var rows :- Take(Many(l.Row()), s);
    var panes :- Take(Many(l.Pane()), rows.rest);
    var cursor :- Take(l.cursor, panes.rest);
    Some(Delta(Elements(l.Row(), s), Elements(l.Pane(), rows.rest), cursor.slice))
  }

  /** The patch that opens with `h` and `next` is the successor of what is on screen. */
  predicate Follows(s: Screen, h: Header, next: nat) {
    var was := ReadHeader(s.header);
    && h.tag == PATCH_TAG
    && was.Some? && h.boot == was.value.boot && h.projection == was.value.projection
    && h.revision == s.revision && h.revision != UINT64 - 1 && next == h.revision + 1
  }

  function Change(l: Layout, s: Screen, header: bytes, revision: nat, d: Delta): Option<Screen> {
    var cells :- Paint(l, d.rows, s.cells, s.width, s.height);
    var tail :- PatchTail(l, s.tail, Updates(d.panes));
    Some(Screen(header, cells, s.width, s.height, d.cursor, tail, revision, s.assets))
  }

  function Patched(l: Layout, s: Screen, h: Header, next: nat, d: Delta): Option<Screen> {
    if !Follows(s, h, next) then None
    else
      var t :- Change(l, s, HeaderBytes(FULL_TAG, h.boot, h.projection, next), next, d);
      if Consistent(t) then Some(t) else None
  }

  /** A patch as read: its header with the base revision, the next revision, and the changes. */
  datatype PatchRead = PatchRead(header: Header, next: nat, delta: Delta)

  function ReadChanges(l: Layout, h: Header, s: bytes): Option<PatchRead> {
    var next :- ReadNumber(s);
    var d :- ReadDelta(l, s[next.size..]);
    Some(PatchRead(h, next.value, d))
  }

  function ReadPatch(l: Layout, b: bytes): Option<PatchRead> {
    var h :- ReadHeader(b);
    ReadChanges(l, h, b[h.size..])
  }

  function Patch(l: Layout, s: Screen, b: bytes): Option<Screen> {
    var p :- ReadPatch(l, b);
    Patched(l, s, p.header, p.next, p.delta)
  }

  /** What a frame makes of a screen, leaving aside how much may be retained. */
  function Apply(l: Layout, s: Option<Screen>, b: bytes): Option<Screen> {
    var tag :- ReadNumber(b);
    if tag.value == FULL_TAG then Load(l, b, if s.Some? then s.value.assets else map[])
    else if s.Some? then Patch(l, s.value, b)
    else None
  }

  function Retained(s: Screen): nat {
    |s.header| + |s.cursor| + |s.tail| + |Flat(s.cells)|
  }

  /** What a frame makes of a screen that the gateway keeps. */
  function Update(l: Layout, s: Option<Screen>, b: bytes): Option<Screen> {
    var t :- Apply(l, s, b);
    if Retained(t) <= MAX_FRAME then Some(t) else None
  }

  /** The layout of the frames on the wire. */
  function Native(): Layout {
    Layout(Cell(), Cursor(), Links(), PaneBody(), Panels(true), Asset(), Nums(13))
  }

  lemma NativeSound()
    ensures Native().Sound()
  {
    CellElement();
    CursorElement();
    LinksElement();
    PaneElement();
    PanelsSolid(true);
    AssetElement();
  }
}
