/** The retained screen as it is kept: updated in place by one source's frames, cell by cell. */
module CompleteSurfaces {
  import opened Wire
  import opened Grammar
  import opened Slices
  import opened Surfaces
  import opened Screens
  import opened Painting
  import opened Decoding
  import opened Retention

  class CompleteSurface {
    const l: Layout
    var present: bool
    var assets: map<bytes, bytes>
    var header: bytes
    var cells: seq<bytes>
    var width: nat
    var height: nat
    var cursor: bytes
    var tail: bytes
    var revision: nat

    constructor (l: Layout)
      ensures this.l == l && State() == None
    {
      this.l := l;
      present, assets, header, cells := false, map[], [], [];
      width, height, cursor, tail, revision := 0, 0, [], [], 0;
    }

    /** What is retained, as a value. */
    function State(): Option<Screen>
      reads this
    {
      if present then Some(Screen(header, cells, width, height, cursor, tail, revision, assets)) else None
    }

    /** The images that a full frame may leave out. */
    function Had(): map<bytes, bytes>
      reads this
    {
      if present then assets else map[]
    }

    // Reading -------------------------------------------------------------------------------------

    /** Reads two numbers. */
    method Pair(d: Decoder) returns (x: nat, y: nat)
      requires d.Valid() && !d.err
      modifies d
      ensures d.Valid()
      ensures match ReadPair(old(d.Rest()))
              case None => d.err
              case Some(r) => !d.err && x == r.0 && y == r.1 && d.Rest() == old(d.Rest())[r.2..]
    {
      ghost var s := d.Rest();
      x, y := 0, 0;
      x := d.Number();
      if d.err {
        return;
      }
      ghost var n := ReadNumber(s).value.size;
      assert d.Rest() == s[n..];
      y := d.Number();
      if !d.err {
        assert d.Rest() == s[n..][ReadNumber(s[n..]).value.size..];
      }
    }

    /** Reads what opens a frame. */
    method Head(d: Decoder) returns (h: Header)
      requires d.Valid() && !d.err && d.p == 0
      modifies d
      ensures d.Valid()
      ensures match ReadHeader(d.b)
              case None => d.err
              case Some(r) => !d.err && h == r && d.p == r.size
    {
      ghost var s := d.b;
      assert d.Rest() == s;
      NumberField(4, s);
      h := Header(0, [], 0, 0, 0);
      var tag := d.Number();
      if d.err {
        return;
      }
      assert d.Rest() == s[ReadNumber(s).value.size..];
      h := Identity(d);
      if !d.err {
        assert |d.Rest()| == |s| - d.p;
        h := h.(tag := tag, size := d.p);
      }
    }

    /** Reads the boot, the projection and the revision. */
    method Identity(d: Decoder) returns (h: Header)
      requires d.Valid() && !d.err
      modifies d
      ensures d.Valid()
      ensures match ReadFields(3, old(d.Rest()))
              case None => d.err
              case Some(r) => !d.err && h == r && d.Rest() == old(d.Rest())[r.size..]
    {
      ghost var s := d.Rest();
      var start := d.p;
      h := Header(0, [], 0, 0, 0);
      TextField(s);
      var boot := d.ReadString();
      if d.err {
        return;
      }
      ghost var n := ReadText(s).value.size;
      assert d.Rest() == s[n..];
      PairFields(s[n..]);
      var projection, revision := Pair(d);
      if !d.err {
        DropTwice(s, n, ReadPair(s[n..]).value.2);
        assert |d.Rest()| == |d.b| - d.p;
        h := Header(0, boot, projection, revision, d.p - start);
      }
    }

    // Graphics ------------------------------------------------------------------------------------

    /** The data of the images that a frame brings along; a later image replaces an earlier one. */
    method Collect(images: seq<bytes>) returns (incoming: map<bytes, bytes>)
      ensures incoming == Incoming(l, images)
    {
      incoming := map[];
      for i := 0 to |images|
        invariant incoming == Incoming(l, images[..i])
      {
        assert images[..i + 1][..i] == images[..i];
        incoming := incoming[Key(l, images[i]) := Data(l, images[i])];
      }
      assert images[..|images|] == images;
    }

    /** The keys in the order in which they first appear. */
    method Once(ks: seq<bytes>) returns (keys: seq<bytes>)
      ensures keys == Distinct(ks)
    {
      keys := [];
      var seen: set<bytes> := {};
      for i := 0 to |ks|
        invariant keys == Distinct(ks[..i])
        invariant forall k :: k in seen <==> k in keys
      {
        assert ks[..i + 1][..i] == ks[..i];
        if ks[i] !in seen {
          keys := keys + [ks[i]];
          seen := seen + {ks[i]};
        }
      }
      assert ks[..|ks|] == ks;
    }

    /** Writes out the wanted images and keeps them, as long as they fit. */
    method Emit(keys: seq<bytes>, incoming: map<bytes, bytes>, had: map<bytes, bytes>, size: nat)
      returns (ok: bool, out: bytes, keep: map<bytes, bytes>)
      ensures ok ==> Supplied(keys, Supply(incoming, had))
                     && out == Flat(Entries(keys, Supply(incoming, had)))
                     && keep == Restrict(keys, Supply(incoming, had))
      ensures !ok ==> !Supplied(keys, Supply(incoming, had))
                      || size + |Flat(Entries(keys, Supply(incoming, had)))| > MAX_FRAME
    {
      ghost var supply := Supply(incoming, had);
      out, keep := [], map[];
      for i := 0 to |keys|
        invariant Supplied(keys[..i], supply)
        invariant out == Flat(Entries(keys[..i], supply)) && keep == Restrict(keys[..i], supply)
      {
        var key := keys[i];
        if key !in incoming && key !in had {
          assert keys[i] in keys;
          return false, out, keep;
        }
        var v := if key in incoming then incoming[key] else had[key];
        EmitStep(keys, i, supply);
        out := out + (key + v);
        keep := keep[key := v];
        if size + |out| > MAX_FRAME {
          EmitPrefix(keys, i + 1, supply);
          return false, out, keep;
        }
      }
      assert keys[..|keys|] == keys;
      ok := true;
    }

    lemma EmitStep(keys: seq<bytes>, i: nat, supply: map<bytes, bytes>)
      requires i < |keys| && Supplied(keys[..i], supply) && keys[i] in supply
      ensures Supplied(keys[..i + 1], supply)
      ensures Flat(Entries(keys[..i + 1], supply)) == Flat(Entries(keys[..i], supply)) + (keys[i] + supply[keys[i]])
      ensures Restrict(keys[..i + 1], supply) == Restrict(keys[..i], supply)[keys[i] := supply[keys[i]]]
    {
      var a, b := Entries(keys[..i], supply), [keys[i] + supply[keys[i]]];
      assert keys[..i + 1] == keys[..i] + [keys[i]];
      assert Entries(keys[..i + 1], supply) == a + b;
      FlatAppend(a, b);
      assert Flat(b) == b[0] + Flat([]) && b[0] + [] == b[0];
    }

    lemma EmitPrefix(keys: seq<bytes>, i: nat, supply: map<bytes, bytes>)
      requires i <= |keys| && Supplied(keys[..i], supply)
      ensures Supplied(keys, supply) ==> |Flat(Entries(keys[..i], supply))| <= |Flat(Entries(keys, supply))|
    {
      if Supplied(keys, supply) {
        var all := Entries(keys, supply);
        assert all == all[..i] + all[i..];
        assert Entries(keys[..i], supply) == all[..i];
        FlatAppend(all[..i], all[i..]);
      }
    }

    /** Reads the art, and what it wants. */
    method TakeArt(d: Decoder) returns (ok: bool, art: Art)
      requires d.Valid() && !d.err
      modifies d
      ensures ok ==> ReadArt(l, old(d.Rest())) == Some(art)
      ensures !ok ==> ReadArt(l, old(d.Rest())) == None
    {
      art := Art([], [], [], []);
      var panels := d.Cut(l.panels);
      if d.err {
        return false, art;
      }
      var images := d.CutMany(l.Image());
      if d.err {
        return false, art;
      }
      var rest := d.b[d.p..];
      var found, keys := TakeWanted(d);
      return found, Art(panels, images, rest, keys);
    }

    /** Reads the placements and the references, which end the bytes, for the keys that they want. */
    method TakeWanted(d: Decoder) returns (ok: bool, keys: seq<bytes>)
      requires d.Valid() && !d.err
      modifies d
      ensures ok ==> ReadWanted(l, old(d.Rest())) == Some(keys)
      ensures !ok ==> ReadWanted(l, old(d.Rest())) == None
    {
      keys := [];
      var placements := d.CutMany(l.Placement());
      if d.err {
        return false, keys;
      }
      var references := d.CutMany(l.asset);
      if d.err || d.p != |d.b| {
        return false, keys;
      }
      keys := Once(Keys(l, placements) + references);
      ok := true;
    }

    /** Expands the images of the tail into exactly those that are wanted. */
    method RetainGraphics(had: map<bytes, bytes>) returns (ok: bool)
      modifies this`tail, this`assets
      ensures ok ==> Retain(l, old(tail), had) == Some(Kept(tail, assets))
      ensures !ok ==> match Retain(l, old(tail), had)
                      case None => true
                      case Some(kept) => |kept.tail| > MAX_FRAME
    {
      var d := new Decoder(tail);
      assert d.Rest() == tail;
      var before := d.Cut(BeforeArt(l));
      if d.err {
        return false;
      }
      var found, art := TakeArt(d);
      if !found {
        return false;
      }
      var incoming := Collect(art.images);
      var size := |before| + |art.panels| + |Number(|art.wanted|)|;
      var fits, out, keep := Emit(art.wanted, incoming, had, size);
      if !fits {
        return false;
      }
      assets := keep;
      tail := before + (art.panels + (Number(|art.wanted|) + out + art.rest));
      ok := true;
    }

    // Full frames ---------------------------------------------------------------------------------

    /** Takes the cells, the size, the cursor and the rest over from a full frame. */
    method TakeBody(d: Decoder) returns (ok: bool)
      requires d.Valid() && !d.err
      modifies d, this`cells, this`width, this`height, this`cursor, this`tail
      ensures d.Valid()
      ensures ok ==> ReadBody(l, old(d.Rest())) == Some(Body(cells, width, height, cursor, tail))
      ensures !ok ==> ReadBody(l, old(d.Rest())) == None
    {
      var check := new Decoder(d.b[d.p..]);
      assert check.Rest() == d.Rest();
      var count := check.Length();
      if check.err || count > MAX_CELLS {
        return false;
      }
      var read := d.CutMany(l.cell);
      if d.err {
        return false;
      }
      var x, y := Pair(d);
      if d.err {
        return false;
      }
      var c := d.Cut(l.cursor);
      if d.err {
        return false;
      }
      cells, width, height, cursor := read, x, y, c;
      tail := d.b[d.p..];
      ok := true;
    }

    /** Starts over from a full frame. Images that it leaves out are kept from before. */
    method Replace(d: Decoder, h: Header) returns (ok: bool)
      requires d.Valid() && !d.err && ReadHeader(d.b) == Some(h) && d.p == h.size && h.tag == FULL_TAG
      modifies d, this
      ensures ok ==> present
      ensures ok && Consistent(State().value) ==> Load(l, d.b, old(Had())) == State()
      ensures ok && !Consistent(State().value) ==> Load(l, d.b, old(Had())) == None
      ensures !ok ==> match Load(l, d.b, old(Had()))
                      case None => true
                      case Some(s) => |s.tail| > MAX_FRAME
    {
      var had := Had();
      present := true;
      revision := h.revision;
      header := d.b[..d.p];
      ok := TakeBody(d);
      if ok {
        ok := TakeImages(d.b, h, had);
      } else {
        NoBody(d.b, h, had);
      }
    }

    /** After the body of a full frame was taken over: keeps the images that it wants. */
    method TakeImages(ghost b: bytes, ghost h: Header, had: map<bytes, bytes>) returns (ok: bool)
      requires ReadHeader(b) == Some(h) && h.tag == FULL_TAG && present
      requires header == b[..h.size] && revision == h.revision
      requires ReadBody(l, b[h.size..]) == Some(Body(cells, width, height, cursor, tail))
      modifies this`tail, this`assets
      ensures ok && Consistent(State().value) ==> Load(l, b, had) == State()
      ensures ok && !Consistent(State().value) ==> Load(l, b, had) == None
      ensures !ok ==> match Load(l, b, had)
                      case None => true
                      case Some(s) => |s.tail| > MAX_FRAME
    {
      LoadIs(b, h, Body(cells, width, height, cursor, tail), had);
      ok := RetainGraphics(had);
    }

    lemma NoBody(b: bytes, h: Header, had: map<bytes, bytes>)
      requires ReadHeader(b) == Some(h) && ReadBody(l, b[h.size..]) == None
      ensures Load(l, b, had) == None
    {
    }

    lemma LoadIs(b: bytes, h: Header, y: Body, had: map<bytes, bytes>)
      requires ReadHeader(b) == Some(h) && h.tag == FULL_TAG && ReadBody(l, b[h.size..]) == Some(y)
      ensures match Retain(l, y.tail, had)
              case None => Load(l, b, had) == None
              case Some(kept) =>
                var s := Screen(b[..h.size], y.cells, y.width, y.height, y.cursor, kept.tail, h.revision, kept.assets);
                Load(l, b, had) == if Consistent(s) then Some(s) else None
    {
    }

    // Patches -------------------------------------------------------------------------------------

    /** Overwrites cells from `at` on. Coordinates are 64-bit and wrap. */
    method PaintCells(at: nat, run: seq<bytes>) returns (ok: bool)
      modifies this`cells
      ensures ok ==> PaintRun(at, run, old(cells)) == Some(cells)
      ensures !ok ==> PaintRun(at, run, old(cells)) == None
    {
      ghost var goal := PaintRun(at, run, cells);
      assert run[0..] == run;
      for i := 0 to |run|
        invariant |cells| == |old(cells)|
        invariant PaintRun(at + i, run[i..], cells) == goal
      {
        var k := (at + i) % UINT64;
        if k >= |cells| {
          return false;
        }
        assert run[i..][0] == run[i] && run[i..][1..] == run[i + 1..];
        cells := cells[k := run[i]];
      }
      ok := true;
    }

    /** Paints the rows of a patch, each within the screen. */
    method PaintRows(rows: seq<bytes>) returns (ok: bool)
      modifies this`cells
      ensures ok ==> Screens.Paint(l, rows, old(cells), width, height) == Some(cells)
      ensures !ok ==> Screens.Paint(l, rows, old(cells), width, height) == None
    {
      ghost var goal := Screens.Paint(l, rows, cells, width, height);
      assert rows[0..] == rows;
      for i := 0 to |rows|
        invariant |cells| == |old(cells)|
        invariant Screens.Paint(l, rows[i..], cells, width, height) == goal
      {
        PaintStep(rows, i);
        ok := PaintRow(rows[i]);
        if !ok {
          return;
        }
      }
      ok := true;
    }

    /** What the next row of a patch makes of the cells. */
    function Painted(row: bytes): Option<seq<bytes>>
      reads this
    {
      var run := ReadRun(l, row);
      if run.None? || !Within(run.value, width, height) then None
      else PaintRun(Offset(run.value, width), run.value.cells, cells)
    }

    lemma PaintStep(rows: seq<bytes>, i: nat)
      requires i < |rows|
      ensures Screens.Paint(l, rows[i..], cells, width, height)
              == match Painted(rows[i])
                 case None => None
                 case Some(painted) => Screens.Paint(l, rows[i + 1..], painted, width, height)
    {
      assert rows[i..][0] == rows[i] && rows[i..][1..] == rows[i + 1..];
    }

    /** Paints one row, within the screen. */
    method PaintRow(row: bytes) returns (ok: bool)
      modifies this`cells
      ensures ok ==> old(Painted(row)) == Some(cells) && |cells| == |old(cells)|
      ensures !ok ==> old(Painted(row)) == None
    {
      var run := ReadRun(l, row);
      if run.None? || run.value.y >= height || (run.value.x + |run.value.cells|) % UINT64 > width {
        return false;
      }
      ok := PaintCells(Offset(run.value, width), run.value.cells);
    }

    /** The panes of a patch by identifier; a later pane replaces an earlier one. */
    method CollectPanes(panes: seq<bytes>) returns (updates: map<bytes, bytes>)
      ensures updates == Updates(panes)
    {
      updates := map[];
      for i := 0 to |panes|
        invariant updates == Updates(panes[..i])
      {
        assert panes[..i + 1][..i] == panes[..i];
        updates := updates[PaneId(panes[i]) := panes[i]];
      }
      assert panes[..|panes|] == panes;
    }

    /** Replaces the panes that a patch brings along, in place. */
    method ReplacePanes(updates: map<bytes, bytes>) returns (ok: bool)
      modifies this`tail
      ensures ok ==> PatchTail(l, old(tail), updates) == Some(tail)
      ensures !ok ==> PatchTail(l, old(tail), updates) == None
    {
      var t := new Decoder(tail);
      assert t.Rest() == tail;
      var links := t.Cut(l.links);
      if t.err {
        return false;
      }
      var panes := t.CutMany(l.Pane());
      if t.err {
        return false;
      }
      var rest := t.b[t.p..];
      var out := [];
      for i := 0 to |panes|
        invariant out == Flat(Screens.Replace(panes[..i], updates))
      {
        var pane := if PaneId(panes[i]) in updates then updates[PaneId(panes[i])] else panes[i];
        ReplaceStep(panes, i, updates);
        out := out + pane;
      }
      assert panes[..|panes|] == panes;
      tail := links + (Number(|panes|) + out) + rest;
      ok := true;
    }

    lemma ReplaceStep(panes: seq<bytes>, i: nat, updates: map<bytes, bytes>)
      requires i < |panes|
      ensures Flat(Screens.Replace(panes[..i + 1], updates))
              == Flat(Screens.Replace(panes[..i], updates))
                 + (if PaneId(panes[i]) in updates then updates[PaneId(panes[i])] else panes[i])
    {
      var a := Screens.Replace(panes[..i], updates);
      var b := [if PaneId(panes[i]) in updates then updates[PaneId(panes[i])] else panes[i]];
      assert Screens.Replace(panes[..i + 1], updates) == a + b;
      FlatAppend(a, b);
      assert Flat(b) == b[0] + Flat([]) && b[0] + [] == b[0];
    }

    /** Reads the changes of a patch. */
    method TakeDelta(d: Decoder) returns (ok: bool, delta: Delta)
      requires d.Valid() && !d.err
      modifies d
      ensures d.Valid()
      ensures ok ==> ReadDelta(l, old(d.Rest())) == Some(delta)
      ensures !ok ==> ReadDelta(l, old(d.Rest())) == None
    {
      delta := Delta([], [], []);
      var rows := d.CutMany(l.Row());
      if d.err {
        return false, delta;
      }
      var panes := d.CutMany(l.Pane());
      if d.err {
        return false, delta;
      }
      var c := d.Cut(l.cursor);
      if d.err {
        return false, delta;
      }
      return true, Delta(rows, panes, c);
    }

    /** Applies a patch to what is retained, if it follows it. */
    method Amend(d: Decoder, h: Header) returns (ok: bool)
      requires d.Valid() && !d.err && ReadHeader(d.b) == Some(h) && d.p == h.size
      requires present
      modifies d, this
      ensures ok ==> present
      ensures ok && Consistent(State().value) ==> Patch(l, old(State()).value, d.b) == State()
      ensures ok && Consistent(State().value) ==> Amended(l, old(State()).value, d.b, State().value)
      ensures ok && !Consistent(State().value) ==> Patch(l, old(State()).value, d.b) == None
      ensures !ok ==> Patch(l, old(State()).value, d.b) == None
    {
      ghost var rest := d.Rest();
      var next := d.Number();
      if d.err {
        return false;
      }
      assert d.Rest() == rest[ReadNumber(rest).value.size..];
      ghost var before := State().value;
      PatchIs(before, d.b, h, rest, next);
      ok := AmendNext(d, h, next);
      if ok && Consistent(State().value) {
        PatchAmends(l, before, d.b);
      }
    }

    lemma PatchIs(s: Screen, b: bytes, h: Header, rest: bytes, next: nat)
      requires ReadHeader(b) == Some(h) && rest == b[h.size..]
      requires ReadNumber(rest).Some? && ReadNumber(rest).value.value == next
      ensures match ReadDelta(l, rest[ReadNumber(rest).value.size..])
              case None => Patch(l, s, b) == None
              case Some(delta) => Patch(l, s, b) == Patched(l, s, h, next, delta)
    {
    }

    /** The same, once the next revision is known. */
    method AmendNext(d: Decoder, h: Header, next: nat) returns (ok: bool)
      requires d.Valid() && !d.err && present
      modifies d, this
      ensures ok ==> present
      ensures match ReadDelta(l, old(d.Rest()))
              case None => !ok
              case Some(delta) =>
                var t := Patched(l, old(State()).value, h, next, delta);
                if ok && Consistent(State().value) then t == State() else t == None
    {
      if !Follows(State().value, h, next) {
        return false;
      }
      var read, delta := TakeDelta(d);
      if !read {
        return false;
      }
      ok := Apply(h, next, delta);
    }

    method Apply(h: Header, next: nat, delta: Delta) returns (ok: bool)
      requires present && Follows(State().value, h, next)
      modifies this
      ensures ok ==> present
      ensures ok && Consistent(State().value) ==> Patched(l, old(State()).value, h, next, delta) == State()
      ensures ok && !Consistent(State().value) ==> Patched(l, old(State()).value, h, next, delta) == None
      ensures !ok ==> Patched(l, old(State()).value, h, next, delta) == None
    {
      PatchedIs(State().value, h, next, delta);
      ok := PaintAll(delta);
      if !ok {
        return;
      }
      cursor := delta.cursor;
      revision := next;
      header := HeaderBytes(FULL_TAG, h.boot, h.projection, next);
    }

    /** Paints the rows and replaces the panes of a patch. */
    method PaintAll(delta: Delta) returns (ok: bool)
      modifies this`cells, this`tail
      ensures var painted := Screens.Paint(l, delta.rows, old(cells), width, height);
              var replaced := PatchTail(l, old(tail), Updates(delta.panes));
              if ok then painted == Some(cells) && replaced == Some(tail) else painted.None? || replaced.None?
    {
      ok := PaintRows(delta.rows);
      if ok {
        var updates := CollectPanes(delta.panes);
        ok := ReplacePanes(updates);
      }
    }

    lemma PatchedIs(s: Screen, h: Header, next: nat, d: Delta)
      requires Follows(s, h, next)
      ensures var cells := Screens.Paint(l, d.rows, s.cells, s.width, s.height);
              var tail := PatchTail(l, s.tail, Updates(d.panes));
              if cells.None? || tail.None? then Patched(l, s, h, next, d) == None
              else
                var t := Screen(HeaderBytes(FULL_TAG, h.boot, h.projection, next), cells.value, s.width, s.height,
                                d.cursor, tail.value, next, s.assets);
                Patched(l, s, h, next, d) == if Consistent(t) then Some(t) else None
    {
    }

    // Frames --------------------------------------------------------------------------------------

    /** The bytes of all cells. */
    method CellBytes() returns (size: nat)
      ensures size == |Flat(cells)|
    {
      size := 0;
      for i := 0 to |cells|
        invariant size == |Flat(cells[..i])|
      {
        CellStep(cells, i);
        size := size + |cells[i]|;
      }
      assert cells[..|cells|] == cells;
    }

    lemma CellStep(xs: seq<bytes>, i: nat)
      requires i < |xs|
      ensures Flat(xs[..i + 1]) == Flat(xs[..i]) + xs[i]
    {
      assert xs[..i + 1] == xs[..i] + [xs[i]];
      FlatAppend(xs[..i], [xs[i]]);
      assert Flat([xs[i]]) == xs[i] + Flat([]) && xs[i] + [] == xs[i];
    }

    /** Takes a frame in. If that fails, what is retained is of no use any more. */
    method Update(b: bytes) returns (ok: bool)
      modifies this
      ensures ok ==> State() == Screens.Update(l, old(State()), b) && present
      ensures ok ==> Taken(l, old(State()), b, State().value)
      ensures !ok ==> Screens.Update(l, old(State()), b) == None
    {
      ghost var before := State();
      var d := new Decoder(b);
      var h := Head(d);
      if d.err {
        HeaderNeeded(b);
        return false;
      }
      TagFirst(b);
      if h.tag == FULL_TAG {
        ok := Replace(d, h);
      } else if h.tag == PATCH_TAG && present {
        ok := Amend(d, h);
      } else {
        return false;
      }
      if !ok {
        return;
      }
      var size := CellBytes();
      if |header| + |cursor| + |tail| + size > MAX_FRAME {
        return false;
      }
      ok := Area(width, height) == |cells|;
      if ok {
        UpdateTakes(l, before, b);
      }
    }

    lemma HeaderNeeded(b: bytes)
      requires ReadHeader(b).None?
      ensures Screens.Apply(l, State(), b) == None
    {
    }

    /** The full frame that the retained screen amounts to. */
    method WriteOut() returns (b: bytes)
      requires present
      ensures b == Bytes(State().value)
    {
      var all := [];
      for i := 0 to |cells|
        invariant all == Flat(cells[..i])
      {
        CellStep(cells, i);
        all := all + cells[i];
      }
      assert cells[..|cells|] == cells;
      b := header + (Number(|cells|) + all + (Number(width) + Number(height) + (cursor + tail)));
    }
  }
}
