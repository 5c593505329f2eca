/** What a retained screen is worth: it is itself a complete frame. */
module Retention {
  import opened Wire
  import opened Grammar
  import opened Slices
  import opened Surfaces
  import opened Screens

  // Headers -------------------------------------------------------------------------------------

  // Headers are read number by number, and text by text.

  lemma PairStep(s: bytes, a: nat, n: nat, b: nat, m: nat)
    requires ReadNumber(s) == Some(Read(a, n)) && ReadNumber(s[n..]) == Some(Read(b, m))
    ensures ReadPair(s) == Some((a, b, n + m))
  {
  }

  lemma TextStep(s: bytes, x: Read<bytes>, h: Header)
    requires ReadText(s) == Some(x) && ReadFields(2, s[x.size..]) == Some(h)
    ensures ReadFields(3, s) == Some(h.(boot := x.value, size := x.size + h.size))
  {
  }

  lemma NumberStep(k: nat, s: bytes, x: Read<nat>, h: Header)
    requires k > 0 && k != 3 && ReadNumber(s) == Some(x) && ReadFields(k - 1, s[x.size..]) == Some(h)
    ensures ReadFields(k, s) == Some(WithNumber(h, k, x))
  {
  }

  lemma NumberField(k: nat, s: bytes)
    requires k > 0 && k != 3
    ensures var n := ReadNumber(s);
            if n.None? then ReadFields(k, s) == None
            else
              var h := ReadFields(k - 1, s[n.value.size..]);
              ReadFields(k, s) == if h.None? then None else Some(WithNumber(h.value, k, n.value))
  {
  }

  lemma TextField(s: bytes)
    ensures var x := ReadText(s);
            if x.None? then ReadFields(3, s) == None
            else
              var h := ReadFields(2, s[x.value.size..]);
              ReadFields(3, s)
              == if h.None? then None
                 else Some(h.value.(boot := x.value.value, size := x.value.size + h.value.size))
  {
  }

  lemma PairFields(s: bytes)
    ensures var r := ReadPair(s);
            ReadFields(2, s) == if r.None? then None else Some(Header(0, [], r.value.0, r.value.1, r.value.2))
  {
    NumberField(2, s);
    if ReadNumber(s).Some? {
      NumberField(1, s[ReadNumber(s).value.size..]);
    }
  }

  /** What follows the first of two parts, with whatever follows them. */
  lemma Past(a: bytes, b: bytes, t: bytes)
    ensures a + b + t == a + (b + t) && (a + b + t)[|a|..] == b + t && |a + b| == |a| + |b|
  {
  }

  lemma {:induction false} PairRoundTrip(a: nat, b: nat, t: bytes)
    requires a < UINT64 && b < UINT64
    ensures ReadPair(Number(a) + Number(b) + t) == Some((a, b, |Number(a)| + |Number(b)|))
  {
    PairJoins(Number(a), a, Number(b), b, t);
  }

  lemma PairJoins(x: bytes, a: nat, y: bytes, b: nat, t: bytes)
    requires x == Number(a) && y == Number(b) && a < UINT64 && b < UINT64
    ensures ReadPair(x + y + t) == Some((a, b, |x| + |y|))
  {
    NumberRoundTrip(a, y + t);
    NumberRoundTrip(b, t);
    Past(x, y, t);
    PairStep(x + y + t, a, |x|, b, |y|);
  }

  lemma NumberAlone(n: nat)
    requires n < UINT64
    ensures ReadNumber(Number(n)) == Some(Read(n, |Number(n)|))
  {
    NumberRoundTrip(n, []);
    assert Number(n) + [] == Number(n);
  }

  /** `x` is exactly a text that reads as `boot`; see `Numeral`. */
  ghost predicate Textual(x: bytes, boot: bytes) {
    forall r :: TextualAs(x, boot, r)
  }

  ghost predicate TextualAs(x: bytes, boot: bytes, r: Option<Read<bytes>>) {
    r == ReadText(x) ==> r == Some(Read(boot, |x|))
  }

  lemma TextualSo(x: bytes, boot: bytes)
    ensures Textual(x, boot) <==> ReadText(x) == Some(Read(boot, |x|))
  {
    if Textual(x, boot) {
      assert TextualAs(x, boot, ReadText(x));
    }
  }

  lemma TextRead(x: bytes, boot: bytes, t: bytes, h: Header)
    requires Textual(x, boot) && ReadFields(2, t) == Some(h)
    ensures ReadFields(3, x + t) == Some(h.(boot := boot, size := |x| + h.size))
  {
    TextualSo(x, boot);
    AppendSplits(x, t);
    SplitsAt(x, |x|);
    PrefixText(x, x + t);
    TextStep(x + t, Read(boot, |x|), h);
  }

  /** `c` is exactly a number that reads as `v`; the quantifier keeps how it reads out of the proofs
      that do not need it. */
  ghost predicate Numeral(c: bytes, v: nat) {
    forall r :: NumeralAs(c, v, r)
  }

  ghost predicate NumeralAs(c: bytes, v: nat, r: Option<Read<nat>>) {
    r == ReadNumber(c) ==> r == Some(Read(v, |c|))
  }

  lemma NumeralSo(c: bytes, v: nat)
    ensures Numeral(c, v) <==> ReadNumber(c) == Some(Read(v, |c|))
  {
    if Numeral(c, v) {
      assert NumeralAs(c, v, ReadNumber(c));
    }
  }

  lemma NumberRead(k: nat, c: bytes, v: nat, t: bytes, h: Header)
    requires k > 0 && k != 3 && Numeral(c, v) && ReadFields(k - 1, t) == Some(h)
    ensures ReadFields(k, c + t) == Some(WithNumber(h, k, Read(v, |c|)))
  {
    NumeralSo(c, v);
    AppendSplits(c, t);
    SplitsAt(c, |c|);
    PrefixNumber(c, c + t);
    NumberStep(k, c + t, Read(v, |c|), h);
  }

  lemma TwoFieldsRead(p: bytes, projection: nat, c: bytes, revision: nat, t: bytes)
    requires Numeral(p, projection) && Numeral(c, revision)
    ensures ReadFields(2, p + (c + t)) == Some(Header(0, [], projection, revision, |p| + |c|))
  {
    NumberRead(1, c, revision, t, Header(0, [], 0, 0, 0));
    NumberRead(2, p, projection, c + t, Header(0, [], 0, revision, |c|));
  }

  lemma ThreeFieldsRead(x: bytes, boot: bytes, p: bytes, projection: nat, c: bytes, revision: nat, t: bytes)
    requires Textual(x, boot) && Numeral(p, projection) && Numeral(c, revision)
    ensures ReadFields(3, x + (p + (c + t))) == Some(Header(0, boot, projection, revision, |x| + (|p| + |c|)))
  {
    TwoFieldsRead(p, projection, c, revision, t);
    TextRead(x, boot, p + (c + t), Header(0, [], projection, revision, |p| + |c|));
  }

  /** A header put together from its raw fields is read back, followed by anything. */
  lemma FieldsRead(tag: bytes, v: nat, x: bytes, boot: bytes, p: bytes, projection: nat, c: bytes, revision: nat,
                   t: bytes)
    requires Numeral(tag, v) && Textual(x, boot)
    requires Numeral(p, projection) && Numeral(c, revision)
    ensures ReadHeader(tag + (x + (p + (c + t))))
         == Some(Header(v, boot, projection, revision, |tag| + (|x| + (|p| + |c|))))
  {
    ThreeFieldsRead(x, boot, p, projection, c, revision, t);
    NumberRead(4, tag, v, x + (p + (c + t)), Header(0, boot, projection, revision, |x| + (|p| + |c|)));
  }

  lemma NumeralAlone(n: nat)
    requires n < UINT64
    ensures Numeral(Number(n), n)
  {
    NumberAlone(n);
    NumeralSo(Number(n), n);
  }

  lemma TextAlone(x: bytes)
    requires |x| <= MAX_FRAME
    ensures ReadText(Text(x)) == Some(Read(x, |Text(x)|))
  {
    TextRoundTrip(x, []);
    assert Text(x) + [] == Text(x);
  }

  lemma {:induction false} HeaderRoundTrip(tag: nat, boot: bytes, projection: nat, revision: nat, t: bytes)
    requires tag < UINT64 && |boot| <= MAX_FRAME && projection < UINT64 && revision < UINT64
    ensures var b := HeaderBytes(tag, boot, projection, revision);
            ReadHeader(b + t) == Some(Header(tag, boot, projection, revision, |b|))
  {
    NumeralAlone(tag);
    TextAlone(boot);
    TextualSo(Text(boot), boot);
    NumeralAlone(projection);
    NumeralAlone(revision);
    FieldsRead(Number(tag), tag, Text(boot), boot, Number(projection), projection, Number(revision), revision, t);
    FourParts(Number(tag), Text(boot), Number(projection), Number(revision), t);
  }

  /** A header is its tag, its boot, its projection and its surface revision, in this order. */
  lemma {:induction false} HeaderByParts(tag: nat, boot: bytes, projection: nat, revision: nat, t: bytes)
    requires tag < UINT64 && |boot| <= MAX_FRAME && projection < UINT64 && revision < UINT64
    ensures var h := ReadHeader(Number(tag) + Text(boot) + Number(projection) + Number(revision) + t);
            && h.Some? && h.value.tag == tag && h.value.boot == boot && h.value.projection == projection
            && h.value.revision == revision
  {
    HeaderRoundTrip(tag, boot, projection, revision, t);
    InOneRow(Number(tag), Text(boot), Number(projection), Number(revision), t);
  }

  lemma InOneRow(a: bytes, b: bytes, c: bytes, d: bytes, t: bytes)
    ensures a + b + c + d + t == a + (b + (c + d)) + t
  {
  }

  lemma FourParts(a: bytes, b: bytes, c: bytes, d: bytes, t: bytes)
    ensures a + (b + (c + d)) + t == a + (b + (c + (d + t)))
    ensures |a + (b + (c + d))| == |a| + (|b| + (|c| + |d|))
  {
  }

  lemma {:induction false} FieldsPrefix(k: nat, s: bytes, z: bytes)
    requires ReadFields(k, s).Some? && s[..ReadFields(k, s).value.size] <= z
    ensures ReadFields(k, z) == ReadFields(k, s)
    decreases k
  {
    if k == 3 {
      var x := ReadText(s).value;
      var h := ReadFields(2, s[x.size..]).value;
      SlicePrefix(s, x.size, h.size, z);
      FieldsPrefix(2, s[x.size..], z[x.size..]);
      TextPrefix(s, z, x, h);
    } else if k > 0 {
      var x := ReadNumber(s).value;
      var h := ReadFields(k - 1, s[x.size..]).value;
      SlicePrefix(s, x.size, h.size, z);
      FieldsPrefix(k - 1, s[x.size..], z[x.size..]);
      NumberPrefix(k, s, z, x, h);
    }
  }

  lemma TextPrefix(s: bytes, z: bytes, x: Read<bytes>, h: Header)
    requires ReadText(s) == Some(x) && ReadFields(2, s[x.size..]) == Some(h)
    requires s[..x.size] <= z && ReadFields(2, z[x.size..]) == Some(h)
    ensures ReadFields(3, z) == ReadFields(3, s)
  {
    PrefixText(s, z);
    TextStep(s, x, h);
    TextStep(z, x, h);
  }

  lemma NumberPrefix(k: nat, s: bytes, z: bytes, x: Read<nat>, h: Header)
    requires k > 0 && k != 3 && ReadNumber(s) == Some(x) && ReadFields(k - 1, s[x.size..]) == Some(h)
    requires s[..x.size] <= z && ReadFields(k - 1, z[x.size..]) == Some(h)
    ensures ReadFields(k, z) == ReadFields(k, s)
  {
    PrefixNumber(s, z);
    NumberStep(k, s, x, h);
    NumberStep(k, z, x, h);
  }

  lemma {:induction false} HeaderPrefix(s: bytes, z: bytes)
    requires ReadHeader(s).Some? && s[..ReadHeader(s).value.size] <= z
    ensures ReadHeader(z) == ReadHeader(s)
  {
    FieldsPrefix(4, s, z);
  }

  // Bodies --------------------------------------------------------------------------------------

  lemma {:induction false} TakeMany(item: Prog, xs: seq<bytes>, t: bytes)
    requires Element(item) && AllAre(item, xs) && |xs| <= MAX_FRAME
    ensures var m := Number(|xs|) + Flat(xs);
            && Take(Many(item), m + t) == Some(Cut(m, t))
            && Elements(item, m + t) == xs
            && ReadNumber(m + t) == Some(Read(|xs|, |Number(|xs|)|))
  {
    var c := Number(|xs|);
    NumberAlone(|xs|);
    TakeCounted(item, c, xs, t);
  }

  lemma {:induction false} TakeCounted(item: Prog, c: bytes, xs: seq<bytes>, t: bytes)
    requires Element(item) && AllAre(item, xs) && |xs| <= MAX_FRAME
    requires ReadNumber(c) == Some(Read(|xs|, |c|))
    ensures var m := c + Flat(xs);
            && Take(Many(item), m + t) == Some(Cut(m, t))
            && Elements(item, m + t) == xs
            && ReadNumber(m + t) == ReadNumber(c)
  {
    var z := c + Flat(xs) + t;
    ManyPieces(item, c, xs, IDENTITY);
    TakeSlice(Many(item), c + Flat(xs), t);
    ElementsOf(item, c, xs, z);
  }

  lemma {:induction false} ElementsOf(item: Prog, c: bytes, xs: seq<bytes>, z: bytes)
    requires Solid(item) && AllAre(item, xs) && c + Flat(xs) <= z
    requires ReadNumber(c) == Some(Read(|xs|, |c|))
    ensures Elements(item, z) == xs && ReadNumber(z) == ReadNumber(c)
  {
    assert c[..|c|] == c;
    SplitPrefix(c, Flat(xs), z);
    PrefixNumber(c, z);
    PiecesFlat(item, xs, z[|c|..]);
  }

  lemma {:induction false} TakeManyCuts(item: Prog, s: bytes)
    requires Element(item) && Take(Many(item), s).Some?
    ensures var m, xs := Take(Many(item), s).value.slice, Elements(item, s);
            && Is(Many(item), m) && m == Count(m) + Flat(xs)
            && AllAre(item, xs) && |xs| <= MAX_FRAME
            && ReadNumber(Count(m)) == Some(Read(|xs|, |Count(m)|)) == ReadNumber(s)
  {
    TakeCuts(Many(item), s);
    var m := Take(Many(item), s).value.slice;
    ManyCuts(item, m);
    ElementsOf(item, Count(m), Elements(item, m), s);
  }

  lemma {:induction false} ReadBodyBytes(l: Layout, y: Body)
    requires l.Sound() && GoodBody(l, y)
    ensures ReadBody(l, BodyBytes(y)) == Some(y)
  {
    var size := Number(y.width) + Number(y.height);
    var r := size + (y.cursor + y.tail);
    TakeMany(l.cell, y.cells, r);
    PairRoundTrip(y.width, y.height, y.cursor + y.tail);
    assert r[|size|..] == y.cursor + y.tail;
    TakeSlice(l.cursor, y.cursor, y.tail);
  }

  lemma {:induction false} ReadBodyGood(l: Layout, s: bytes)
    requires l.Sound() && ReadBody(l, s).Some?
    ensures GoodBody(l, ReadBody(l, s).value)
  {
    TakeManyCuts(l.cell, s);
    var cells := Take(Many(l.cell), s).value;
    TakeCuts(l.cursor, cells.rest[ReadPair(cells.rest).value.2..]);
  }

  // Graphics ------------------------------------------------------------------------------------

  lemma KeyCuts(l: Layout, q: Prog, x: bytes)
    requires l.Sound() && Solid(q) && Is(Seq(l.asset, q), x)
    ensures Is(l.asset, Key(l, x)) && Is(q, Data(l, x)) && x == Key(l, x) + Data(l, x)
  {
    SeqCuts(l.asset, q, x);
  }

  lemma KeyOf(l: Layout, k: bytes, d: bytes)
    requires l.Sound() && Is(l.asset, k)
    ensures Key(l, k + d) == k && Data(l, k + d) == d
  {
    TakeSlice(l.asset, k, d);
  }

  /** Assets and their data are well formed. */
  ghost predicate GoodAssets(l: Layout, m: map<bytes, bytes>) {
    forall k :: k in m ==> Is(l.asset, k) && Is(Txt, m[k])
  }

  lemma {:induction false} IncomingGood(l: Layout, images: seq<bytes>)
    requires l.Sound() && AllAre(l.Image(), images)
    ensures GoodAssets(l, Incoming(l, images))
  {
    if images != [] {
      var n := |images| - 1;
      IncomingGood(l, images[..n]);
      assert Is(l.Image(), images[n]);
      KeyCuts(l, Txt, images[n]);
    }
  }

  /** Distinct assets with their data stand for exactly that map. */
  lemma {:induction false} IncomingEntries(l: Layout, ks: seq<bytes>, supply: map<bytes, bytes>)
    requires l.Sound() && Supplied(ks, supply)
    requires forall k :: k in ks ==> Is(l.asset, k)
    ensures Incoming(l, Entries(ks, supply)) == Restrict(ks, supply)
  {
    if ks != [] {
      var n := |ks| - 1;
      var k := ks[n];
      assert ks == ks[..n] + [k];
      IncomingEntries(l, ks[..n], supply);
      EntriesLast(ks, supply);
      KeyOf(l, k, supply[k]);
      assert Restrict(ks, supply) == Restrict(ks[..n], supply)[k := supply[k]];
    }
  }

  lemma EntriesLast(ks: seq<bytes>, supply: map<bytes, bytes>)
    requires Supplied(ks, supply) && ks != []
    ensures ks[|ks| - 1] in supply && Supplied(ks[..|ks| - 1], supply)
    ensures var n := |ks| - 1;
            Entries(ks, supply)[..n] == Entries(ks[..n], supply) && Entries(ks, supply)[n] == ks[n] + supply[ks[n]]
  {
    assert ks[|ks| - 1] in ks;
  }

  lemma WantedCuts(l: Layout, s: bytes)
    requires l.Sound() && ReadWanted(l, s).Some?
    ensures forall k :: k in ReadWanted(l, s).value ==> Is(l.asset, k)
  {
    TakeManyCuts(l.Placement(), s);
    var placements := Take(Many(l.Placement()), s).value;
    TakeManyCuts(l.asset, placements.rest);
    PlacementKeys(l, Elements(l.Placement(), s));
  }

  lemma ArtCuts(l: Layout, r: bytes)
    requires l.Sound() && ReadArt(l, r).Some?
    ensures var art := ReadArt(l, r).value;
            && Is(l.panels, art.panels) && AllAre(l.Image(), art.images)
            && ReadWanted(l, art.rest) == Some(art.wanted)
            && forall k :: k in art.wanted ==> Is(l.asset, k)
  {
    TakeCuts(l.panels, r);
    TakeManyCuts(l.Image(), Take(l.panels, r).value.rest);
    WantedCuts(l, ReadArt(l, r).value.rest);
  }

  lemma PlacementKeys(l: Layout, xs: seq<bytes>)
    requires l.Sound() && AllAre(l.Placement(), xs)
    ensures forall k :: k in Keys(l, xs) ==> Is(l.asset, k)
  {
    forall i | 0 <= i < |xs| ensures Is(l.asset, Keys(l, xs)[i]) {
      assert Is(l.Placement(), xs[i]);
      KeyCuts(l, l.placing, xs[i]);
    }
  }

  /** Art is read back from its parts. */
  lemma ReadArtParts(l: Layout, art: Art)
    requires l.Sound() && Is(l.panels, art.panels) && ReadWanted(l, art.rest) == Some(art.wanted)
    requires AllAre(l.Image(), art.images) && |art.images| <= MAX_FRAME
    ensures ReadArt(l, art.panels + (Number(|art.images|) + Flat(art.images) + art.rest)) == Some(art)
  {
    TakeSlice(l.panels, art.panels, Number(|art.images|) + Flat(art.images) + art.rest);
    TakeMany(l.Image(), art.images, art.rest);
  }

  lemma ExpandAgrees(panels: bytes, wanted: seq<bytes>, rest: bytes, s: map<bytes, bytes>, t: map<bytes, bytes>)
    requires Supplied(wanted, s) && Supplied(wanted, t)
    requires forall k :: k in wanted ==> s[k] == t[k]
    ensures Expand(panels, wanted, rest, s).Some? && Expand(panels, wanted, rest, s) == Expand(panels, wanted, rest, t)
  {
    assert Entries(wanted, s) == Entries(wanted, t);
    assert Restrict(wanted, s) == Restrict(wanted, t);
  }

  /** Everything the art wants comes with it. */
  ghost predicate SelfContained(l: Layout, r: bytes) {
    && ReadArt(l, r).Some?
    && Supplied(ReadArt(l, r).value.wanted, Incoming(l, ReadArt(l, r).value.images))
  }

  lemma SelfContainedRetains(l: Layout, r: bytes, had: map<bytes, bytes>)
    requires SelfContained(l, r)
    ensures RetainArt(l, r, had).Some? && RetainArt(l, r, had) == RetainArt(l, r, map[])
  {
    var art := ReadArt(l, r).value;
    var incoming := Incoming(l, art.images);
    ExpandAgrees(art.panels, art.wanted, art.rest, Supply(incoming, had), Supply(incoming, map[]));
  }

  lemma EntriesAreImages(l: Layout, ks: seq<bytes>, supply: map<bytes, bytes>)
    requires l.Sound() && Supplied(ks, supply)
    requires forall k :: k in ks ==> Is(l.asset, k) && Is(Txt, supply[k])
    ensures AllAre(l.Image(), Entries(ks, supply))
  {
    forall i | 0 <= i < |ks| ensures Is(l.Image(), Entries(ks, supply)[i]) {
      assert ks[i] in ks;
      SeqIs(l.asset, Txt, ks[i], supply[ks[i]], IDENTITY);
    }
  }

  lemma {:induction false} FlatLength(p: Prog, xs: seq<bytes>)
    requires Visible(p) && AllAre(p, xs)
    ensures |Flat(xs)| >= |xs|
  {
    if xs != [] {
      VisibleOccupies(p, xs[0], IDENTITY);
      FlatLength(p, xs[1..]);
    }
  }

  /** What a supply of images makes of art, the art reads back as. */
  lemma ExpandSettles(l: Layout, panels: bytes, wanted: seq<bytes>, rest: bytes, supply: map<bytes, bytes>)
    requires l.Sound() && GoodAssets(l, supply)
    requires Is(l.panels, panels) && ReadWanted(l, rest) == Some(wanted)
    requires forall k :: k in wanted ==> Is(l.asset, k)
    requires Expand(panels, wanted, rest, supply).Some?
    requires |Expand(panels, wanted, rest, supply).value.tail| <= MAX_FRAME
    ensures var kept := Expand(panels, wanted, rest, supply).value;
            var xs := Entries(wanted, supply);
            ReadArt(l, kept.tail) == Some(Art(panels, xs, rest, wanted)) && Incoming(l, xs) == kept.assets
            && GoodAssets(l, kept.assets)
  {
    var xs := Entries(wanted, supply);
    EntriesAreImages(l, wanted, supply);
    FlatLength(l.Image(), xs);
    ReadArtParts(l, Art(panels, xs, rest, wanted));
    IncomingEntries(l, wanted, supply);
  }

  /** Settled art is self-contained, has exactly the wanted images, and retains itself. */
  ghost predicate Settled(l: Layout, kept: Kept) {
    && SelfContained(l, kept.tail)
    && RetainArt(l, kept.tail, map[]) == Some(kept)
    && GoodAssets(l, kept.assets)
    && forall k :: k in kept.assets <==> k in ReadArt(l, kept.tail).value.wanted
  }

  lemma ExpandSettled(l: Layout, panels: bytes, wanted: seq<bytes>, rest: bytes, supply: map<bytes, bytes>)
    requires l.Sound() && GoodAssets(l, supply)
    requires Is(l.panels, panels) && ReadWanted(l, rest) == Some(wanted)
    requires forall k :: k in wanted ==> Is(l.asset, k)
    requires Expand(panels, wanted, rest, supply).Some?
    requires |Expand(panels, wanted, rest, supply).value.tail| <= MAX_FRAME
    ensures Settled(l, Expand(panels, wanted, rest, supply).value)
  {
    ExpandSettles(l, panels, wanted, rest, supply);
    var kept := Expand(panels, wanted, rest, supply).value;
    ExpandAgrees(panels, wanted, rest, kept.assets, supply);
    OwnArtSettles(l, kept, Art(panels, Entries(wanted, supply), rest, wanted));
  }

  /** Art whose own images are exactly the wanted ones. */
  lemma OwnArtSettles(l: Layout, kept: Kept, art: Art)
    requires ReadArt(l, kept.tail) == Some(art) && Incoming(l, art.images) == kept.assets
    requires Expand(art.panels, art.wanted, art.rest, kept.assets) == Some(kept)
    requires GoodAssets(l, kept.assets)
    ensures Settled(l, kept)
  {
    assert Supply(kept.assets, map[]) == kept.assets;
  }

  /** Retained art is settled. */
  lemma RetainArtSettles(l: Layout, r: bytes, had: map<bytes, bytes>)
    requires l.Sound() && GoodAssets(l, had)
    requires RetainArt(l, r, had).Some? && |RetainArt(l, r, had).value.tail| <= MAX_FRAME
    ensures Settled(l, RetainArt(l, r, had).value)
  {
    var art := ReadArt(l, r).value;
    ArtCuts(l, r);
    IncomingGood(l, art.images);
    ExpandSettled(l, art.panels, art.wanted, art.rest, Supply(Incoming(l, art.images), had));
  }

  // Screens -------------------------------------------------------------------------------------

  /** The links and panes, then settled art. */
  ghost predicate GoodTail(l: Layout, tail: bytes, assets: map<bytes, bytes>) {
    && Take(BeforeArt(l), tail).Some?
    && Settled(l, Kept(Take(BeforeArt(l), tail).value.rest, assets))
  }

  ghost predicate GoodHeader(s: Screen) {
    && ReadHeader(s.header).Some?
    && ReadHeader(s.header).value.tag == FULL_TAG
    && ReadHeader(s.header).value.size == |s.header|
    && ReadHeader(s.header).value.revision == s.revision
  }

  ghost predicate Good(l: Layout, s: Screen) {
    && GoodHeader(s) && GoodBody(l, AsBody(s)) && GoodTail(l, s.tail, s.assets) && Consistent(s)
  }

  lemma RetainGood(l: Layout, tail: bytes, had: map<bytes, bytes>)
    requires l.Sound() && GoodAssets(l, had)
    requires Retain(l, tail, had).Some? && |Retain(l, tail, had).value.tail| <= MAX_FRAME
    ensures var kept := Retain(l, tail, had).value; GoodTail(l, kept.tail, kept.assets)
  {
    TakeCuts(BeforeArt(l), tail);
    var head := Take(BeforeArt(l), tail).value;
    RetainArtSettles(l, head.rest, had);
    TakeSlice(BeforeArt(l), head.slice, RetainArt(l, head.rest, had).value.tail);
  }

  lemma GoodTailRetains(l: Layout, tail: bytes, assets: map<bytes, bytes>, had: map<bytes, bytes>)
    requires l.Sound() && GoodTail(l, tail, assets)
    ensures Retain(l, tail, had) == Some(Kept(tail, assets))
  {
    TakeCuts(BeforeArt(l), tail);
    SelfContainedRetains(l, Take(BeforeArt(l), tail).value.rest, had);
  }

  lemma LoadGood(l: Layout, b: bytes, had: map<bytes, bytes>)
    requires l.Sound() && GoodAssets(l, had)
    requires Load(l, b, had).Some? && |Load(l, b, had).value.tail| <= MAX_FRAME
    ensures Good(l, Load(l, b, had).value)
  {
    var h := ReadHeader(b).value;
    assert b[..h.size][..h.size] == b[..h.size];
    HeaderPrefix(b, b[..h.size]);
    ReadBodyGood(l, b[h.size..]);
    RetainGood(l, ReadBody(l, b[h.size..]).value.tail, had);
  }

  /** A good screen, written out, loads as itself, whatever images the reader already has. */
  lemma GoodLoads(l: Layout, s: Screen, had: map<bytes, bytes>)
    requires l.Sound() && Good(l, s)
    ensures Load(l, Bytes(s), had) == Some(s)
  {
    var b := Bytes(s);
    assert s.header[..|s.header|] == s.header;
    HeaderPrefix(s.header, b);
    assert b[|s.header|..] == BodyBytes(AsBody(s)) && b[..|s.header|] == s.header;
    ReadBodyBytes(l, AsBody(s));
    GoodTailRetains(l, s.tail, s.assets, had);
  }

  // Patches -------------------------------------------------------------------------------------

  lemma RunCuts(l: Layout, row: bytes)
    requires l.Sound() && Is(l.Row(), row)
    ensures ReadRun(l, row).Some? && AllAre(l.cell, ReadRun(l, row).value.cells)
  {
    SeqCuts(Num, Seq(Num, Many(l.cell)), row);
    var one := Take(Num, row).value;
    SeqCuts(Num, Many(l.cell), one.rest);
    var two := Take(Num, one.rest).value;
    ManyCuts(l.cell, two.rest);
    PairCut(row, one.rest, two.rest);
  }

  lemma PairCut(s: bytes, t: bytes, u: bytes)
    requires Take(Num, s).Some? && Take(Num, s).value.rest == t
    requires Take(Num, t).Some? && Take(Num, t).value.rest == u
    ensures ReadPair(s).Some? && s[ReadPair(s).value.2..] == u
  {
    DropTwice(s, ReadNumber(s).value.size, ReadNumber(t).value.size);
  }

  lemma {:induction false} PaintRunGood(p: Prog, at: nat, run: seq<bytes>, cells: seq<bytes>)
    requires AllAre(p, run) && AllAre(p, cells) && PaintRun(at, run, cells).Some?
    ensures AllAre(p, PaintRun(at, run, cells).value)
    decreases |run|
  {
    if run != [] {
      PaintRunGood(p, at + 1, run[1..], cells[at % UINT64 := run[0]]);
    }
  }

  lemma {:induction false} PaintGood(l: Layout, rows: seq<bytes>, cells: seq<bytes>, width: nat, height: nat)
    requires l.Sound() && AllAre(l.Row(), rows) && AllAre(l.cell, cells)
    requires Paint(l, rows, cells, width, height).Some?
    ensures AllAre(l.cell, Paint(l, rows, cells, width, height).value)
    decreases |rows|
  {
    if rows != [] {
      assert Is(l.Row(), rows[0]);
      RunCuts(l, rows[0]);
      var run := ReadRun(l, rows[0]).value;
      PaintRunGood(l.cell, Offset(run, width), run.cells, cells);
      PaintGood(l, rows[1..], PaintRun(Offset(run, width), run.cells, cells).value, width, height);
    }
  }

  lemma {:induction false} UpdatesGood(l: Layout, panes: seq<bytes>)
    requires AllAre(l.Pane(), panes)
    ensures forall id :: id in Updates(panes) ==> Is(l.Pane(), Updates(panes)[id])
  {
    if panes != [] {
      UpdatesGood(l, panes[..|panes| - 1]);
      assert Is(l.Pane(), panes[|panes| - 1]);
    }
  }

  lemma BeforeArtCuts(l: Layout, tail: bytes)
    requires l.Sound() && Take(BeforeArt(l), tail).Some?
    ensures Take(l.links, tail).Some? && Take(Many(l.Pane()), Take(l.links, tail).value.rest).Some?
    ensures var links := Take(l.links, tail).value;
            var panes := Take(Many(l.Pane()), links.rest).value;
            Take(BeforeArt(l), tail) == Some(Cut(links.slice + panes.slice, panes.rest))
            && Is(l.links, links.slice) && Is(Many(l.Pane()), panes.slice)
  {
    SeqSplits(l.links, Many(l.Pane()), tail, IDENTITY);
    TakeCuts(l.links, tail);
    TakeCuts(Many(l.Pane()), Take(l.links, tail).value.rest);
    TakeTwo(l.links, Many(l.Pane()), tail);
  }

  /** A head put together from links and panes is read back, followed by anything. */
  lemma TakeHead(l: Layout, links: bytes, panes: seq<bytes>, t: bytes)
    requires l.Sound() && Is(l.links, links) && AllAre(l.Pane(), panes) && |panes| <= MAX_FRAME
    ensures var m := Number(|panes|) + Flat(panes);
            Take(BeforeArt(l), links + m + t) == Some(Cut(links + m, t))
  {
    var m := Number(|panes|) + Flat(panes);
    NumberAlone(|panes|);
    ManyPieces(l.Pane(), Number(|panes|), panes, IDENTITY);
    SeqIs(l.links, Many(l.Pane()), links, m, IDENTITY);
    TakeSlice(BeforeArt(l), links + m, t);
  }

  /** Replacing panes leaves the art alone. */
  lemma PatchTailGood(l: Layout, tail: bytes, assets: map<bytes, bytes>, panes: seq<bytes>)
    requires l.Sound() && GoodTail(l, tail, assets) && AllAre(l.Pane(), panes)
    ensures PatchTail(l, tail, Updates(panes)).Some?
    ensures GoodTail(l, PatchTail(l, tail, Updates(panes)).value, assets)
  {
    BeforeArtCuts(l, tail);
    var links := Take(l.links, tail).value;
    TakeManyCuts(l.Pane(), links.rest);
    UpdatesGood(l, panes);
    var was := Elements(l.Pane(), links.rest);
    var now := Replace(was, Updates(panes));
    assert AllAre(l.Pane(), now);
    TakeHead(l, links.slice, now, Take(Many(l.Pane()), links.rest).value.rest);
  }

  ghost predicate GoodDelta(l: Layout, d: Delta) {
    AllAre(l.Row(), d.rows) && AllAre(l.Pane(), d.panes) && Is(l.cursor, d.cursor)
  }

  lemma DeltaCuts(l: Layout, s: bytes)
    requires l.Sound() && ReadDelta(l, s).Some?
    ensures GoodDelta(l, ReadDelta(l, s).value)
  {
    TakeManyCuts(l.Row(), s);
    var rows := Take(Many(l.Row()), s).value;
    TakeManyCuts(l.Pane(), rows.rest);
    TakeCuts(l.cursor, Take(Many(l.Pane()), rows.rest).value.rest);
  }

  lemma ChangeGood(l: Layout, s: Screen, header: bytes, revision: nat, d: Delta)
    requires l.Sound() && Good(l, s) && GoodDelta(l, d) && Change(l, s, header, revision, d).Some?
    ensures var t := Change(l, s, header, revision, d).value;
            GoodBody(l, AsBody(t)) && GoodTail(l, t.tail, t.assets)
  {
    PaintGood(l, d.rows, s.cells, s.width, s.height);
    PatchTailGood(l, s.tail, s.assets, d.panes);
  }

  lemma FreshHeaderGood(t: Screen, boot: bytes, projection: nat)
    requires |boot| <= MAX_FRAME && projection < UINT64 && t.revision < UINT64
    requires t.header == HeaderBytes(FULL_TAG, boot, projection, t.revision)
    ensures GoodHeader(t)
  {
    HeaderRoundTrip(FULL_TAG, boot, projection, t.revision, []);
    assert t.header + [] == t.header;
  }

  lemma PatchedGood(l: Layout, s: Screen, h: Header, next: nat, d: Delta)
    requires l.Sound() && Good(l, s) && GoodDelta(l, d) && Patched(l, s, h, next, d).Some?
    requires |h.boot| <= MAX_FRAME && h.projection < UINT64 && h.revision < UINT64
    ensures Good(l, Patched(l, s, h, next, d).value)
  {
    ChangeGood(l, s, HeaderBytes(FULL_TAG, h.boot, h.projection, next), next, d);
    FreshHeaderGood(Patched(l, s, h, next, d).value, h.boot, h.projection);
  }

  lemma ReadPatchCuts(l: Layout, b: bytes)
    requires l.Sound() && ReadPatch(l, b).Some?
    ensures var p := ReadPatch(l, b).value;
            && GoodDelta(l, p.delta) && ReadHeader(b) == Some(p.header)
            && |p.header.boot| <= MAX_FRAME && p.header.projection < UINT64 && p.header.revision < UINT64
  {
    var s := b[ReadHeader(b).value.size..];
    DeltaCuts(l, s[ReadNumber(s).value.size..]);
  }

  lemma PatchGood(l: Layout, s: Screen, b: bytes)
    requires l.Sound() && Good(l, s) && Patch(l, s, b).Some?
    ensures Good(l, Patch(l, s, b).value)
  {
    ReadPatchCuts(l, b);
    var p := ReadPatch(l, b).value;
    PatchedGood(l, s, p.header, p.next, p.delta);
  }

  // Runs ----------------------------------------------------------------------------------------

  /** The screen after a source's frames, as long as every one of them is taken. */
  function Replay(l: Layout, frames: seq<bytes>): Option<Screen> {
    if frames == [] then None
    else
      var before := Replay(l, frames[..|frames| - 1]);
      if |frames| > 1 && before.None? then None
      else Update(l, before, frames[|frames| - 1])
  }

  lemma UpdateGood(l: Layout, s: Option<Screen>, b: bytes)
    requires l.Sound() && (s.Some? ==> Good(l, s.value)) && Update(l, s, b).Some?
    ensures Good(l, Update(l, s, b).value)
  {
    if ReadNumber(b).value.value == FULL_TAG {
      LoadGood(l, b, if s.Some? then s.value.assets else map[]);
    } else {
      PatchGood(l, s.value, b);
    }
  }

  lemma {:induction false} ReplayGood(l: Layout, frames: seq<bytes>)
    requires l.Sound() && Replay(l, frames).Some?
    ensures Good(l, Replay(l, frames).value) && Retained(Replay(l, frames).value) <= MAX_FRAME
  {
    var n := |frames| - 1;
    if n > 0 {
      ReplayGood(l, frames[..n]);
    }
    UpdateGood(l, Replay(l, frames[..n]), frames[n]);
  }

  lemma LoadHeader(l: Layout, b: bytes, had: map<bytes, bytes>)
    requires Load(l, b, had).Some?
    ensures ReadHeader(b).Some? && ReadHeader(Load(l, b, had).value.header) == ReadHeader(b)
  {
    var h := ReadHeader(b).value;
    assert b[..h.size][..h.size] == b[..h.size];
    HeaderPrefix(b, b[..h.size]);
  }

  lemma PatchedHeader(l: Layout, s: Screen, h: Header, next: nat, d: Delta)
    requires Patched(l, s, h, next, d).Some?
    requires |h.boot| <= MAX_FRAME && h.projection < UINT64 && h.revision < UINT64
    ensures var t := Patched(l, s, h, next, d).value;
            && ReadHeader(s.header).Some? && ReadHeader(t.header).Some?
            && ReadHeader(t.header).value.boot == h.boot && ReadHeader(t.header).value.projection == h.projection
            && ReadHeader(s.header).value.boot == h.boot && ReadHeader(s.header).value.projection == h.projection
            && s.revision == h.revision && t.revision == s.revision + 1
  {
    var t := Patched(l, s, h, next, d).value;
    HeaderRoundTrip(FULL_TAG, h.boot, h.projection, next, []);
    assert t.header + [] == t.header;
  }

  /** A patch continues the screen that it is for: the same boot and projection, and the next revision. */
  lemma PatchHeader(l: Layout, s: Screen, b: bytes)
    requires l.Sound() && Patch(l, s, b).Some?
    ensures var t := Patch(l, s, b).value;
            && ReadHeader(b).Some? && ReadHeader(s.header).Some? && ReadHeader(t.header).Some?
            && ReadHeader(t.header).value.boot == ReadHeader(s.header).value.boot == ReadHeader(b).value.boot
            && ReadHeader(t.header).value.projection == ReadHeader(s.header).value.projection
            && ReadHeader(s.header).value.projection == ReadHeader(b).value.projection
            && s.revision == ReadHeader(b).value.revision && t.revision == s.revision + 1
  {
    ReadPatchCuts(l, b);
    var p := ReadPatch(l, b).value;
    PatchedHeader(l, s, p.header, p.next, p.delta);
  }

  /** A screen belongs to whom its last frame says. */
  lemma UpdateHeader(l: Layout, s: Option<Screen>, b: bytes)
    requires l.Sound() && Update(l, s, b).Some?
    ensures var t := Update(l, s, b).value;
            && ReadHeader(b).Some? && ReadHeader(t.header).Some?
            && ReadHeader(t.header).value.boot == ReadHeader(b).value.boot
            && ReadHeader(t.header).value.projection == ReadHeader(b).value.projection
  {
    if ReadNumber(b).value.value == FULL_TAG {
      LoadHeader(l, b, if s.Some? then s.value.assets else map[]);
    } else {
      PatchHeader(l, s.value, b);
    }
  }

  lemma HeaderTag(b: bytes)
    requires ReadHeader(b).Some?
    ensures ReadNumber(b).Some? && ReadNumber(b).value.value == ReadHeader(b).value.tag
  {
  }

  /** Whatever frames led to it, full or incremental, with or without their images, the retained
      screen written out is a frame from which anyone rebuilds it exactly: cells, cursor, panes,
      revision and images. */
  lemma RetainedScreenIsComplete(l: Layout, frames: seq<bytes>, other: Option<Screen>)
    requires l.Sound() && Replay(l, frames).Some?
    ensures Update(l, other, Bytes(Replay(l, frames).value)) == Replay(l, frames)
  {
    ReplayGood(l, frames);
    GoodUpdates(l, Replay(l, frames).value, other);
  }

  lemma GoodUpdates(l: Layout, s: Screen, other: Option<Screen>)
    requires l.Sound() && Good(l, s) && Retained(s) <= MAX_FRAME
    ensures Update(l, other, Bytes(s)) == Some(s)
  {
    GoodLoads(l, s, if other.Some? then other.value.assets else map[]);
    LoadTag(l, Bytes(s), if other.Some? then other.value.assets else map[]);
  }

  lemma LoadTag(l: Layout, b: bytes, had: map<bytes, bytes>)
    requires Load(l, b, had).Some?
    ensures ReadNumber(b).Some? && ReadNumber(b).value.value == FULL_TAG
  {
    HeaderTag(b);
  }

  /** The images kept are exactly those that a placement or a reference of the screen wants. */
  lemma RetainedImagesAreTheWantedOnes(l: Layout, frames: seq<bytes>)
    requires l.Sound() && Replay(l, frames).Some?
    ensures var s := Replay(l, frames).value;
            && Take(BeforeArt(l), s.tail).Some?
            && ReadArt(l, Take(BeforeArt(l), s.tail).value.rest).Some?
            && forall k :: k in s.assets <==> k in ReadArt(l, Take(BeforeArt(l), s.tail).value.rest).value.wanted
  {
    ReplayGood(l, frames);
  }
}
