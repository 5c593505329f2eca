/** Cutting bytes into the exact slices that layouts occupy, and putting slices together. */
module Slices {
  import opened Wire
  import opened Grammar

  /** A repeated element occupies at least one byte and counts its own repetitions. */
  predicate Element(p: Prog) {
    Solid(p) && Visible(p)
  }

  lemma SeqSolid(a: Prog, b: Prog)
    requires Solid(a) && Solid(b)
    ensures Solid(Seq(a, b)) && (Visible(a) || Visible(b) ==> Element(Seq(a, b)))
  {
  }

  lemma PartElement(item: Prog)
    requires Solid(item)
    ensures Element(Optional(item)) && (Visible(item) ==> Element(Many(item)))
  {
  }

  /** `x` is exactly one `p`. */
  predicate Is(p: Prog, x: bytes) {
    Parse(p, x, IDENTITY).Some? && Parse(p, x, IDENTITY).value.size == |x|
  }

  /** `x` with its substitutions made. */
  function Rewrite(p: Prog, x: bytes, e: Env): bytes {
    if Parse(p, x, e).Some? then Parse(p, x, e).value.out else []
  }

  /** Every text substituted in `x` can be read back. */
  predicate FitsIn(p: Prog, x: bytes, e: Env) {
    Parse(p, x, e).Some? ==> Parse(p, x, e).value.fits
  }

  /** Anything that begins with a slice reads as that slice. */
  lemma IsParses(p: Prog, x: bytes, z: bytes, e: Env)
    requires Solid(p) && Is(p, x) && x <= z
    ensures Parse(p, z, e) == Some(Parsed(|x|, Rewrite(p, x, e), FitsIn(p, x, e)))
    ensures Parse(p, x, e).Some?
  {
    ParseIndependent(p, x, IDENTITY, e);
    assert x[..|x|] == x;
    ParsePrefix(p, x, z, e);
  }

  /** And a parse cuts off a slice. */
  lemma ParseCuts(p: Prog, s: bytes, e: Env)
    requires Solid(p) && Parse(p, s, e).Some?
    ensures var n := Parse(p, s, e).value.size;
            Is(p, s[..n]) && Parse(p, s, e) == Some(Parsed(n, Rewrite(p, s[..n], e), FitsIn(p, s[..n], e)))
  {
    var n := Parse(p, s, e).value.size;
    ParsePrefix(p, s, s[..n], e);
    ParseIndependent(p, s[..n], IDENTITY, e);
  }

  /** Rewritten slices are slices again, as long as their texts fit, and rewrite on by composition. */
  lemma RewriteComposes(p: Prog, x: bytes, e1: Env, e2: Env, e: Env)
    requires Solid(p) && Is(p, x) && FitsIn(p, x, e1) && Composed(e1, e2, e)
    ensures Is(p, Rewrite(p, x, e1))
    ensures Rewrite(p, Rewrite(p, x, e1), e2) == Rewrite(p, x, e)
    ensures FitsIn(p, x, e) ==> FitsIn(p, Rewrite(p, x, e1), e2)
  {
    ParseIndependent(p, x, IDENTITY, e1);
    ParseComposes(p, x, Rewrite(p, x, e1), e1, e2, e);
    ParseIndependent(p, Rewrite(p, x, e1), IDENTITY, e2);
  }

  lemma RewriteIs(p: Prog, x: bytes, e: Env)
    requires Solid(p) && Is(p, x) && FitsIn(p, x, e)
    ensures Is(p, Rewrite(p, x, e))
  {
    RewriteComposes(p, x, e, Env(e.boot, e.revision, x => x), e);
  }

  lemma RewritePlain(p: Prog, x: bytes, e: Env)
    requires Solid(p) && Plain(p) && Is(p, x)
    ensures Rewrite(p, x, e) == x && FitsIn(p, x, e)
  {
    ParseIndependent(p, x, IDENTITY, e);
    PlainCopies(p, x, e);
    assert x[..|x|] == x;
  }

  /** A slice and what follows it. */
  datatype Cut = Cut(slice: bytes, rest: bytes)

  function Take(p: Prog, s: bytes): Option<Cut> {
    match Parse(p, s, IDENTITY)
    case None => None
    case Some(r) => Some(Cut(s[..r.size], s[r.size..]))
  }

  lemma Extends(xs: seq<bytes>, x: bytes, ys: seq<bytes>)
    ensures xs + ([x] + ys) == xs + [x] + ys
  {
  }

  lemma TakeWhole(p: Prog, s: bytes)
    requires Take(p, s).Some?
    ensures s == Take(p, s).value.slice + Take(p, s).value.rest
  {
  }

  lemma TakeSlice(p: Prog, x: bytes, t: bytes)
    requires Solid(p) && Is(p, x)
    ensures Take(p, x + t) == Some(Cut(x, t))
  {
    IsParses(p, x, x + t, IDENTITY);
    assert (x + t)[..|x|] == x && (x + t)[|x|..] == t;
  }

  lemma TakeCuts(p: Prog, s: bytes)
    requires Solid(p) && Take(p, s).Some?
    ensures Is(p, Take(p, s).value.slice)
    ensures s == Take(p, s).value.slice + Take(p, s).value.rest
  {
    ParseCuts(p, s, IDENTITY);
    SplitsAt(s, Parse(p, s, IDENTITY).value.size);
  }

  function Flat(xs: seq<bytes>): bytes {
    if xs == [] then [] else xs[0] + Flat(xs[1..])
  }

  lemma {:induction false} FlatAppend(xs: seq<bytes>, ys: seq<bytes>)
    ensures Flat(xs + ys) == Flat(xs) + Flat(ys)
  {
    if xs == [] {
      assert xs + ys == ys;
    } else {
      FlatAppend(xs[1..], ys);
      assert (xs + ys)[1..] == xs[1..] + ys && (xs + ys)[0] == xs[0];
      Associates(xs[0], Flat(xs[1..]), Flat(ys));
    }
  }

  ghost predicate AllAre(p: Prog, xs: seq<bytes>) {
    forall i :: 0 <= i < |xs| ==> Is(p, xs[i])
  }

  ghost predicate AllFit(p: Prog, xs: seq<bytes>, e: Env) {
    forall i :: 0 <= i < |xs| ==> FitsIn(p, xs[i], e)
  }

  function RewriteAll(p: Prog, xs: seq<bytes>, e: Env): (ys: seq<bytes>)
    ensures |ys| == |xs| && forall i :: 0 <= i < |xs| ==> ys[i] == Rewrite(p, xs[i], e)
  {
    seq(|xs|, i requires 0 <= i < |xs| => Rewrite(p, xs[i], e))
  }

  /** The first `k` slices of `item` in `s`. */
  function Pieces(item: Prog, k: nat, s: bytes): (xs: seq<bytes>)
    ensures |xs| <= k
    decreases k
  {
    if k == 0 || Parse(item, s, IDENTITY).None? then []
    else
      var n := Parse(item, s, IDENTITY).value.size;
      [s[..n]] + Pieces(item, k - 1, s[n..])
  }

  lemma {:induction false} PiecesCut(item: Prog, k: nat, s: bytes)
    requires Solid(item) && Repeat(item, k, s, IDENTITY).Some?
    ensures |Pieces(item, k, s)| == k && AllAre(item, Pieces(item, k, s))
    ensures Flat(Pieces(item, k, s)) == s[..Repeat(item, k, s, IDENTITY).value.size]
    decreases k
  {
    if k > 0 {
      var n := Parse(item, s, IDENTITY).value.size;
      var rest := Pieces(item, k - 1, s[n..]);
      ParseCuts(item, s, IDENTITY);
      PiecesCut(item, k - 1, s[n..]);
      OneMorePiece(item, s[..n], rest);
      SliceJoin(s, n, Repeat(item, k - 1, s[n..], IDENTITY).value.size);
    }
  }

  lemma OneMorePiece(item: Prog, x: bytes, xs: seq<bytes>)
    requires Is(item, x) && AllAre(item, xs)
    ensures AllAre(item, [x] + xs) && Flat([x] + xs) == x + Flat(xs)
  {
    assert ([x] + xs)[1..] == xs;
  }

  lemma RepeatStep(item: Prog, k: nat, s: bytes, e: Env, u: Parsed, v: Parsed)
    requires k > 0 && Parse(item, s, e) == Some(u) && Repeat(item, k - 1, s[u.size..], e) == Some(v)
    ensures Repeat(item, k, s, e) == Some(Join(u, v))
  {
  }

  /** What reading and rewriting the slices `xs` in a row comes to. */
  ghost function InARow(p: Prog, xs: seq<bytes>, e: Env): Parsed {
    Parsed(|Flat(xs)|, Flat(RewriteAll(p, xs, e)), AllFit(p, xs, e))
  }

  lemma InARowStep(p: Prog, xs: seq<bytes>, e: Env)
    requires xs != []
    ensures InARow(p, xs, e) == Join(Parsed(|xs[0]|, Rewrite(p, xs[0], e), FitsIn(p, xs[0], e)), InARow(p, xs[1..], e))
  {
    assert RewriteAll(p, xs, e)[1..] == RewriteAll(p, xs[1..], e);
    AllFitStep(p, xs, e);
  }

  lemma AllFitStep(p: Prog, xs: seq<bytes>, e: Env)
    requires xs != []
    ensures AllFit(p, xs, e) <==> FitsIn(p, xs[0], e) && AllFit(p, xs[1..], e)
  {
    if AllFit(p, xs[1..], e) && FitsIn(p, xs[0], e) {
      forall i | 0 <= i < |xs| ensures FitsIn(p, xs[i], e) {
        assert i > 0 ==> xs[i] == xs[1..][i - 1];
      }
    }
    if AllFit(p, xs, e) {
      forall i | 0 <= i < |xs[1..]| ensures FitsIn(p, xs[1..][i], e) {
        assert xs[1..][i] == xs[i + 1];
      }
    }
  }

  /** Slices put side by side are read back, and rewritten, one by one. */
  lemma {:induction false} RepeatPieces(item: Prog, xs: seq<bytes>, z: bytes, e: Env)
    requires Solid(item) && AllAre(item, xs) && Flat(xs) <= z
    ensures Repeat(item, |xs|, z, e) == Some(InARow(item, xs, e))
  {
    if xs == [] {
      assert RewriteAll(item, xs, e) == [];
    } else {
      SplitPrefix(xs[0], Flat(xs[1..]), z);
      IsParses(item, xs[0], z, e);
      var y := z[|xs[0]|..];
      RepeatPieces(item, xs[1..], y, e);
      InARowStep(item, xs, e);
      RepeatStep(item, |xs|, z, e, Parse(item, z, e).value, InARow(item, xs[1..], e));
    }
  }

  lemma {:induction false} PiecesFlat(item: Prog, xs: seq<bytes>, z: bytes)
    requires Solid(item) && AllAre(item, xs) && Flat(xs) <= z
    ensures Pieces(item, |xs|, z) == xs
  {
    if xs != [] {
      SplitPrefix(xs[0], Flat(xs[1..]), z);
      IsParses(item, xs[0], z, IDENTITY);
      PiecesFlat(item, xs[1..], z[|xs[0]|..]);
      assert xs == [xs[0]] + xs[1..];
    }
  }

  /** A count and as many slices. */
  lemma {:induction false} ManyPieces(item: Prog, c: bytes, xs: seq<bytes>, e: Env)
    requires Element(item) && AllAre(item, xs)
    requires ReadNumber(c) == Some(Read(|xs|, |c|)) && |xs| <= MAX_FRAME
    ensures Is(Many(item), c + Flat(xs))
    ensures Rewrite(Many(item), c + Flat(xs), e) == c + Flat(RewriteAll(item, xs, e))
    ensures FitsIn(Many(item), c + Flat(xs), e) <==> AllFit(item, xs, e)
  {
    ManyPiecesIn(item, c, xs, e);
    ManyPiecesIn(item, c, xs, IDENTITY);
  }

  lemma {:induction false} ManyPiecesIn(item: Prog, c: bytes, xs: seq<bytes>, e: Env)
    requires Element(item) && AllAre(item, xs)
    requires ReadNumber(c) == Some(Read(|xs|, |c|)) && |xs| <= MAX_FRAME
    ensures Parse(Many(item), c + Flat(xs), e)
         == Some(Parsed(|c + Flat(xs)|, c + Flat(RewriteAll(item, xs, e)), AllFit(item, xs, e)))
  {
    PiecesOccupy(item, xs, e);
    ManyOf(item, c, |xs|, Flat(xs), e, Flat(RewriteAll(item, xs, e)), AllFit(item, xs, e));
  }

  lemma ManyOf(item: Prog, c: bytes, k: nat, y: bytes, e: Env, out: bytes, fits: bool)
    requires ReadNumber(c) == Some(Read(k, |c|)) && k <= MAX_FRAME && k <= |y|
    requires Repeat(item, k, y, e) == Some(Parsed(|y|, out, fits))
    ensures Parse(Many(item), c + y, e) == Some(Parsed(|c + y|, c + out, fits))
  {
    var r := Parsed(|y|, out, fits);
    AppendSplits(c, y);
    CountStays(c, k, y);
    CountedStep(item, c + y, e, k, |c|, r);
    CopyJoins(c, y, r);
  }

  lemma CountStays(c: bytes, k: nat, y: bytes)
    requires ReadNumber(c) == Some(Read(k, |c|))
    ensures ReadNumber(c + y) == Some(Read(k, |c|))
  {
    SplitsAt(c, |c|);
    PrefixNumber(c, c + y);
  }

  lemma CopyJoins(c: bytes, y: bytes, r: Parsed)
    ensures Join(Copy(c + y, |c|), r) == Parsed(|c| + r.size, c + r.out, r.fits)
  {
    AppendSplits(c, y);
  }

  lemma PiecesOccupy(item: Prog, xs: seq<bytes>, e: Env)
    requires Element(item) && AllAre(item, xs)
    ensures Repeat(item, |xs|, Flat(xs), e)
         == Some(Parsed(|Flat(xs)|, Flat(RewriteAll(item, xs, e)), AllFit(item, xs, e)))
    ensures |xs| <= |Flat(xs)|
  {
    RepeatPieces(item, xs, Flat(xs), e);
    RepeatOccupies(item, |xs|, Flat(xs), e);
  }

  lemma CountedStep(item: Prog, z: bytes, e: Env, k: nat, n: nat, r: Parsed)
    requires ReadNumber(z) == Some(Read(k, n)) && k <= MAX_FRAME && k <= |z| - n
    requires Repeat(item, k, z[n..], e) == Some(r)
    ensures Parse(Many(item), z, e) == Some(Join(Copy(z, n), r))
  {
  }

  lemma SeqIs(a: Prog, b: Prog, x: bytes, y: bytes, e: Env)
    requires Solid(a) && Solid(b) && Is(a, x) && Is(b, y)
    ensures Is(Seq(a, b), x + y)
    ensures Rewrite(Seq(a, b), x + y, e) == Rewrite(a, x, e) + Rewrite(b, y, e)
    ensures FitsIn(Seq(a, b), x + y, e) <==> FitsIn(a, x, e) && FitsIn(b, y, e)
  {
    AppendSplits(x, y);
    SeqIsAt(a, b, x, y, x + y, e);
    SeqIsAt(a, b, x, y, x + y, IDENTITY);
  }

  lemma SeqIsAt(a: Prog, b: Prog, x: bytes, y: bytes, z: bytes, e: Env)
    requires Solid(a) && Solid(b) && Is(a, x) && Is(b, y) && x <= z && z[|x|..] == y
    ensures Parse(Seq(a, b), z, e)
         == Some(Join(Parsed(|x|, Rewrite(a, x, e), FitsIn(a, x, e)), Parsed(|y|, Rewrite(b, y, e), FitsIn(b, y, e))))
  {
    IsParses(a, x, z, e);
    IsParses(b, y, y, e);
    SeqStep(a, b, z, e, Parsed(|x|, Rewrite(a, x, e), FitsIn(a, x, e)),
            Parsed(|y|, Rewrite(b, y, e), FitsIn(b, y, e)));
  }

  lemma AppendSplits(x: bytes, y: bytes)
    ensures x <= x + y && (x + y)[..|x|] == x && (x + y)[|x|..] == y
  {
  }

  lemma SeqStep(a: Prog, b: Prog, s: bytes, e: Env, u: Parsed, v: Parsed)
    requires Parse(a, s, e) == Some(u) && Parse(b, s[u.size..], e) == Some(v)
    ensures Parse(Seq(a, b), s, e) == Some(Join(u, v))
  {
  }

  lemma SeqSplits(a: Prog, b: Prog, s: bytes, e: Env)
    requires Parse(Seq(a, b), s, e).Some?
    ensures Parse(a, s, e).Some?
    ensures Parse(b, s[Parse(a, s, e).value.size..], e).Some?
    ensures Parse(Seq(a, b), s, e)
         == Some(Join(Parse(a, s, e).value, Parse(b, s[Parse(a, s, e).value.size..], e).value))
  {
  }

  /** A slice of each, one after the other. */
  lemma TakeTwo(a: Prog, b: Prog, s: bytes)
    requires Take(a, s).Some? && Take(b, Take(a, s).value.rest).Some?
    ensures var x, y := Take(a, s).value, Take(b, Take(a, s).value.rest).value;
            Take(Seq(a, b), s) == Some(Cut(x.slice + y.slice, y.rest))
  {
    var u := Parse(a, s, IDENTITY).value;
    TakeJoins(a, b, s, u, Parse(b, s[u.size..], IDENTITY).value);
  }

  lemma TakeJoins(a: Prog, b: Prog, s: bytes, u: Parsed, v: Parsed)
    requires Parse(a, s, IDENTITY) == Some(u) && Parse(b, s[u.size..], IDENTITY) == Some(v)
    ensures Take(Seq(a, b), s) == Some(Cut(s[..u.size] + s[u.size..][..v.size], s[u.size..][v.size..]))
  {
    SeqStep(a, b, s, IDENTITY, u, v);
    SliceJoin(s, u.size, v.size);
    DropTwice(s, u.size, v.size);
  }

  lemma DropTwice(s: bytes, n: nat, m: nat)
    requires n + m <= |s|
    ensures s[n..][m..] == s[n + m..]
  {
  }

  lemma SeqCuts(a: Prog, b: Prog, z: bytes)
    requires Solid(a) && Solid(b) && Is(Seq(a, b), z)
    ensures Take(a, z).Some?
    ensures Is(a, Take(a, z).value.slice) && Is(b, Take(a, z).value.rest)
  {
    SeqSplits(a, b, z, IDENTITY);
    TakeCuts(a, z);
  }

  /** The count that opens a repetition, and its elements. */
  function Count(z: bytes): bytes {
    match ReadNumber(z)
    case None => []
    case Some(r) => z[..r.size]
  }

  function Elements(item: Prog, z: bytes): seq<bytes> {
    match ReadNumber(z)
    case None => []
    case Some(r) => Pieces(item, r.value, z[r.size..])
  }

  lemma ManyCuts(item: Prog, z: bytes)
    requires Element(item) && Is(Many(item), z)
    ensures var c, xs := Count(z), Elements(item, z);
            && z == c + Flat(xs) && AllAre(item, xs)
            && ReadNumber(c) == Some(Read(|xs|, |c|)) == ReadNumber(z) && |xs| <= MAX_FRAME
  {
    ManySplits(item, z, IDENTITY);
    var r := ReadNumber(z).value;
    var xs := z[r.size..];
    PiecesCut(item, r.value, xs);
    SplitsAt(z, r.size);
    SplitsAt(xs, |xs|);
    PrefixNumber(z, z[..r.size]);
  }

  lemma SplitsAt(z: bytes, n: nat)
    requires n <= |z|
    ensures z == z[..n] + z[n..] && |z[..n]| == n && |z[n..]| == |z| - n
    ensures n == |z| ==> z[..n] == z
  {
  }

  lemma ManySplits(item: Prog, z: bytes, e: Env)
    requires Parse(Many(item), z, e).Some?
    ensures ReadNumber(z).Some? && ReadNumber(z).value.value <= MAX_FRAME
    ensures var r := ReadNumber(z).value;
            Repeat(item, r.value, z[r.size..], e).Some?
            && Parse(Many(item), z, e).value.size == r.size + Repeat(item, r.value, z[r.size..], e).value.size
  {
  }
}
