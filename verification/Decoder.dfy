/** The cursor that reads a frame and accumulates its rewritten form. An error is sticky: reading
    goes on, with zeros in place of what is missing, and the caller looks at the flag at the end. */
module Decoding {
  import opened Wire
  import opened Grammar
  import Slices

  class Decoder {
    const b: bytes
    var p: nat
    var out: bytes
    var err: bool

    constructor (b: bytes)
      ensures this.b == b && p == 0 && out == [] && !err
    {
      this.b := b;
      p, out, err := 0, [], false;
    }

    ghost predicate Valid()
      reads this
    {
      p <= |b|
    }

    /** Since it stood at `p0` with output `out0`, the cursor has read exactly `r`. Once the flag is
        up, whether from before or not, nothing but the flag is to be relied on. */
    ghost predicate Did(r: Option<Parsed>, p0: nat, out0: bytes, err0: bool)
      reads this
    {
      && Valid()
      && (err <==> err0 || r.None?)
      && (!err ==> p == p0 + r.value.size && out == out0 + r.value.out)
    }

    method Raw(n: nat) returns (v: bytes)
      requires Valid()
      modifies this`p, this`out, this`err
      ensures Did(Parse(Prog.Raw(n), b[old(p)..], IDENTITY), old(p), old(out), old(err))
      ensures n <= |b| - old(p) ==> v == b[old(p)..][..n]
      ensures n > |b| - old(p) ==> v == []
      ensures old(out) <= out
    {
      if n > |b| - p {
        err := true;
        return [];
      }
      v := b[p..p + n];
      assert b[p..][..n] == v;
      p := p + n;
      out := out + v;
    }

    method Number() returns (v: nat)
      requires Valid()
      modifies this`p, this`out, this`err
      ensures Did(Parse(Num, b[old(p)..], IDENTITY), old(p), old(out), old(err))
      ensures !err ==> v == ReadNumber(b[old(p)..]).value.value
      ensures !err ==> Spells(b[old(p)..], v, p - old(p))
      ensures v < UINT64
      ensures old(out) <= out
    {
      ghost var s := b[p..];
      var first := Raw(1);
      if |first| == 0 {
        return 0;
      }
      assert first == [s[0]] == s[..1];
      var k := 0;
      if first[0] == 251 {
        k := 2;
      } else if first[0] == 252 {
        k := 4;
      } else if first[0] == 253 {
        k := 8;
      } else if first[0] >= 254 {
        err := true;
        return 0;
      } else {
        return first[0];
      }
      v := Wide(s, first, k);
      assert !err ==> s[..1] + s[1..1 + k] == s[..1 + k];
    }

    /** The bytes that follow the mark `first`, once that was read off `s`. */
    method Wide(ghost s: bytes, first: bytes, k: nat) returns (v: nat)
      requires Valid() && s != [] && first == s[..1] && k in {2, 4, 8} && Trailing(s[0]) == Some(k)
      requires !err ==> b[p..] == s[1..]
      modifies this`p, this`out, this`err
      ensures Valid() && (err <==> old(err) || ReadNumber(s).None?)
      ensures !err ==> ReadNumber(s) == Some(Read(v, 1 + k)) && Spells(s, v, 1 + k)
      ensures !err ==> p == old(p) + k && out == old(out) + s[1..1 + k]
      ensures old(out) <= out && v < UINT64
    {
      var rest := Raw(k);
      if |rest| != k {
        return 0;
      }
      v := FromLittleEndian(rest);
      FromLittleEndianBound(rest);
      Powers();
      if !err {
        NumberInParts(s, first, rest);
      }
    }

    /** A number that is to be compared with the limits on lengths. */
    method Length() returns (n: nat)
      requires Valid()
      modifies this`p, this`out, this`err
      ensures Did(Parse(Num, b[old(p)..], IDENTITY), old(p), old(out), old(err))
      ensures !err ==> n == ReadNumber(b[old(p)..]).value.value
      ensures old(out) <= out
    {
      n := Number();
    }

    static lemma NumberInParts(s: bytes, first: bytes, rest: bytes)
      requires 1 + |rest| <= |s| && first == s[..1] && rest == s[1..][..|rest|]
      requires rest != [] && Trailing(s[0]) == Some(|rest|)
      ensures ReadNumber(s) == Some(Read(FromLittleEndian(rest), 1 + |rest|))
      ensures Spells(s, FromLittleEndian(rest), 1 + |rest|)
    {
      assert s[1..][..|rest|] == s[1..1 + |rest|];
      ReadBySpelling(s, FromLittleEndian(rest), 1 + |rest|);
    }

    method Numbers(k: nat)
      requires Valid()
      modifies this`p, this`out, this`err
      ensures Did(Parse(Nums(k), b[old(p)..], IDENTITY), old(p), old(out), old(err))
      ensures old(out) <= out
    {
      ghost var p0, out0, err0 := p, out, err;
      ghost var whole := Atom(Nums(k), b[p..], IDENTITY);
      for i := 0 to k
        invariant Valid() && out0 <= out
        invariant err && !err0 ==> whole.None?
        invariant err0 ==> err
        invariant !err ==> p0 <= p && Progress(whole, Atom(Nums(k - i), b[p..], IDENTITY), p - p0, out0, out)
      {
        NextNumber(k - i, whole, p - p0, out0);
      }
      if !err {
        assert out + [] == out;
      }
    }

    /** One of `k` numbers that are left of the `whole`. */
    method NextNumber(k: nat, ghost whole: Option<Parsed>, ghost size: int, ghost out1: bytes)
      requires Valid() && k > 0
      requires !err ==> size >= 0 && Progress(whole, Atom(Nums(k), b[p..], IDENTITY), size, out1, out)
      modifies this`p, this`out, this`err
      ensures Valid() && old(out) <= out && (old(err) ==> err)
      ensures err && !old(err) ==> whole.None?
      ensures !err ==> p >= old(p)
      ensures !err ==> Progress(whole, Atom(Nums(k - 1), b[p..], IDENTITY), size + (p - old(p)), out1, out)
    {
      ghost var here, now := b[p..], p;
      if !err {
        AdvanceNumbers(whole, k, here, size, out1, out);
      }
      var _ := Number();
      if !err {
        assert b[p..] == here[p - now..];
      }
    }

    static lemma AdvanceNumbers(whole: Option<Parsed>, k: nat, s: bytes, size: nat, out1: bytes, out: bytes)
      requires k > 0 && Progress(whole, Atom(Nums(k), s, IDENTITY), size, out1, out)
      ensures var x := Parse(Num, s, IDENTITY);
              if x.None? then whole.None?
              else Progress(whole, Atom(Nums(k - 1), s[x.value.size..], IDENTITY), size + x.value.size, out1,
                            out + x.value.out)
    {
      var x := Parse(Num, s, IDENTITY);
      if x.Some? {
        var n := x.value.size;
        var m := NumbersSize(k - 1, s[n..]);
        if m.Some? {
          SliceJoin(s, n, m.value);
          Associates(out, s[..n], s[n..][..m.value]);
        }
      }
    }

    method ReadString() returns (t: bytes)
      requires Valid()
      modifies this`p, this`out, this`err
      ensures Did(Parse(Txt, b[old(p)..], IDENTITY), old(p), old(out), old(err))
      ensures !err ==> t == ReadText(b[old(p)..]).value.value
      ensures old(out) <= out
    {
      ghost var s, out0 := b[p..], out;
      var n := Length();
      if n > MAX_FRAME {
        err := true;
        return [];
      }
      ghost var k := p - old(p);
      ghost var good := !err;
      assert good ==> b[p..] == s[k..] && out == out0 + s[..k];
      t := Raw(n);
      if good && !err {
        SliceJoin(s, k, n);
        assert s[k..k + n] == s[k..][..n];
      }
    }

    /** Reads a text and puts another in its place. */
    method ReplaceText(p0: Prog, e: Env)
      requires Valid() && (p0.Id? || p0.Boot?)
      modifies this`p, this`out, this`err
      ensures Did(Parse(p0, b[old(p)..], e), old(p), old(out), old(err))
      ensures old(out) <= out
    {
      var start := |out|;
      var s := ReadString();
      out := out[..start] + Text(if p0.Id? then e.id(s) else e.boot);
    }

    /** Reads a number and puts another in its place. */
    method ReplaceNumber(v: nat) returns (was: nat)
      requires Valid()
      modifies this`p, this`out, this`err
      ensures Did(Parse(Revision, b[old(p)..], Env([], v, x => x)), old(p), old(out), old(err))
      ensures !err ==> was == ReadNumber(b[old(p)..]).value.value
      ensures old(out) <= out
    {
      var start := |out|;
      was := Number();
      out := out[..start] + Wire.Number(v);
    }

    /** Runs a layout. The reader of a repeated or optional part is the layout inside it. */
    method Run(q: Prog, e: Env)
      requires Valid()
      modifies this`p, this`out, this`err
      ensures Did(Parse(q, b[old(p)..], e), old(p), old(out), old(err))
      ensures old(out) <= out
      decreases q, 1
    {
      match q {
        case Seq(first, second) => RunSeq(q, e);
        case Many(item) => RunMany(item, e);
        case Optional(item) => RunOptional(item, e);
        case Case(_, _, _, _, _) => RunCase(q, e);
        case _ => RunAtom(q, e);
      }
    }

    /** Runs what has no parts. */
    method RunAtom(q: Prog, e: Env)
      requires Valid() && !q.Seq? && !q.Many? && !q.Optional? && !q.Case?
      modifies this`p, this`out, this`err
      ensures Did(Atom(q, b[old(p)..], e), old(p), old(out), old(err))
      ensures old(out) <= out
    {
      match q {
        case Empty =>
        case Fail => err := true;
        case Num => var _ := Number();
        case Nums(k) => Numbers(k);
        case Enum(max) =>
          var v := Number();
          if v > max { err := true; }
        case Raw(n) => var _ := Raw(n);
        case Txt => var _ := ReadString();
        case Id => ReplaceText(q, e);
        case Boot => ReplaceText(q, e);
        case Revision => var _ := ReplaceNumber(e.revision);
      }
    }

    /** Runs two, one after the other. */
    method RunSeq(q: Prog, e: Env)
      requires Valid() && q.Seq?
      modifies this`p, this`out, this`err
      ensures Did(Parse(q, b[old(p)..], e), old(p), old(out), old(err))
      ensures old(out) <= out
      decreases q, 0
    {
      Run(q.first, e);
      ghost var s, n := b[old(p)..], p - old(p);
      assert !err ==> b[p..] == s[n..];
      Run(q.second, e);
    }

    method RunCase(q: Prog, e: Env)
      requires Valid() && q.Case?
      modifies this`p, this`out, this`err
      ensures Did(Chosen(q, b[old(p)..], e), old(p), old(out), old(err))
      ensures old(out) <= out
      decreases q, 0
    {
      ghost var s := b[p..];
      var v := Number();
      ghost var n := p - old(p);
      assert !err ==> b[p..] == s[n..];
      Run(Pick(q, v), e);
    }

    method RunOptional(item: Prog, e: Env)
      requires Valid()
      modifies this`p, this`out, this`err
      ensures Did(Flagged(item, b[old(p)..], e), old(p), old(out), old(err))
      ensures old(out) <= out
      decreases item, 2
    {
      ghost var s, out0 := b[p..], out;
      var v := Raw(1);
      if |v| == 0 {
        return;
      }
      assert v == [s[0]] == s[..1];
      if v[0] == 1 {
        assert !err ==> b[p..] == s[1..];
        Run(item, e);
        if !err {
          FlaggedStep(item, s, e, Parse(item, s[1..], e).value);
          Associates(out0, s[..1], Parse(item, s[1..], e).value.out);
        }
      } else if v[0] != 0 {
        err := true;
      }
    }

    static lemma FlaggedStep(item: Prog, s: bytes, e: Env, x: Parsed)
      requires s != [] && s[0] == 1 && Parse(item, s[1..], e) == Some(x)
      ensures Flagged(item, s, e) == Some(Join(Copy(s, 1), x))
    {
    }

    method RunMany(item: Prog, e: Env)
      requires Valid()
      modifies this`p, this`out, this`err
      ensures Did(Counted(item, b[old(p)..], e), old(p), old(out), old(err))
      ensures old(out) <= out
      decreases item, 4
    {
      ghost var s, out0, p0 := b[p..], out, p;
      var n := Length();
      if n > MAX_FRAME || n > |b| - p {
        err := true;
        return;
      }
      if err {
        return;
      }
      ghost var k := p - p0;
      assert b[p..] == s[k..] && ReadNumber(s) == Some(Read(n, k)) && out == out0 + s[..k];
      Elements(item, n, e);
      if !err {
        ghost var rest := Repeat(item, n, s[k..], e).value;
        Associates(out0, s[..k], rest.out);
      }
    }

    method Elements(item: Prog, n: nat, e: Env)
      requires Valid() && !err
      modifies this`p, this`out, this`err
      ensures Did(Repeat(item, n, b[old(p)..], e), old(p), old(out), false)
      ensures old(out) <= out
      decreases item, 3
    {
      ghost var p0, out0 := p, out;
      ghost var whole := Repeat(item, n, b[p..], e);
      var i := 0;
      while i < n && !err
        invariant i <= n && Valid()
        invariant out0 <= out
        invariant err ==> whole.None?
        invariant !err ==> p0 <= p && Progress(whole, Repeat(item, n - i, b[p..], e), p - p0, out0, out)
        decreases n - i
      {
        Element(item, n - i, e, whole, p - p0, out0);
        i := i + 1;
      }
      if !err {
        assert out + [] == out;
      }
    }

    /** One of `k` elements that are left of the `whole`. */
    method Element(item: Prog, k: nat, e: Env, ghost whole: Option<Parsed>, ghost size: nat, ghost out1: bytes)
      requires Valid() && !err && k > 0 && Progress(whole, Repeat(item, k, b[p..], e), size, out1, out)
      modifies this`p, this`out, this`err
      ensures Valid() && old(out) <= out
      ensures err ==> whole.None?
      ensures !err ==> p >= old(p) && Progress(whole, Repeat(item, k - 1, b[p..], e), size + (p - old(p)), out1, out)
      decreases item, 2
    {
      ghost var here, now := b[p..], p;
      Advance(whole, item, k, here, e, size, out1, out);
      Run(item, e);
      if !err {
        assert b[p..] == here[p - now..];
      }
    }

    /** What is left to read, put after what has been read, is the whole. */
    ghost static predicate Progress(whole: Option<Parsed>, left: Option<Parsed>, size: nat, out1: bytes, out: bytes) {
      && (whole.Some? <==> left.Some?)
      && (whole.Some? ==> whole.value.size == size + left.value.size && out1 + whole.value.out == out + left.value.out)
    }

    static lemma Advance(whole: Option<Parsed>, item: Prog, k: nat, s: bytes, e: Env, size: nat, out1: bytes,
                         out: bytes)
      requires k > 0 && Progress(whole, Repeat(item, k, s, e), size, out1, out)
      ensures var x := Parse(item, s, e);
              if x.None? then whole.None?
              else Progress(whole, Repeat(item, k - 1, s[x.value.size..], e), size + x.value.size, out1,
                            out + x.value.out)
    {
      var x := Parse(item, s, e);
      if x.Some? {
        var y := Repeat(item, k - 1, s[x.value.size..], e);
        if y.Some? {
          Associates(out, x.value.out, y.value.out);
        }
      }
    }

    // Cutting ---------------------------------------------------------------------------------------

    /** What is left to read. */
    ghost function Rest(): bytes
      requires Valid()
      reads this
    {
      b[p..]
    }

    /** Cuts off the bytes that a layout occupies. */
    method Cut(q: Prog) returns (slice: bytes)
      requires Valid() && !err
      modifies this`p, this`out, this`err
      ensures Valid() && (!err ==> p >= old(p))
      ensures match Slices.Take(q, old(Rest()))
              case None => err
              case Some(cut) => !err && slice == cut.slice && Rest() == cut.rest
    {
      var start := p;
      Run(q, IDENTITY);
      slice := [];
      if !err {
        slice := b[start..p];
        assert b[start..][..p - start] == slice && b[start..][p - start..] == b[p..];
      }
    }

    /** Cuts off a count and as many slices. */
    method CutMany(item: Prog) returns (xs: seq<bytes>)
      requires Valid() && !err
      modifies this`p, this`out, this`err
      ensures Valid()
      ensures match Slices.Take(Many(item), old(Rest()))
              case None => err
              case Some(cut) => !err && xs == Slices.Elements(item, old(Rest())) && Rest() == cut.rest
    {
      ghost var s := Rest();
      xs := [];
      assert Parse(Many(item), s, IDENTITY) == Counted(item, s, IDENTITY);
      var n := Length();
      if n > MAX_FRAME || n > |b| - p {
        err := true;
        return;
      }
      if err {
        return;
      }
      ghost var k := ReadNumber(s).value.size;
      assert s[k..] == Rest();
      CountedIs(item, s, n, k);
      xs := CutAll(item, n);
    }

    /** Cuts off as many slices. */
    method CutAll(item: Prog, n: nat) returns (xs: seq<bytes>)
      requires Valid() && !err
      modifies this`p, this`out, this`err
      ensures Valid()
      ensures match Repeat(item, n, old(Rest()), IDENTITY)
              case None => err
              case Some(r) => !err && xs == Slices.Pieces(item, n, old(Rest())) && Rest() == old(Rest())[r.size..]
    {
      ghost var s := Rest();
      xs := [];
      var i := 0;
      SlicedStart(item, n, s);
      while i < n && !err
        invariant i <= n && Valid()
        invariant err ==> Repeat(item, n, s, IDENTITY).None?
        invariant !err ==> Sliced(item, n, s, n - i, xs, Rest())
        decreases n - i
      {
        SliceStep(item, n, s, n - i, xs, Rest());
        var x := Cut(item);
        xs := xs + [x];
        i := i + 1;
      }
      if !err {
        SlicedEnd(item, n, s, xs, Rest());
      }
    }

    /** `xs` were cut off `s`, and `k` of `n` slices are left in `rest`. */
    ghost static predicate Sliced(item: Prog, n: nat, s: bytes, k: nat, xs: seq<bytes>, rest: bytes) {
      var whole, left := Repeat(item, n, s, IDENTITY), Repeat(item, k, rest, IDENTITY);
      && xs + Slices.Pieces(item, k, rest) == Slices.Pieces(item, n, s)
      && |rest| <= |s| && rest == s[|s| - |rest|..]
      && (whole.Some? <==> left.Some?)
      && (whole.Some? ==> whole.value.size + |rest| == |s| + left.value.size)
    }

    static lemma SlicedStart(item: Prog, n: nat, s: bytes)
      ensures Sliced(item, n, s, n, [], s)
    {
      assert [] + Slices.Pieces(item, n, s) == Slices.Pieces(item, n, s);
    }

    static lemma SliceStep(item: Prog, n: nat, s: bytes, k: nat, xs: seq<bytes>, rest: bytes)
      requires k > 0 && Sliced(item, n, s, k, xs, rest)
      ensures match Slices.Take(item, rest)
              case None => Repeat(item, n, s, IDENTITY).None?
              case Some(cut) => Sliced(item, n, s, k - 1, xs + [cut.slice], cut.rest)
    {
      PieceStep(item, k, rest);
      var x := Slices.Take(item, rest);
      if x.Some? {
        Slices.TakeWhole(item, rest);
        Slices.Extends(xs, x.value.slice, Slices.Pieces(item, k - 1, x.value.rest));
        Suffix(s, rest, x.value.slice, x.value.rest);
      }
    }

    static lemma Suffix(s: bytes, rest: bytes, x: bytes, y: bytes)
      requires |rest| <= |s| && rest == s[|s| - |rest|..] && rest == x + y
      ensures |y| <= |s| && y == s[|s| - |y|..]
    {
      assert y == rest[|x|..];
    }

    static lemma SlicedEnd(item: Prog, n: nat, s: bytes, xs: seq<bytes>, rest: bytes)
      requires Sliced(item, n, s, 0, xs, rest)
      ensures Repeat(item, n, s, IDENTITY).Some? && xs == Slices.Pieces(item, n, s)
      ensures rest == s[Repeat(item, n, s, IDENTITY).value.size..]
    {
      assert xs + [] == xs;
    }

    /** What is left accounts for the whole, with what was read. */
    ghost static predicate Left(whole: Option<Parsed>, left: Option<Parsed>, size: nat) {
      (whole.Some? <==> left.Some?) && (whole.Some? ==> whole.value.size == size + left.value.size)
    }

    static lemma CountedIs(item: Prog, s: bytes, n: nat, k: nat)
      requires ReadNumber(s) == Some(Read(n, k)) && n <= MAX_FRAME && n <= |s| - k
      ensures var whole := Repeat(item, n, s[k..], IDENTITY);
              && (Slices.Take(Many(item), s).Some? <==> whole.Some?)
              && (whole.Some? ==> Slices.Take(Many(item), s).value.rest == s[k + whole.value.size..])
      ensures Slices.Elements(item, s) == Slices.Pieces(item, n, s[k..])
    {
      assert Parse(Many(item), s, IDENTITY) == Counted(item, s, IDENTITY);
      var whole := Repeat(item, n, s[k..], IDENTITY);
      if whole.Some? {
        Slices.CountedStep(item, s, IDENTITY, n, k, whole.value);
      }
    }

    static lemma PieceStep(item: Prog, k: nat, s: bytes)
      requires k > 0
      ensures var x := Slices.Take(item, s);
              if x.None? then Repeat(item, k, s, IDENTITY).None? && Slices.Pieces(item, k, s) == []
              else
                && Slices.Pieces(item, k, s) == [x.value.slice] + Slices.Pieces(item, k - 1, x.value.rest)
                && Left(Repeat(item, k, s, IDENTITY), Repeat(item, k - 1, x.value.rest, IDENTITY), |x.value.slice|)
    {
    }
  }
}
