/** Bytes and the variable-length integers and texts of the endpoint codec. */
module Wire {
  type byte = x: int | 0 <= x < 0x100
  type bytes = seq<byte>

  const MAX_FRAME: nat := 2097152
  const UINT64: nat := 0x1_0000_0000_0000_0000

  datatype Option<+T> = None | Some(value: T) {
    predicate IsFailure() {
      None?
    }

    function PropagateFailure<U>(): Option<U>
      requires None?
    {
      None
    }

    function Extract(): T
      requires Some?
    {
      value
    }
  }

  /** A decoded value and the number of bytes it occupied. */
  datatype Read<+T> = Read(value: T, size: nat)

  /** The `k` low bytes of `v`, least significant first. */
  function LittleEndian(v: nat, k: nat): (b: bytes)
    ensures |b| == k
  {
    if k == 0 then [] else [v % 0x100] + LittleEndian(v / 0x100, k - 1)
  }

  function FromLittleEndian(b: bytes): nat {
    if b == [] then 0 else b[0] + 0x100 * FromLittleEndian(b[1..])
  }

  function Power256(k: nat): nat {
    if k == 0 then 1 else 0x100 * Power256(k - 1)
  }

  lemma {:induction false} LittleEndianInverse(v: nat, k: nat)
    requires v < Power256(k)
    ensures FromLittleEndian(LittleEndian(v, k)) == v
  {
    if k > 0 {
      LittleEndianInverse(v / 0x100, k - 1);
      assert LittleEndian(v, k)[1..] == LittleEndian(v / 0x100, k - 1);
    }
  }

  lemma {:induction false} FromLittleEndianBound(b: bytes)
    ensures FromLittleEndian(b) < Power256(|b|)
  {
    if b != [] {
      FromLittleEndianBound(b[1..]);
    }
  }

  lemma Powers()
    ensures Power256(2) == 0x1_0000
    ensures Power256(4) == 0x1_0000_0000
    ensures Power256(8) == UINT64
  {
    assert Power256(3) == 0x100 * 0x1_0000 && Power256(5) == 0x100 * 0x1_0000_0000;
    assert Power256(6) == 0x1_0000 * 0x1_0000_0000 && Power256(7) == 0x100_0000 * 0x1_0000_0000;
  }

  /** The canonical encoding of an unsigned integer. */
  function Number(v: nat): (b: bytes)
    ensures 1 <= |b| <= 9
  {
    if v < 251 then [v]
    else if v <= 0xFFFF then [251] + LittleEndian(v, 2)
    else if v <= 0xFFFF_FFFF then [252] + LittleEndian(v, 4)
    else [253] + LittleEndian(v, 8)
  }

  /** How many bytes follow the first byte of a number; the bytes 254 and 255 start none. */
  function Trailing(first: byte): Option<nat> {
    if first < 251 then Some(0)
    else if first == 251 then Some(2)
    else if first == 252 then Some(4)
    else if first == 253 then Some(8)
    else None
  }

  function ReadNumber(s: bytes): (r: Option<Read<nat>>)
    ensures r.Some? ==> 1 <= r.value.size <= |s| && r.value.value < UINT64
  {
    if s == [] then None
    else
      match Trailing(s[0])
      case None => None
      case Some(k) =>
        if k == 0 then Some(Read(s[0], 1))
        else if |s| < 1 + k then None
        else
          FromLittleEndianBound(s[1..1 + k]);
          Powers();
          Some(Read(FromLittleEndian(s[1..1 + k]), 1 + k))
  }

  /** Reading undoes writing, whatever follows. */
  lemma {:induction false} NumberRoundTrip(v: nat, t: bytes)
    requires v < UINT64
    ensures ReadNumber(Number(v) + t) == Some(Read(v, |Number(v)|))
  {
    Powers();
    if v >= 251 {
      var k := if v <= 0xFFFF then 2 else if v <= 0xFFFF_FFFF then 4 else 8;
      LittleEndianInverse(v, k);
      assert (Number(v) + t)[1..1 + k] == LittleEndian(v, k);
    }
  }

  /** Which bytes spell the number `v` in the first `n` bytes of `s`: the byte after the mark weighs 1,
      and each further one 256 times as much as the one before it. */
  predicate Spells(s: bytes, v: nat, n: nat) {
    if s == [] then false
    else if s[0] < 251 then n == 1 && v == s[0]
    else if s[0] == 251 then |s| >= 3 && n == 3 && v == Pair(s[1], s[2])
    else if s[0] == 252 then |s| >= 5 && n == 5 && v == Word(s[1], s[2], s[3], s[4])
    else
      && s[0] == 253 && |s| >= 9 && n == 9
      && v == Word(s[1], s[2], s[3], s[4]) + 0x1_0000_0000 * Word(s[5], s[6], s[7], s[8])
  }

  function Pair(a: nat, b: nat): nat {
    a + 0x100 * b
  }

  function Word(a: nat, b: nat, c: nat, d: nat): nat {
    a + 0x100 * b + 0x1_0000 * c + 0x100_0000 * d
  }

  lemma PairByPositions(b: bytes)
    requires |b| == 2
    ensures FromLittleEndian(b) == Pair(b[0], b[1])
  {
    assert FromLittleEndian(b[1..]) == b[1] + 0x100 * FromLittleEndian(b[1..][1..]) && b[1..][1..] == [];
  }

  lemma WordByPositions(b: bytes)
    requires |b| >= 4
    ensures FromLittleEndian(b) == Word(b[0], b[1], b[2], b[3]) + 0x1_0000_0000 * FromLittleEndian(b[4..])
  {
    assert b[1..][1..] == b[2..] && b[2..][1..] == b[3..] && b[3..][1..] == b[4..];
  }

  /** A number is read exactly as its bytes spell it, and where they spell none, none is read. */
  lemma {:induction false} ReadBySpelling(s: bytes, v: nat, n: nat)
    ensures ReadNumber(s) == Some(Read(v, n)) <==> Spells(s, v, n)
  {
    if s != [] && 251 <= s[0] <= 253 {
      var k := Trailing(s[0]).value;
      if |s| >= 1 + k {
        var b := s[1..1 + k];
        if k == 2 {
          PairByPositions(b);
        } else {
          WordByPositions(b);
          if k == 8 {
            WordByPositions(b[4..]);
            assert b[4..][4..] == [];
          }
        }
      }
    }
  }

  /** The same, form by form, with the bytes written out. */
  lemma {:induction false} ReadByForm(a: bytes, t: bytes)
    requires |a| == 8
    ensures ReadNumber([251, a[0], a[1]] + t) == Some(Read(a[0] + 0x100 * (a[1] as int), 3))
    ensures ReadNumber([252, a[0], a[1], a[2], a[3]] + t)
            == Some(Read(a[0] + 0x100 * (a[1] as int) + 0x1_0000 * (a[2] as int) + 0x100_0000 * (a[3] as int), 5))
    ensures ReadNumber([253] + a + t)
            == Some(Read(a[0] + 0x100 * (a[1] as int) + 0x1_0000 * (a[2] as int) + 0x100_0000 * (a[3] as int)
                         + 0x1_0000_0000 * (a[4] as int) + 0x100_0000_0000 * (a[5] as int)
                         + 0x1_0000_0000_0000 * (a[6] as int) + 0x100_0000_0000_0000 * (a[7] as int), 9))
  {
    ReadBySpelling([251, a[0], a[1]] + t, Pair(a[0], a[1]), 3);
    ReadBySpelling([252, a[0], a[1], a[2], a[3]] + t, Word(a[0], a[1], a[2], a[3]), 5);
    ReadBySpelling([253] + a + t,
                   Word(a[0], a[1], a[2], a[3]) + 0x1_0000_0000 * Word(a[4], a[5], a[6], a[7]), 9);
  }

  /** What is written spells the number, in the shortest form that can: its lowest byte comes right after the
      mark. */
  lemma {:induction false} WrittenSpells(v: nat, t: bytes)
    requires v < UINT64
    ensures Spells(Number(v) + t, v, |Number(v)|)
    ensures forall s, n :: Spells(s, v, n) ==> |Number(v)| <= n
    ensures v >= 251 ==> Number(v)[1] == v % 0x100 && Number(v)[2] == v / 0x100 % 0x100
  {
    NumberRoundTrip(v, t);
    ReadBySpelling(Number(v) + t, v, |Number(v)|);
    if v >= 251 {
      var k := if v <= 0xFFFF then 2 else if v <= 0xFFFF_FFFF then 4 else 8;
      assert LittleEndian(v, k)[1] == LittleEndian(v / 0x100, k - 1)[0];
    }
  }

  function Text(s: bytes): (b: bytes)
    ensures |b| >= 1 + |s|
  {
    Number(|s|) + s
  }

  function ReadText(s: bytes): (r: Option<Read<bytes>>)
    ensures r.Some? ==> 1 <= r.value.size <= |s| && |r.value.value| <= MAX_FRAME
  {
    match ReadNumber(s)
    case None => None
    case Some(Read(n, k)) =>
      if n > MAX_FRAME || n > |s| - k then None
      else Some(Read(s[k..k + n], k + n))
  }

  /** A text is its length and then its bytes, in their order, and no longer than a frame may be: every text that is
      read is spelled so, and every text that is spelled so is read. */
  lemma {:induction false} TextSpelled(s: bytes)
    requires ReadText(s).Some?
    ensures var x, n := ReadText(s).value.value, ReadText(s).value.size;
            |x| <= MAX_FRAME && |x| <= n <= |s| && Spells(s, |x|, n - |x|) && s[n - |x|..n] == x
  {
    var k := ReadNumber(s).value;
    ReadBySpelling(s, k.value, k.size);
  }

  lemma {:induction false} SpelledText(s: bytes, x: bytes, k: nat)
    requires |x| <= MAX_FRAME && k + |x| <= |s| && Spells(s, |x|, k) && s[k..k + |x|] == x
    ensures ReadText(s) == Some(Read(x, k + |x|))
  {
    ReadBySpelling(s, |x|, k);
  }

  lemma {:induction false} TextRoundTrip(x: bytes, t: bytes)
    requires |x| <= MAX_FRAME
    ensures ReadText(Text(x) + t) == Some(Read(x, |Text(x)|))
  {
    NumberRoundTrip(|x|, x + t);
    assert Text(x) + t == Number(|x|) + (x + t);
    assert (Text(x) + t)[|Number(|x|)|..|Text(x)|] == x;
  }
}
