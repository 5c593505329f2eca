/** Bee's own reader and writer of the endpoint codec. It writes numbers in fewer forms than Hive does and
    reads all of them; the two read each other's frames. */
module SizingWire {
  import opened Wire

  /** The encoding of a number: one byte, or the longest form. */
  function WireNumber(v: nat): (b: bytes)
    ensures |b| == 1 || |b| == 9
  {
    if v < 251 then [v] else [253] + LittleEndian(v, 8)
  }

  function WireText(s: bytes): bytes {
    WireNumber(|s|) + s
  }

  function WireControl(kind: bytes, data: bytes): bytes {
    [20] + WireText(kind) + WireText(data)
  }

  /** A text as Bee reads it: as long as it says, if there is as much. */
  function ReadLongText(s: bytes): (r: Option<Read<bytes>>) {
    var n :- ReadNumber(s);
    if n.value > |s| - n.size then None else Some(Read(s[n.size..n.size + n.value], n.size + n.value))
  }

  /** A control message, read by texts as `text` reads them. */
  function ReadControlBy(text: bytes -> Option<Read<bytes>>, s: bytes): Option<(bytes, bytes)> {
    var tag :- ReadNumber(s);
    if tag.value != 20 || tag.size > |s| then None
    else
      var kind :- text(s[tag.size..]);
      if kind.size > |s| - tag.size then None
      else
        var data :- text(s[tag.size + kind.size..]);
        if tag.size + kind.size + data.size == |s| then Some((kind.value, data.value)) else None
  }

  /** Reading what Bee wrote, by Hive's reader or Bee's, whatever follows. */
  lemma {:induction false} WireNumberRoundTrip(v: nat, t: bytes)
    requires v < UINT64
    ensures ReadNumber(WireNumber(v) + t) == Some(Read(v, |WireNumber(v)|))
  {
    Powers();
    if v >= 251 {
      var s := WireNumber(v) + t;
      assert s[0] == 253 && s[1..9] == LittleEndian(v, 8);
      LittleEndianInverse(v, 8);
    }
  }

  lemma {:induction false} WireTextRoundTrip(s: bytes, t: bytes)
    requires |s| <= MAX_FRAME
    ensures ReadText(WireText(s) + t) == Some(Read(s, |WireText(s)|))
    ensures ReadLongText(WireText(s) + t) == Some(Read(s, |WireText(s)|))
  {
    var z := WireText(s) + t;
    assert z == WireNumber(|s|) + (s + t);
    WireNumberRoundTrip(|s|, s + t);
    var n := |WireNumber(|s|)|;
    assert z[n..n + |s|] == s;
  }

  lemma ControlParts(text: bytes -> Option<Read<bytes>>, a: bytes, b: bytes, kind: bytes, data: bytes)
    requires text(a + b) == Some(Read(kind, |a|)) && text(b) == Some(Read(data, |b|))
    ensures ReadControlBy(text, [20] + a + b) == Some((kind, data))
  {
    var z := [20] + a + b;
    assert z[0] == 20 && z[1..] == a + b && z[1 + |a|..] == b;
  }

  /** A control message that Bee wrote is read by Hive, and by Bee, as what it says. */
  lemma {:induction false} WireControlRoundTrip(kind: bytes, data: bytes)
    requires |kind| <= MAX_FRAME && |data| <= MAX_FRAME
    ensures ReadControlBy(ReadText, WireControl(kind, data)) == Some((kind, data))
    ensures ReadControlBy(ReadLongText, WireControl(kind, data)) == Some((kind, data))
  {
    WireTextRoundTrip(kind, WireText(data));
    WireTextRoundTrip(data, []);
    assert WireText(data) + [] == WireText(data);
    ControlParts(ReadText, WireText(kind), WireText(data), kind, data);
    ControlParts(ReadLongText, WireText(kind), WireText(data), kind, data);
  }

  lemma LongTextRoundTrip(s: bytes, t: bytes)
    requires |s| <= MAX_FRAME
    ensures ReadLongText(Text(s) + t) == Some(Read(s, |Text(s)|))
  {
    TextRoundTrip(s, t);
    ReadersAgree(Text(s) + t);
  }

  /** A control message that Hive wrote is read by Bee as what it says. */
  lemma {:induction false} ControlRoundTrip(kind: bytes, data: bytes)
    requires |kind| <= MAX_FRAME && |data| <= MAX_FRAME
    ensures ReadControlBy(ReadLongText, [20] + Text(kind) + Text(data)) == Some((kind, data))
  {
    LongTextRoundTrip(kind, Text(data));
    LongTextRoundTrip(data, []);
    assert Text(data) + [] == Text(data);
    ControlParts(ReadLongText, Text(kind), Text(data), kind, data);
  }

  /** The two readers differ on exactly the texts that are longer than a frame of Hive's. */
  lemma ReadersAgree(s: bytes)
    ensures ReadText(s) == ReadLongText(s) <==> !(ReadLongText(s).Some? && |ReadLongText(s).value.value| > MAX_FRAME)
  {
  }

  /** A reader that consumes its data in place. The first failure is kept, and what fails consumes
      nothing. */
  class WireDecoder {
    var data: bytes
    var err: bool

    constructor (b: bytes)
      ensures data == b && !err
    {
      data, err := b, false;
    }

    method Take(n: nat) returns (b: bytes)
      modifies this
      ensures n <= |old(data)| ==> b == old(data)[..n] && data == old(data)[n..] && err == old(err)
      ensures n > |old(data)| ==> b == [] && data == old(data) && err
    {
      if n > |data| {
        err := true;
        return [];
      }
      b := data[..n];
      data := data[n..];
    }

    /** Reads a number, exactly as Hive's reader does. */
    method Number() returns (v: nat)
      modifies this
      ensures match ReadNumber(old(data))
              case None => err && v == 0
              case Some(n) => v == n.value && data == old(data)[n.size..] && err == old(err)
      ensures err == old(err) ==> |data| <= |old(data)|
      ensures !err ==> Spells(old(data), v, |old(data)| - |data|)
      ensures err && !old(err) ==> forall x, n :: !Spells(old(data), x, n)
    {
      ghost var all := data;
      forall x, n {
        ReadBySpelling(all, x, n);
      }
      var b := Take(1);
      if |b| == 0 {
        return 0;
      }
      if b[0] == 254 || b[0] == 255 {
        err := true;
        return 0;
      }
      if b[0] < 251 {
        return b[0];
      }
      var k := if b[0] == 251 then 2 else if b[0] == 252 then 4 else 8;
      ghost var rest := data;
      var c := Take(k);
      if |c| != k {
        return 0;
      }
      assert old(data)[1..1 + k] == rest[..k] && rest[k..] == old(data)[1 + k..];
      v := FromLittleEndian(c);
    }

    method ReadText() returns (s: bytes)
      requires !err
      modifies this
      ensures match ReadLongText(old(data))
              case None => err
              case Some(t) => !err && s == t.value && data == old(data)[t.size..]
    {
      ghost var start := data;
      var n := Number();
      if err {
        return [];
      }
      ghost var size := ReadNumber(start).value.size;
      s := Take(n);
      if !err {
        assert start[size..][..n] == start[size..size + n] && start[size..][n..] == start[size + n..];
      }
    }
  }
}
