/** Base64 (section 4 of RFC 4648) over code units, decoded as `atob` decodes padded text. */
module Base64 {
  import opened Text

  const PAD: Unit := 61

  predicate IsDigit(u: Unit) {
    65 <= u <= 90 || 97 <= u <= 122 || 48 <= u <= 57 || u == 43 || u == 47
  }

  function Digit(u: Unit): (d: nat)
    ensures d < 64
  {
    if 65 <= u <= 90 then u - 65
    else if 97 <= u <= 122 then u - 71
    else if 48 <= u <= 57 then u + 4
    else if u == 43 then 62
    else if u == 47 then 63
    else 0
  }

  function Letter(d: nat): (u: Unit)
    requires d < 64
    ensures IsDigit(u) && Digit(u) == d
  {
    if d < 26 then d + 65 else if d < 52 then d + 71 else if d < 62 then d - 4 else if d == 62 then 43 else 47
  }

  /** The padding at the end: at most two signs count. */
  function Pads(t: Text): nat {
    if |t| >= 2 && t[|t| - 2] == PAD && t[|t| - 1] == PAD then 2
    else if |t| >= 1 && t[|t| - 1] == PAD then 1
    else 0
  }

  /** Whole groups of four, digits up to the padding. */
  predicate Padded(t: Text) {
    |t| % 4 == 0 && forall i :: 0 <= i < |t| - Pads(t) ==> IsDigit(t[i])
  }

  function Triple(a: Unit, b: Unit, c: Unit, d: Unit): (bytes: Bytes)
    ensures |bytes| == 3
  {
    [Digit(a) * 4 + Digit(b) / 16, Digit(b) % 16 * 16 + Digit(c) / 4, Digit(c) % 4 * 64 + Digit(d)]
  }

  function Decode(t: Text): Bytes
    requires |t| % 4 == 0
  {
    if t == [] then []
    else
      var head := Triple(t[0], t[1], t[2], t[3]);
      if |t| == 4 then head[..3 - Pads(t)] else head + Decode(t[4..])
  }

  function Quad(a: Byte, b: Byte, c: Byte): Text {
    [Letter(a / 4), Letter(a % 4 * 16 + b / 16), Letter(b % 16 * 4 + c / 64), Letter(c % 64)]
  }

  function Encode(bytes: Bytes): Text {
    if bytes == [] then []
    else if |bytes| == 1 then Quad(bytes[0], 0, 0)[..2] + [PAD, PAD]
    else if |bytes| == 2 then Quad(bytes[0], bytes[1], 0)[..3] + [PAD]
    else Quad(bytes[0], bytes[1], bytes[2]) + Encode(bytes[3..])
  }

  lemma {:induction false} DecodeLength(t: Text)
    requires Padded(t)
    ensures |Decode(t)| == |t| / 4 * 3 - Pads(t)
  {
    if |t| > 4 {
      PadsOfTail(t);
      DecodeLength(t[4..]);
    }
  }

  lemma PadsOfTail(t: Text)
    requires Padded(t) && |t| > 4
    ensures Pads(t[4..]) == Pads(t) && Padded(t[4..])
  {
    assert forall i :: 0 <= i < |t| - 4 ==> t[4..][i] == t[i + 4];
  }

  /** Unpadded text may stand in front of any other: decoding goes through. */
  lemma {:induction false} DecodeJoins(a: Text, b: Text)
    requires Padded(a) && Padded(b) && Pads(a) == 0
    ensures Padded(a + b) && Decode(a + b) == Decode(a) + Decode(b)
    ensures b != [] ==> Pads(a + b) == Pads(b)
  {
    hide Padded, Pads, Triple, Decode;
    Whole(a);
    Whole(b);
    EmptyTrip();
    if a == [] {
      assert a + b == b && [] + Decode(b) == Decode(b);
    } else if b == [] {
      assert a + b == a && Decode(a) + [] == Decode(a);
    } else {
      JoinPadded(a, b);
      Whole(a + b);
      FirstGroup(a, b);
      DecodeStep(a + b);
      if |a| > 4 {
        PadsOfTail(a);
        DecodeStep(a);
        DecodeJoins(a[4..], b);
      } else {
        DecodeFour(a);
      }
    }
  }

  lemma FirstGroup(a: Text, b: Text)
    requires |a| >= 4
    ensures (a + b)[4..] == a[4..] + b && (|a| == 4 ==> (a + b)[4..] == b)
    ensures forall i :: 0 <= i < 4 ==> (a + b)[i] == a[i]
  {
  }

  lemma DecodeStep(t: Text)
    requires |t| % 4 == 0 && |t| > 4
    ensures Decode(t) == Triple(t[0], t[1], t[2], t[3]) + Decode(t[4..])
  {
    hide Triple;
  }

  lemma DecodeFour(t: Text)
    requires |t| == 4 && Pads(t) == 0
    ensures Decode(t) == Triple(t[0], t[1], t[2], t[3])
  {
    hide Triple;
    var head := Triple(t[0], t[1], t[2], t[3]);
    assert head[..3] == head;
  }

  lemma Whole(t: Text)
    requires Padded(t)
    ensures |t| % 4 == 0
  {
  }

  lemma JoinPadded(a: Text, b: Text)
    requires Padded(a) && Padded(b) && Pads(a) == 0 && b != []
    ensures Padded(a + b) && Pads(a + b) == Pads(b)
  {
    hide IsDigit;
    var joined := a + b;
    assert |b| >= 4;
    assert joined[|joined| - 1] == b[|b| - 1] && joined[|joined| - 2] == b[|b| - 2];
    forall i | 0 <= i < |joined| - Pads(joined)
      ensures IsDigit(joined[i])
    {
      if i < |a| {
        assert IsDigit(a[i]);
      } else {
        assert IsDigit(b[i - |a|]);
      }
    }
  }

  lemma Sextets(a: Byte, b: Byte, c: Byte)
    ensures a / 4 * 4 + (a % 4 * 16 + b / 16) / 16 == a
    ensures (a % 4 * 16 + b / 16) % 16 * 16 + (b % 16 * 4 + c / 64) / 4 == b
    ensures (b % 16 * 4 + c / 64) % 4 * 64 + c % 64 == c
  {
  }

  lemma QuadTriple(a: Byte, b: Byte, c: Byte)
    ensures var q := Quad(a, b, c); Triple(q[0], q[1], q[2], q[3]) == [a, b, c]
    ensures forall i :: 0 <= i < 4 ==> IsDigit(Quad(a, b, c)[i]) && Quad(a, b, c)[i] != PAD
  {
    hide Letter, Digit, IsDigit;
    Sextets(a, b, c);
    var v, w, x, y := a / 4, a % 4 * 16 + b / 16, b % 16 * 4 + c / 64, c % 64;
    assert v < 64 && w < 64 && x < 64 && y < 64;
    NoPad(Letter(v));
    NoPad(Letter(w));
    NoPad(Letter(x));
    NoPad(Letter(y));
    assert Quad(a, b, c) == [Letter(v), Letter(w), Letter(x), Letter(y)];
  }

  lemma NoPad(u: Unit)
    ensures IsDigit(u) ==> u != PAD
    ensures Digit(PAD) == 0 && !IsDigit(PAD)
  {
  }

  /** An incomplete last triple is padded and comes back. */
  lemma TailTrip(bytes: Bytes)
    requires 0 < |bytes| < 3
    ensures var t := Encode(bytes); |t| == 4 && Padded(t) && Pads(t) == 3 - |bytes| && Decode(t) == bytes
  {
    var b := if |bytes| == 2 then bytes[1] else 0;
    QuadTriple(bytes[0], b, 0);
    NoPad(PAD);
    var q := Quad(bytes[0], b, 0);
    assert |bytes| == 1 ==> Digit(q[2]) == 0 by { assert |bytes| == 1 ==> q[2] == Letter(0); }
    assert Digit(q[3]) == 0 by { assert q[3] == Letter(0); }
    hide Quad, Digit, IsDigit;
    assert bytes == [bytes[0], b, 0][..|bytes|];
  }

  lemma HeadTrip(a: Byte, b: Byte, c: Byte)
    ensures var t := Quad(a, b, c); |t| == 4 && Padded(t) && Pads(t) == 0 && Decode(t) == [a, b, c]
  {
    QuadTriple(a, b, c);
    hide Digit, IsDigit;
    var t := Quad(a, b, c);
    assert Triple(t[0], t[1], t[2], t[3])[..3] == [a, b, c];
  }

  /** Decoding gives back what was encoded, and encoding pads exactly the last incomplete triple. */
  lemma {:induction false} RoundTrip(bytes: Bytes)
    ensures Padded(Encode(bytes)) && Decode(Encode(bytes)) == bytes
    ensures Pads(Encode(bytes)) == 0 <==> |bytes| % 3 == 0
    ensures |Encode(bytes)| == (|bytes| + 2) / 3 * 4
  {
    hide Quad, Padded, Pads, Decode;
    if |bytes| >= 3 {
      RoundTrip(bytes[3..]);
      HeadTrip(bytes[0], bytes[1], bytes[2]);
      var head, tail := Quad(bytes[0], bytes[1], bytes[2]), Encode(bytes[3..]);
      DecodeJoins(head, tail);
      assert bytes == [bytes[0], bytes[1], bytes[2]] + bytes[3..];
      if tail == [] {
        assert head + tail == head;
      }
    } else if bytes != [] {
      TailTrip(bytes);
    } else {
      EmptyTrip();
    }
  }

  lemma EmptyTrip()
    ensures Padded([]) && Pads([]) == 0 && Decode([]) == []
  {
  }

  lemma {:induction false} EncodeJoins(a: Bytes, b: Bytes)
    requires |a| % 3 == 0
    ensures Encode(a + b) == Encode(a) + Encode(b)
  {
    hide Quad;
    if a == [] {
      assert a + b == b;
    } else {
      EncodeJoins(a[3..], b);
      assert (a + b)[3..] == a[3..] + b;
      var q := Quad(a[0], a[1], a[2]);
      assert Encode(a) == q + Encode(a[3..]);
      assert Encode(a + b) == q + Encode((a + b)[3..]);
    }
  }
}
