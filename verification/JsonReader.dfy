/**
  A strict reader for the JSON fragment of objects, strings and unsigned integers:
  section 7 of RFC 8259 for strings, section 3 of RFC 3629 for UTF-8. It rejects raw
  controls, unknown escapes, overlong and surrogate UTF-8 forms and leading zeros.
  The writer of `JsonText` is inverted by it.
 */
module JsonReader {
  import opened Text
  import opened JsonText

  datatype Parse<+T> = Fail | Got(value: T, rest: Bytes)

  predicate Continuation(b: Byte) { 0x80 <= b < 0xc0 }

  function HexValue(b: Byte): int {
    if 48 <= b < 58 then b - 48
    else if 97 <= b < 103 then b - 87
    else if 65 <= b < 71 then b - 55
    else -1
  }

  /** The letter of a two-character escape. */
  function Unescape(b: Byte): Option<Unit> {
    match b
    case 34 => Some(34)
    case 92 => Some(92)
    case 47 => Some(47)
    case 98 => Some(8)
    case 102 => Some(12)
    case 110 => Some(10)
    case 114 => Some(13)
    case 116 => Some(9)
    case _ => None
  }

  /** What follows a backslash. */
  function ReadEscape(b: Bytes): (r: Parse<Text>)
    ensures r.Got? ==> |r.rest| < |b|
  {
    if b == [] then Fail
    else if b[0] == 117 then
      if |b| < 5 || HexValue(b[1]) < 0 || HexValue(b[2]) < 0 || HexValue(b[3]) < 0 || HexValue(b[4]) < 0 then Fail
      else Got([HexValue(b[1]) * 0x1000 + HexValue(b[2]) * 0x100 + HexValue(b[3]) * 16 + HexValue(b[4])], b[5..])
    else match Unescape(b[0])
      case Some(unit) => Got([unit], b[1..])
      case None => Fail
  }

  /** One strict multi-byte UTF-8 scalar, as one or two code units. */
  function ReadScalar(b: Bytes): (r: Parse<Text>)
    requires b != []
    ensures r.Got? ==> |r.rest| < |b|
  {
    if 0xc2 <= b[0] < 0xe0 then
      if |b| >= 2 && Continuation(b[1]) then Got([(b[0] as int - 0xc0) * 0x40 + b[1] - 0x80], b[2..]) else Fail
    else if 0xe0 <= b[0] < 0xf0 then
      if |b| >= 3 && Continuation(b[1]) && Continuation(b[2]) then
        var point := (b[0] as int - 0xe0) * 0x1000 + (b[1] as int - 0x80) * 0x40 + b[2] - 0x80;
        if point < 0x800 || 0xd800 <= point < 0xe000 then Fail else Got([point], b[3..])
      else Fail
    else if 0xf0 <= b[0] < 0xf5 then
      if |b| >= 4 && Continuation(b[1]) && Continuation(b[2]) && Continuation(b[3]) then
        var point := (b[0] as int - 0xf0) * 0x40000 + (b[1] as int - 0x80) * 0x1000 + (b[2] as int - 0x80) * 0x40 + b[3] - 0x80;
        if point < 0x10000 || point >= 0x110000 then Fail
        else Got([0xd800 + (point - 0x10000) / 0x400, 0xdc00 + (point - 0x10000) % 0x400], b[4..])
      else Fail
    else Fail
  }

  function ReadHead(b: Bytes): (r: Parse<Text>)
    requires b != []
    ensures r.Got? ==> |r.rest| < |b|
  {
    if b[0] < 32 || b[0] == 34 then Fail
    else if b[0] == 92 then ReadEscape(b[1..])
    else if b[0] < 0x80 then Got([b[0]], b[1..])
    else ReadScalar(b)
  }

  /** String content up to and including the closing quote. */
  function ReadUnits(b: Bytes): (r: Parse<Text>)
    ensures r.Got? ==> |r.rest| < |b|
    decreases |b|
  {
    if b == [] then Fail
    else if b[0] == 34 then Got([], b[1..])
    else match ReadHead(b)
      case Fail => Fail
      case Got(head, rest) =>
        match ReadUnits(rest)
        case Fail => Fail
        case Got(tail, rest') => Got(head + tail, rest')
  }

  function ReadString(b: Bytes): (r: Parse<Text>)
    ensures r.Got? ==> |r.rest| < |b|
  {
    if b == [] || b[0] != 34 then Fail else ReadUnits(b[1..])
  }

  predicate Digit(b: Byte) { 48 <= b < 58 }

  function ReadDigits(sofar: nat, b: Bytes): (r: Parse<nat>)
    ensures r.Got? && |r.rest| <= |b|
    decreases |b|
  {
    if b == [] || !Digit(b[0]) then Got(sofar, b) else ReadDigits(sofar * 10 + b[0] - 48, b[1..])
  }

  /** An unsigned integer: no sign, fraction, exponent or leading zero. */
  function ReadNumber(b: Bytes): (r: Parse<nat>)
    ensures r.Got? ==> |r.rest| < |b|
  {
    if b == [] || !Digit(b[0]) then Fail
    else if b[0] == 48 then if |b| > 1 && Digit(b[1]) then Fail else Got(0, b[1..])
    else ReadDigits(b[0] - 48, b[1..])
  }

  function ReadValue(b: Bytes): (r: Parse<Value>)
    ensures r.Got? ==> |r.rest| < |b|
    decreases |b|, 1
  {
    if b == [] then Fail
    else if b[0] == 34 then match ReadString(b) case Fail => Fail case Got(text, rest) => Got(Str(text), rest)
    else if b[0] == 123 then match ReadObject(b) case Fail => Fail case Got(fields, rest) => Got(Obj(fields), rest)
    else match ReadNumber(b) case Fail => Fail case Got(n, rest) => Got(Num(n), rest)
  }

  function ReadField(b: Bytes): (r: Parse<Field>)
    ensures r.Got? ==> |r.rest| < |b|
    decreases |b|, 2
  {
    match ReadString(b)
    case Fail => Fail
    case Got(key, rest) =>
      if rest == [] || rest[0] != 58 then Fail
      else match ReadValue(rest[1..])
        case Fail => Fail
        case Got(value, rest') => Got(Field(key, value), rest')
  }

  /** After a field: a closing brace, or a comma and another field. */
  function ReadTail(b: Bytes): (r: Parse<Fields>)
    ensures r.Got? ==> |r.rest| < |b|
    decreases |b|, 0
  {
    if b == [] then Fail
    else if b[0] == 125 then Got([], b[1..])
    else if b[0] != 44 then Fail
    else ReadMembers(b[1..])
  }

  function ReadMembers(b: Bytes): (r: Parse<Fields>)
    ensures r.Got? ==> |r.rest| < |b|
    decreases |b|, 3
  {
    match ReadField(b)
    case Fail => Fail
    case Got(field, rest) =>
      match ReadTail(rest)
      case Fail => Fail
      case Got(fields, rest') => Got([field] + fields, rest')
  }

  function ReadObject(b: Bytes): (r: Parse<Fields>)
    ensures r.Got? ==> |r.rest| < |b|
    decreases |b|, 0
  {
    if b == [] || b[0] != 123 then Fail
    else if |b| > 1 && b[1] == 125 then Got([], b[2..])
    else ReadMembers(b[1..])
  }

  // ---- The writer is inverted.

  lemma HexDigitReads(n: nat)
    requires n < 16
    ensures HexValue(HexDigit(n)) == n
  {
  }

  lemma EscapeReads(h0: Byte, h1: Byte, h2: Byte, h3: Byte, rest: Bytes)
    requires HexValue(h0) >= 0 && HexValue(h1) >= 0 && HexValue(h2) >= 0 && HexValue(h3) >= 0
    ensures ReadEscape([117, h0, h1, h2, h3] + rest) ==
      Got([HexValue(h0) * 0x1000 + HexValue(h1) * 0x100 + HexValue(h2) * 16 + HexValue(h3)], rest)
  {
    var b := [117, h0, h1, h2, h3] + rest;
    assert b[5..] == rest;
    assert b[0] == 117 && b[1] == h0 && b[2] == h1 && b[3] == h2 && b[4] == h3;
  }

  lemma Hex4Reads(u: Unit, rest: Bytes)
    ensures ReadEscape([117] + Hex4(u) + rest) == Got([u], rest)
  {
    var d0, d1, d2, d3 := u / 0x1000, u / 0x100 % 16, u / 16 % 16, u % 16;
    HexDigitReads(d0); HexDigitReads(d1); HexDigitReads(d2); HexDigitReads(d3);
    EscapeReads(HexDigit(d0), HexDigit(d1), HexDigit(d2), HexDigit(d3), rest);
    assert [117] + Hex4(u) == [117, HexDigit(d0), HexDigit(d1), HexDigit(d2), HexDigit(d3)];
    HexSum(u);
  }

  lemma HexSum(u: Unit)
    ensures u / 0x1000 * 0x1000 + u / 0x100 % 16 * 0x100 + u / 16 % 16 * 16 + u % 16 == u
  {
    var q, r := u / 16, u / 0x100;
    assert r == q / 16 && u / 0x1000 == r / 16;
    assert u == q * 16 + u % 16;
    assert q == r * 16 + q % 16;
    assert r == r / 16 * 16 + r % 16;
  }

  lemma Utf8Sum3(p: nat)
    ensures p / 0x1000 * 0x1000 + p / 0x40 % 0x40 * 0x40 + p % 0x40 == p
  {
  }

  lemma Utf8Sum4(p: nat)
    ensures p / 0x40000 * 0x40000 + p / 0x1000 % 0x40 * 0x1000 + p / 0x40 % 0x40 * 0x40 + p % 0x40 == p
  {
    var q, r := p / 0x40, p / 0x1000;
    assert r == q / 0x40 && p / 0x40000 == r / 0x40;
    assert p == q * 0x40 + p % 0x40;
    assert q == r * 0x40 + q % 0x40;
    assert r == r / 0x40 * 0x40 + r % 0x40;
  }

  lemma Utf8Reads2(point: nat, rest: Bytes)
    requires 0x80 <= point < 0x800
    ensures ReadHead(Utf8(point) + rest) == Got([point], rest)
  {
    var x, y := point / 0x40, point % 0x40;
    var b := [0xc0 + x, 0x80 + y] + rest;
    assert b[0] == 0xc0 + x && b[1] == 0x80 + y && b[2..] == rest;
  }

  lemma Utf8Reads3(point: nat, rest: Bytes)
    requires 0x800 <= point < 0x10000 && !(0xd800 <= point < 0xe000)
    ensures ReadHead(Utf8(point) + rest) == Got([point], rest)
  {
    var x, y, z := point / 0x1000, point / 0x40 % 0x40, point % 0x40;
    Utf8Sum3(point);
    var b := [0xe0 + x, 0x80 + y, 0x80 + z] + rest;
    assert b[0] == 0xe0 + x && b[1] == 0x80 + y && b[2] == 0x80 + z && b[3..] == rest;
  }

  lemma Utf8Reads4(point: nat, rest: Bytes)
    requires 0x10000 <= point < 0x110000
    ensures ReadHead(Utf8(point) + rest) ==
      Got([0xd800 + (point - 0x10000) / 0x400, 0xdc00 + (point - 0x10000) % 0x400], rest)
  {
    var w, x, y, z := point / 0x40000, point / 0x1000 % 0x40, point / 0x40 % 0x40, point % 0x40;
    Utf8Sum4(point);
    var b := [0xf0 + w, 0x80 + x, 0x80 + y, 0x80 + z] + rest;
    assert b[0] == 0xf0 + w && b[1] == 0x80 + x && b[2] == 0x80 + y && b[3] == 0x80 + z && b[4..] == rest;
  }

  lemma Utf8Reads(s: Text, rest: Bytes)
    requires s != [] && !Escaped(s) && s[0] != 34 && s[0] != 92
    ensures ReadHead(Utf8(Point(s)) + rest) == Got(s[..HeadWidth(s)], rest)
  {
    hide ReadHead, Utf8;
    var point := Point(s);
    if PairHead(s) {
      Utf8Reads4(point, rest);
      PairPoint(s);
      assert s[..2] == [s[0], s[1]];
    } else {
      assert s[..1] == [s[0]];
      if point >= 0x800 {
        Utf8Reads3(point, rest);
      } else if point >= 0x80 {
        Utf8Reads2(point, rest);
      } else {
        Utf8Reads1(point, rest);
      }
    }
  }

  lemma Utf8Reads1(point: nat, rest: Bytes)
    requires 32 <= point < 0x80 && point != 34 && point != 92
    ensures ReadHead(Utf8(point) + rest) == Got([point], rest)
  {
    var b := [point] + rest;
    assert b[0] == point && b[1..] == rest;
  }

  lemma PairPoint(s: Text)
    requires s != [] && PairHead(s)
    ensures 0x10000 <= Point(s) < 0x110000
    ensures 0xd800 + (Point(s) - 0x10000) / 0x400 == s[0] && 0xdc00 + (Point(s) - 0x10000) % 0x400 == s[1]
  {
  }

  lemma HeadReads(s: Text, rest: Bytes)
    requires s != []
    ensures ReadHead(EncodeHead(s) + rest) == Got(s[..HeadWidth(s)], rest)
  {
    var b := EncodeHead(s) + rest;
    if s[0] == 34 || s[0] == 92 {
      assert b[1..] == [s[0]] + rest && b[1..][1..] == rest;
      assert s[..1] == [s[0]];
    } else if Escaped(s) {
      Hex4Reads(s[0], rest);
      assert b[1..] == [117] + Hex4(s[0]) + rest;
      assert s[..1] == [s[0]];
    } else {
      Utf8Reads(s, rest);
    }
  }

  lemma {:induction false} UnitsRead(s: Text, rest: Bytes)
    ensures ReadUnits(EncodeUnits(s) + [34] + rest) == Got(s, rest)
  {
    hide ReadHead, EncodeHead;
    var b := EncodeUnits(s) + [34] + rest;
    if s == [] {
      assert b == [34] + rest && b[1..] == rest;
    } else {
      var tail := s[HeadWidth(s)..];
      var after := EncodeUnits(tail) + [34] + rest;
      assert b == EncodeHead(s) + after;
      HeadReads(s, after);
      assert b[0] == EncodeHead(s)[0] != 34;
      UnitsRead(tail, rest);
      assert s[..HeadWidth(s)] + tail == s;
    }
  }

  lemma StringReads(s: Text, rest: Bytes)
    ensures ReadString(EncodeString(s) + rest) == Got(s, rest)
  {
    hide EncodeHead, ReadHead;
    UnitsRead(s, rest);
    assert (EncodeString(s) + rest)[1..] == EncodeUnits(s) + [34] + rest;
  }

  ghost predicate AllDigits(b: Bytes) { forall i :: 0 <= i < |b| ==> Digit(b[i]) }

  function Fold(sofar: nat, b: Bytes): nat
    requires AllDigits(b)
    decreases |b|
  {
    if b == [] then sofar else Fold(sofar * 10 + b[0] - 48, b[1..])
  }

  lemma {:induction false} FoldSnoc(sofar: nat, b: Bytes, d: Byte)
    requires AllDigits(b) && Digit(d)
    ensures AllDigits(b + [d]) && Fold(sofar, b + [d]) == Fold(sofar, b) * 10 + d - 48
    decreases |b|
  {
    if b == [] {
      assert b + [d] == [d];
      assert Fold(sofar, [d]) == Fold(sofar * 10 + d - 48, [d][1..]);
    } else {
      FoldSnoc(sofar * 10 + b[0] - 48, b[1..], d);
      assert (b + [d])[1..] == b[1..] + [d];
    }
  }

  lemma {:induction false} FoldDigits(n: nat)
    ensures AllDigits(Digits(n)) && Fold(0, Digits(n)) == n
    ensures n > 0 ==> Digits(n)[0] != 48
  {
    if n < 10 {
      assert Fold(0, Digits(n)) == Fold(n, Digits(n)[1..]);
    } else {
      FoldDigits(n / 10);
      FoldSnoc(0, Digits(n / 10), 48 + n % 10);
    }
  }

  lemma {:induction false} DigitsRead(sofar: nat, b: Bytes, rest: Bytes)
    requires AllDigits(b) && (rest == [] || !Digit(rest[0]))
    ensures ReadDigits(sofar, b + rest) == Got(Fold(sofar, b), rest)
    decreases |b|
  {
    if b == [] {
      assert b + rest == rest;
    } else {
      DigitsRead(sofar * 10 + b[0] - 48, b[1..], rest);
      assert (b + rest)[1..] == b[1..] + rest;
    }
  }

  lemma NumberReads(n: nat, rest: Bytes)
    requires rest == [] || !Digit(rest[0])
    ensures ReadNumber(Digits(n) + rest) == Got(n, rest)
    ensures Digits(n)[0] != 34 && Digits(n)[0] != 123
  {
    var b := Digits(n) + rest;
    FoldDigits(n);
    assert Digit(Digits(n)[0]);
    assert b[1..] == Digits(n)[1..] + rest;
    if n == 0 {
      assert b[1..] == rest;
    } else {
      DigitsRead(Digits(n)[0] - 48, Digits(n)[1..], rest);
    }
  }

  lemma {:induction false} ValueReads(value: Value, rest: Bytes)
    requires rest == [] || !Digit(rest[0])
    ensures ReadValue(EncodeValue(value) + rest) == Got(value, rest)
    decreases value, 1
  {
    hide EncodeUnits, ReadUnits;
    match value
    case Str(text) =>
      StringReads(text, rest);
      assert (EncodeValue(value) + rest)[0] == 34;
    case Num(n) =>
      NumberReads(n, rest);
      assert (EncodeValue(value) + rest)[0] == Digits(n)[0];
    case Obj(fields) =>
      ObjectReads(fields, rest);
      assert (EncodeValue(value) + rest)[0] == 123;
  }

  lemma {:induction false} FieldReads(field: Field, rest: Bytes)
    requires rest == [] || !Digit(rest[0])
    ensures ReadField(EncodeField(field) + rest) == Got(field, rest)
    decreases field, 0
  {
    hide EncodeUnits, ReadUnits;
    var after := EncodeValue(field.value) + rest;
    assert EncodeField(field) + rest == EncodeString(field.key) + ([58] + after);
    StringReads(field.key, [58] + after);
    assert ([58] + after)[1..] == after;
    ValueReads(field.value, rest);
  }

  lemma {:induction false} TailReads(fields: Fields, rest: Bytes)
    ensures ReadTail(EncodeTail(fields) + [125] + rest) == Got(fields, rest)
    decreases fields, 0
  {
    hide EncodeUnits, ReadUnits;
    var b := EncodeTail(fields) + [125] + rest;
    if fields == [] {
      assert b == [125] + rest && b[1..] == rest;
    } else {
      var after := EncodeTail(fields[1..]) + [125] + rest;
      assert b == [44] + (EncodeField(fields[0]) + after);
      assert b[1..] == EncodeField(fields[0]) + after;
      FieldReads(fields[0], after);
      TailReads(fields[1..], rest);
      assert [fields[0]] + fields[1..] == fields;
    }
  }

  /** Main result: reading what was written returns the same keys, integers and code units. */
  lemma {:induction false} ObjectReads(fields: Fields, rest: Bytes)
    ensures ReadObject(EncodeObject(fields) + rest) == Got(fields, rest)
    decreases fields, 1
  {
    hide EncodeUnits, ReadUnits;
    var b := EncodeObject(fields) + rest;
    if fields == [] {
      assert b == [123, 125] + rest && b[2..] == rest;
    } else {
      var after := EncodeTail(fields[1..]) + [125] + rest;
      assert EncodeMembers(fields) == EncodeField(fields[0]) + EncodeTail(fields[1..]);
      assert b == [123] + (EncodeField(fields[0]) + after);
      assert b[1..] == EncodeField(fields[0]) + after;
      assert b[1] == EncodeField(fields[0])[0] == 34;
      FieldReads(fields[0], after);
      TailReads(fields[1..], rest);
      assert [fields[0]] + fields[1..] == fields;
    }
  }

  /** Distinct trees never share their bytes, even with anything appended. */
  lemma WriterInjective(a: Fields, b: Fields, restA: Bytes, restB: Bytes)
    requires EncodeObject(a) + restA == EncodeObject(b) + restB
    ensures a == b && restA == restB
  {
    ObjectReads(a, restA);
    ObjectReads(b, restB);
  }

  // ---- Which form a unit takes.

  predicate LowerHex(b: Byte) { 48 <= b < 58 || 97 <= b < 103 }

  /**
    Quotes and backslashes are escaped in two bytes, controls and lone surrogates in six with lower-case digits,
    and everything else stands unescaped, one byte a unit below U+0080.
  */
  lemma EscapesExactly(s: Text)
    requires s != []
    ensures var b, lone := EncodeHead(s), (High(s[0]) || Low(s[0])) && !PairHead(s);
      && (b[0] == 92 <==> s[0] == 34 || s[0] == 92 || s[0] < 32 || lone)
      && (b[0] == 92 ==> |b| == if s[0] == 34 || s[0] == 92 then 2 else 6)
      && (|b| == 6 ==> b[1] == 117 && forall i :: 2 <= i < 6 ==> LowerHex(b[i]))
      && (b[0] != 92 && s[0] < 0x80 ==> b == [s[0]])
  {
    if Escaped(s) && s[0] != 34 && s[0] != 92 {
      var hex := Hex4(s[0]);
      assert forall i :: 0 <= i < 4 ==> LowerHex(hex[i]);
      assert EncodeHead(s)[2..] == hex;
      assert forall i :: 2 <= i < 6 ==> EncodeHead(s)[i] == hex[i - 2];
    }
  }
}
