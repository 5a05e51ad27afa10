/** The bounded scalar writer: one pass to measure, one pass into a byte array. */
module JsonBytes {
  import opened Text
  import opened JsonText

  /**
    `backing` with `bytes` written at `at`. What does not fit is dropped, as a typed array
    drops a store out of range.
   */
  function Overwrite(backing: Bytes, at: nat, bytes: Bytes): (result: Bytes)
    ensures |result| == |backing|
  {
    seq(|backing|, i requires 0 <= i < |backing| => if at <= i < at + |bytes| then bytes[i - at] else backing[i])
  }

  /** What lies in range is written, what lies beyond is dropped, and nothing else changes. */
  lemma OverwriteWindow(backing: Bytes, at: nat, bytes: Bytes)
    ensures at >= |backing| ==> Overwrite(backing, at, bytes) == backing
    ensures at < |backing| ==>
      var stored := if |bytes| <= |backing| - at then |bytes| else |backing| - at;
      Overwrite(backing, at, bytes) == backing[..at] + bytes[..stored] + backing[at + stored..]
  {
  }

  lemma OverwriteFits(backing: Bytes, at: nat, bytes: Bytes)
    requires at + |bytes| <= |backing|
    ensures Overwrite(backing, at, bytes)[..at] == backing[..at]
    ensures Overwrite(backing, at, bytes)[at..at + |bytes|] == bytes
  {
  }

  lemma OverwriteTwice(backing: Bytes, at: nat, first: Bytes, second: Bytes)
    ensures Overwrite(Overwrite(backing, at, first), at + |first|, second) == Overwrite(backing, at, first + second)
  {
  }

  /** What the string loop still has to write at index `i`. */
  ghost function UnitsFrom(s: Text, i: nat): Bytes
    requires i <= |s|
    decreases |s| - i
  {
    if i == |s| then [] else EncodeHead(s[i..]) + UnitsFrom(s, i + HeadWidth(s[i..]))
  }

  lemma EncodeNothing(s: Text)
    ensures EncodeUnits(s[|s|..]) == []
  {
  }

  lemma UnitsFromStep(s: Text, i: nat)
    requires i < |s|
    ensures UnitsFrom(s, i) == EncodeHead(s[i..]) + UnitsFrom(s, i + HeadWidth(s[i..]))
  {
  }

  lemma {:induction false} UnitsFromIs(s: Text, i: nat)
    requires i <= |s|
    ensures UnitsFrom(s, i) == EncodeUnits(s[i..])
    decreases |s| - i
  {
    if i < |s| {
      var next := i + HeadWidth(s[i..]);
      assert s[i..][HeadWidth(s[i..])..] == s[next..];
      UnitsFromIs(s, next);
    }
  }

  /** What the member loop still has to write at index `i`. */
  ghost function MembersFrom(fields: Fields, i: nat): Bytes
    requires i <= |fields|
    decreases |fields| - i
  {
    if i == |fields| then [] else (if i == 0 then [] else [44]) + EncodeField(fields[i]) + MembersFrom(fields, i + 1)
  }

  lemma {:induction false} TailFromIs(fields: Fields, i: nat)
    requires 0 < i <= |fields|
    ensures MembersFrom(fields, i) == EncodeTail(fields[i..])
    decreases |fields| - i
  {
    if i < |fields| {
      assert fields[i..][1..] == fields[i + 1..];
      TailFromIs(fields, i + 1);
    }
  }

  lemma MembersFromIs(fields: Fields)
    ensures MembersFrom(fields, 0) == EncodeMembers(fields)
  {
    if fields != [] {
      TailFromIs(fields, 1);
      assert [] + EncodeField(fields[0]) == EncodeField(fields[0]);
    }
  }

  ghost function UnitsOver(fields: Fields, i: nat): nat
    requires i <= |fields|
    decreases |fields| - i
  {
    if i == |fields| then 0 else ValueUnits(fields[i].value) + UnitsOver(fields, i + 1)
  }

  lemma {:induction false} UnitsOverIs(fields: Fields, i: nat)
    requires i <= |fields|
    ensures UnitsOver(fields, i) == UnitCount(fields[i..])
    decreases |fields| - i
  {
    if i < |fields| {
      assert fields[i..][1..] == fields[i + 1..];
      UnitsOverIs(fields, i + 1);
    }
  }

  class JsonWriter {
    var offset: nat
    const destination: array?<Byte>
    const start: nat
    ghost const before: Bytes   // the destination when this writer began
    ghost var out: Bytes        // everything written since

    ghost function Image(): Bytes
      reads this, destination
    {
      if destination == null then [] else destination[..]
    }

    ghost predicate Valid()
      reads this, destination
    {
      offset == |out| && Image() == Overwrite(before, start, out)
    }

    constructor (destination: array?<Byte>, start: nat)
      ensures Valid() && out == []
      ensures this.destination == destination && this.start == start
      ensures before == if destination == null then [] else destination[..]
    {
      this.destination := destination;
      this.start := start;
      offset := 0;
      before := if destination == null then [] else destination[..];
      out := [];
    }

    method Byte(value: Byte)
      requires Valid()
      modifies this, destination
      ensures Valid() && out == old(out) + [value]
    {
      if destination != null && start + offset < destination.Length {
        destination[start + offset] := value;
      }
      offset := offset + 1;
      out := out + [value];
    }

    method String(value: Text)
      requires Valid()
      modifies this, destination
      ensures Valid() && out == old(out) + EncodeString(value)
    {
      hide EncodeHead, HeadWidth, EncodeUnits, UnitsFrom, Valid, Image, Overwrite;
      Byte(34);
      var i := 0;
      ghost var done := [];
      while i < |value|
        invariant i <= |value|
        invariant Valid() && out == old(out) + [34] + done
        invariant UnitsFrom(value, 0) == done + UnitsFrom(value, i)
      {
        UnitsFromStep(value, i);
        done := done + EncodeHead(value[i..]);
        i := Head(value, i);
      }
      assert done == EncodeUnits(value) by {
        UnitsFromIs(value, 0);
        UnitsFromIs(value, |value|);
        assert value[0..] == value;
        EncodeNothing(value);
      }
      Byte(34);
    }

    /** One turn of the string loop: the scalar, escape or lone surrogate at `i`. */
    method Head(value: Text, i: nat) returns (next: nat)
      requires Valid() && i < |value|
      modifies this, destination
      ensures next == i + HeadWidth(value[i..])
      ensures Valid() && out == old(out) + EncodeHead(value[i..])
    {
      next := i + 1;
      var unit := value[i];
      if unit == 34 || unit == 92 {
        Byte(92);
        Byte(unit);
      } else if unit < 32 || (0xd800 <= unit <= 0xdfff &&
          !(unit <= 0xdbff && i + 1 < |value| && 0xdc00 <= value[i + 1] <= 0xdfff)) {
        Escape(unit);
      } else {
        var point: nat := unit;
        if 0xd800 <= unit <= 0xdbff {
          point := 0x10000 + (unit as int - 0xd800) * 0x400 + value[next] - 0xdc00;
          next := next + 1;
        }
        Scalar(point);
      }
    }

    /** `\u` and four lower-case hexadecimal digits. */
    method Escape(unit: Unit)
      requires Valid()
      modifies this, destination
      ensures Valid() && out == old(out) + [92, 117] + Hex4(unit)
    {
      Byte(92);
      Byte(117);
      Byte(HexDigit(unit / 0x1000));
      Byte(HexDigit(unit / 0x100 % 16));
      Byte(HexDigit(unit / 16 % 16));
      Byte(HexDigit(unit % 16));
    }

    method Scalar(point: nat)
      requires Valid() && point < 0x110000
      modifies this, destination
      ensures Valid() && out == old(out) + Utf8(point)
    {
      if point < 0x80 {
        Byte(point);
      } else if point < 0x800 {
        Byte(0xc0 + point / 0x40);
        Byte(0x80 + point % 0x40);
      } else if point < 0x10000 {
        Byte(0xe0 + point / 0x1000);
        Byte(0x80 + point / 0x40 % 0x40);
        Byte(0x80 + point % 0x40);
      } else {
        Byte(0xf0 + point / 0x40000);
        Byte(0x80 + point / 0x1000 % 0x40);
        Byte(0x80 + point / 0x40 % 0x40);
        Byte(0x80 + point % 0x40);
      }
    }

    /** The digits are counted first and then stored from the last to the first. */
    method Integer(value: nat)
      requires Valid()
      modifies this, destination
      ensures Valid() && out == old(out) + Digits(value)
    {
      var digits, remaining := 1, value;
      while remaining >= 10
        invariant digits + |Digits(remaining)| == 1 + |Digits(value)|
        invariant digits >= 1
      {
        remaining := remaining / 10;
        digits := digits + 1;
      }
      if destination != null {
        StoreDigits(destination, start + offset, digits, value);
      }
      offset := offset + digits;
      out := out + Digits(value);
    }

    static method StoreDigits(target: array<Byte>, base: nat, digits: nat, value: nat)
      requires digits == |Digits(value)|
      modifies target
      ensures target[..] == Overwrite(old(target[..]), base, Digits(value))
    {
      var at, left := base + digits - 1, value;
      ghost var text, was := Digits(value), target[..];
      assert text[..digits] == text;
      while at >= base
        invariant base - 1 <= at < base + digits
        invariant at >= base ==> text[..at + 1 - base] == Digits(left)
        invariant forall i :: 0 <= i < target.Length ==>
          target[i] == if at < i < base + digits then text[i - base] else was[i]
        decreases at
      {
        assert text[at - base] == text[..at + 1 - base][at - base] == 48 + left % 10;
        if at < target.Length {
          target[at] := 48 + left % 10;
        }
        if at > base {
          assert text[..at - base] == text[..at + 1 - base][..at - base];
        }
        at := at - 1;
        left := left / 10;
      }
    }

    method Object(fields: Fields)
      requires Valid()
      modifies this, destination
      ensures Valid() && out == old(out) + EncodeObject(fields)
      decreases fields, 1
    {
      hide EncodeHead, EncodeField, Valid, Image, Overwrite;
      Byte(123);
      var first := true;
      ghost var done := [];
      for i := 0 to |fields|
        invariant Valid() && out == old(out) + [123] + done
        invariant first == (i == 0)
        invariant MembersFrom(fields, 0) == done + MembersFrom(fields, i)
      {
        done := done + (if i == 0 then [] else [44]) + EncodeField(fields[i]);
        if !first {
          Byte(44);
        }
        first := false;
        Member(fields[i]);
      }
      Byte(125);
      MembersFromIs(fields);
    }

    method Member(field: Field)
      requires Valid()
      modifies this, destination
      ensures Valid() && out == old(out) + EncodeField(field)
      decreases field, 0
    {
      hide EncodeHead, Valid, Image, Overwrite;
      String(field.key);
      Byte(58);
      match field.value {
        case Str(text) => String(text);
        case Num(n) => Integer(n);
        case Obj(inner) => Object(inner);
      }
    }
  }

  /** The variable units of a tree, or the overflow of a checked sum. */
  method Units(fields: Fields) returns (r: Option<nat>)
    ensures r == if UnitCount(fields) <= MAX_SAFE then Some(UnitCount(fields)) else None
    decreases fields
  {
    UnitsOverIs(fields, 0);
    assert fields[0..] == fields;
    var count: nat := 0;
    for i := 0 to |fields|
      invariant count + UnitsOver(fields, i) == UnitCount(fields)
      invariant count <= MAX_SAFE
    {
      var more: nat;
      match fields[i].value {
        case Str(text) => more := |text|;
        case Num(_) => more := 0;
        case Obj(inner) =>
          var nested := Units(inner);
          assert ValueUnits(fields[i].value) == UnitCount(inner);
          if nested == None {
            return None;
          }
          more := nested.value;
      }
      count := count + more;
      if count > MAX_SAFE {
        return None;
      }
    }
    return Some(count);
  }
}
