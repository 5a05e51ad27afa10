/** JavaScript strings as sequences of UTF-16 code units, bytes, and small sequence helpers. */
module Text {
  datatype Option<+T> = None | Some(value: T)

  type Unit = u: int | 0 <= u < 0x1_0000
  type Text = seq<Unit>
  type Byte = b: int | 0 <= b < 256
  type Bytes = seq<Byte>

  /** `Number.MAX_SAFE_INTEGER`. */
  const MAX_SAFE: int := 9007199254740991
  const U32_MAX: int := 0xffff_ffff

  predicate Natural(n: int) { 0 <= n <= MAX_SAFE }

  predicate High(u: Unit) { 0xd800 <= u <= 0xdbff }
  predicate Low(u: Unit) { 0xdc00 <= u <= 0xdfff }

  /** A surrogate pair stands at the head of `s`. */
  predicate PairHead(s: Text) { |s| >= 2 && High(s[0]) && Low(s[1]) }

  /** The number of code units of the scalar, or lone surrogate, at the head of `s`. */
  function HeadWidth(s: Text): nat
    requires s != []
    ensures 1 <= HeadWidth(s) <= |s|
  {
    if PairHead(s) then 2 else 1
  }

  function Point(s: Text): nat
    requires s != []
    ensures Point(s) < 0x110000
  {
    if PairHead(s) then 0x10000 + (s[0] as int - 0xd800) * 0x400 + s[1] - 0xdc00 else s[0]
  }

  /** Every surrogate belongs to a pair. */
  predicate WellFormed(s: Text) {
    s == [] || (
      && (High(s[0]) || Low(s[0]) ==> PairHead(s))
      && WellFormed(s[HeadWidth(s)..]))
  }

  /** UTF-8 (section 3 of RFC 3629). */
  function Utf8(point: nat): (bytes: Bytes)
    requires point < 0x110000
  {
    if point < 0x80 then [point]
    else if point < 0x800 then [0xc0 + point / 0x40, 0x80 + point % 0x40]
    else if point < 0x10000 then [0xe0 + point / 0x1000, 0x80 + point / 0x40 % 0x40, 0x80 + point % 0x40]
    else [0xf0 + point / 0x40000, 0x80 + point / 0x1000 % 0x40, 0x80 + point / 0x40 % 0x40, 0x80 + point % 0x40]
  }

  /** An ASCII literal as code units. */
  function Lit(s: string): (t: Text)
    ensures |t| == |s|
  {
    seq(|s|, i requires 0 <= i < |s| => s[i] as int % 0x80)
  }
}
