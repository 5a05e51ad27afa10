/** The JSON text written for a closed field tree, as a function of the tree. */
module JsonText {
  import opened Text

  datatype Value = Str(text: Text) | Num(n: nat) | Obj(fields: Fields)
  datatype Field = Field(key: Text, value: Value)
  type Fields = seq<Field>

  function HexDigit(n: nat): Byte
    requires n < 16
  {
    if n < 10 then 48 + n else 87 + n
  }

  function Hex4(u: Unit): Bytes {
    [HexDigit(u / 0x1000), HexDigit(u / 0x100 % 16), HexDigit(u / 16 % 16), HexDigit(u % 16)]
  }

  /** Controls and lone surrogates are written as `\uXXXX`. */
  predicate Escaped(s: Text)
    requires s != []
  {
    s[0] < 32 || ((High(s[0]) || Low(s[0])) && !PairHead(s))
  }

  function EncodeHead(s: Text): (bytes: Bytes)
    requires s != []
    ensures HeadWidth(s) <= |bytes| <= 6 * HeadWidth(s) && bytes[0] != 34
  {
    if s[0] == 34 || s[0] == 92 then [92, s[0]]
    else if Escaped(s) then [92, 117] + Hex4(s[0])
    else Utf8(Point(s))
  }

  /** Every unit costs at least one and at most six bytes. */
  function EncodeUnits(s: Text): (bytes: Bytes)
    ensures |s| <= |bytes| <= 6 * |s|
  {
    if s == [] then [] else EncodeHead(s) + EncodeUnits(s[HeadWidth(s)..])
  }

  function EncodeString(s: Text): Bytes { [34] + EncodeUnits(s) + [34] }

  function Digits(n: nat): (bytes: Bytes)
    ensures |bytes| > 0
  {
    if n < 10 then [48 + n] else Digits(n / 10) + [48 + n % 10]
  }

  function EncodeValue(value: Value): Bytes
    decreases value, 1
  {
    match value
    case Str(text) => EncodeString(text)
    case Num(n) => Digits(n)
    case Obj(fields) => EncodeObject(fields)
  }

  function EncodeField(field: Field): Bytes
    decreases field, 0
  {
    EncodeString(field.key) + [58] + EncodeValue(field.value)
  }

  /** Fields after the first one, each behind its comma. */
  function EncodeTail(fields: Fields): Bytes
    decreases fields, 0
  {
    if fields == [] then [] else [44] + EncodeField(fields[0]) + EncodeTail(fields[1..])
  }

  function EncodeMembers(fields: Fields): Bytes
    decreases fields, 1
  {
    if fields == [] then [] else EncodeField(fields[0]) + EncodeTail(fields[1..])
  }

  function EncodeObject(fields: Fields): Bytes
    decreases fields, 2
  {
    [123] + EncodeMembers(fields) + [125]
  }

  /** The variable text of a tree: the code units of its string values, keys excluded. */
  function UnitCount(fields: Fields): nat
    decreases fields, 0
  {
    if fields == [] then 0 else ValueUnits(fields[0].value) + UnitCount(fields[1..])
  }

  function ValueUnits(value: Value): nat
    decreases value, 1
  {
    match value
    case Str(text) => |text|
    case Num(_) => 0
    case Obj(fields) => UnitCount(fields)
  }
}
