/** The scalar scan of described paths, the counts of a plan, and its capacities. */
module OriginalPaths {
  import opened Text

  datatype Counts = Counts(entries: nat, raw: nat, names: nat, components: nat, codeUnits: nat)

  const NO_COUNTS: Counts := Counts(0, 0, 0, 0, 0)

  datatype Described = Described(path: Text, directory: bool, length: int)

  const MAX_U64: int := 0xffff_ffff_ffff_ffff
  const MAX_ENTRIES: int := 100064
  const MAX_RAW: int := 67108864

  /** The UTF-8 text of a string, surrogate pairs as one scalar. */
  function Utf8Text(s: Text): Bytes {
    if s == [] then [] else Utf8(Point(s)) + Utf8Text(s[HeadWidth(s)..])
  }

  function Scalars(s: Text): nat { if s == [] then 0 else 1 + Scalars(s[HeadWidth(s)..]) }

  function Slashes(s: Text): nat {
    if s == [] then 0 else (if s[0] == 47 then 1 else 0) + Slashes(s[HeadWidth(s)..])
  }

  /** The member name emitted for a row: directories end in a slash. */
  function MemberName(row: Described): Text { if row.directory then row.path + [47] else row.path }

  predicate PathOk(row: Described) {
    var s := row.path;
    && 0 < |s| <= 8000 && WellFormed(s)
    && Scalars(s) <= 4000 && 1 + Slashes(s) <= 256
    && |Utf8Text(s)| <= 16000 && |Utf8Text(MemberName(row))| <= 65535
  }

  predicate RowOk(total: Counts, row: Described) {
    && PathOk(row) && Natural(row.length)
    && total.entries < MAX_ENTRIES && total.raw + row.length <= MAX_RAW
    && total.names + |Utf8Text(MemberName(row))| <= MAX_U64
  }

  function Counted(total: Counts, row: Described): Counts
    requires RowOk(total, row)
  {
    Counts(total.entries + 1, total.raw + row.length, total.names + |Utf8Text(MemberName(row))|,
      total.components + 1 + Slashes(row.path), total.codeUnits + |row.path|)
  }

  // ---- The scan.

  lemma HeadKept(s: Text)
    requires s != [] && WellFormed(s)
    ensures HeadWidth(s + [47]) == HeadWidth(s) && Point(s + [47]) == Point(s) && WellFormed(s[HeadWidth(s)..])
    ensures (s + [47])[HeadWidth(s)..] == s[HeadWidth(s)..] + [47]
  {
    var t := s + [47];
    assert t[0] == s[0] && (|s| >= 2 ==> t[1] == s[1]);
  }

  lemma Utf8Step(s: Text)
    requires s != []
    ensures Utf8Text(s) == Utf8(Point(s)) + Utf8Text(s[HeadWidth(s)..])
  {
  }

  lemma SlashAlone()
    ensures Utf8Text([47]) == [47] && Utf8Text([]) == []
  {
    assert [47][1..] == [];
    assert Utf8Text([47]) == Utf8(47) + Utf8Text([]);
  }

  lemma {:induction false} SlashAppended(s: Text)
    requires WellFormed(s)
    ensures Utf8Text(s + [47]) == Utf8Text(s) + [47]
    decreases |s|
  {
    hide Utf8Text, Utf8, WellFormed, Point;
    if s == [] {
      SlashAlone();
      assert [] + [47] == [47];
    } else {
      var n := HeadWidth(s);
      HeadKept(s);
      SlashAppended(s[n..]);
      Utf8Step(s);
      Utf8Step(s + [47]);
      assert Utf8(Point(s)) + (Utf8Text(s[n..]) + [47]) == Utf8(Point(s)) + Utf8Text(s[n..]) + [47];
    }
  }

  /** One scalar of the scan at index `i`. */
  lemma ScanStep(s: Text, i: nat)
    requires i < |s|
    ensures var rest, next := s[i..], i + HeadWidth(s[i..]);
      && s[i..][HeadWidth(rest)..] == s[next..]
      && (WellFormed(rest) <==> (High(s[i]) || Low(s[i]) ==> PairHead(rest)) && WellFormed(s[next..]))
      && |Utf8Text(rest)| == |Utf8(Point(rest))| + |Utf8Text(s[next..])|
      && Scalars(rest) == 1 + Scalars(s[next..])
      && Slashes(rest) == (if s[i] == 47 then 1 else 0) + Slashes(s[next..])
  {
    assert s[i..][HeadWidth(s[i..])..] == s[i + HeadWidth(s[i..])..];
  }

  /** What the index loop of the scan computes: scalars, slashes and UTF-8 bytes, or an unpaired surrogate. */
  method Scan(path: Text) returns (paired: bool, bytes: nat, components: nat, scalars: nat)
    ensures paired <==> WellFormed(path)
    ensures paired ==> bytes == |Utf8Text(path)| && components == 1 + Slashes(path) && scalars == Scalars(path)
  {
    hide Utf8Text, Scalars, Slashes, WellFormed, HeadWidth;
    paired, bytes, components, scalars := true, 0, 1, 0;
    var index := 0;
    assert path[0..] == path;
    while index < |path|
      invariant index <= |path|
      invariant WellFormed(path) <==> WellFormed(path[index..])
      invariant WellFormed(path[index..]) ==> bytes + |Utf8Text(path[index..])| == |Utf8Text(path)|
      invariant WellFormed(path[index..]) ==> components + Slashes(path[index..]) == 1 + Slashes(path)
      invariant WellFormed(path[index..]) ==> scalars + Scalars(path[index..]) == Scalars(path)
    {
      ScanStep(path, index);
      PointSize(path, index);
      var unit := path[index];
      scalars := scalars + 1;
      if unit == 47 {
        components := components + 1;
      }
      if 0xd800 <= unit <= 0xdbff {
        index := index + 1;
        if index >= |path| || !(0xdc00 <= path[index] <= 0xdfff) {
          paired := false;
          return;
        }
        bytes := bytes + 4;
      } else {
        if 0xdc00 <= unit <= 0xdfff {
          paired := false;
          return;
        }
        bytes := bytes + if unit < 128 then 1 else if unit < 2048 then 2 else 3;
      }
      index := index + 1;
    }
    ScanEnd(path);
  }

  lemma PointSize(s: Text, i: nat)
    requires i < |s|
    ensures HeadWidth(s[i..]) == if PairHead(s[i..]) then 2 else 1
    ensures |Utf8(Point(s[i..]))| == if PairHead(s[i..]) then 4 else if s[i] < 128 then 1 else if s[i] < 2048 then 2 else 3
  {
  }

  lemma ScanEnd(s: Text)
    ensures WellFormed(s[|s|..]) && Utf8Text(s[|s|..]) == [] && Slashes(s[|s|..]) == 0 && Scalars(s[|s|..]) == 0
  {
  }

  /**
    Describing one row: refused exactly when the path or the totals leave their bounds; the names
    total grows by the UTF-8 length of the member name that will be emitted.
   */
  method DescribeRow(total: Counts, row: Described) returns (r: Option<Counts>)
    ensures r == if RowOk(total, row) then Some(Counted(total, row)) else None
  {
    hide Utf8Text, Scalars, Slashes, WellFormed;
    var path := row.path;
    if |path| == 0 || |path| > 8000 {
      return None;
    }
    var paired, bytes, components, scalars := Scan(path);
    if !paired {
      return None;
    }
    SlashAppended(path);
    bytes := bytes + if row.directory then 1 else 0;
    if scalars > 4000 || components > 256 || bytes - (if row.directory then 1 else 0) > 16000 || bytes > 65535 {
      return None;
    }
    if total.entries + 1 > MAX_ENTRIES || !Natural(row.length) {
      return None;
    }
    if total.raw + row.length > MAX_U64 || total.raw + row.length > MAX_RAW || total.names + bytes > MAX_U64 {
      return None;
    }
    return Some(Counts(total.entries + 1, total.raw + row.length, total.names + bytes,
      total.components + components, total.codeUnits + |path|));
  }

  // ---- Checked arithmetic.

  function U64(n: int): Option<nat> { if 0 <= n <= MAX_U64 then Some(n) else None }

  function Add(a: Option<nat>, b: Option<nat>): Option<nat> {
    if a.Some? && b.Some? then U64(a.value + b.value) else None
  }

  function Multiply(a: Option<nat>, b: Option<nat>): Option<nat> {
    if a.Some? && b.Some? then U64(a.value * b.value) else None
  }

  function CheckedOutputCapacity(entries: int, names: int, raw: int): Option<nat> {
    Add(Add(Add(U64(raw), Multiply(U64(4), U64(names))), Multiply(U64(256), U64(entries))), U64(1024))
  }

  function CheckedCentralDirectoryCapacity(entries: int, names: int): Option<nat> {
    Add(U64(names), Multiply(U64(78), U64(entries)))
  }

  function AllocationLength(n: Option<nat>): Option<nat> {
    if n.Some? && n.value <= MAX_SAFE then n else None
  }

  /** Step-by-step checks refuse exactly what the whole sum would: no intermediate one refuses more. */
  lemma OutputCapacityExact(entries: int, names: int, raw: int)
    ensures CheckedOutputCapacity(entries, names, raw) ==
      if entries >= 0 && names >= 0 && raw >= 0 && raw + 4 * names + 256 * entries + 1024 <= MAX_U64
      then Some(raw + 4 * names + 256 * entries + 1024) else None
  {
  }

  // ---- Plans.

  datatype Plan = Plan(total: Counts, output: nat, central: nat, library: nat, nodes: nat)

  /** What the inventory declares of itself. */
  datatype Declared = Declared(entries: int, raw: int, names: int)

  function CountAll(total: Counts, rows: seq<Described>): Option<Counts>
    decreases |rows|
  {
    if rows == [] then Some(total)
    else if RowOk(total, rows[0]) then CountAll(Counted(total, rows[0]), rows[1..])
    else None
  }

  function SumNames(rows: seq<Described>): nat {
    if rows == [] then 0 else |Utf8Text(MemberName(rows[0]))| + SumNames(rows[1..])
  }

  function SumRaw(rows: seq<Described>): int {
    if rows == [] then 0 else rows[0].length + SumRaw(rows[1..])
  }

  /** Every row stands on its own, and the totals stay within the connected bounds. */
  ghost predicate AllOk(rows: seq<Described>) {
    && (forall row <- rows :: PathOk(row) && Natural(row.length))
    && |rows| <= MAX_ENTRIES && SumRaw(rows) <= MAX_RAW
  }

  lemma {:induction false} SumRawNatural(rows: seq<Described>)
    requires forall row <- rows :: Natural(row.length)
    ensures SumRaw(rows) >= 0
  {
    if rows != [] {
      SumRawNatural(rows[1..]);
    }
  }

  /** Counting row by row accepts exactly descriptions whose rows and totals are in bounds, and sums them. */
  lemma {:induction false} CountsAreSums(total: Counts, rows: seq<Described>)
    requires total.names <= 65535 * total.entries
    ensures CountAll(total, rows).Some? <==>
      (forall row <- rows :: PathOk(row) && Natural(row.length))
        && (rows != [] ==> total.entries + |rows| <= MAX_ENTRIES && total.raw + SumRaw(rows) <= MAX_RAW)
    ensures CountAll(total, rows).Some? ==> var r := CountAll(total, rows).value;
      && r.entries == total.entries + |rows| && r.raw == total.raw + SumRaw(rows)
      && r.names == total.names + SumNames(rows) && r.names <= 65535 * r.entries
    decreases |rows|
  {
    hide PathOk;
    if rows != [] {
      var row, rest := rows[0], rows[1..];
      if RowOk(total, row) {
        NamesFit(total, row);
        CountsAreSums(Counted(total, row), rest);
        assert forall other <- rest :: other in rows;
        assert (forall other <- rows :: PathOk(other) && Natural(other.length))
          <==> (forall other <- rest :: PathOk(other) && Natural(other.length)) by {
          assert forall other <- rows :: other == row || other in rest;
        }
      } else if (forall other <- rows :: PathOk(other) && Natural(other.length)) {
        assert row in rows && forall other <- rest :: other in rows;
        SumRawNatural(rest);
        if total.entries < MAX_ENTRIES {
          NamesFit(total, row);
        }
      }
    }
  }

  lemma NamesFit(total: Counts, row: Described)
    requires PathOk(row) && total.names <= 65535 * total.entries && total.entries < MAX_ENTRIES
    ensures total.names + |Utf8Text(MemberName(row))| <= 65535 * (total.entries + 1) <= MAX_U64
  {
  }

  /** The rows of a description, counted one by one. */
  method CountRows(rows: seq<Described>) returns (r: Option<Counts>)
    ensures r == CountAll(NO_COUNTS, rows)
  {
    hide PathOk, Utf8Text, RowOk, Counted;
    var total := NO_COUNTS;
    assert rows[0..] == rows;
    for i := 0 to |rows|
      invariant CountAll(NO_COUNTS, rows) == CountAll(total, rows[i..])
    {
      assert rows[i..][0] == rows[i] && rows[i..][1..] == rows[i + 1..];
      var counted := DescribeRow(total, rows[i]);
      if counted.None? {
        return None;
      }
      total := counted.value;
    }
    assert rows[|rows|..] == [];
    return Some(total);
  }

  /** The capacities of counted rows; within the bounds of a plan none of them is refused. */
  method Capacities(total: Counts) returns (r: Option<Plan>)
    requires total.entries <= MAX_ENTRIES && total.raw <= MAX_RAW && total.names <= 65535 * total.entries
    ensures r == Some(Plan(total, total.raw + 4 * total.names + 256 * total.entries + 1024, total.names + 78 * total.entries,
      4 * total.raw + 8 * total.names + 768 * total.entries + 2048, total.components + 1))
  {
    var n, names, raw := total.entries, total.names, total.raw;
    var c, d := CheckedOutputCapacity(n, names, raw), CheckedCentralDirectoryCapacity(n, names);
    OutputCapacityExact(n, names, raw);
    if c.None? || d.None? {
      return None;
    }
    var l := U64(3 * raw + c.value + 4 * names + 512 * n + 1024);
    var output, central, library := AllocationLength(c), AllocationLength(d), AllocationLength(l);
    if output.None? || central.None? || library.None? {
      return None;
    }
    return Some(Plan(total, output.value, central.value, library.value, total.components + 1));
  }

  /**
    Planning a description. It is refused exactly when a row or a total leaves its bounds or the
    declaration does not match; the capacities of an accepted one never overflow.
   */
  method PlanInput(declared: Declared, rows: seq<Described>) returns (r: Option<Plan>)
    ensures r.Some? <==> AllOk(rows) && rows != [] && declared == Declared(|rows|, SumRaw(rows), SumNames(rows))
    ensures r.Some? ==> r.value.total.raw == SumRaw(rows) && r.value.total.names == SumNames(rows)
    ensures r.Some? ==> r.value.output == SumRaw(rows) + 4 * SumNames(rows) + 256 * |rows| + 1024
    ensures r.Some? ==> r.value.central == SumNames(rows) + 78 * |rows|
    ensures r.Some? ==> r.value.library == 4 * SumRaw(rows) + 8 * SumNames(rows) + 768 * |rows| + 2048
    ensures r.Some? ==> r.value.nodes == r.value.total.components + 1
  {
    hide PathOk, Utf8Text, CountAll, SumRaw, SumNames;
    CountsAreSums(NO_COUNTS, rows);
    SumsNatural(rows);
    if !Natural(declared.entries) || !Natural(declared.raw) || !Natural(declared.names) {
      return None;
    }
    if declared.entries == 0 || declared.entries > MAX_ENTRIES || declared.raw > MAX_RAW {
      return None;
    }
    var counted := CountRows(rows);
    if counted.None? {
      return None;
    }
    var total := counted.value;
    if total.entries != declared.entries || total.raw != declared.raw || total.names != declared.names {
      return None;
    }
    r := Capacities(total);
  }

  lemma SumsNatural(rows: seq<Described>)
    ensures AllOk(rows) ==> Natural(|rows|) && Natural(SumRaw(rows)) && Natural(SumNames(rows))
  {
    hide PathOk;
    if AllOk(rows) {
      SumRawNatural(rows);
      CountsAreSums(NO_COUNTS, rows);
    }
  }
}
