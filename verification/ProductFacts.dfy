/** The schema snapshot of an observed fact and the size of every tree it can build. */
module ProductFacts {
  import opened Text
  import opened JsonText

  /** A property read from a caller's object: text, an integral number, or anything else. */
  datatype Raw = RText(text: Text) | RInteger(n: int) | ROther

  datatype Kind =
    | OpeningStored | SourceSelected | ProjectSelected | TransferVerified | InventoryAdopted
    | ArchiveStored | ArchiveRetirementRequested | ArchiveSettledRetired
    | ArchiveReady | DownloadWillRequest | DownloadResult | ModelClosed | WorkspaceClosed
    | UnknownKind

  datatype Outcome = Raised | Returned(result: Result) | UnknownOutcome
  datatype Result = DownloadRequested | Retired | Failed | UnknownResult

  /** A fact as its producer presents it; properties a kind does not have are ignored. */
  datatype Fact = Fact(
    kind: Kind, sequence: Raw, workspace: Raw, opening: Raw, attempt: Raw, openingOrdinal: Raw,
    inventoryRevision: Raw, operationOrdinal: Raw, readyOrdinal: Raw,
    sessionId: Raw, providerId: Raw, locator: Raw, projectId: Raw, outcome: Outcome)

  datatype Captured = Captured(sequence: nat, fields: Fields)

  /** How many ownership stages the kind carries: visit, opening, inventory, archive, ready. */
  function Level(kind: Kind): nat {
    match kind
    case ModelClosed | WorkspaceClosed | UnknownKind => 0
    case OpeningStored | SourceSelected | ProjectSelected | TransferVerified => 1
    case InventoryAdopted => 2
    case ArchiveStored | ArchiveRetirementRequested | ArchiveSettledRetired => 3
    case ArchiveReady | DownloadWillRequest | DownloadResult => 4
  }

  predicate Selects(kind: Kind) { kind.SourceSelected? || kind.ProjectSelected? || kind.TransferVerified? }

  function KindText(kind: Kind): Text {
    match kind
    case OpeningStored => Lit("opening-stored")
    case SourceSelected => Lit("source-selected")
    case ProjectSelected => Lit("project-selected")
    case TransferVerified => Lit("transfer-verified")
    case InventoryAdopted => Lit("inventory-adopted")
    case ArchiveStored => Lit("archive-stored")
    case ArchiveRetirementRequested => Lit("archive-retirement-requested")
    case ArchiveSettledRetired => Lit("archive-settled-retired")
    case ArchiveReady => Lit("archive-ready")
    case DownloadWillRequest => Lit("download-will-request")
    case DownloadResult => Lit("download-result")
    case ModelClosed => Lit("model-closed")
    case WorkspaceClosed => Lit("workspace-closed")
    case UnknownKind => []
  }

  function ResultText(result: Result): Text {
    match result
    case DownloadRequested => Lit("download-requested")
    case Retired => Lit("retired")
    case Failed => Lit("failed")
    case UnknownResult => []
  }

  predicate IsText(raw: Raw) { raw.RText? }
  predicate IsNumber(raw: Raw) { raw.RInteger? && Natural(raw.n) }
  predicate IsOrdinal(raw: Raw) { IsNumber(raw) && raw.n != 0 }

  /** The runtime checks of the schema; a failed one is the `shape` fault. */
  predicate Shaped(f: Fact) {
    && f.kind != UnknownKind
    && IsNumber(f.sequence) && IsText(f.workspace) && IsNumber(f.opening)
    && (Level(f.kind) >= 1 ==> IsText(f.attempt) && IsOrdinal(f.openingOrdinal))
    && (Level(f.kind) >= 2 ==> IsText(f.inventoryRevision))
    && (Level(f.kind) >= 3 ==> IsOrdinal(f.operationOrdinal))
    && (Level(f.kind) >= 4 ==> IsOrdinal(f.readyOrdinal))
    && (Selects(f.kind) ==> IsText(f.sessionId) && IsText(f.providerId) && IsText(f.locator))
    && (Selects(f.kind) && f.kind != SourceSelected ==> IsText(f.projectId))
    && (f.kind.DownloadResult? ==> f.outcome.Raised? || (f.outcome.Returned? && f.outcome.result != UnknownResult))
  }

  function StringField(key: string, raw: Raw): Field
    requires IsText(raw)
  {
    Field(Lit(key), Str(raw.text))
  }

  function NumberField(key: string, raw: Raw): Field
    requires IsNumber(raw)
  {
    Field(Lit(key), Num(raw.n))
  }

  function OwnerFields(f: Fact): Fields
    requires Shaped(f)
  {
    [StringField("workspace", f.workspace), NumberField("opening", f.opening)]
    + (if Level(f.kind) >= 1 then [StringField("attempt", f.attempt), NumberField("openingOrdinal", f.openingOrdinal)] else [])
    + (if Level(f.kind) >= 2 then [StringField("inventoryRevision", f.inventoryRevision)] else [])
    + (if Level(f.kind) >= 3 then [NumberField("operationOrdinal", f.operationOrdinal)] else [])
    + (if Level(f.kind) >= 4 then [NumberField("readyOrdinal", f.readyOrdinal)] else [])
  }

  function SelectionFields(f: Fact): Fields
    requires Shaped(f)
  {
    (if !Selects(f.kind) then [] else [
      StringField("sessionId", f.sessionId), StringField("providerId", f.providerId), StringField("locator", f.locator)])
    + (if f.kind == ProjectSelected || f.kind == TransferVerified then [StringField("projectId", f.projectId)] else [])
  }

  function OutcomeFields(f: Fact): Fields
    requires Shaped(f)
  {
    if f.kind != DownloadResult then []
    else [Field(Lit("outcome"), Obj(
      match f.outcome
      case Raised => [Field(Lit("kind"), Str(Lit("raised")))]
      case Returned(result) => [Field(Lit("kind"), Str(Lit("returned"))), Field(Lit("result"), Str(ResultText(result)))]
      case UnknownOutcome => []))]
  }

  function FactFields(f: Fact): Fields
    requires Shaped(f)
  {
    [Field(Lit("kind"), Str(KindText(f.kind))), Field(Lit("actual"), Obj(OwnerFields(f)))]
    + SelectionFields(f) + OutcomeFields(f) + [NumberField("sequence", f.sequence)]
  }

  /** The journal's private copy of a fact, or the `shape` fault. */
  function Snapshot(f: Fact): Option<Captured> {
    if Shaped(f) then Some(Captured(f.sequence.n, FactFields(f))) else None
  }

  /** The tree of the END record. */
  function EndFields(facts: nat): Fields {
    [Field(Lit("lastSequence"), Num(facts)),
     Field(Lit("observer"), Obj([Field(Lit("kind"), Str(Lit("closed")))]))]
  }

  /** What a fact says: its properties, with those its kind does not have blanked. */
  function Content(f: Fact): Fact
    requires Shaped(f)
  {
    var selects, level := Selects(f.kind), Level(f.kind);
    Fact(f.kind, f.sequence, f.workspace, f.opening,
      if level >= 1 then f.attempt else ROther, if level >= 1 then f.openingOrdinal else ROther,
      if level >= 2 then f.inventoryRevision else ROther,
      if level >= 3 then f.operationOrdinal else ROther,
      if level >= 4 then f.readyOrdinal else ROther,
      if selects then f.sessionId else ROther, if selects then f.providerId else ROther,
      if selects then f.locator else ROther,
      if selects && f.kind != SourceSelected then f.projectId else ROther,
      if f.kind == DownloadResult then f.outcome else UnknownOutcome)
  }

  // ---- Nothing a fact says is lost by the snapshot.

  lemma KindTextInjective(a: Kind, b: Kind)
    requires KindText(a) == KindText(b)
    ensures a == b
  {
    var s, t := KindText(a), KindText(b);
    if |s| == 14 { assert s[0] == t[0]; }
    if |s| == 15 { assert s[0] == t[0]; }
    if |s| == 16 { assert s[0] == t[0]; }
    if |s| == 17 { assert s[0] == t[0]; }
  }

  lemma OwnerInjective(a: Fact, b: Fact)
    requires Shaped(a) && Shaped(b) && a.kind == b.kind && OwnerFields(a) == OwnerFields(b)
    ensures a.workspace == b.workspace && a.opening == b.opening
    ensures Level(a.kind) >= 1 ==> a.attempt == b.attempt && a.openingOrdinal == b.openingOrdinal
    ensures Level(a.kind) >= 2 ==> a.inventoryRevision == b.inventoryRevision
    ensures Level(a.kind) >= 3 ==> a.operationOrdinal == b.operationOrdinal
    ensures Level(a.kind) >= 4 ==> a.readyOrdinal == b.readyOrdinal
  {
    var p, q := OwnerFields(a), OwnerFields(b);
    assert p[0] == q[0] && p[1] == q[1];
    if Level(a.kind) >= 1 { assert p[2] == q[2] && p[3] == q[3]; }
    if Level(a.kind) >= 2 { assert p[4] == q[4]; }
    if Level(a.kind) >= 3 { assert p[5] == q[5]; }
    if Level(a.kind) >= 4 { assert p[6] == q[6]; }
  }

  lemma SelectionInjective(a: Fact, b: Fact)
    requires Shaped(a) && Shaped(b) && a.kind == b.kind && Selects(a.kind) && SelectionFields(a) == SelectionFields(b)
    ensures a.sessionId == b.sessionId && a.providerId == b.providerId && a.locator == b.locator
    ensures a.kind != SourceSelected ==> a.projectId == b.projectId
  {
    var p, q := SelectionFields(a), SelectionFields(b);
    assert p[0] == q[0] && p[1] == q[1] && p[2] == q[2];
    if a.kind != SourceSelected { assert p[3] == q[3]; }
  }

  lemma OutcomeInjective(a: Fact, b: Fact)
    requires Shaped(a) && Shaped(b) && a.kind == b.kind == DownloadResult && OutcomeFields(a) == OutcomeFields(b)
    ensures a.outcome == b.outcome
  {
    var o, p := OutcomeFields(a)[0].value.fields, OutcomeFields(b)[0].value.fields;
    assert o == p;
    if a.outcome.Returned? {
      assert o[1] == p[1];
      assert |ResultText(a.outcome.result)| == |ResultText(b.outcome.result)|;
    }
  }

  lemma SelectionLength(a: Fact, b: Fact)
    requires Shaped(a) && Shaped(b) && a.kind == b.kind
    ensures |SelectionFields(a)| == |SelectionFields(b)|
  {
  }

  /** Equal trees have equal parts. */
  lemma FieldsSplit(a: Fact, b: Fact)
    requires Shaped(a) && Shaped(b) && FactFields(a) == FactFields(b)
    ensures a.kind == b.kind && OwnerFields(a) == OwnerFields(b) && a.sequence == b.sequence
    ensures SelectionFields(a) == SelectionFields(b) && OutcomeFields(a) == OutcomeFields(b)
  {
    var s, t := FactFields(a), FactFields(b);
    assert s[0] == t[0] && s[1] == t[1] && s[|s| - 1] == t[|t| - 1];
    KindTextInjective(a.kind, b.kind);
    SelectionLength(a, b);
    hide KindText, OwnerFields, SelectionFields, OutcomeFields;
    var n := |SelectionFields(a)|;
    assert s[2..2 + n] == SelectionFields(a) && t[2..2 + n] == SelectionFields(b);
    assert s[2 + n..|s| - 1] == OutcomeFields(a) && t[2 + n..|t| - 1] == OutcomeFields(b);
  }

  /** The tree determines everything the fact says. */
  lemma SnapshotInjective(a: Fact, b: Fact)
    requires Shaped(a) && Shaped(b) && FactFields(a) == FactFields(b)
    ensures Content(a) == Content(b)
  {
    hide KindText, OwnerFields, SelectionFields, OutcomeFields;
    FieldsSplit(a, b);
    OwnerInjective(a, b);
    if Selects(a.kind) { SelectionInjective(a, b); }
    if a.kind == DownloadResult { OutcomeInjective(a, b); }
  }

  // ---- Sizes: fixed schema syntax and numbers fit 512 bytes, each variable unit needs at most six.

  /** Keys of printable ASCII without quote or backslash are written byte for byte. */
  predicate Plain(s: Text) { forall i :: 0 <= i < |s| ==> 32 <= s[i] < 0x80 && s[i] != 34 && s[i] != 92 }

  lemma {:induction false} PlainSize(s: Text)
    requires Plain(s)
    ensures |EncodeUnits(s)| == |s|
  {
    if s != [] {
      PlainSize(s[1..]);
    }
  }

  function Pow10(k: nat): nat { if k == 0 then 1 else 10 * Pow10(k - 1) }

  lemma {:induction false} DigitsSize(n: nat, k: nat)
    requires k > 0 && n < Pow10(k)
    ensures |Digits(n)| <= k
  {
    if n >= 10 {
      assert Pow10(1) == 10 * Pow10(0);
      DigitsSize(n / 10, k - 1);
    }
  }

  /** Every integer is safe and every key plain. */
  ghost predicate Bounded(fields: Fields)
    decreases fields, 0
  {
    fields == [] || (Plain(fields[0].key) && BoundedValue(fields[0].value) && Bounded(fields[1..]))
  }

  ghost predicate BoundedValue(value: Value)
    decreases value, 1
  {
    match value
    case Str(_) => true
    case Num(n) => n <= MAX_SAFE
    case Obj(fields) => Bounded(fields)
  }

  /** An upper bound on the bytes of a tree besides its variable text. */
  function Overhead(fields: Fields): nat
    decreases fields, 0
  {
    if fields == [] then 2 else |fields[0].key| + 4 + ValueOverhead(fields[0].value) + Overhead(fields[1..])
  }

  function ValueOverhead(value: Value): nat
    decreases value, 1
  {
    match value
    case Str(_) => 2
    case Num(_) => 16
    case Obj(fields) => Overhead(fields)
  }

  lemma {:induction false} ValueSize(value: Value)
    requires BoundedValue(value)
    ensures ValueUnits(value) <= |EncodeValue(value)| <= ValueOverhead(value) + 6 * ValueUnits(value)
    decreases value, 1
  {
    match value
    case Str(text) =>
    case Num(n) =>
      assert Pow10(8) == 100_000_000;
      assert Pow10(12) == 10_000 * Pow10(8);
      assert Pow10(16) == 10_000 * Pow10(12);
      DigitsSize(n, 16);
    case Obj(fields) =>
      TreeSize(fields);
  }

  lemma {:induction false} TailSize(fields: Fields)
    requires Bounded(fields)
    ensures UnitCount(fields) <= |EncodeTail(fields)| <= Overhead(fields) - 2 + 6 * UnitCount(fields)
    decreases fields, 0
  {
    if fields != [] {
      PlainSize(fields[0].key);
      ValueSize(fields[0].value);
      TailSize(fields[1..]);
    }
  }

  /** `units` never exceeds the encoded size, which never exceeds overhead plus six bytes a unit. */
  lemma {:induction false} TreeSize(fields: Fields)
    requires Bounded(fields)
    ensures UnitCount(fields) + 2 <= |EncodeObject(fields)| <= Overhead(fields) + 6 * UnitCount(fields)
    decreases fields, 1
  {
    if fields != [] {
      assert EncodeMembers(fields) == EncodeField(fields[0]) + EncodeTail(fields[1..]);
      PlainSize(fields[0].key);
      ValueSize(fields[0].value);
      TailSize(fields[1..]);
    }
  }

  // ---- The trees of the schema.

  lemma {:induction false} BoundedJoin(a: Fields, b: Fields)
    requires Bounded(a) && Bounded(b)
    ensures Bounded(a + b) && Overhead(a + b) == Overhead(a) + Overhead(b) - 2
    ensures UnitCount(a + b) == UnitCount(a) + UnitCount(b)
  {
    if a == [] {
      assert a + b == b;
    } else {
      BoundedJoin(a[1..], b);
      assert (a + b)[1..] == a[1..] + b;
    }
  }

  /** A tree with `overhead` bytes besides its variable text. */
  ghost predicate Fits(fields: Fields, overhead: int) { Bounded(fields) && Overhead(fields) <= overhead }

  lemma FitsEmpty()
    ensures Fits([], 2)
  {
  }

  lemma FitsJoin(a: Fields, b: Fields, m: int, n: int)
    requires Fits(a, m) && Fits(b, n)
    ensures Fits(a + b, m + n - 2)
  {
    BoundedJoin(a, b);
  }

  lemma FitsOne(key: Text, value: Value, n: int)
    requires Plain(key) && BoundedValue(value) && ValueOverhead(value) <= n
    ensures Fits([Field(key, value)], |key| + 6 + n)
  {
    var one := [Field(key, value)];
    assert one[1..] == [];
    FitsEmpty();
  }

  lemma FitsText(key: string, raw: Raw)
    requires IsText(raw) && Plain(Lit(key))
    ensures Fits([StringField(key, raw)], |key| + 8)
  {
    FitsOne(Lit(key), Str(raw.text), 2);
  }

  lemma FitsNumber(key: string, raw: Raw)
    requires IsNumber(raw) && Plain(Lit(key))
    ensures Fits([NumberField(key, raw)], |key| + 22)
  {
    FitsOne(Lit(key), Num(raw.n), 16);
  }

  lemma PlainLit(s: string)
    requires forall c <- s :: 'A' <= c <= 'z' && c != '\\'
    ensures Plain(Lit(s))
  {
    forall i | 0 <= i < |s| ensures 65 <= Lit(s)[i] < 123 && Lit(s)[i] != 92 {
      assert s[i] in s;
      assert s[i] as int != 92 by { assert s[i] != '\\'; assert '\\' as int == 92; }
    }
  }

  lemma OwnerKeys()
    ensures Plain(Lit("workspace")) && Plain(Lit("opening")) && Plain(Lit("attempt")) && Plain(Lit("openingOrdinal"))
    ensures Plain(Lit("inventoryRevision")) && Plain(Lit("operationOrdinal")) && Plain(Lit("readyOrdinal"))
  {
    PlainLit("workspace"); PlainLit("opening"); PlainLit("attempt"); PlainLit("openingOrdinal");
    PlainLit("inventoryRevision"); PlainLit("operationOrdinal"); PlainLit("readyOrdinal");
  }

  lemma OtherKeys()
    ensures Plain(Lit("kind")) && Plain(Lit("actual")) && Plain(Lit("sequence")) && Plain(Lit("outcome")) && Plain(Lit("result"))
    ensures Plain(Lit("sessionId")) && Plain(Lit("providerId")) && Plain(Lit("locator")) && Plain(Lit("projectId"))
    ensures Plain(Lit("lastSequence")) && Plain(Lit("observer"))
  {
    PlainLit("kind"); PlainLit("actual"); PlainLit("sequence"); PlainLit("outcome"); PlainLit("result");
    PlainLit("sessionId"); PlainLit("providerId"); PlainLit("locator"); PlainLit("projectId");
    PlainLit("lastSequence"); PlainLit("observer");
  }

  lemma VisitFits(f: Fact)
    requires Shaped(f)
    ensures Fits([StringField("workspace", f.workspace), NumberField("opening", f.opening)], 44)
  {
    OwnerKeys();
    FitsText("workspace", f.workspace);
    FitsNumber("opening", f.opening);
    FitsJoin([StringField("workspace", f.workspace)], [NumberField("opening", f.opening)], 17, 29);
    assert [StringField("workspace", f.workspace), NumberField("opening", f.opening)]
      == [StringField("workspace", f.workspace)] + [NumberField("opening", f.opening)];
  }

  lemma OpeningFits(f: Fact)
    requires Shaped(f) && Level(f.kind) >= 1
    ensures Fits([StringField("attempt", f.attempt), NumberField("openingOrdinal", f.openingOrdinal)], 49)
  {
    OwnerKeys();
    FitsText("attempt", f.attempt);
    FitsNumber("openingOrdinal", f.openingOrdinal);
    FitsJoin([StringField("attempt", f.attempt)], [NumberField("openingOrdinal", f.openingOrdinal)], 15, 36);
    assert [StringField("attempt", f.attempt), NumberField("openingOrdinal", f.openingOrdinal)]
      == [StringField("attempt", f.attempt)] + [NumberField("openingOrdinal", f.openingOrdinal)];
  }

  lemma OwnerFits(f: Fact)
    requires Shaped(f)
    ensures Fits(OwnerFields(f), 200)
  {
    var level := Level(f.kind);
    var o0 := [StringField("workspace", f.workspace), NumberField("opening", f.opening)];
    var o1 := if level >= 1 then [StringField("attempt", f.attempt), NumberField("openingOrdinal", f.openingOrdinal)] else [];
    var o2 := if level >= 2 then [StringField("inventoryRevision", f.inventoryRevision)] else [];
    var o3 := if level >= 3 then [NumberField("operationOrdinal", f.operationOrdinal)] else [];
    var o4 := if level >= 4 then [NumberField("readyOrdinal", f.readyOrdinal)] else [];
    assert Fits(o0, 44) by { VisitFits(f); }
    assert Fits(o1, 49) by { if level >= 1 { OpeningFits(f); } }
    assert Fits(o2, 25) by { OwnerKeys(); if level >= 2 { FitsText("inventoryRevision", f.inventoryRevision); } }
    assert Fits(o3, 38) by { OwnerKeys(); if level >= 3 { FitsNumber("operationOrdinal", f.operationOrdinal); } }
    assert Fits(o4, 34) by { OwnerKeys(); if level >= 4 { FitsNumber("readyOrdinal", f.readyOrdinal); } }
    FitsJoin(o0, o1, 44, 49);
    FitsJoin(o0 + o1, o2, 91, 25);
    FitsJoin(o0 + o1 + o2, o3, 114, 38);
    FitsJoin(o0 + o1 + o2 + o3, o4, 150, 34);
  }

  lemma SelectionFits(f: Fact)
    requires Shaped(f)
    ensures Fits(SelectionFields(f), 80)
  {
    if Selects(f.kind) {
      var s0, s1, s2 := StringField("sessionId", f.sessionId), StringField("providerId", f.providerId), StringField("locator", f.locator);
      var s3 := if f.kind == SourceSelected then [] else [StringField("projectId", f.projectId)];
      OtherKeys();
      FitsText("sessionId", f.sessionId);
      FitsText("providerId", f.providerId);
      FitsText("locator", f.locator);
      FitsJoin([s0], [s1], 17, 18);
      FitsJoin([s0] + [s1], [s2], 33, 15);
      assert Fits(s3, 17) by { if f.kind != SourceSelected { FitsText("projectId", f.projectId); } }
      FitsJoin([s0] + [s1] + [s2], s3, 46, 17);
      assert SelectionFields(f) == [s0] + [s1] + [s2] + s3;
    }
  }

  lemma OutcomeFits(f: Fact)
    requires Shaped(f)
    ensures Fits(OutcomeFields(f), 60)
  {
    if f.kind == DownloadResult {
      var kind := Field(Lit("kind"), Str(if f.outcome.Raised? then Lit("raised") else Lit("returned")));
      var result := if f.outcome.Raised? then [] else [Field(Lit("result"), Str(ResultText(f.outcome.result)))];
      OtherKeys();
      FitsOne(kind.key, kind.value, 2);
      assert Fits(result, 14) by { if f.outcome.Returned? { FitsOne(Lit("result"), result[0].value, 2); } }
      FitsJoin([kind], result, 12, 14);
      FitsOne(Lit("outcome"), Obj([kind] + result), 24);
      assert OutcomeFields(f)[0].value.fields == [kind] + result;
    }
  }

  /** Main result: every tree the snapshot builds fits the journal's measure of it. */
  lemma FactSize(f: Fact)
    requires Shaped(f)
    ensures Bounded(FactFields(f))
    ensures UnitCount(FactFields(f)) + 2 <= |EncodeObject(FactFields(f))| <= 512 + 6 * UnitCount(FactFields(f))
  {
    var kind, actual := Field(Lit("kind"), Str(KindText(f.kind))), Field(Lit("actual"), Obj(OwnerFields(f)));
    var sequence := NumberField("sequence", f.sequence);
    OtherKeys();
    OwnerFits(f);
    SelectionFits(f);
    OutcomeFits(f);
    FitsOne(kind.key, kind.value, 2);
    FitsOne(actual.key, actual.value, 200);
    FitsNumber("sequence", f.sequence);
    FitsJoin([kind], [actual], 12, 212);
    FitsJoin([kind] + [actual], SelectionFields(f), 222, 80);
    FitsJoin([kind] + [actual] + SelectionFields(f), OutcomeFields(f), 300, 60);
    FitsJoin([kind] + [actual] + SelectionFields(f) + OutcomeFields(f), [sequence], 358, 30);
    assert FactFields(f) == [kind] + [actual] + SelectionFields(f) + OutcomeFields(f) + [sequence];
    TreeSize(FactFields(f));
  }

  lemma EndSize(facts: nat)
    requires facts <= MAX_SAFE
    ensures Bounded(EndFields(facts)) && UnitCount(EndFields(facts)) == 6
    ensures 8 <= |EncodeObject(EndFields(facts))| <= 512
  {
    var last := Field(Lit("lastSequence"), Num(facts));
    var kind := Field(Lit("kind"), Str(Lit("closed")));
    var observer := Field(Lit("observer"), Obj([kind]));
    OtherKeys();
    FitsOne(kind.key, kind.value, 2);
    FitsOne(observer.key, observer.value, 12);
    FitsOne(last.key, last.value, 16);
    FitsJoin([last], [observer], 34, 26);
    assert EndFields(facts) == [last] + [observer];
    BoundedJoin([last], [observer]);
    assert [last][1..] == [] && [observer][1..] == [] && [kind][1..] == [];
    assert UnitCount([kind]) == ValueUnits(kind.value) == 6;
    assert UnitCount([observer]) == ValueUnits(observer.value) == UnitCount([kind]);
    TreeSize(EndFields(facts));
  }
}
