/** The journal as a value: its records in order, its cursor, its first fault and its credit. */
module JournalModel {
  import opened Text
  import opened JsonText
  import opened ProductFacts
  import opened Mirror

  datatype Fault =
    | Funding | Capacity | Shape | OutOfSequence | SizeOverflow | Encoding | EndState | AfterEnd
    | ForeignRecord | Destination | Loss | MissingEnd

  datatype ObserverState = ObserverUnobserved | ObserverActive | ObserverClosed | ObserverIncomplete

  datatype Limits = Limits(records: nat, journalBytes: nat, frameBytes: nat)

  const FACT: Byte := 1
  const END: Byte := 2

  datatype Entry = Entry(kind: Byte, sequence: nat, fields: Fields)

  function Be32(n: nat): Bytes {
    [n / 0x1000000 % 0x100, n / 0x10000 % 0x100, n / 0x100 % 0x100, n % 0x100]
  }

  /** Version, kind, two zero bytes, the 64-bit sequence as two words, and the body length. */
  function Header(kind: Byte, sequence: nat, length: nat): Bytes {
    [1, kind, 0, 0] + Be32(sequence / 0x1_0000_0000) + Be32(sequence % 0x1_0000_0000) + Be32(length)
  }

  function Frame(e: Entry): Bytes {
    var body := EncodeObject(e.fields);
    Header(e.kind, e.sequence, |body|) + body
  }

  /** The journal's backing: every frame behind the other. */
  function Flatten(entries: seq<Entry>): Bytes {
    if entries == [] then [] else Flatten(entries[..|entries| - 1]) + Frame(entries[|entries| - 1])
  }

  /** `holding` says that the record at the cursor was handed out and not yet advanced over. */
  datatype Journal = Journal(
    limits: Limits, entries: seq<Entry>, facts: nat, cursor: nat, ended: bool,
    first: Option<Fault>, holding: bool, credit: Credit)

  function Fail(j: Journal, fault: Fault): Journal {
    if j.first.Some? then j else j.(first := Some(fault))
  }

  datatype Charged = Charged(ok: bool, journal: Journal)

  function Pay(j: Journal, slots: int, visits: int): Charged {
    if j.first.Some? then Charged(false, j)
    else
      var paid := j.(credit := Spend(j.credit, 0, slots, visits));
      if Covers(j.credit, 0, slots, visits) then Charged(true, paid) else Charged(false, Fail(paid, Funding))
  }

  /** The measure bound of a tree with `count` variable units, and the visits it is charged for. */
  function Upper(count: nat): nat { 512 + 6 * count }

  function AppendVisits(count: nat): nat { Upper(count) * 8 + count * 16 + 24 }

  /** A checked sum or product overflowed: an exception, not yet a fault. */
  datatype Appended = Stored(journal: Journal) | Refused(journal: Journal) | Thrown(journal: Journal)

  function Append(j: Journal, e: Entry): (r: Appended)
    ensures r.journal == j.(entries := r.journal.entries, first := r.journal.first, credit := r.journal.credit)
    ensures r.journal.entries == if r.Stored? then j.entries + [e] else j.entries
    ensures if r.Stored? then r.journal.first == j.first == None else r.Refused? ==> r.journal.first.Some?
  {
    if j.first.Some? then Refused(j)
    else if j.ended then Refused(Fail(j, AfterEnd))
    else if |j.entries| >= j.limits.records then Refused(Fail(j, Capacity))
    else
      var count := UnitCount(e.fields);
      if count > MAX_SAFE || Upper(count) > MAX_SAFE || AppendVisits(count) > MAX_SAFE then Thrown(j)
      else
        var paid := Pay(j, 4, AppendVisits(count));
        if !paid.ok then Refused(paid.journal)
        else
          var size := |EncodeObject(e.fields)|;
          if size > Upper(count) then Refused(Fail(paid.journal, SizeOverflow))
          else if 16 + size > MAX_SAFE then Thrown(paid.journal)
          else if 16 + size > j.limits.frameBytes || 16 + size > j.limits.journalBytes - |Flatten(j.entries)| then
            Refused(Fail(paid.journal, Capacity))
          else Stored(paid.journal.(entries := j.entries + [e]))
  }

  function Receive(j: Journal, fact: Fact): (r: Journal)
    ensures r.limits == j.limits && r.cursor == j.cursor && r.holding == j.holding && j.entries <= r.entries
  {
    if j.first.Some? then j
    else if j.ended then Fail(j, AfterEnd)
    else if |j.entries| >= j.limits.records then Fail(j, Capacity)
    else
      var paid := Pay(j, 96, 96);
      if !paid.ok then paid.journal
      else match Snapshot(fact)
        case None => Fail(paid.journal, Shape)
        case Some(captured) =>
          if j.facts + 1 > MAX_SAFE then Fail(paid.journal, SizeOverflow)
          else if captured.sequence != j.facts + 1 then Fail(paid.journal, OutOfSequence)
          else match Append(paid.journal, Entry(FACT, captured.sequence, captured.fields))
            case Stored(journal) => journal.(facts := j.facts + 1)
            case Refused(journal) => journal
            case Thrown(journal) => Fail(journal, SizeOverflow)
  }

  function End(j: Journal, actual: ObserverState): (r: Journal)
    ensures r.limits == j.limits && r.cursor == j.cursor && r.holding == j.holding && j.entries <= r.entries
  {
    if j.first.Some? then j
    else if j.ended then Fail(j, AfterEnd)
    else
      var paid := Pay(j, 8, 8);
      if !paid.ok then paid.journal
      else if actual != ObserverClosed then Fail(paid.journal, EndState)
      else if j.facts + 1 > MAX_SAFE then Fail(paid.journal, Encoding)
      else match Append(paid.journal, Entry(END, j.facts + 1, EndFields(j.facts)))
        case Stored(journal) => journal.(ended := true)
        case Refused(journal) => journal
        case Thrown(journal) => Fail(journal, Encoding)
  }

  datatype Next = Incomplete(first: Fault) | Record | Empty

  function Pending(j: Journal): (Next, Journal) {
    if j.first.Some? then (Incomplete(j.first.value), j)
    else if j.holding then (Record, j)
    else if j.cursor == |j.entries| then (Empty, j)
    else
      var paid := Pay(j, 2, 2);
      if paid.ok then (Record, paid.journal.(holding := true)) else (Incomplete(Funding), paid.journal)
  }

  /**
    Copying a record into a destination of `capacity` bytes. `actual` says that the record is
    the one handed out for the cursor, of which `length` bytes are copied.
   */
  function Copy(j: Journal, actual: bool, length: nat, capacity: nat): Charged {
    if j.first.Some? then Charged(false, j)
    else if !actual then Charged(false, Fail(j, ForeignRecord))
    else if capacity < length then Charged(false, Fail(j, Destination))
    else Pay(j, 0, 2 * length)
  }

  function Advance(j: Journal, actual: bool): Charged {
    if j.first.Some? then Charged(false, j)
    else if !j.holding || !actual then Charged(false, Fail(j, ForeignRecord))
    else Charged(true, j.(holding := false, cursor := j.cursor + 1))
  }

  function Lose(j: Journal): Journal { Fail(j, Loss) }

  function Close(j: Journal): Journal { if j.ended then j else Fail(j, MissingEnd) }

  // ---- Frames.

  lemma HeaderParts(kind: Byte, sequence: nat, length: nat)
    ensures var h := Header(kind, sequence, length);
      && |h| == 16 && h[..4] == [1, kind, 0, 0]
      && h[4..8] == Be32(sequence / 0x1_0000_0000) && h[8..12] == Be32(sequence % 0x1_0000_0000) && h[12..] == Be32(length)
  {
  }

  lemma FrameSize(e: Entry)
    ensures |Frame(e)| == 16 + |EncodeObject(e.fields)|
  {
    HeaderParts(e.kind, e.sequence, |EncodeObject(e.fields)|);
  }

  lemma FlattenSnoc(entries: seq<Entry>, e: Entry)
    ensures Flatten(entries + [e]) == Flatten(entries) + Frame(e)
  {
    assert (entries + [e])[..|entries|] == entries;
  }

  lemma {:induction false} FlattenPrefix(entries: seq<Entry>, i: nat)
    requires i < |entries|
    ensures var at := |Flatten(entries[..i])|;
      && at + |Frame(entries[i])| <= |Flatten(entries)|
      && Flatten(entries)[..at] == Flatten(entries[..i])
      && Flatten(entries)[at..at + |Frame(entries[i])|] == Frame(entries[i])
    decreases |entries|
  {
    hide Frame;
    var init := entries[..|entries| - 1];
    if i < |entries| - 1 {
      FlattenPrefix(init, i);
      assert init[..i] == entries[..i] && init[i] == entries[i];
      var at := |Flatten(entries[..i])|;
      var whole, part := Flatten(entries), Flatten(init);
      assert whole[..|part|] == part;
      assert whole[..at] == part[..at];
      assert whole[at..at + |Frame(entries[i])|] == part[at..at + |Frame(entries[i])|];
    }
  }

  function Word(b: Bytes, at: nat): nat
    requires at + 4 <= |b|
  {
    b[at] as int * 0x1000000 + b[at + 1] as int * 0x10000 + b[at + 2] as int * 0x100 + b[at + 3]
  }

  /** `getBigUint64`. */
  function Wide(b: Bytes, at: nat): nat
    requires at + 8 <= |b|
  {
    Word(b, at) * 0x1_0000_0000 + Word(b, at + 4)
  }

  lemma Be32Reads(n: nat)
    requires n <= U32_MAX
    ensures Word(Be32(n), 0) == n
  {
    var q, r := n / 0x100, n / 0x10000;
    assert r == q / 0x100 && n / 0x1000000 == r / 0x100;
    assert n == q * 0x100 + n % 0x100;
    assert q == r * 0x100 + q % 0x100;
    assert r == r / 0x100 * 0x100 + r % 0x100;
  }

  /** The header of a frame reads back as written. */
  lemma HeaderReads(kind: Byte, sequence: nat, length: nat, rest: Bytes)
    requires sequence <= MAX_SAFE && length <= U32_MAX
    ensures var b := Header(kind, sequence, length) + rest;
      && |Header(kind, sequence, length)| == 16
      && b[0] == 1 && b[1] == kind && b[2] == 0 && b[3] == 0
      && Wide(b, 4) == sequence && Word(b, 12) == length
  {
    var b := Header(kind, sequence, length) + rest;
    var high, low := sequence / 0x1_0000_0000, sequence % 0x1_0000_0000;
    Be32Reads(high);
    Be32Reads(low);
    Be32Reads(length);
    assert b[4..8] == Be32(high) && b[8..12] == Be32(low) && b[12..16] == Be32(length);
    WordAt(b, 4, Be32(high));
    WordAt(b, 8, Be32(low));
    WordAt(b, 12, Be32(length));
  }

  lemma WordAt(b: Bytes, at: nat, word: Bytes)
    requires at + 4 <= |b| && b[at..at + 4] == word
    ensures Word(b, at) == Word(word, 0)
  {
    assert b[at] == word[0] && b[at + 1] == word[1] && b[at + 2] == word[2] && b[at + 3] == word[3];
  }
}
