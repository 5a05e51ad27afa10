/** The journal over one fixed byte array and its descriptors. */
module ProductJournal {
  import opened Text
  import opened JsonText
  import opened JsonBytes
  import opened ProductFacts
  import opened Mirror
  import opened JournalModel

  type U32 = n: int | 0 <= n <= U32_MAX

  class JournalRecord {
    const offset: nat
    const byteLength: nat

    constructor (offset: nat, byteLength: nat)
      ensures this.offset == offset && this.byteLength == byteLength
    {
      this.offset := offset;
      this.byteLength := byteLength;
    }
  }

  lemma WriterImage(writer: JsonWriter, text: Bytes)
    requires writer.Valid() && writer.out == [] + text && writer.destination != null
    ensures writer.destination[..] == Overwrite(writer.before, writer.start, text)
  {
    assert [] + text == text;
  }

  class ProductJournal {
    var used: nat
    var records: nat
    var facts: nat
    var cursor: nat
    var ended: bool
    var first: Option<Fault>
    var current: JournalRecord?
    const bytes: array<Byte>
    const descriptors: array<U32>
    const frameBytes: nat
    const mirror: MirrorCell
    ghost const limits: Limits
    ghost var entries: seq<Entry>

    ghost function Repr(): set<object> { {this, bytes, descriptors, mirror} }

    ghost predicate Sized()
      reads this`used, this`records, this`entries
    {
      && bytes as object != descriptors as object
      && limits == Limits(limits.records, bytes.Length, frameBytes)
      && descriptors.Length == 2 * limits.records && bytes.Length <= U32_MAX
      && records == |entries| <= limits.records
      && used == |Flatten(entries)| <= bytes.Length
    }

    /** Descriptors tile the used part of the backing, which holds the frames themselves. */
    ghost predicate Tiled()
      requires Sized()
      reads this`used, this`records, this`entries, bytes, descriptors
    {
      && bytes[..used] == Flatten(entries)
      && forall i :: 0 <= i < records ==>
        descriptors[2 * i] == |Flatten(entries[..i])| && descriptors[2 * i + 1] == |Frame(entries[i])|
    }

    ghost predicate Pointed()
      reads this`cursor, this`entries, this`current
    {
      && cursor <= |entries|
      && (current != null ==>
        && cursor < |entries|
        && current.offset == |Flatten(entries[..cursor])| && current.byteLength == |Frame(entries[cursor])|)
    }

    ghost predicate Valid()
      reads Repr()
    {
      Sized() && Tiled() && Pointed()
    }

    ghost function View(): Journal
      reads this, mirror
    {
      Journal(limits, entries, facts, cursor, ended, first, current != null, mirror.credit)
    }

    constructor (bytes: array<Byte>, descriptors: array<U32>, frameBytes: nat, mirror: MirrorCell, ghost limits: Limits)
      requires bytes as object != descriptors as object
      requires limits == Limits(limits.records, bytes.Length, frameBytes)
      requires descriptors.Length == 2 * limits.records && bytes.Length <= U32_MAX
      ensures Valid() && View() == Journal(limits, [], 0, 0, false, None, false, mirror.credit)
      ensures this.bytes == bytes && this.descriptors == descriptors && this.mirror == mirror
    {
      this.bytes, this.descriptors, this.frameBytes, this.mirror := bytes, descriptors, frameBytes, mirror;
      this.limits, entries := limits, [];
      used, records, facts, cursor := 0, 0, 0, 0;
      ended, first, current := false, None, null;
    }

    method SetFault(cause: Fault)
      requires Valid()
      modifies this`first
      ensures Valid() && View() == old(Fail(View(), cause))
    {
      hide Tiled, Pointed;
      if first == None {
        first := Some(cause);
      }
    }

    method Reserve(slots: int, visits: int) returns (ok: bool)
      requires Valid()
      modifies this`first, mirror
      ensures Valid()
      ensures ok == old(Pay(View(), slots, visits)).ok && View() == old(Pay(View(), slots, visits)).journal
    {
      hide Tiled, Pointed;
      if first.Some? {
        return false;
      }
      ok := mirror.Take(0, slots, visits);
      if !ok {
        SetFault(Funding);
      }
    }

    method SetWord(at: nat, value: nat)
      requires at + 4 <= bytes.Length
      modifies bytes
      ensures forall i :: 0 <= i < bytes.Length ==>
        bytes[i] == if at <= i < at + 4 then Be32(value)[i - at] else old(bytes[i])
    {
      bytes[at] := value / 0x1000000 % 0x100;
      bytes[at + 1] := value / 0x10000 % 0x100;
      bytes[at + 2] := value / 0x100 % 0x100;
      bytes[at + 3] := value % 0x100;
    }

    method SetHeader(at: nat, kind: Byte, sequence: nat, length: nat)
      requires at + 16 <= bytes.Length
      modifies bytes
      ensures bytes[..] == Overwrite(old(bytes[..]), at, Header(kind, sequence, length))
    {
      hide Be32;
      bytes[at] := 1;
      bytes[at + 1] := kind;
      bytes[at + 2] := 0;
      bytes[at + 3] := 0;
      SetWord(at + 4, sequence / 0x1_0000_0000);
      SetWord(at + 8, sequence % 0x1_0000_0000);
      SetWord(at + 12, length);
      ghost var h := Header(kind, sequence, length);
      HeaderParts(kind, sequence, length);
      forall i | at <= i < at + 16 ensures bytes[i] == h[i - at] {
        if i < at + 4 { assert h[i - at] == h[..4][i - at]; }
        else if i < at + 8 { assert h[i - at] == h[4..8][i - at - 4]; }
        else if i < at + 12 { assert h[i - at] == h[8..12][i - at - 8]; }
        else { assert h[i - at] == h[12..][i - at - 12]; }
      }
    }

    /** Writing one frame behind the used part leaves every earlier frame as it was. */
    method WriteFrame(e: Entry, length: nat)
      requires used + |Frame(e)| <= bytes.Length && length == |EncodeObject(e.fields)|
      modifies bytes
      ensures bytes[..] == Overwrite(old(bytes[..]), used, Frame(e))
    {
      hide EncodeObject, Overwrite, Header;
      HeaderParts(e.kind, e.sequence, length);
      SetHeader(used, e.kind, e.sequence, length);
      var writer := new JsonWriter(bytes, used + 16);
      writer.Object(e.fields);
      WriterImage(writer, EncodeObject(e.fields));
      OverwriteTwice(old(bytes[..]), used, Header(e.kind, e.sequence, length), EncodeObject(e.fields));
    }

    method Append(kind: Byte, sequence: nat, fields: Fields) returns (stored: bool, thrown: bool)
      requires Valid()
      modifies Repr()
      ensures Valid()
      ensures var r := old(JournalModel.Append(View(), Entry(kind, sequence, fields)));
        View() == r.journal && stored == r.Stored? && thrown == r.Thrown?
      ensures current == old(current)
    {
      hide Tiled, Pointed, Flatten, Frame, EncodeObject, UnitCount;
      stored, thrown := false, false;
      if first.Some? {
        return;
      }
      if ended {
        SetFault(AfterEnd);
        return;
      }
      if records >= descriptors.Length / 2 {
        SetFault(Capacity);
        return;
      }
      var counted := Units(fields);
      if counted == None || Upper(counted.value) > MAX_SAFE || AppendVisits(counted.value) > MAX_SAFE {
        return false, true;
      }
      var upper := Upper(counted.value);
      var paid := Reserve(4, AppendVisits(counted.value));
      if !paid {
        return;
      }
      var measure := new JsonWriter(null, 0);
      measure.Object(fields);
      if measure.offset > upper {
        SetFault(SizeOverflow);
        return;
      }
      if 16 + measure.offset > MAX_SAFE {
        return false, true;
      }
      var length := 16 + measure.offset;
      if length > frameBytes || length > bytes.Length - used {
        SetFault(Capacity);
        return;
      }
      FrameSize(Entry(kind, sequence, fields));
      Commit(Entry(kind, sequence, fields), length);
      stored := true;
    }

    method Commit(e: Entry, length: nat)
      requires Valid() && records < limits.records
      requires length == |Frame(e)| && used + length <= bytes.Length
      modifies Repr()
      ensures Valid() && View() == old(View()).(entries := old(entries) + [e]) && current == old(current)
    {
      hide Frame, Flatten, Overwrite;
      ghost var was := bytes[..];
      FrameSize(e);
      WriteFrame(e, length - 16);
      OverwriteFits(was, used, Frame(e));
      FlattenSnoc(entries, e);
      assert bytes[..used + length] == Flatten(entries) + Frame(e) by {
        assert bytes[..used] == was[..used];
        assert bytes[used..used + length] == Frame(e);
      }
      descriptors[records * 2] := used;
      descriptors[records * 2 + 1] := length;
      used := used + length;
      records := records + 1;
      entries := entries + [e];
      forall i | 0 <= i < records
        ensures descriptors[2 * i] == |Flatten(entries[..i])| && descriptors[2 * i + 1] == |Frame(entries[i])|
      {
        assert entries[..i] == old(entries)[..i];
      }
      assert entries[..cursor] == old(entries)[..cursor];
    }

    method Receive(fact: Fact)
      requires Valid()
      modifies Repr()
      ensures Valid() && View() == old(JournalModel.Receive(View(), fact)) && current == old(current)
    {
      hide Tiled, Pointed, Flatten, JournalModel.Append, Shaped, FactFields;
      if first.Some? {
        return;
      }
      if ended {
        SetFault(AfterEnd);
        return;
      }
      if records >= descriptors.Length / 2 {
        SetFault(Capacity);
        return;
      }
      var paid := Reserve(96, 96);
      if !paid {
        return;
      }
      var captured := Snapshot(fact);
      if captured == None {
        SetFault(Shape);
      } else if facts + 1 > MAX_SAFE {
        SetFault(SizeOverflow);
      } else if captured.value.sequence != facts + 1 {
        SetFault(OutOfSequence);
      } else {
        var stored, thrown := Append(FACT, captured.value.sequence, captured.value.fields);
        if thrown {
          SetFault(SizeOverflow);
        }
        if stored {
          facts := facts + 1;
        }
      }
    }

    method End(actual: ObserverState)
      requires Valid()
      modifies Repr()
      ensures Valid() && View() == old(JournalModel.End(View(), actual)) && current == old(current)
    {
      hide Tiled, Pointed, Flatten, JournalModel.Append, EndFields;
      if first.Some? {
        return;
      }
      if ended {
        SetFault(AfterEnd);
        return;
      }
      var paid := Reserve(8, 8);
      if !paid {
        return;
      }
      if actual != ObserverClosed {
        SetFault(EndState);
      } else if facts + 1 > MAX_SAFE {
        SetFault(Encoding);
      } else {
        var stored, thrown := Append(END, facts + 1, EndFields(facts));
        if thrown {
          SetFault(Encoding);
        }
        if stored {
          ended := true;
        }
      }
    }

    method Pending() returns (next: Next, record: JournalRecord?)
      requires Valid()
      modifies this`first, this`current, mirror
      ensures Valid() && View() == old(JournalModel.Pending(View()).1)
      ensures next == old(JournalModel.Pending(View()).0)
      ensures record == if next == Record then current else null
      ensures old(current) != null ==> current == old(current)
    {
      hide Flatten, Frame;
      record := null;
      if first.Some? {
        return Incomplete(first.value), null;
      }
      if current != null {
        return Record, current;
      }
      if cursor == records {
        return Empty, null;
      }
      var paid := Reserve(2, 2);
      if !paid {
        return Incomplete(Funding), null;
      }
      current := new JournalRecord(descriptors[cursor * 2], descriptors[cursor * 2 + 1]);
      return Record, current;
    }

    method CopyBytes(at: nat, length: nat, destination: array<Byte>)
      requires at + length <= bytes.Length && length <= destination.Length && destination != bytes
      modifies destination
      ensures destination[..] == bytes[at..at + length] + old(destination[length..])
    {
      for i := 0 to length
        invariant destination[..i] == bytes[at..at + i]
        invariant destination[i..] == old(destination[..])[i..]
      {
        destination[i] := bytes[at + i];
      }
    }

    lemma CurrentBytes()
      requires Valid() && current != null
      ensures current.offset + current.byteLength <= bytes.Length
      ensures bytes[current.offset..current.offset + current.byteLength] == Frame(entries[cursor])
    {
      hide Frame, Flatten;
      FlattenPrefix(entries, cursor);
      var at, end := current.offset, current.offset + current.byteLength;
      assert bytes[at..end] == bytes[..used][at..end];
    }

    /** Copies the current record, and only that one, into the front of the destination. */
    method CopyInto(record: JournalRecord, destination: array<Byte>) returns (copied: bool)
      requires Valid() && destination != bytes && destination as object != descriptors as object
      modifies this`first, mirror, destination
      ensures Valid()
      ensures copied == old(Copy(View(), record == current, record.byteLength, destination.Length)).ok
      ensures View() == old(Copy(View(), record == current, record.byteLength, destination.Length)).journal
      ensures !copied ==> destination[..] == old(destination[..])
      ensures copied ==> record == current && record.byteLength == |Frame(entries[cursor])| <= destination.Length
      ensures copied ==> destination[..] == Frame(entries[cursor]) + old(destination[record.byteLength..])
      ensures copied <==> old(first.None? && record == current && record.byteLength <= destination.Length
        && Covers(mirror.credit, 0, 0, 2 * record.byteLength))
      ensures old(first.None?) && !copied ==>
        first == Some(if record != current then ForeignRecord else if record.byteLength > destination.Length then Destination else Funding)
    {
      hide Tiled, Flatten, Frame;
      copied := false;
      if first.Some? {
        return;
      }
      if current != record {
        SetFault(ForeignRecord);
        return;
      }
      if destination.Length < record.byteLength {
        SetFault(Destination);
        return;
      }
      copied := Reserve(0, record.byteLength * 2);
      if !copied {
        return;
      }
      CurrentBytes();
      CopyBytes(record.offset, record.byteLength, destination);
    }

    method Advance(record: JournalRecord) returns (advanced: bool)
      requires Valid()
      modifies this
      ensures Valid()
      ensures var r := old(JournalModel.Advance(View(), record == current)); advanced == r.ok && View() == r.journal
      ensures unchanged(this`entries) && (!advanced ==> current == old(current))
      ensures advanced <==> old(first.None? && current != null && record == current)
      ensures cursor == old(cursor) + (if advanced then 1 else 0) && (advanced ==> current == null)
      ensures old(first.None?) && !advanced ==> first == Some(ForeignRecord)
    {
      hide Tiled, Flatten, Frame;
      if first.Some? {
        return false;
      }
      if current == null || record != current {
        SetFault(ForeignRecord);
        return false;
      }
      current := null;
      cursor := cursor + 1;
      return true;
    }

    method Lose()
      requires Valid()
      modifies this`first
      ensures Valid() && View() == old(JournalModel.Lose(View()))
      ensures first == if old(first.None?) then Some(Loss) else old(first)
    {
      hide Valid;
      SetFault(Loss);
    }

    method Close()
      requires Valid()
      modifies this`first
      ensures Valid() && View() == old(JournalModel.Close(View()))
      ensures first == if old(first.None?) && !ended then Some(MissingEnd) else old(first)
    {
      hide Valid;
      if !ended {
        SetFault(MissingEnd);
      }
    }
  }
}
