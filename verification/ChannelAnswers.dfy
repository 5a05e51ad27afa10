/** What the channel answers to a control frame, read off the bytes that arrived, and off whole runs of them. */
module ChannelAnswers {
  import opened Text
  import opened JsonText
  import opened ProductFacts
  import opened Mirror
  import opened JournalModel
  import opened ChannelModel
  import opened JournalSafety
  import opened ChannelSafety
  import opened ChannelRuns
  import opened PoliteRuns

  /** The bytes say ACK or STOP of a sequence: a header of that kind with no body. */
  predicate Says(data: Option<Bytes>, kind: Byte, sequence: nat) {
    (kind == ACK || kind == STOP) && sequence <= MAX_SAFE && data == Some(Header(kind, sequence, 0))
  }

  /** The record that was sent last and not acknowledged yet. */
  function Unacknowledged(c: Channel): Option<nat> {
    if c.log != [] && c.log[|c.log| - 1].Sent? then Some(c.log[|c.log| - 1].sequence) else None
  }

  /** The last acknowledged record, zero before the first. */
  function LastAcknowledged(c: Channel): nat {
    var log := if Unacknowledged(c).Some? then c.log[..|c.log| - 1] else c.log;
    if log != [] && log[|log| - 1].Acked? then log[|log| - 1].sequence else 0
  }

  // ---- The bytes of a frame.

  lemma LastByte(high: nat, low: nat)
    requires low < 0x100
    ensures (high * 0x100 + low) / 0x100 == high && (high * 0x100 + low) % 0x100 == low
  {
  }

  lemma Shifted(n: nat)
    ensures n / 0x10000 == n / 0x100 / 0x100 && n / 0x1000000 == n / 0x10000 / 0x100
  {
  }

  lemma WordIs(b: Bytes, at: nat)
    requires at + 4 <= |b|
    ensures Be32(Word(b, at)) == b[at..at + 4] && Word(b, at) <= U32_MAX
  {
    var p, q, r, s := b[at] as int, b[at + 1] as int, b[at + 2] as int, b[at + 3] as int;
    var two, three, n := p * 0x100 + q, (p * 0x100 + q) * 0x100 + r, Word(b, at);
    assert n == three * 0x100 + s;
    LastByte(three, s);
    LastByte(two, r);
    LastByte(p, q);
    Shifted(n);
    assert b[at..at + 4] == [b[at], b[at + 1], b[at + 2], b[at + 3]];
  }

  /** The control frames are exactly the bytes that say something. */
  lemma FramesSay(b: Bytes)
    ensures ControlFrame(b) <==> |b| == 16 && Says(Some(b), b[1], Wide(b, 4))
    ensures forall kind, sequence :: Says(Some(b), kind, sequence) ==> |b| == 16 && b[1] == kind && Wide(b, 4) == sequence
  {
    if ControlFrame(b) {
      hide Word, Be32;
      FrameIs(b);
    }
    forall kind, sequence | Says(Some(b), kind, sequence)
      ensures ControlFrame(b) && b[1] == kind && Wide(b, 4) == sequence
    {
      ControlFrames(kind, sequence);
    }
  }

  lemma FrameIs(b: Bytes)
    requires ControlFrame(b)
    ensures b == Header(b[1], Wide(b, 4), 0)
  {
    hide Word, Be32;
    WordIs(b, 4);
    WordIs(b, 8);
    WordIs(b, 12);
    var high, low := Word(b, 4), Word(b, 8);
    assert Wide(b, 4) / 0x1_0000_0000 == high && Wide(b, 4) % 0x1_0000_0000 == low;
    assert b == b[..4] + b[4..8] + b[8..12] + b[12..16];
    assert b[..4] == [1, b[1], 0, 0];
  }

  // ---- One frame.

  lemma LogSays(c: Channel)
    requires Sound(c, 0)
    ensures Unacknowledged(c) == if c.inflight.Some? then Some(c.inflight.value.sequence) else None
    ensures c.inflight.Some? ==> c.inflight.value.sequence == c.journal.cursor + 1
    ensures LastAcknowledged(c) == c.journal.cursor && (c.phase == Active ==> c.lastFactAck == c.journal.cursor)
    ensures c.phase == Active ==> c.bound
  {
    hide Frame, Numbered, Funded, Metered, Faithful;
    if c.phase == Active { ActiveLevel(c); }
    var n := |c.log|;
    if c.inflight.Some? {
      assert c.log[n - 1] == Sent(c.journal.cursor + 1);
      assert n > 1 ==> c.log[n - 2] == Acked(c.journal.cursor);
    } else {
      assert n > 0 ==> c.log[n - 1] == Acked(c.journal.cursor);
    }
  }

  lemma ActiveLevel(c: Channel)
    requires Sound(c, 0) && c.phase == Active
    ensures c.lastFactAck == c.journal.cursor
  {
    hide Frame, Placed, Funded, Metered, Ordered, Faithful;
  }

  /** Nothing was sent, recorded, heard or acknowledged. */
  ghost predicate Quiet(c: Channel, r: Channel) {
    && r.wire == c.wire && r.log == c.log && r.heard == c.heard
    && r.journal.entries == c.journal.entries && r.journal.cursor == c.journal.cursor
  }

  lemma PaidAnswer(c: Channel, data: Option<Bytes>, observer: ObserverState, sendable: bool)
    requires Sound(c, 0) && !Over(c)
    ensures Step(c, Control(data, observer, sendable)) == Heed(c.(transport := Spend(c.transport, 0, 1, 48)), data, observer, sendable)
  {
    hide Sound, Heed, Spend, Covers;
    ControlMeters(c);
  }

  /** Bytes that are no control frame end the channel. */
  lemma GarbageFails(c: Channel, data: Option<Bytes>, observer: ObserverState, sendable: bool)
    requires Inv(c) && !Over(c)
    requires forall kind: Byte, sequence: nat :: !Says(data, kind, sequence)
    ensures var r := Step(c, Control(data, observer, sendable)); r.phase == Poisoned(ControlShape) && Quiet(c, r)
  {
    hide Sound, Excused, Stop, Ack, ControlFrame, Says;
    AliveSound(c);
    PaidAnswer(c, data, observer, sendable);
    if data.Some? { FramesSay(data.value); }
  }

  /** An acknowledgement of anything but the unacknowledged record ends the channel. */
  lemma WrongAckFails(c: Channel, data: Option<Bytes>, sequence: nat, observer: ObserverState, sendable: bool)
    requires Inv(c) && !Over(c) && Says(data, ACK, sequence) && Unacknowledged(c) != Some(sequence)
    ensures var r := Step(c, Control(data, observer, sendable)); r.phase == Poisoned(BadAck) && Quiet(c, r)
  {
    hide Sound, Excused, ControlFrame, Pump, Unacknowledged, LastAcknowledged, Wide, Header;
    AliveSound(c);
    PaidAnswer(c, data, observer, sendable);
    FramesSay(data.value);
    LogSays(c);
  }

  /** A stop that does not name the last acknowledged record, or comes when none is expected, ends the channel. */
  lemma WrongStopFails(c: Channel, data: Option<Bytes>, sequence: nat, observer: ObserverState, sendable: bool)
    requires Inv(c) && !Over(c) && Says(data, STOP, sequence)
    requires c.phase != Active || sequence != LastAcknowledged(c)
    ensures var r := Step(c, Control(data, observer, sendable)); r.phase == Poisoned(BadStop) && Quiet(c, r)
  {
    hide Sound, Excused, ControlFrame, Pump, End, Unacknowledged, LastAcknowledged, Wide, Header;
    AliveSound(c);
    PaidAnswer(c, data, observer, sendable);
    FramesSay(data.value);
    LogSays(c);
  }

  /** The acknowledgement of the unacknowledged record lets the next one out, or ends the records. */
  lemma RightAckAdvances(c: Channel, data: Option<Bytes>, sequence: nat, observer: ObserverState, sendable: bool)
    requires Inv(c) && !Over(c) && Says(data, ACK, sequence) && Unacknowledged(c) == Some(sequence)
    ensures var r := Step(c, Control(data, observer, sendable));
      && r.journal.cursor == c.journal.cursor + 1 && r.journal.entries == c.journal.entries && r.heard == c.heard
      && r.journal.ended == c.journal.ended
      && (sequence == |c.journal.entries| && c.journal.ended ==>
        r.phase == EndAcknowledged && r.log == c.log + [Acked(sequence)] && r.wire == c.wire)
      && (sequence == |c.journal.entries| && !c.journal.ended ==>
        r.phase == c.phase && r.log == c.log + [Acked(sequence)] && r.wire == c.wire)
      && (sequence < |c.journal.entries| && sendable ==>
        r.phase == c.phase && r.log == c.log + [Acked(sequence), Sent(sequence + 1)]
        && r.wire == c.wire + [Frame(c.journal.entries[sequence])])
      && (sequence < |c.journal.entries| && !sendable ==> r.phase == Poisoned(SendFault))
  {
    hide Sound, Excused, ControlFrame, Pump, Unacknowledged, LastAcknowledged, Wide, Header, Frame, Numbered, Funded, Spend;
    AliveSound(c);
    PaidAnswer(c, data, observer, sendable);
    FramesSay(data.value);
    LogSays(c);
    Freed(c, sendable);
    if c.inflight.value.kind == FACT { LetOut(Released(c), sendable); }
  }

  /** The next record, if there is one, goes out as soon as none is unacknowledged. */
  lemma LetOut(c: Channel, sendable: bool)
    requires Sound(c, 0) && Sending(c) && c.inflight.None?
    ensures var r := Pump(c, sendable);
      && r.journal.cursor == c.journal.cursor && r.journal.entries == c.journal.entries && r.heard == c.heard
      && r.journal.ended == c.journal.ended
      && (c.journal.cursor == |c.journal.entries| ==> r == c)
      && (c.journal.cursor < |c.journal.entries| && !sendable ==> r.phase == Poisoned(SendFault))
      && (c.journal.cursor < |c.journal.entries| && sendable ==>
        r.phase == c.phase && r.log == c.log + [Sent(c.journal.cursor + 1)]
        && r.wire == c.wire + [Frame(c.journal.entries[c.journal.cursor])])
  {
    hide Pump, Frame, Funded, Numbered, Faithful, Metered, Excused;
    SoundBounds(c, 0);
    PumpSafe(c, sendable);
    PumpHears(c, sendable);
    if c.journal.cursor < |c.journal.entries| {
      PumpSends(c, sendable);
      if sendable { OneMore(c, Pump(c, sendable)); }
    }
  }

  lemma OneMore(c: Channel, r: Channel)
    requires Ordered(c) && Ordered(r) && r.journal.entries == c.journal.entries && r.journal.cursor == c.journal.cursor
    requires c.inflight.None? && r.inflight.Some?
    ensures c.journal.cursor < |c.journal.entries| && r.log == c.log + [Sent(c.journal.cursor + 1)]
    ensures r.wire == c.wire + [Frame(c.journal.entries[c.journal.cursor])]
  {
    hide Frame;
  }

  /** The state behind the acknowledgement, before the next record goes out. */
  function Released(c: Channel): Channel
    requires c.inflight.Some?
  {
    var noted := c.(transport := Spend(c.transport, 0, 1, 48), inflight := None,
      journal := c.journal.(holding := false, cursor := c.journal.cursor + 1), log := c.log + [Acked(c.inflight.value.sequence)]);
    if c.inflight.value.kind == FACT then noted.(lastFactAck := c.inflight.value.sequence) else noted.(phase := EndAcknowledged)
  }

  lemma Freed(c: Channel, sendable: bool)
    requires Sound(c, 0) && !Over(c) && c.inflight.Some?
    ensures var paid, r := c.(transport := Spend(c.transport, 0, 1, 48)), Released(c);
      Ack(paid, c.inflight.value.sequence, sendable) == if c.inflight.value.kind == FACT then Pump(r, sendable) else r
    ensures c.inflight.value.kind == FACT <==> c.journal.cursor < c.journal.facts
    ensures |c.journal.entries| == c.journal.facts + if c.journal.ended then 1 else 0
    ensures c.journal.cursor < |c.journal.entries|
    ensures var r := Released(c); Sound(r, 0) && (c.inflight.value.kind == FACT ==> Sending(r))
  {
    hide Frame, Pump, Funded, Ordered, Faithful, Metered, Flatten;
    ControlMeters(c);
    var paid := c.(transport := Spend(c.transport, 0, 1, 48));
    AdvanceSafe(paid.journal, true);
    IdleFunded(Advance(paid.journal, true).journal);
    assert Placed(c.journal.entries[c.journal.cursor], c.journal.cursor, c.journal.facts, c.journal.limits.frameBytes);
    AckSound(paid, Released(c));
  }

  // ---- What the journal takes.

  /** There is a descriptor, a frame and backing left for the record. */
  ghost predicate Room(j: Journal, e: Entry) {
    && |j.entries| < j.limits.records && |Frame(e)| <= j.limits.frameBytes
    && |Flatten(j.entries)| + |Frame(e)| <= j.limits.journalBytes
  }

  /** A fact is recorded exactly when it is shaped, next in number and has room; else the first fault is the one met first. */
  lemma ReceiveExact(j: Journal, fact: Fact, copied: bool)
    requires Numbered(j) && Funded(j, copied) && j.first.None?
    ensures var first := Receive(j, fact).first;
      if j.ended then first == Some(AfterEnd)
      else if |j.entries| >= j.limits.records then first == Some(Capacity)
      else if !Shaped(fact) then first == Some(Fault.Shape)
      else if fact.sequence.n != j.facts + 1 then first == Some(OutOfSequence)
      else if Room(j, Entry(FACT, j.facts + 1, FactFields(fact))) then first == None
      else first in {Some(Capacity), Some(Funding), Some(SizeOverflow)}
  {
    hide FactFields, EncodeObject, Flatten, Frame, Append, VisitsOwed, SlotsOwed, Placed, Funded;
    ReceiveSafe(j, fact, copied);
    if !j.ended && |j.entries| < j.limits.records {
      ReceivePaid(j, copied);
      if Shaped(fact) && fact.sequence.n == j.facts + 1 {
        var e := Entry(FACT, j.facts + 1, FactFields(fact));
        FlattenSnoc(j.entries, e);
        Refusals(j, fact);
        if Receive(j, fact).first.None? {
          LastPlaced(Receive(j, fact));
        } else if Room(j, e) {
          Recorded(j, fact, copied);
        }
      }
    }
  }

  lemma ReceivePaid(j: Journal, copied: bool)
    requires Numbered(j) && Funded(j, copied) && j.first.None? && |j.entries| < j.limits.records
    ensures Pay(j, 96, 96).ok
  {
    hide Frame, Flatten, Placed;
    OneRecord(j, copied);
  }

  lemma Refusals(j: Journal, fact: Fact)
    requires Pay(j, 96, 96).ok && j.first.None? && !j.ended && |j.entries| < j.limits.records && j.facts + 1 <= MAX_SAFE
    requires Shaped(fact) && fact.sequence.n == j.facts + 1
    ensures Receive(j, fact).first in {None, Some(Capacity), Some(Funding), Some(SizeOverflow)}
  {
    hide FactFields, EncodeObject, Flatten, Shaped, Covers, Spend;
  }

  lemma LastPlaced(j: Journal)
    requires Numbered(j) && j.entries != []
    ensures |Frame(j.entries[|j.entries| - 1])| <= j.limits.frameBytes && |j.entries| <= j.limits.records
    ensures |Flatten(j.entries)| <= j.limits.journalBytes
  {
    hide Frame, Flatten;
    assert Placed(j.entries[|j.entries| - 1], |j.entries| - 1, j.facts, j.limits.frameBytes);
  }

  lemma Recorded(j: Journal, fact: Fact, copied: bool)
    requires Numbered(j) && Funded(j, copied) && j.first.None? && !j.ended
    requires Shaped(fact) && fact.sequence.n == j.facts + 1 && Room(j, Entry(FACT, j.facts + 1, FactFields(fact)))
    ensures Receive(j, fact).first.None?
  {
    hide FactFields, EncodeObject, Flatten, Frame, Shaped, Numbered, Funded;
    ReceiveSafe(j, fact, copied);
    FactSize(fact);
    FrameSize(Entry(FACT, j.facts + 1, FactFields(fact)));
    NumberedBounds(j);
    if Receive(j, fact).first.Some? {
      ReceiveFaults(j, fact);
    }
  }

  /** The end is recorded exactly when the observer has closed and the END has room. */
  lemma EndExact(j: Journal, observer: ObserverState, copied: bool)
    requires Numbered(j) && Funded(j, copied) && j.first.None? && !j.ended
    ensures End(j, observer).first ==
      if observer != ObserverClosed then Some(EndState)
      else if Room(j, Entry(END, j.facts + 1, EndFields(j.facts))) then None
      else Some(Capacity)
  {
    hide EndFields, EncodeObject, Flatten, Frame, Append, Placed, Funded, End;
    var e := Entry(END, j.facts + 1, EndFields(j.facts));
    EndSafe(j, observer, copied);
    EndCauses(j, observer, copied);
    FlattenSnoc(j.entries, e);
    if observer == ObserverClosed {
      if End(j, observer).first.None? {
        LastPlaced(End(j, observer));
      } else if Room(j, e) {
        FrameSize(e);
        EndFaults(j);
      }
    }
  }

  lemma EndCauses(j: Journal, observer: ObserverState, copied: bool)
    requires Numbered(j) && Funded(j, copied) && j.first.None? && !j.ended
    ensures if observer != ObserverClosed then End(j, observer).first == Some(EndState)
      else End(j, observer).first !in {Some(EndState), Some(AfterEnd)}
  {
    hide Frame, Flatten, Placed, EndFields, EncodeObject;
    AtLeast(j.limits.records - |j.entries|, RecordVisits(j.limits));
    AtLeast(Uncopied(j, copied), 2 * j.limits.frameBytes);
  }

  /** A stop that names the last acknowledged record ends the journal and drains it, unless the journal refuses the end. */
  lemma RightStopDrains(c: Channel, data: Option<Bytes>, sequence: nat, observer: ObserverState, sendable: bool)
    requires Inv(c) && c.phase == Active && Says(data, STOP, sequence) && sequence == LastAcknowledged(c)
    ensures var r := Step(c, Control(data, observer, sendable));
      var end := Entry(END, c.journal.facts + 1, EndFields(c.journal.facts));
      if observer != ObserverClosed then r.phase == Poisoned(JournalFault) && r.journal.first == Some(EndState) && Quiet(c, r)
      else if !Room(c.journal, end) then r.phase == Poisoned(JournalFault) && r.journal.first == Some(Capacity) && Quiet(c, r)
      else
        && r.journal.entries == c.journal.entries + [end] && r.journal.cursor == c.journal.cursor && r.journal.ended
        && if Unacknowledged(c).Some? then r.phase == Draining && r.wire == c.wire && r.log == c.log
           else if sendable then r.phase == Draining && r.wire == c.wire + [Frame(end)] && r.log == c.log + [Sent(end.sequence)]
           else r.phase == Poisoned(SendFault)
  {
    hide Sound, Excused, ControlFrame, Pump, End, Unacknowledged, LastAcknowledged, Wide, Header, Frame, EndFields, Room, Numbered, Funded, Spend;
    AliveSound(c);
    PaidAnswer(c, data, observer, sendable);
    FramesSay(data.value);
    LogSays(c);
    SoundBounds(c, 0);
    EndExact(c.journal, observer, true);
    EndSafe(c.journal, observer, true);
    if End(c.journal, observer).first.None? {
      Ending(c, observer, sendable);
    } else {
      EndLeaves(c.journal, observer);
    }
  }

  lemma EndLeaves(j: Journal, observer: ObserverState)
    requires End(j, observer).first.Some?
    ensures End(j, observer).entries == j.entries && End(j, observer).cursor == j.cursor
  {
    hide Append;
  }

  lemma Ending(c: Channel, observer: ObserverState, sendable: bool)
    requires Sound(c, 0) && Inv(c) && c.phase == Active && End(c.journal, observer).first.None?
    ensures var end := Entry(END, c.journal.facts + 1, EndFields(c.journal.facts));
      var draining := c.(transport := Spend(c.transport, 0, 1, 48), phase := Draining, journal := End(c.journal, observer));
      var r := Pump(draining, sendable);
      && r.journal.entries == c.journal.entries + [end] && r.journal.cursor == c.journal.cursor && r.journal.ended
      && if c.inflight.Some? then r == draining
         else if sendable then r.phase == Draining && r.wire == c.wire + [Frame(end)] && r.log == c.log + [Sent(end.sequence)]
         else r.phase == Poisoned(SendFault)
  {
    hide Sound, Excused, Pump, End, Frame, EndFields, Spend;
    SoundBounds(c, 0);
    EndSafe(c.journal, observer, true);
    EndKeeps(c.journal, observer);
    ControlMeters(c);
    var paid := c.(transport := Spend(c.transport, 0, 1, 48));
    var draining := paid.(phase := Draining, journal := End(c.journal, observer));
    StopSound(paid, draining);
    Waiting(c);
    if c.inflight.None? {
      LetOut(draining, sendable);
    } else {
      Occupied(draining, sendable);
    }
  }

  lemma Occupied(c: Channel, sendable: bool)
    requires Aimed(c.journal) && c.inflight.Some?
    ensures Pump(c, sendable) == c
  {
  }

  lemma Waiting(c: Channel)
    requires Sound(c, 0) && Inv(c) && c.phase == Active
    ensures c.inflight.None? ==> c.journal.cursor == |c.journal.entries| == c.journal.facts
  {
    hide Frame, Placed, Funded, Metered, Ordered, Faithful;
  }

  // ---- Whole runs.

  /** The sequence in a frame of the kind; a frame of another size has none. */
  function Sequence(e: Event, kind: Byte): seq<nat> {
    if e.Control? && e.data.Some? && |e.data.value| == 16 && e.data.value[1] == kind then [Wide(e.data.value, 4)] else []
  }

  /** The sequences of the frames of one kind in a run, in the order of their arrival. */
  function Sequences(es: seq<Event>, kind: Byte): seq<nat> {
    if es == [] then [] else Sequence(es[0], kind) + Sequences(es[1..], kind)
  }

  function Controls(es: seq<Event>): nat {
    if es == [] then 0 else (if es[0].Control? then 1 else 0) + Controls(es[1..])
  }

  /** The numbers from `first` on, before `end`. */
  function Count(first: nat, end: nat): (numbers: seq<nat>)
    requires first <= end
  {
    seq(end - first, i requires 0 <= i < end - first => first + i)
  }

  /** What one event may say on a channel that survives it. */
  lemma SurvivingStep(c: Channel, e: Event)
    requires Inv(c) && !Over(c) && !Step(c, e).phase.Poisoned?
    ensures var r := Step(c, e);
      && c.journal.cursor <= r.journal.cursor && (c.journal.ended ==> r.journal.ended)
      && Sequences([e], ACK) == Count(c.journal.cursor + 1, r.journal.cursor + 1)
      && |Sequences([e], STOP)| == (if r.journal.ended then 1 else 0) - (if c.journal.ended then 1 else 0)
      && Controls([e]) == |Sequences([e], ACK)| + |Sequences([e], STOP)|
  {
    hide Sound, Excused, Step, Unacknowledged, LastAcknowledged, Frame, Header, Wide, ControlFrame;
    OneEvent(e);
    AliveSound(c);
    LogSays(c);
    if e.Control? {
      SurvivingControl(c, e.data, e.observer, e.sendable);
    } else {
      OtherStep(c, e);
    }
  }

  lemma SurvivingControl(c: Channel, data: Option<Bytes>, observer: ObserverState, sendable: bool)
    requires Inv(c) && !Over(c) && !Step(c, Control(data, observer, sendable)).phase.Poisoned?
    ensures data.Some? && |data.value| == 16 && data.value[1] in {ACK, STOP}
    ensures var r := Step(c, Control(data, observer, sendable));
      if data.value[1] == ACK then
        Wide(data.value, 4) == c.journal.cursor + 1 == r.journal.cursor && r.journal.ended == c.journal.ended
      else r.journal.cursor == c.journal.cursor && r.journal.ended && !c.journal.ended && Wide(data.value, 4) == LastAcknowledged(c)
  {
    hide Sound, Excused, Step, Unacknowledged, LastAcknowledged, Frame, Header, Wide, ControlFrame, Says, Room;
    AliveSound(c);
    LogSays(c);
    SoundBounds(c, 0);
    SaidOrGarbage(data);
    if forall kind: Byte, k: nat :: !Says(data, kind, k) {
      GarbageFails(c, data, observer, sendable);
    } else {
      var sequence := Wide(data.value, 4);
      if data.value[1] == ACK {
        if Unacknowledged(c) != Some(sequence) { WrongAckFails(c, data, sequence, observer, sendable); }
        RightAckAdvances(c, data, sequence, observer, sendable);
      } else {
        if c.phase != Active || sequence != LastAcknowledged(c) { WrongStopFails(c, data, sequence, observer, sendable); }
        RightStopDrains(c, data, sequence, observer, sendable);
      }
    }
  }

  lemma SaidOrGarbage(data: Option<Bytes>)
    ensures (forall kind: Byte, sequence: nat :: !Says(data, kind, sequence))
      || (data.Some? && |data.value| == 16 && data.value[1] in {ACK, STOP} && Says(data, data.value[1], Wide(data.value, 4)))
  {
    hide Header, Wide, ControlFrame;
    if data.Some? { FramesSay(data.value); }
  }

  lemma OtherStep(c: Channel, e: Event)
    requires Inv(c) && !Over(c) && !e.Control? && !Step(c, e).phase.Poisoned?
    ensures var r := Step(c, e); r.journal.cursor == c.journal.cursor && r.journal.ended == c.journal.ended
  {
    hide Sound, Excused, Pump, Receive;
    AliveSound(c);
    match e
    case Start(_, sendable) =>
      PumpHears(c.(phase := Active, bound := true), sendable);
    case Observe(fact, sendable) =>
      var j := Receive(c.journal, fact);
      PumpHears(c.(journal := j, heard := c.heard + [fact]), sendable);
      if j.first.None? { ReceiveKeeps(c.journal, fact); }
    case SocketClose(_) =>
      if c.phase == EndAcknowledged { CloseCounts(c); }
    case _ =>
  }

  lemma SequencesFirst(es: seq<Event>, kind: Byte)
    requires es != []
    ensures Sequences(es, kind) == Sequences([es[0]], kind) + Sequences(es[1..], kind)
    ensures Controls(es) == Controls([es[0]]) + Controls(es[1..])
  {
    hide Sequence;
    assert [es[0]][1..] == [];
    assert Sequences([es[0]], kind) == Sequence(es[0], kind) + [] == Sequence(es[0], kind);
  }

  /**
    A channel that a run leaves alive was told exactly the acknowledgements of the records it let go of,
    in order, one stop if it was ended, and nothing else.
  */
  lemma {:induction false} SurvivorsWereTold(c: Channel, es: seq<Event>)
    requires Inv(c) && !Over(c) && !Over(Run(c, es))
    ensures var r := Run(c, es);
      && c.journal.cursor <= r.journal.cursor && (c.journal.ended ==> r.journal.ended)
      && Sequences(es, ACK) == Count(c.journal.cursor + 1, r.journal.cursor + 1)
      && |Sequences(es, STOP)| == (if r.journal.ended then 1 else 0) - (if c.journal.ended then 1 else 0)
      && Controls(es) == |Sequences(es, ACK)| + |Sequences(es, STOP)|
    decreases |es|
  {
    hide Sound, Excused, Step, Sequences, Controls;
    if es == [] {
      NoEvents();
    } else {
      var next := Step(c, es[0]);
      StepSafe(c, es[0]);
      if Over(next) { OverStays(next, es[1..]); }
      SurvivingStep(c, es[0]);
      SurvivorsWereTold(next, es[1..]);
      SequencesFirst(es, ACK);
      SequencesFirst(es, STOP);
    }
  }

  lemma OneEvent(e: Event)
    ensures forall kind: Byte :: Sequences([e], kind) == Sequence(e, kind)
    ensures Controls([e]) == if e.Control? then 1 else 0
  {
    hide Sequence;
    assert [e][1..] == [];
    forall kind: Byte ensures Sequences([e], kind) == Sequence(e, kind) {
      assert Sequences([e], kind) == Sequence(e, kind) + [];
    }
  }

  lemma NoEvents()
    ensures Sequences([], ACK) == Sequences([], STOP) == [] && Controls([]) == 0
  {
  }

  /**
    Main result: before a channel closed, the peer had sent the acknowledgements 1, 2, .., n + 1 of its n facts
    and the END, in this order, one stop, and no other control frame.
  */
  lemma ClosedWasAcknowledged(l: Limits, es: seq<Event>) returns (k: nat)
    requires Bootable(l) && From(l, es).phase == Closed
    ensures k < |es| && es[k] == SocketClose(true)
    ensures var n := |Facts(es[..k])|;
      Sequences(es[..k], ACK) == Count(1, n + 2) && |Sequences(es[..k], STOP)| == 1 && Controls(es[..k]) == n + 2
  {
    hide Run, Sound, Excused, Sequences, Controls;
    k := ClosesAt(Fresh(l), es);
    RunHears(Fresh(l), es[..k]);
    assert [] + Facts(es[..k]) == Facts(es[..k]);
    FromInv(l, es[..k]);
    FreshInv(l);
    SurvivorsWereTold(Fresh(l), es[..k]);
    AllTold(From(l, es[..k]));
  }

  lemma AllTold(c: Channel)
    requires Inv(c) && c.phase == EndAcknowledged
    ensures c.journal.ended && c.journal.cursor == |c.heard| + 1
  {
    hide Frame, Placed, Funded, Metered, Ordered;
  }

  // ---- Why a channel fails.

  /** The journal has a place for this fact. */
  ghost predicate Takes(j: Journal, fact: Fact) {
    && !j.ended && |j.entries| < j.limits.records
    && Shaped(fact) && fact.sequence.n == j.facts + 1 && Room(j, Entry(FACT, j.facts + 1, FactFields(fact)))
  }

  /** The event acknowledges the record that waits for it. */
  ghost predicate Acknowledges(c: Channel, e: Event) {
    e.Control? && exists k: nat :: Says(e.data, ACK, k) && Unacknowledged(c) == Some(k)
  }

  /** The event stops the channel as its peer may. */
  ghost predicate Stops(c: Channel, e: Event) {
    e.Control? && c.phase == Active && Says(e.data, STOP, LastAcknowledged(c))
  }

  ghost predicate Ends(c: Channel, e: Event) {
    e.Control? && e.observer == ObserverClosed && Room(c.journal, Entry(END, c.journal.facts + 1, EndFields(c.journal.facts)))
  }

  /** The event lets a record out. */
  ghost predicate Offers(c: Channel, e: Event) {
    var waiting := Unacknowledged(c).None?;
    match e
    case Start(ok, _) => c.phase == Starting && ok && waiting && c.journal.cursor < |c.journal.entries|
    case Observe(fact, _) => Sending(c) && waiting && Takes(c.journal, fact)
    case Control(_, _, _) =>
      if Acknowledges(c, e) then c.journal.cursor + 1 < |c.journal.entries| else Stops(c, e) && Ends(c, e) && waiting
    case _ => false
  }

  /** What the event that ends a channel must be, for each fault. */
  ghost predicate Cause(c: Channel, e: Event, fault: ChannelFault) {
    match fault
    case NoFunding => false
    case JournalFault => (e.Observe? && !Takes(c.journal, e.fact)) || (Stops(c, e) && !Ends(c, e))
    case Attachment => (c.phase == Prepared && e == Attach(false)) || (c.phase == Connecting && e == Open(false))
    case Startup => c.phase == Starting && e.Start? && !e.ok
    case SendFault => Offers(c, e) && !e.sendable
    case ControlShape => e.Control? && forall kind: Byte, k: nat :: !Says(e.data, kind, k)
    case BadAck => e.Control? && !Acknowledges(c, e) && exists k: nat :: Says(e.data, ACK, k)
    case BadStop => e.Control? && !Stops(c, e) && exists k: nat :: Says(e.data, STOP, k)
    case LostChannel => e == SocketError || (e.SocketClose? && !(c.phase == EndAcknowledged && e.clean))
    case Revoked => e == Revoke
  }

  /** Main result: a live channel fails exactly at the events that are the cause of a fault, and with that fault. */
  lemma FaultExact(c: Channel, e: Event, fault: ChannelFault)
    requires Inv(c) && !Over(c)
    ensures Step(c, e).phase == Poisoned(fault) <==> Cause(c, e, fault)
  {
    hide Sound, Excused, Step, Unacknowledged, LastAcknowledged, Frame, Header, Wide, ControlFrame, Says, Room, Takes;
    AliveSound(c);
    LogSays(c);
    match e
    case Control(data, observer, sendable) => ControlFaults(c, data, observer, sendable, fault);
    case Observe(fact, sendable) => ObserveFaults(c, fact, sendable);
    case Start(ok, sendable) => StartFaults(c, ok, sendable);
    case _ => OtherFaults(c, e, fault);
  }

  lemma ControlFaults(c: Channel, data: Option<Bytes>, observer: ObserverState, sendable: bool, fault: ChannelFault)
    requires Inv(c) && !Over(c)
    ensures var e := Control(data, observer, sendable); Step(c, e).phase == Poisoned(fault) <==> Cause(c, e, fault)
  {
    hide Sound, Excused, Step, Unacknowledged, LastAcknowledged, Header, Wide, ControlFrame, Says, Room, Cause;
    SaidOrGarbage(data);
    if forall kind: Byte, k: nat :: !Says(data, kind, k) {
      GarbageFaults(c, data, observer, sendable, fault);
    } else if data.value[1] == ACK {
      AckFaults(c, data, Wide(data.value, 4), observer, sendable, fault);
    } else {
      StopFaults(c, data, Wide(data.value, 4), observer, sendable, fault);
    }
  }

  lemma GarbageFaults(c: Channel, data: Option<Bytes>, observer: ObserverState, sendable: bool, fault: ChannelFault)
    requires Inv(c) && !Over(c) && forall kind: Byte, k: nat :: !Says(data, kind, k)
    ensures var e := Control(data, observer, sendable); Step(c, e).phase == Poisoned(fault) <==> Cause(c, e, fault)
  {
    hide Sound, Excused, Step, Unacknowledged, LastAcknowledged, Header, Says, Room;
    GarbageFails(c, data, observer, sendable);
  }

  lemma AckFaults(c: Channel, data: Option<Bytes>, k: nat, observer: ObserverState, sendable: bool, fault: ChannelFault)
    requires Inv(c) && !Over(c) && Says(data, ACK, k)
    ensures var e := Control(data, observer, sendable); Step(c, e).phase == Poisoned(fault) <==> Cause(c, e, fault)
  {
    hide Sound, Excused, Step, Unacknowledged, LastAcknowledged, Frame, Header, Says, Room;
    AliveSound(c);
    LogSays(c);
    SaysOne(data);
    SoundBounds(c, 0);
    if Unacknowledged(c) == Some(k) {
      RightAckAdvances(c, data, k, observer, sendable);
    } else {
      WrongAckFails(c, data, k, observer, sendable);
    }
  }

  lemma StopFaults(c: Channel, data: Option<Bytes>, k: nat, observer: ObserverState, sendable: bool, fault: ChannelFault)
    requires Inv(c) && !Over(c) && Says(data, STOP, k)
    ensures var e := Control(data, observer, sendable); Step(c, e).phase == Poisoned(fault) <==> Cause(c, e, fault)
  {
    hide Sound, Excused, Step, Unacknowledged, LastAcknowledged, Frame, Header, Says, Room;
    SaysOne(data);
    if c.phase == Active && k == LastAcknowledged(c) {
      RightStopDrains(c, data, k, observer, sendable);
    } else {
      WrongStopFails(c, data, k, observer, sendable);
    }
  }

  /** A frame says one thing. */
  lemma SaysOne(data: Option<Bytes>)
    ensures forall kind, k, other, n :: Says(data, kind, k) && Says(data, other, n) ==> kind == other && k == n
  {
    hide Header, Wide, ControlFrame;
    if data.Some? { FramesSay(data.value); }
  }

  /** A fact that the journal takes is recorded, and the oldest unsent record goes out if none is unacknowledged. */
  lemma ObserveFaults(c: Channel, fact: Fact, sendable: bool)
    requires Inv(c) && !Over(c)
    ensures var e, r := Observe(fact, sendable), Step(c, Observe(fact, sendable));
      && (!Takes(c.journal, fact) ==> r.phase == Poisoned(JournalFault))
      && (Takes(c.journal, fact) ==> r.phase == if Offers(c, e) && !sendable then Poisoned(SendFault) else c.phase)
      && (Takes(c.journal, fact) ==> r.journal.entries == c.journal.entries + [Entry(FACT, c.journal.facts + 1, FactFields(fact))])
      && (Takes(c.journal, fact) && Offers(c, e) && sendable ==>
        r.wire == c.wire + [Frame(r.journal.entries[c.journal.cursor])])
  {
    hide Sound, Excused, Unacknowledged, LastAcknowledged, Frame, Room, Shaped, FactFields, Receive, Pump;
    AliveSound(c);
    LogSays(c);
    SoundBounds(c, 0);
    ReceiveExact(c.journal, fact, true);
    if Takes(c.journal, fact) { Hears(c, fact, sendable); }
  }

  lemma Hears(c: Channel, fact: Fact, sendable: bool)
    requires Sound(c, 0) && !Over(c) && Takes(c.journal, fact) && Receive(c.journal, fact).first.None?
    ensures var heard := c.(journal := Receive(c.journal, fact), heard := c.heard + [fact]);
      var r := Pump(heard, sendable); var offers := Sending(c) && c.inflight.None?;
      && heard.journal.entries == c.journal.entries + [Entry(FACT, c.journal.facts + 1, FactFields(fact))]
      && r.journal.entries == heard.journal.entries
      && r.phase == (if offers && !sendable then Poisoned(SendFault) else c.phase)
      && (offers && sendable ==> r.wire == c.wire + [Frame(r.journal.entries[c.journal.cursor])])
  {
    hide Sound, Excused, Frame, Room, Shaped, FactFields, Receive, Pump;
    SoundBounds(c, 0);
    ReceiveSafe(c.journal, fact, true);
    ReceiveKeeps(c.journal, fact);
    var heard := c.(journal := Receive(c.journal, fact), heard := c.heard + [fact]);
    HeardSound(c, heard, fact);
    Held(heard, sendable);
    if Sending(heard) && heard.inflight.None? { LetOut(heard, sendable); }
  }

  lemma Held(c: Channel, sendable: bool)
    requires Aimed(c.journal)
    ensures !Sending(c) || c.inflight.Some? ==> Pump(c, sendable) == c
  {
  }

  lemma StartFaults(c: Channel, ok: bool, sendable: bool)
    requires Inv(c) && !Over(c)
    ensures var e, r := Start(ok, sendable), Step(c, Start(ok, sendable));
      r.phase == if c.phase != Starting then c.phase else if !ok then Poisoned(Startup)
                 else if Offers(c, e) && !sendable then Poisoned(SendFault) else Active
  {
    hide Sound, Excused, Unacknowledged, LastAcknowledged, Frame, Pump, Stops, Ends, Acknowledges;
    AliveSound(c);
    LogSays(c);
    if c.phase == Starting && ok {
      var active := c.(phase := Active, bound := true);
      PhaseSound(c, active);
      Held(active, sendable);
      SoundBounds(c, 0);
      if c.inflight.None? { LetOut(active, sendable); }
    }
  }

  lemma OtherFaults(c: Channel, e: Event, fault: ChannelFault)
    requires Inv(c) && !Over(c) && (e.Attach? || e.Open? || e.SocketError? || e.SocketClose? || e.Revoke?)
    ensures Step(c, e).phase == Poisoned(fault) <==> Cause(c, e, fault)
  {
    hide Sound, Excused, Unacknowledged, LastAcknowledged, Frame, Says, Room, Takes;
  }
}
