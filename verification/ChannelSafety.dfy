/** Every run of the document channel, whatever the peer, the socket and the producer do. */
module ChannelSafety {
  import opened Text
  import opened JsonText
  import opened JsonReader
  import opened ProductFacts
  import opened Mirror
  import opened JournalModel
  import opened ChannelModel
  import opened JournalSafety

  function Sends(c: Channel): nat { c.journal.cursor + (if c.inflight.Some? then 1 else 0) }

  /** Control frames answered so far: one ACK a record, and one STOP once draining began. */
  function Answered(c: Channel): nat { c.journal.cursor + (if c.journal.ended then 1 else 0) }

  /** The transport credit is exactly what `records` sends and `records + 2` control frames leave. */
  ghost predicate Metered(c: Channel, extra: nat) {
    var l := c.journal.limits;
    && !c.transport.failed
    && c.transport.remaining.slots == 4 + 2 * l.records - Sends(c) - Answered(c) - extra
    && c.transport.remaining.visits
      == (l.records - Sends(c)) * SendVisits(l) + (l.records + 2 - Answered(c) - extra) * 48
  }

  /** Frames sent are the first records in order, and sends and ACKs alternate. */
  ghost predicate Ordered(c: Channel) {
    && |c.wire| == Sends(c) <= |c.journal.entries|
    && (forall i :: 0 <= i < |c.wire| ==> c.wire[i] == Frame(c.journal.entries[i]))
    && |c.log| == Sends(c) + c.journal.cursor
    && (forall k :: 0 <= k < |c.log| ==> c.log[k] == if k % 2 == 0 then Sent(k / 2 + 1) else Acked(k / 2 + 1))
  }

  /** The fact records are the facts heard. */
  ghost predicate Faithful(c: Channel) {
    && |c.heard| == c.journal.facts <= |c.journal.entries|
    && forall i :: 0 <= i < |c.heard| ==> Shaped(c.heard[i]) && c.journal.entries[i].fields == FactFields(c.heard[i])
  }

  ghost predicate Phased(c: Channel) {
    var j := c.journal;
    && (j.ended <==> c.phase in {Draining, EndAcknowledged, Closed})
    && (c.phase in {EndAcknowledged, Closed} ==> j.cursor == |j.entries|)
    && (c.phase in {Prepared, Connecting} ==> Sends(c) == 0)
    && (c.bound <==> c.phase in {Active, Draining, EndAcknowledged, Closed})
  }

  ghost predicate Sound(c: Channel, extra: nat) {
    var j := c.journal;
    && !c.phase.Poisoned? && j.first.None? && Numbered(j) && Funded(j, true)
    && j.holding == c.inflight.Some?
    && (j.holding ==> c.inflight.value == Inflight(j.cursor + 1, j.entries[j.cursor].kind))
    && c.lastFactAck == (if j.cursor <= j.facts then j.cursor else j.facts)
    && Metered(c, extra) && Ordered(c) && Faithful(c) && Phased(c)
  }

  /** While active or draining a record waits for its ACK unless all are acknowledged. */
  ghost predicate Flowing(c: Channel) {
    c.phase in {Active, Draining} ==> c.inflight.Some? || c.journal.cursor == |c.journal.entries|
  }

  /** What a poisoned channel still guarantees about its first faults. */
  ghost predicate Excused(c: Channel) {
    && c.phase.Poisoned? && c.phase.first != NoFunding && !c.transport.failed && |c.wire| <= c.journal.limits.records
    && c.journal.first.Some?
    && (c.journal.first.value in {Funding, SizeOverflow, OutOfSequence} ==>
      c.heard != [] && Shaped(c.heard[|c.heard| - 1]))
    && (c.journal.first.value == Fault.Shape ==> c.heard != [] && !Shaped(c.heard[|c.heard| - 1]))
    && (c.journal.first.value == Funding ==>
      UnitCount(FactFields(c.heard[|c.heard| - 1])) > c.journal.limits.frameBytes)
    && (c.journal.first.value == SizeOverflow ==>
      AppendVisits(UnitCount(FactFields(c.heard[|c.heard| - 1]))) > MAX_SAFE)
    && (c.journal.first.value == OutOfSequence ==>
      c.heard[|c.heard| - 1].sequence.n != |c.heard|)
  }

  ghost predicate Inv(c: Channel) { Aimed(c.journal) && ((Sound(c, 0) && Flowing(c)) || Excused(c)) }

  lemma PoisonSafe(c: Channel, fault: ChannelFault)
    requires !Over(c) && fault != NoFunding && !c.transport.failed && c.journal.first.None? && |c.wire| <= c.journal.limits.records
    ensures Excused(Poison(c, fault))
  {
  }

  // ---- Sending.

  /** The header of a record gives back its kind and sequence. */
  lemma FrameReads(e: Entry, rest: Bytes)
    requires e.sequence <= MAX_SAFE && |Frame(e)| <= U32_MAX
    ensures var b := Frame(e) + rest;
      && |Frame(e)| >= 16 && b[0] == 1 && b[1] == e.kind && b[2] == 0 && b[3] == 0
      && Wide(b, 4) == e.sequence && Word(b, 12) == |Frame(e)| - 16
      && ReadObject(b[16..]) == Got(e.fields, rest)
  {
    hide EncodeObject, ReadObject, Header, Wide, Word;
    var body := EncodeObject(e.fields);
    var header := Header(e.kind, e.sequence, |body|);
    FrameSize(e);
    HeaderReads(e.kind, e.sequence, |body|, body + rest);
    assert Frame(e) + rest == header + (body + rest);
    assert (header + (body + rest))[16..] == body + rest;
    ObjectReads(e.fields, rest);
  }

  lemma SendMeters(c: Channel, r: Channel)
    requires Aimed(c.journal) && c.journal.cursor < |c.journal.entries| <= c.journal.limits.records
    requires c.inflight.None? && r.inflight.Some? && Metered(c, 0)
    requires r.journal.limits == c.journal.limits && r.journal.cursor == c.journal.cursor && r.journal.ended == c.journal.ended
    requires r.transport == Spend(c.transport, 0, 1, SendVisits(c.journal.limits))
    requires Answered(c) <= c.journal.limits.records + 1 && c.journal.limits.frameBytes <= U32_MAX
    ensures Covers(c.transport, 0, 1, SendVisits(c.journal.limits)) && Metered(r, 0)
  {
    var l := c.journal.limits;
    var cost := SendVisits(l);
    Less(l.records - Sends(c), 1, cost);
    AtLeast(l.records - Sends(c) - 1, cost);
  }

  /** What handing one record to the socket comes to. */
  ghost predicate PumpedOut(c: Channel, r: Channel, sendable: bool) {
    && c.journal.cursor < |c.journal.entries|
    && r.journal.entries == c.journal.entries && r.journal.cursor == c.journal.cursor && r.journal.ended == c.journal.ended
    && if sendable then r.phase == c.phase && r.inflight.Some? && Sound(r, 0) else r.phase == Poisoned(SendFault) && Excused(r)
  }

  /** A record that waits is handed out, copied and sent, unless the socket refuses it. */
  lemma PumpSends(c: Channel, sendable: bool)
    requires Sound(c, 0) && Sending(c) && c.inflight.None? && c.journal.cursor < |c.journal.entries|
    ensures PumpedOut(c, Pump(c, sendable), sendable)
  {
    hide Frame, Wide, Shaped, FactFields, SendVisits, Flatten, FACT, END, Funded, Excused, Copy, Faithful;
    PendingSafe(c.journal, true);
    var j := Pending(c.journal).1;
    PendingKeeps(c.journal);
    CopySafe(j);
    var e := j.entries[j.cursor];
    assert Placed(e, j.cursor, j.facts, j.limits.frameBytes);
    FrameReads(e, []);
    assert Frame(e) + [] == Frame(e);
    var copied := Copy(j, true, |Frame(e)|, j.limits.frameBytes).journal;
    CopyKeeps(j, |Frame(e)|);
    var r := c.(journal := copied, transport := Spend(c.transport, 0, 1, SendVisits(j.limits)), inflight := Some(Inflight(e.sequence, e.kind)));
    SendMeters(c, r);
    if sendable {
      SendOrdered(c, r.(wire := c.wire + [Frame(e)], log := c.log + [Sent(e.sequence)]), e);
      FaithfulSame(c, r.(wire := c.wire + [Frame(e)], log := c.log + [Sent(e.sequence)]));
    } else {
      PoisonSafe(r, SendFault);
    }
  }

  lemma PendingKeeps(j: Journal)
    ensures var r := Pending(j).1; r == j.(holding := r.holding, credit := r.credit, first := r.first)
  {
  }

  lemma CopyKeeps(j: Journal, length: nat)
    ensures var r := Copy(j, true, length, j.limits.frameBytes).journal; r == j.(credit := r.credit, first := r.first)
  {
  }

  lemma FaithfulSame(c: Channel, r: Channel)
    requires Faithful(c) && r.heard == c.heard && r.journal.facts == c.journal.facts && r.journal.entries == c.journal.entries
    ensures Faithful(r)
  {
  }

  lemma PumpSafe(c: Channel, sendable: bool)
    requires Sound(c, 0)
    ensures Inv(Pump(c, sendable))
    ensures Sending(c) && c.inflight.None? && c.journal.cursor == |c.journal.entries| ==> Pump(c, sendable) == c
  {
    hide Sound, Excused, Send, SendVisits;
    SoundBounds(c, 0);
    if c.inflight.None? && Sending(c) {
      if c.journal.cursor < |c.journal.entries| {
        PumpSends(c, sendable);
      } else {
        PendingSafe(c.journal, true);
      }
    }
  }

  lemma SendOrdered(c: Channel, out: Channel, e: Entry)
    requires Ordered(c) && c.inflight.None? && out.inflight.Some?
    requires c.journal.cursor < |c.journal.entries| && e == c.journal.entries[c.journal.cursor]
    requires e.sequence == c.journal.cursor + 1
    requires out.journal.entries == c.journal.entries && out.journal.cursor == c.journal.cursor
    requires out.wire == c.wire + [Frame(e)] && out.log == c.log + [Sent(e.sequence)]
    ensures Ordered(out)
  {
    hide Frame;
  }

  // ---- Receiving a fact.

  lemma HearSafe(c: Channel, fact: Fact, sendable: bool)
    requires Inv(c)
    ensures Inv(Hear(c, fact, sendable))
  {
    hide Frame, Wide, Shaped, FactFields, Flatten, Pump, Receive;
    if !Over(c) {
      ReceiveSafe(c.journal, fact, true);
      var j := Receive(c.journal, fact);
      var heard := c.(journal := j, heard := c.heard + [fact]);
      if j.first.None? {
        ReceiveKeeps(c.journal, fact);
        HeardSound(c, heard, fact);
        PumpSafe(heard, sendable);
      } else {
        ReceiveExcused(c, heard, fact);
      }
    }
  }

  lemma ReceiveKeeps(j: Journal, fact: Fact)
    requires j.first.None? && Receive(j, fact).first.None?
    ensures var r := Receive(j, fact);
      r.facts == j.facts + 1 && r.ended == j.ended == false
  {
    hide Append, Shaped, FactFields;
  }

  lemma HeardSound(c: Channel, heard: Channel, fact: Fact)
    requires Sound(c, 0) && c.phase != Closed && !c.journal.ended
    requires heard == c.(journal := heard.journal, heard := c.heard + [fact])
    requires var j := heard.journal;
      && j.first.None? && Numbered(j) && Funded(j, true) && Shaped(fact)
      && j.entries == c.journal.entries + [Entry(FACT, c.journal.facts + 1, FactFields(fact))]
      && j.facts == c.journal.facts + 1 && !j.ended
      && j.limits == c.journal.limits && j.cursor == c.journal.cursor && j.holding == c.journal.holding
    ensures Sound(heard, 0)
  {
    hide Frame, Shaped, FactFields, Flatten, Placed, Funded, SendVisits;
  }

  lemma ReceiveExcused(c: Channel, heard: Channel, fact: Fact)
    requires Sound(c, 0) && !Over(c)
    requires heard == c.(journal := Receive(c.journal, fact), heard := c.heard + [fact]) && heard.journal.first.Some?
    ensures Excused(Poison(heard, JournalFault))
  {
    hide Frame, Shaped, FactFields, Flatten, Receive;
    ReceiveSafe(c.journal, fact, true);
    assert heard.heard[|heard.heard| - 1] == fact;
  }

  // ---- Control frames.

  lemma ControlMeters(c: Channel)
    requires Sound(c, 0)
    ensures Covers(c.transport, 0, 1, 48) && Sound(c.(transport := Spend(c.transport, 0, 1, 48)), 1)
  {
    hide Frame, Numbered, Funded, Ordered, Faithful, SendVisits;
    var l := c.journal.limits;
    SoundBounds(c, 0);
    AtLeast(l.records - Sends(c), SendVisits(l));
    var paid := c.(transport := Spend(c.transport, 0, 1, 48));
    OrderedSame(c, paid);
  }

  lemma OrderedSame(c: Channel, r: Channel)
    requires Ordered(c) && Faithful(c) && r == c.(transport := r.transport)
    ensures Ordered(r) && Faithful(r)
  {
    hide Frame, Shaped, FactFields;
  }

  lemma SoundBounds(c: Channel, extra: nat)
    requires Sound(c, extra)
    ensures |c.wire| == Sends(c) <= |c.journal.entries| && c.journal.cursor <= |c.journal.entries|
    ensures |c.journal.entries| <= c.journal.limits.records <= U32_MAX && c.journal.limits.frameBytes <= U32_MAX
    ensures Numbered(c.journal) && Funded(c.journal, true) && c.journal.first.None? && Aimed(c.journal)
    ensures !c.phase.Poisoned? && c.journal.holding == c.inflight.Some? && !c.transport.failed
    ensures c.phase == Active ==> !c.journal.ended
  {
  }

  lemma StopSafe(c: Channel, sequence: nat, observer: ObserverState, sendable: bool)
    requires Sound(c, 1) && !Over(c)
    ensures Inv(Stop(c, sequence, observer, sendable))
  {
    hide EndFields, Pump, End, Sound, Numbered, Funded, Inv;
    SoundBounds(c, 1);
    if c.phase == Active && c.bound && sequence == c.lastFactAck {
      EndSafe(c.journal, observer, true);
      var j := End(c.journal, observer);
      var draining := c.(phase := Draining, journal := j);
      if j.first.None? {
        EndKeeps(c.journal, observer);
        StopSound(c, draining);
        PumpSafe(draining, sendable);
      } else {
        EndExcused(c, draining);
      }
    } else {
      PoisonInv(c, BadStop);
    }
  }

  lemma PoisonInv(c: Channel, fault: ChannelFault)
    requires !Over(c) && fault != NoFunding && !c.transport.failed && c.journal.first.None? && Aimed(c.journal) && |c.wire| <= c.journal.limits.records
    ensures Inv(Poison(c, fault))
  {
    PoisonSafe(c, fault);
  }

  lemma EndExcused(c: Channel, draining: Channel)
    requires Aimed(draining.journal) && draining.phase == Draining && !draining.transport.failed && |draining.wire| <= draining.journal.limits.records
    requires draining.journal.first in {Some(AfterEnd), Some(EndState), Some(Capacity)}
    ensures Inv(Poison(draining, JournalFault))
  {
  }

  lemma EndKeeps(j: Journal, observer: ObserverState)
    requires j.first.None?
    ensures End(j, observer).facts == j.facts
  {
    hide Append;
  }

  lemma StopSound(c: Channel, draining: Channel)
    requires Sound(c, 1) && c.phase == Active
    requires draining == c.(phase := Draining, journal := draining.journal)
    requires var j := draining.journal;
      && j.first.None? && Numbered(j) && Funded(j, true)
      && j.entries == c.journal.entries + [Entry(END, c.journal.facts + 1, EndFields(c.journal.facts))]
      && j.facts == c.journal.facts && j.ended
      && j.limits == c.journal.limits && j.cursor == c.journal.cursor && j.holding == c.journal.holding
    ensures Sound(draining, 0)
  {
    hide Frame, Shaped, FactFields, EndFields, Funded, SendVisits, Flatten;
  }

  lemma AckSafe(c: Channel, sequence: nat, sendable: bool)
    requires Sound(c, 1) && !Over(c)
    ensures Inv(Ack(c, sequence, sendable))
  {
    hide Pump, Frame, Funded, Ordered, Faithful, Metered, Flatten, Inv;
    SoundBounds(c, 1);
    if c.inflight.Some? && sequence == c.inflight.value.sequence {
      AdvanceSafe(c.journal, true);
      var j := Advance(c.journal, true).journal;
      IdleFunded(j);
      var noted := c.(journal := j, inflight := None, log := c.log + [Acked(sequence)]);
      assert Placed(c.journal.entries[c.journal.cursor], c.journal.cursor, c.journal.facts, c.journal.limits.frameBytes);
      if c.inflight.value.kind == FACT {
        AckSound(c, noted.(lastFactAck := sequence));
        PumpSafe(noted.(lastFactAck := sequence), sendable);
      } else {
        AckSound(c, noted.(phase := EndAcknowledged));
        EndedInv(noted.(phase := EndAcknowledged));
      }
    } else {
      PoisonInv(c, BadAck);
    }
  }

  lemma IdleFunded(j: Journal)
    requires Funded(j, false) && !j.holding
    ensures Funded(j, true)
  {
  }

  lemma EndedInv(c: Channel)
    requires Sound(c, 0) && c.phase == EndAcknowledged
    ensures Inv(c)
  {
  }

  lemma AckSound(c: Channel, r: Channel)
    requires Sound(c, 1) && c.inflight.Some?
    requires var j := c.journal;
      && r.journal == j.(holding := false, cursor := j.cursor + 1)
      && r.log == c.log + [Acked(j.cursor + 1)] && r.inflight.None?
      && (if j.cursor < j.facts then r.phase == c.phase && r.lastFactAck == j.cursor + 1
          else r.phase == EndAcknowledged && r.lastFactAck == c.lastFactAck)
      && r.transport == c.transport && r.wire == c.wire && r.heard == c.heard && r.bound == c.bound
    requires Numbered(r.journal) && Funded(r.journal, true)
    ensures Sound(r, 0)
  {
    hide Frame, Shaped, FactFields, Funded, SendVisits, Flatten;
  }

  lemma AnswerSafe(c: Channel, data: Option<Bytes>, observer: ObserverState, sendable: bool)
    requires Inv(c)
    ensures Inv(Answer(c, data, observer, sendable))
  {
    hide Stop, Ack, Wide, Word, Frame, Sound, Flowing;
    if !Over(c) {
      AliveSound(c);
      ControlMeters(c);
      var paid := c.(transport := Spend(c.transport, 0, 1, 48));
      if data.None? || !ControlFrame(data.value) {
        PoisonInv(paid, ControlShape);
      } else if data.value[1] == 4 {
        StopSafe(paid, Wide(data.value, 4), observer, sendable);
      } else {
        AckSafe(paid, Wide(data.value, 4), sendable);
      }
    }
  }

  lemma AliveSound(c: Channel)
    requires Inv(c) && !Over(c)
    ensures Sound(c, 0) && Flowing(c) && c.journal.first.None? && !c.transport.failed && Aimed(c.journal)
    ensures |c.wire| <= c.journal.limits.records
  {
  }

  // ---- Whole runs.

  lemma FreshInv(l: Limits)
    requires 8 * l.records <= U32_MAX && l.journalBytes <= U32_MAX && 16 <= l.frameBytes <= U32_MAX && Safe(JournalCharge(l))
    ensures Inv(Fresh(l))
  {
  }

  lemma StepSafe(c: Channel, e: Event)
    requires Inv(c)
    ensures Inv(Step(c, e))
  {
    hide Frame, Hear, Answer, Pump, Sound, Excused;
    match e
    case Attach(connecting) =>
      if c.phase == Prepared {
        AliveSound(c);
        PhaseSound(c, c.(phase := Connecting));
        PoisonInv(c.(phase := Connecting), Attachment);
      }
    case Open(protocol) =>
      if c.phase == Connecting {
        AliveSound(c);
        PhaseSound(c, c.(phase := Starting));
        PoisonInv(c, Attachment);
      }
    case Start(ok, sendable) =>
      if c.phase == Starting {
        AliveSound(c);
        PhaseSound(c, c.(phase := Active, bound := true));
        PumpSafe(c.(phase := Active, bound := true), sendable);
        PoisonInv(c, Startup);
      }
    case Observe(fact, sendable) => HearSafe(c, fact, sendable);
    case Control(data, observer, sendable) => AnswerSafe(c, data, observer, sendable);
    case SocketError => LoseSafe(c, LostChannel);
    case SocketClose(clean) =>
      LoseSafe(c, LostChannel);
      if c.phase == EndAcknowledged {
        AliveSound(c);
        PhaseSound(c, c.(phase := Closed));
      }
    case Revoke => LoseSafe(c, Revoked);
  }

  lemma LoseSafe(c: Channel, fault: ChannelFault)
    requires Inv(c) && fault != NoFunding
    ensures Inv(Poison(c, fault))
  {
    hide Sound, Excused;
    if !Over(c) {
      AliveSound(c);
      PoisonInv(c, fault);
    }
  }

  lemma PhaseSound(c: Channel, r: Channel)
    requires Sound(c, 0) && r == c.(phase := r.phase, bound := r.bound)
    requires
      || (c.phase == Prepared && r.phase == Connecting && r.bound == c.bound)
      || (c.phase == Connecting && r.phase == Starting && r.bound == c.bound)
      || (c.phase == Starting && r.phase == Active && r.bound)
      || (c.phase == EndAcknowledged && r.phase == Closed && r.bound == c.bound)
    ensures Sound(r, 0) && (c.phase == EndAcknowledged ==> c.journal.ended)
  {
    hide Frame, Numbered, Funded, Shaped, FactFields, Flatten;
  }

  lemma {:induction false} RunSafe(c: Channel, es: seq<Event>)
    requires Inv(c)
    ensures Inv(Run(c, es))
    decreases |es|
  {
    if es != [] {
      StepSafe(c, es[0]);
      RunSafe(Step(c, es[0]), es[1..]);
    }
  }
}
