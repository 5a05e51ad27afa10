/** The channel's main results, over every run from a prepared bootstrap. */
module ChannelRuns {
  import opened Text
  import opened JsonText
  import opened JsonReader
  import opened ProductFacts
  import opened Mirror
  import opened JournalModel
  import opened ChannelModel
  import opened JournalSafety
  import opened ChannelSafety
  import ProductObserver

  /** A channel some accepted bootstrap can lead to. */
  ghost predicate Bootable(l: Limits) {
    8 * l.records <= U32_MAX && l.journalBytes <= U32_MAX && 16 <= l.frameBytes <= U32_MAX
    && Safe(JournalCharge(l)) && Safe(TransportCharge(l))
  }

  ghost function From(l: Limits, es: seq<Event>): Channel
    requires Bootable(l)
  {
    Run(Fresh(l), es)
  }

  /** The facts the producer handed over, in order. */
  function Facts(es: seq<Event>): seq<Fact> {
    if es == [] then [] else (if es[0].Observe? then [es[0].fact] else []) + Facts(es[1..])
  }

  lemma FromInv(l: Limits, es: seq<Event>)
    requires Bootable(l)
    ensures Inv(From(l, es))
  {
    FreshInv(l);
    RunSafe(Fresh(l), es);
  }

  // ---- Facts heard.

  lemma SendHears(c: Channel, sendable: bool)
    requires Aimed(c.journal) && c.journal.cursor < |c.journal.entries|
    ensures Send(c, sendable).heard == c.heard && Send(c, sendable).phase in {c.phase, Poisoned(JournalFault), Poisoned(SendFault)}
    ensures Send(c, sendable).journal.ended == c.journal.ended && Send(c, sendable).journal.cursor == c.journal.cursor
  {
    hide Frame, Wide, FACT, END;
  }

  lemma PumpHears(c: Channel, sendable: bool)
    requires Aimed(c.journal)
    ensures Pump(c, sendable).heard == c.heard && (Pump(c, sendable).phase == c.phase || Pump(c, sendable).phase.Poisoned?)
    ensures Pump(c, sendable).journal.ended == c.journal.ended && Pump(c, sendable).journal.cursor == c.journal.cursor
  {
    hide Send;
    if c.inflight.None? && Sending(c) {
      var (next, j) := Pending(c.journal);
      if next == Record {
        SendHears(c.(journal := j, transport := Spend(c.transport, 0, 1, SendVisits(j.limits))), sendable);
      }
    }
  }

  /** One step: a live channel notes exactly the fact it is given, a finished one nothing. */
  lemma StepHears(c: Channel, e: Event)
    requires Aimed(c.journal)
    ensures Step(c, e).heard == c.heard + (if e.Observe? && !Over(c) then [e.fact] else [])
    ensures Over(c) ==> Step(c, e) == c
    ensures Step(c, e).phase == Closed && c.phase != Closed ==> c.phase == EndAcknowledged && e == SocketClose(true)
  {
    hide Pump, Receive, End, Wide, Word;
    match e
    case Start(_, sendable) =>
      PumpHears(c.(phase := Active, bound := true), sendable);
    case Observe(fact, sendable) =>
      PumpHears(c.(journal := Receive(c.journal, fact), heard := c.heard + [fact]), sendable);
    case Control(data, observer, sendable) =>
      var paid := c.(transport := Spend(c.transport, 0, 1, 48));
      if data.Some? && |data.value| == 16 {
        StopHears(paid, Wide(data.value, 4), observer, sendable);
        AckHears(paid, Wide(data.value, 4), sendable);
      }
    case _ =>
  }

  lemma StopHears(c: Channel, sequence: nat, observer: ObserverState, sendable: bool)
    requires Aimed(c.journal)
    ensures Stop(c, sequence, observer, sendable).heard == c.heard
    ensures Stop(c, sequence, observer, sendable).phase in {c.phase, Draining} || Stop(c, sequence, observer, sendable).phase.Poisoned?
  {
    hide Pump, End;
    PumpHears(c.(phase := Draining, journal := End(c.journal, observer)), sendable);
  }

  lemma AckHears(c: Channel, sequence: nat, sendable: bool)
    requires Aimed(c.journal)
    ensures Ack(c, sequence, sendable).heard == c.heard
    ensures Ack(c, sequence, sendable).phase in {c.phase, EndAcknowledged} || Ack(c, sequence, sendable).phase.Poisoned?
  {
    hide Pump;
    if c.inflight.Some? && Advance(c.journal, true).ok {
      PumpHears(c.(journal := Advance(c.journal, true).journal, inflight := None,
        log := c.log + [Acked(sequence)], lastFactAck := sequence), sendable);
    }
  }

  lemma {:induction false} OverStays(c: Channel, es: seq<Event>)
    requires Aimed(c.journal) && Over(c)
    ensures Run(c, es) == c
    decreases |es|
  {
    if es != [] {
      StepHears(c, es[0]);
      OverStays(c, es[1..]);
    }
  }

  /** Facts are heard in order while the channel lives, all of them if it still does. */
  lemma {:induction false} RunHears(c: Channel, es: seq<Event>)
    requires Aimed(c.journal)
    ensures c.heard <= Run(c, es).heard <= c.heard + Facts(es)
    ensures !Over(Run(c, es)) ==> Run(c, es).heard == c.heard + Facts(es)
    decreases |es|
  {
    hide Step;
    if es != [] {
      StepHears(c, es[0]);
      if Over(c) {
        OverStays(c, es);
      } else {
        RunHears(Step(c, es[0]), es[1..]);
        assert Step(c, es[0]).heard + Facts(es[1..]) == c.heard + Facts(es);
      }
    }
  }

  /** A channel closes only at a clean socket close after the acknowledged END. */
  lemma {:induction false} ClosesAt(c: Channel, es: seq<Event>) returns (k: nat)
    requires Aimed(c.journal) && c.phase != Closed && Run(c, es).phase == Closed
    ensures k < |es| && es[k] == SocketClose(true)
    ensures Run(c, es[..k]).phase == EndAcknowledged && Run(c, es).heard == Run(c, es[..k]).heard
    decreases |es|
  {
    var next := Step(c, es[0]);
    StepHears(c, es[0]);
    if next.phase == Closed {
      k := 0;
      OverStays(next, es[1..]);
      assert es[..0] == [];
    } else {
      var i := ClosesAt(next, es[1..]);
      k := i + 1;
      assert es[..k][0] == es[0] && es[..k][1..] == es[1..][..i];
    }
  }

  // ---- Results.

  /** What a reader of one frame learns: its kind, its sequence and its tree, with nothing left over. */
  ghost predicate Reads(frame: Bytes, kind: Byte, sequence: nat, fields: Fields) {
    && |frame| >= 16 && frame[0] == 1 && frame[1] == kind && frame[2] == 0 && frame[3] == 0
    && Wide(frame, 4) == sequence && Word(frame, 12) == |frame| - 16
    && ReadObject(frame[16..]) == Got(fields, [])
  }

  /**
    The wire carries the facts in order and once, numbered from one, then END; each record was
    sent only after the ACK of the one before, and every record was acknowledged.
   */
  ghost predicate Delivered(c: Channel, facts: seq<Fact>) {
    && |c.wire| == |facts| + 1
    && (forall i :: 0 <= i < |facts| ==>
      Shaped(facts[i]) && Reads(c.wire[i], FACT, i + 1, FactFields(facts[i])))
    && Reads(c.wire[|facts|], END, |facts| + 1, EndFields(|facts|))
    && |c.log| == 2 * |c.wire|
    && (forall i :: 0 <= i < |c.wire| ==> c.log[2 * i] == Sent(i + 1) && c.log[2 * i + 1] == Acked(i + 1))
  }

  /** Main result: a closed channel has delivered every fact it was given before the close. */
  lemma ClosedDelivers(l: Limits, es: seq<Event>) returns (k: nat)
    requires Bootable(l) && From(l, es).phase == Closed
    ensures k < |es| && es[k] == SocketClose(true)
    ensures Delivered(From(l, es), Facts(es[..k]))
  {
    hide Delivered, Run, Sound;
    k := ClosesAt(Fresh(l), es);
    RunHears(Fresh(l), es[..k]);
    assert [] + Facts(es[..k]) == Facts(es[..k]);
    FromInv(l, es);
    SoundDelivers(From(l, es));
  }

  lemma SoundDelivers(c: Channel)
    requires Sound(c, 0) && c.phase == Closed
    ensures Delivered(c, c.heard)
  {
    hide Reads, Frame, Shaped, FactFields, EndFields, Flatten, Funded, Metered;
    var n := |c.heard|;
    forall i | 0 <= i < |c.wire|
      ensures Reads(c.wire[i], c.journal.entries[i].kind, i + 1, c.journal.entries[i].fields)
    {
      EntryReads(c, i);
    }
    forall i | 0 <= i < n
      ensures Shaped(c.heard[i]) && Reads(c.wire[i], FACT, i + 1, FactFields(c.heard[i]))
    {
      assert Placed(c.journal.entries[i], i, c.journal.facts, c.journal.limits.frameBytes);
    }
    assert Placed(c.journal.entries[n], n, c.journal.facts, c.journal.limits.frameBytes);
  }

  lemma EntryReads(c: Channel, i: nat)
    requires Sound(c, 0) && i < |c.wire|
    ensures Reads(c.wire[i], c.journal.entries[i].kind, i + 1, c.journal.entries[i].fields)
  {
    hide Frame, Wide, Word, ReadObject;
    var e := c.journal.entries[i];
    assert Placed(e, i, c.journal.facts, c.journal.limits.frameBytes);
    FrameReads(e, []);
    assert Frame(e) + [] == Frame(e);
  }

  /** No run exhausts the transport mirror. */
  lemma TransportSuffices(l: Limits, es: seq<Event>)
    requires Bootable(l)
    ensures !From(l, es).transport.failed && From(l, es).phase != Poisoned(NoFunding)
    ensures |From(l, es).wire| <= l.records
  {
    FromInv(l, es);
  }

  /** A journal credit is refused only for a fact whose variable text alone exceeds a frame. */
  lemma JournalSuffices(l: Limits, es: seq<Event>)
    requires Bootable(l)
    ensures From(l, es).journal.first == Some(Funding) ==> EndsOversized(From(l, es).heard, l.frameBytes)
  {
    FromInv(l, es);
  }

  /** The last fact alone has more text than a frame holds bytes. */
  predicate EndsOversized(heard: seq<Fact>, frameBytes: nat) {
    heard != [] && Shaped(heard[|heard| - 1]) && UnitCount(FactFields(heard[|heard| - 1])) > frameBytes
  }

  /**
    With the observation as the only producer (numbered, well-shaped facts; see `Chronicle`) neither
    the sequence fault nor the shape fault is reachable.
   */
  lemma ObservedNeverRefused(l: Limits, es: seq<Event>, owners: nat)
    requires Bootable(l) && ProductObserver.Chronicle(Facts(es), owners)
    requires forall f <- Facts(es) :: IsNumber(f.opening)
    ensures From(l, es).journal.first !in {Some(OutOfSequence), Some(Fault.Shape)}
  {
    hide ProductObserver.Founded, Shaped, Sound, ProductObserver.Introduces;
    FromInv(l, es);
    RunHears(Fresh(l), es);
    assert [] + Facts(es) == Facts(es);
    var c := From(l, es);
    if c.heard != [] {
      LastHeard(c, Facts(es), owners);
    }
    PoisonedFirst(c);
  }

  lemma PoisonedFirst(c: Channel)
    requires Inv(c)
    ensures c.journal.first.None? || Excused(c)
  {
  }

  lemma LastHeard(c: Channel, facts: seq<Fact>, owners: nat)
    requires c.heard != [] && c.heard <= facts && ProductObserver.Chronicle(facts, owners) && forall f <- facts :: IsNumber(f.opening)
    ensures Shaped(c.heard[|c.heard| - 1]) && c.heard[|c.heard| - 1].sequence == RInteger(|c.heard|)
  {
    hide ProductObserver.Founded, Shaped, ProductObserver.Introduces;
    var i := |c.heard| - 1;
    assert c.heard[i] == facts[i];
  }

  /** Control frames that were charged: those that reach a channel still alive. */
  function ChargedControls(c: Channel, es: seq<Event>): nat
    requires Aimed(c.journal)
    decreases |es|
  {
    if es == [] then 0
    else (if es[0].Control? && !Over(c) then 1 else 0) + ChargedControls(Step(c, es[0]), es[1..])
  }

  lemma AnswerCounts(c: Channel, e: Event)
    requires Inv(c) && !Over(c)
    ensures var r := Step(c, e); Over(r) || Answered(r) == Answered(c) + if e.Control? then 1 else 0
  {
    hide Pump, Answer, Hear, Sound, Excused, Send;
    AliveSound(c);
    match e
    case Start(_, sendable) =>
      PumpHears(c.(phase := Active, bound := true), sendable);
    case Observe(fact, sendable) =>
      HearCounts(c, fact, sendable);
    case Control(data, observer, sendable) =>
      SoundBounds(c, 0);
      ControlCounts(c, data, observer, sendable);
    case SocketClose(_) =>
      if c.phase == EndAcknowledged { CloseCounts(c); }
    case _ =>
  }

  lemma CloseCounts(c: Channel)
    requires Sound(c, 0) && c.phase == EndAcknowledged
    ensures c.journal.ended
  {
  }

  lemma ControlCounts(c: Channel, data: Option<Bytes>, observer: ObserverState, sendable: bool)
    requires Aimed(c.journal) && !Over(c) && c.journal.first.None? && (c.phase == Active ==> !c.journal.ended)
    ensures var r := Answer(c, data, observer, sendable); Over(r) || Answered(r) == Answered(c) + 1
  {
    hide Stop, Ack, Wide, Word, ControlFrame;
    var paid := c.(transport := Spend(c.transport, 0, 1, 48));
    if data.Some? && |data.value| == 16 {
      StopCounts(paid, Wide(data.value, 4), observer, sendable);
      AckCounts(paid, Wide(data.value, 4), sendable);
    } else {
      BadShape(data);
    }
  }

  lemma BadShape(data: Option<Bytes>)
    requires data.None? || |data.value| != 16
    ensures data.None? || !ControlFrame(data.value)
  {
  }

  lemma HearCounts(c: Channel, fact: Fact, sendable: bool)
    requires Aimed(c.journal) && !Over(c) && c.journal.first.None?
    ensures Over(Hear(c, fact, sendable)) || Answered(Hear(c, fact, sendable)) == Answered(c)
  {
    hide Pump, Receive;
    var j := Receive(c.journal, fact);
    PumpHears(c.(journal := j, heard := c.heard + [fact]), sendable);
    if j.first.None? {
      ReceiveKeeps(c.journal, fact);
    }
  }

  lemma StopCounts(c: Channel, sequence: nat, observer: ObserverState, sendable: bool)
    requires Aimed(c.journal) && !Over(c) && c.journal.first.None? && (c.phase == Active ==> !c.journal.ended)
    ensures Over(Stop(c, sequence, observer, sendable)) || Answered(Stop(c, sequence, observer, sendable)) == Answered(c) + 1
  {
    hide Pump, Append;
    PumpHears(c.(phase := Draining, journal := End(c.journal, observer)), sendable);
  }

  lemma AckCounts(c: Channel, sequence: nat, sendable: bool)
    requires Aimed(c.journal) && !Over(c)
    ensures Over(Ack(c, sequence, sendable)) || Answered(Ack(c, sequence, sendable)) == Answered(c) + 1
  {
    hide Pump;
    if c.inflight.Some? && Advance(c.journal, true).ok {
      PumpHears(c.(journal := Advance(c.journal, true).journal, inflight := None,
        log := c.log + [Acked(sequence)], lastFactAck := sequence), sendable);
    }
  }

  /** At most one control frame a record, one STOP and one offending frame are ever charged. */
  lemma {:induction false} ControlsBounded(c: Channel, es: seq<Event>)
    requires Inv(c)
    ensures ChargedControls(c, es) <= if Over(c) then 0 else c.journal.limits.records + 2 - Answered(c)
    decreases |es|
  {
    hide Step, Sound, Excused;
    if !Over(c) {
      AliveSound(c);
      SoundBounds(c, 0);
    }
    if es != [] {
      StepSafe(c, es[0]);
      var next := Step(c, es[0]);
      ControlsBounded(next, es[1..]);
      if Over(c) {
        StepHears(c, es[0]);
      } else {
        AnswerCounts(c, es[0]);
      }
    }
  }

  /**
    The formula is exact: once every record was sent and acknowledged, one control frame's visits
    remain and no more, so the offending frame is still charged and a second one could not be.
   */
  lemma TransportExact(l: Limits, es: seq<Event>)
    requires Bootable(l) && From(l, es).phase == EndAcknowledged && |From(l, es).wire| == l.records
    ensures From(l, es).transport.remaining.visits == 48
    ensures ChargedControls(Fresh(l), es) <= l.records + 2
  {
    hide Run, Sound, Excused, Fresh;
    FromInv(l, es);
    FreshInv(l);
    ControlsBounded(Fresh(l), es);
    FreshLimits(l);
    AllSpent(From(l, es));
  }

  lemma FreshLimits(l: Limits)
    ensures Fresh(l).journal.limits == l && Answered(Fresh(l)) == 0 && !Over(Fresh(l))
  {
  }

  lemma AllSpent(c: Channel)
    requires Inv(c) && c.phase == EndAcknowledged && |c.wire| == c.journal.limits.records
    ensures c.transport.remaining.visits == 48
  {
    hide Numbered, Funded, Faithful, SendVisits, Frame;
    var l := c.journal.limits;
    assert Sends(c) == Answered(c) - 1 == l.records;
    assert (l.records - Sends(c)) * SendVisits(l) == 0;
  }
}
