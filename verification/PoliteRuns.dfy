/** Runs against a peer that acknowledges everything: they close, and the transport budget is used up to the last visit. */
module PoliteRuns {
  import opened Text
  import opened JsonText
  import opened ProductFacts
  import opened Mirror
  import opened JournalModel
  import opened ChannelModel
  import opened JournalSafety
  import opened ChannelSafety
  import opened ChannelRuns

  const ACK: Byte := 3
  const STOP: Byte := 4

  /** The control frame of a kind and a sequence: a header without a body. */
  function ControlOf(kind: Byte, sequence: nat): Event
  {
    Control(Some(Header(kind, sequence, 0)), ObserverClosed, true)
  }

  function RecordOf(facts: seq<Fact>, i: nat): Entry
    requires i < |facts|
  {
    Entry(FACT, i + 1, if Shaped(facts[i]) then FactFields(facts[i]) else [])
  }

  function Records(facts: seq<Fact>): seq<Entry> { seq(|facts|, i requires 0 <= i < |facts| => RecordOf(facts, i)) }

  function Last(facts: seq<Fact>): Entry { Entry(END, |facts| + 1, EndFields(|facts|)) }

  /** Numbered facts whose records, with the END, fit the journal and its frames. */
  ghost predicate Fits(l: Limits, facts: seq<Fact>) {
    && |facts| < l.records
    && (forall i :: 0 <= i < |facts| ==>
      Shaped(facts[i]) && facts[i].sequence.n == i + 1 && |Frame(RecordOf(facts, i))| <= l.frameBytes)
    && |Frame(Last(facts))| <= l.frameBytes
    && |Flatten(Records(facts) + [Last(facts)])| <= l.journalBytes
  }

  /** Every fact from `i` on, each acknowledged at once. */
  function Exchange(facts: seq<Fact>, i: nat): seq<Event>
    decreases |facts| - i
  {
    if i >= |facts| then [] else [Observe(facts[i], true), ControlOf(ACK, i + 1)] + Exchange(facts, i + 1)
  }

  /** The whole run up to the acknowledged END. */
  function Polite(facts: seq<Fact>): seq<Event> {
    [Attach(true), Open(true), Start(true, true)] + Exchange(facts, 0)
    + [ControlOf(STOP, |facts|), ControlOf(ACK, |facts| + 1)]
  }

  /** The first `i` facts are recorded, sent and acknowledged, and the channel is ready for the next. */
  ghost predicate Level(c: Channel, facts: seq<Fact>, i: nat) {
    && i <= |facts| && Sound(c, 0) && c.phase == Active && c.inflight.None?
    && c.journal.facts == c.journal.cursor == i && c.journal.entries == Records(facts)[..i]
  }

  // ---- One exchange.

  lemma ReceiveStores(j: Journal, f: Fact)
    requires Numbered(j) && Funded(j, true) && j.first.None? && !j.ended && |j.entries| < j.limits.records
    requires Shaped(f) && f.sequence.n == j.facts + 1
    requires |Frame(Entry(FACT, j.facts + 1, FactFields(f)))| <= j.limits.frameBytes
    requires |Flatten(j.entries)| + |Frame(Entry(FACT, j.facts + 1, FactFields(f)))| <= j.limits.journalBytes
    ensures Receive(j, f).first.None?
  {
    hide FactFields, EncodeObject, Flatten, Frame, Shaped, Numbered, Funded;
    ReceiveSafe(j, f, true);
    FactSize(f);
    FrameSize(Entry(FACT, j.facts + 1, FactFields(f)));
    NumberedBounds(j);
    if Receive(j, f).first.Some? {
      ReceiveFaults(j, f);
    }
  }

  lemma NumberedBounds(j: Journal)
    requires Numbered(j)
    ensures j.limits.frameBytes <= U32_MAX && |j.entries| == j.facts + (if j.ended then 1 else 0) <= U32_MAX
  {
    hide Flatten;
  }

  /** The faults a receipt can meet with room left. */
  lemma ReceiveFaults(j: Journal, f: Fact)
    requires j.first.None? && !j.ended && |j.entries| < j.limits.records && j.facts + 1 <= MAX_SAFE
    requires Shaped(f) && |EncodeObject(FactFields(f))| + 16 <= j.limits.frameBytes
    requires |Flatten(j.entries)| + |EncodeObject(FactFields(f))| + 16 <= j.limits.journalBytes
    ensures Receive(j, f).first in {None, Some(Funding), Some(OutOfSequence), Some(SizeOverflow), Some(Fault.Shape)}
  {
    hide FactFields, EncodeObject, Flatten, Shaped;
  }

  lemma RoomLeft(facts: seq<Fact>, i: nat)
    requires i < |facts|
    ensures Records(facts)[..i + 1] == Records(facts)[..i] + [RecordOf(facts, i)]
    ensures |Flatten(Records(facts)[..i])| + |Frame(RecordOf(facts, i))| <= |Flatten(Records(facts) + [Last(facts)])|
  {
    hide FactFields, Frame;
    var all := Records(facts) + [Last(facts)];
    assert all[..i] == Records(facts)[..i];
    FlattenPrefix(all, i);
  }

  /** A fact that fits is recorded and sent at once. */
  lemma Observed(c: Channel, facts: seq<Fact>, i: nat)
    requires Level(c, facts, i) && i < |facts| && Fits(c.journal.limits, facts)
    ensures var r := Step(c, Observe(facts[i], true));
      && Sound(r, 0) && r.phase == Active && r.inflight.Some? && r.journal.cursor == i && r.journal.facts == i + 1
      && r.journal.entries == Records(facts)[..i + 1]
  {
    hide Frame, Shaped, FactFields, Flatten, Pump, Receive, Funded, Metered, Ordered, Faithful;
    RoomLeft(facts, i);
    var j := Receive(c.journal, facts[i]);
    ReceiveStores(c.journal, facts[i]);
    ReceiveSafe(c.journal, facts[i], true);
    ReceiveKeeps(c.journal, facts[i]);
    var heard := c.(journal := j, heard := c.heard + [facts[i]]);
    HeardSound(c, heard, facts[i]);
    PumpSends(heard, true);
    PumpFacts(heard);
  }

  lemma PumpFacts(c: Channel)
    requires Aimed(c.journal)
    ensures Pump(c, true).journal.facts == c.journal.facts
  {
    hide Send;
    PendingKeeps(c.journal);
    var (next, j) := Pending(c.journal);
    if next == Record {
      SendFacts(c.(journal := j, transport := Spend(c.transport, 0, 1, SendVisits(j.limits))));
    }
  }

  lemma SendFacts(c: Channel)
    requires Aimed(c.journal) && c.journal.cursor < |c.journal.entries|
    ensures Send(c, true).journal.facts == c.journal.facts
  {
    hide Frame, Wide, Copy;
    CopyKeeps(c.journal, |Frame(c.journal.entries[c.journal.cursor])|);
  }

  lemma ControlFrames(kind: Byte, sequence: nat)
    requires (kind == ACK || kind == STOP) && sequence <= MAX_SAFE
    ensures var b := Header(kind, sequence, 0); |b| == 16 && b[1] == kind && ControlFrame(b) && Wide(b, 4) == sequence
  {
    HeaderReads(kind, sequence, 0, []);
    assert Header(kind, sequence, 0) + [] == Header(kind, sequence, 0);
    hide Header, Wide, Word;
  }

  /** The acknowledgement of the outstanding record, when it is the last one recorded. */
  lemma Acknowledged(c: Channel, sequence: nat)
    requires Sound(c, 0) && Sending(c) && c.journal.cursor + 1 == |c.journal.entries|
    requires c.inflight == Some(Inflight(sequence, c.journal.entries[c.journal.cursor].kind))
    ensures var r := Step(c, ControlOf(ACK, sequence));
      && Sound(r, 0) && r.inflight.None? && r.journal.entries == c.journal.entries && r.journal.facts == c.journal.facts
      && r.journal.cursor == c.journal.cursor + 1
      && r.phase == if c.inflight.value.kind == FACT then c.phase else EndAcknowledged
  {
    hide Pump, Frame, Funded, Ordered, Faithful, Metered, Flatten, Header, Wide, Word, ControlFrame;
    SoundBounds(c, 0);
    ControlFrames(ACK, sequence);
    ControlMeters(c);
    var paid := c.(transport := Spend(c.transport, 0, 1, 48));
    AdvanceSafe(paid.journal, true);
    var j := Advance(paid.journal, true).journal;
    IdleFunded(j);
    var noted := paid.(journal := j, inflight := None, log := paid.log + [Acked(sequence)]);
    assert Placed(c.journal.entries[c.journal.cursor], c.journal.cursor, c.journal.facts, c.journal.limits.frameBytes);
    if c.inflight.value.kind == FACT {
      AckSound(paid, noted.(lastFactAck := sequence));
      PumpSafe(noted.(lastFactAck := sequence), true);
    } else {
      AckSound(paid, noted.(phase := EndAcknowledged));
    }
  }

  lemma {:induction false} Exchanged(c: Channel, facts: seq<Fact>, i: nat)
    requires Level(c, facts, i) && Fits(c.journal.limits, facts)
    ensures Level(Run(c, Exchange(facts, i)), facts, |facts|)
    decreases |facts| - i
  {
    hide Step, Sound, Records, Fits;
    SoundBounds(c, 0);
    if i < |facts| {
      var sent := Step(c, Observe(facts[i], true));
      Observed(c, facts, i);
      Outstanding(sent, facts, i);
      Acknowledged(sent, i + 1);
      SoundBounds(sent, 0);
      var next := Step(sent, ControlOf(ACK, i + 1));
      Exchanged(next, facts, i + 1);
      var rest := Exchange(facts, i + 1);
      assert Exchange(facts, i)[1..] == [ControlOf(ACK, i + 1)] + rest && ([ControlOf(ACK, i + 1)] + rest)[1..] == rest;
      assert Run(c, Exchange(facts, i)) == Run(sent, [ControlOf(ACK, i + 1)] + rest) == Run(next, rest);
    }
  }

  lemma Outstanding(c: Channel, facts: seq<Fact>, i: nat)
    requires Sound(c, 0) && c.inflight.Some? && c.journal.cursor == i < |facts| && c.journal.entries == Records(facts)[..i + 1]
    ensures c.inflight == Some(Inflight(i + 1, c.journal.entries[i].kind)) && c.journal.entries[i].kind == FACT
    ensures |c.journal.entries| == i + 1
  {
    hide FactFields, Frame, Metered, Ordered, Faithful, Funded;
  }

  // ---- The end.

  lemma EndStores(j: Journal)
    requires Numbered(j) && Funded(j, true) && j.first.None? && !j.ended && |j.entries| < j.limits.records
    requires |Frame(Entry(END, j.facts + 1, EndFields(j.facts)))| <= j.limits.frameBytes
    requires |Flatten(j.entries)| + |Frame(Entry(END, j.facts + 1, EndFields(j.facts)))| <= j.limits.journalBytes
    ensures End(j, ObserverClosed).first.None?
  {
    hide EndFields, EncodeObject, Flatten, Frame, Numbered, Funded, End;
    NumberedBounds(j);
    EndSafe(j, ObserverClosed, true);
    FrameSize(Entry(END, j.facts + 1, EndFields(j.facts)));
    EndFaults(j);
  }

  /** Ending with room left is no matter of capacity. */
  lemma EndFaults(j: Journal)
    requires j.first.None? && !j.ended && |j.entries| < j.limits.records && j.facts + 1 <= MAX_SAFE
    requires |EncodeObject(EndFields(j.facts))| + 16 <= j.limits.frameBytes
    requires |Flatten(j.entries)| + |EncodeObject(EndFields(j.facts))| + 16 <= j.limits.journalBytes
    ensures End(j, ObserverClosed).first in {None, Some(Funding), Some(SizeOverflow), Some(Encoding)}
  {
    hide EndFields, EncodeObject, Flatten;
  }

  lemma AllRecords(facts: seq<Fact>)
    ensures Records(facts)[..|facts|] == Records(facts)
    ensures |Flatten(Records(facts))| + |Frame(Last(facts))| == |Flatten(Records(facts) + [Last(facts)])|
  {
    hide FactFields, Frame;
    FlattenSnoc(Records(facts), Last(facts));
  }

  /** STOP behind the last acknowledgement ends the journal and sends the END. */
  lemma Stopped(c: Channel, facts: seq<Fact>)
    requires Level(c, facts, |facts|) && Fits(c.journal.limits, facts)
    ensures var r := Step(c, ControlOf(STOP, |facts|));
      && Sound(r, 0) && r.phase == Draining && r.journal.cursor == |facts| && r.journal.facts == |facts|
      && r.journal.entries == Records(facts) + [Last(facts)]
      && r.inflight == Some(Inflight(|facts| + 1, END))
  {
    hide Pump, End, Frame, FactFields, EndFields, Funded, Ordered, Faithful, Metered, Flatten, Header, Wide, Word, ControlFrame, Shaped;
    SoundBounds(c, 0);
    AllRecords(facts);
    ControlFrames(STOP, |facts|);
    ControlMeters(c);
    var paid := c.(transport := Spend(c.transport, 0, 1, 48));
    EndStores(paid.journal);
    EndSafe(paid.journal, ObserverClosed, true);
    EndKeeps(paid.journal, ObserverClosed);
    var draining := paid.(phase := Draining, journal := End(paid.journal, ObserverClosed));
    StopSound(paid, draining);
    PumpSends(draining, true);
    PumpFacts(draining);
  }

  lemma Opened(l: Limits, facts: seq<Fact>)
    requires Bootable(l)
    ensures var c := Run(Fresh(l), [Attach(true), Open(true), Start(true, true)]);
      Level(c, facts, 0) && c.journal.limits == l
  {
    var attached := Step(Fresh(l), Attach(true));
    var ready := Step(attached, Open(true));
    var started := Step(ready, Start(true, true));
    assert started == Fresh(l).(phase := Active, bound := true);
    FreshInv(l);
    PhaseSound(Fresh(l), attached);
    PhaseSound(attached, ready);
    PhaseSound(ready, started);
    hide Step, Sound;
    assert Run(ready, [Start(true, true)]) == Run(started, []);
    assert Run(attached, [Open(true), Start(true, true)]) == Run(ready, [Start(true, true)]);
    assert Records(facts)[..0] == [];
  }

  lemma {:induction false} RunJoins(c: Channel, a: seq<Event>, b: seq<Event>)
    requires Aimed(c.journal)
    ensures Run(c, a + b) == Run(Run(c, a), b)
    decreases |a|
  {
    hide Step;
    if a == [] {
      assert a + b == b;
    } else {
      RunJoins(Step(c, a[0]), a[1..], b);
      assert (a + b)[1..] == a[1..] + b;
    }
  }

  /**
    A peer that acknowledges everything gets everything: for any numbered facts that fit, the polite run
    has its END acknowledged, and a clean close then closes the channel.
  */
  lemma PoliteCloses(l: Limits, facts: seq<Fact>)
    requires Bootable(l) && Fits(l, facts)
    ensures var c := From(l, Polite(facts));
      c.phase == EndAcknowledged && |c.wire| == |facts| + 1 && Sound(c, 0) && Step(c, SocketClose(true)).phase == Closed
  {
    hide Step, Sound, Fits, Level, Fresh, Records;
    var opening := [Attach(true), Open(true), Start(true, true)];
    var closing := [ControlOf(STOP, |facts|), ControlOf(ACK, |facts| + 1)];
    FreshAimed(l);
    RunJoins(Fresh(l), opening + Exchange(facts, 0), closing);
    RunJoins(Fresh(l), opening, Exchange(facts, 0));
    var ready := Run(Fresh(l), opening);
    Opened(l, facts);
    Exchanged(ready, facts, 0);
    Ended(Run(ready, Exchange(facts, 0)), facts);
  }

  lemma FreshAimed(l: Limits)
    ensures Aimed(Fresh(l).journal)
  {
  }

  lemma Ended(c: Channel, facts: seq<Fact>)
    requires Level(c, facts, |facts|) && Fits(c.journal.limits, facts)
    ensures var r := Run(c, [ControlOf(STOP, |facts|), ControlOf(ACK, |facts| + 1)]);
      && r.phase == EndAcknowledged && |r.wire| == |facts| + 1 && Sound(r, 0) && Step(r, SocketClose(true)).phase == Closed
  {
    hide Fits, Sound, Frame, Flatten, FactFields, EndFields, Answer, Header;
    SoundBounds(c, 0);
    var stopped := Step(c, ControlOf(STOP, |facts|));
    Stopped(c, facts);
    SoundBounds(stopped, 0);
    Acknowledged(stopped, |facts| + 1);
    var acked := Step(stopped, ControlOf(ACK, |facts| + 1));
    SoundBounds(acked, 0);
    TwoSteps(c, ControlOf(STOP, |facts|), ControlOf(ACK, |facts| + 1));
  }

  lemma TwoSteps(c: Channel, a: Event, b: Event)
    requires Aimed(c.journal)
    ensures Run(c, [a, b]) == Step(Step(c, a), b)
  {
    hide Step;
    var first := Step(c, a);
    assert [a, b][1..] == [b] && Run(first, [b]) == Run(Step(first, b), []);
  }

  // ---- The transport budget, to the last visit.

  /** Control frames charged so far are the answers given, while the channel lives. */
  lemma {:induction false} ChargedAnswered(c: Channel, es: seq<Event>)
    requires Inv(c) && !Over(Run(c, es)) && !Over(c)
    ensures ChargedControls(c, es) == Answered(Run(c, es)) - Answered(c)
    decreases |es|
  {
    hide Step, Inv;
    if es != [] {
      StepSafe(c, es[0]);
      InvAimed(c);
      var next := Step(c, es[0]);
      if Over(next) {
        OverStays(next, es[1..]);
      } else {
        AnswerCounts(c, es[0]);
        ChargedAnswered(next, es[1..]);
      }
    }
  }

  lemma InvAimed(c: Channel)
    requires Inv(c)
    ensures Aimed(c.journal)
  {
  }

  /** An offending frame, whatever is in it. */
  const OFFENCE: Event := Control(None, ObserverClosed, true)

  lemma {:induction false} ChargedOneMore(c: Channel, es: seq<Event>)
    requires Inv(c) && !Over(Run(c, es)) && !Over(c)
    ensures ChargedControls(c, es + [OFFENCE]) == ChargedControls(c, es) + 1
    decreases |es|
  {
    hide Step, Inv;
    InvAimed(c);
    if es == [] {
      assert es + [OFFENCE] == [OFFENCE];
      assert ChargedControls(Step(c, OFFENCE), [OFFENCE][1..]) == 0;
    } else {
      StepSafe(c, es[0]);
      InvAimed(Step(c, es[0]));
      if Over(Step(c, es[0])) {
        OverStays(Step(c, es[0]), es[1..]);
      }
      ChargedOneMore(Step(c, es[0]), es[1..]);
      assert (es + [OFFENCE])[1..] == es[1..] + [OFFENCE];
    }
  }

  /**
    With one record for each fact and one for the END, the polite run and one offending frame charge
    R + 2 control frames and leave not a single visit: the bound is reached.
  */
  lemma BudgetUsedUp(l: Limits, facts: seq<Fact>)
    requires Bootable(l) && Fits(l, facts) && |facts| + 1 == l.records
    ensures ChargedControls(Fresh(l), Polite(facts) + [OFFENCE]) == l.records + 2
    ensures var c := From(l, Polite(facts));
      && c.transport.remaining.visits == 48 && Step(c, OFFENCE).phase == Poisoned(ControlShape)
      && Step(c, OFFENCE).transport.remaining.visits == 0
  {
    hide Run, Fits, Sound, Excused, Fresh, ChargedControls;
    PoliteCloses(l, facts);
    TransportExact(l, Polite(facts));
    FreshInv(l);
    FreshLimits(l);
    var c := From(l, Polite(facts));
    ChargedAnswered(Fresh(l), Polite(facts));
    ChargedOneMore(Fresh(l), Polite(facts));
    SoundBounds(c, 0);
    ControlMeters(c);
    EndedAnswered(c, l, facts);
  }

  lemma EndedAnswered(c: Channel, l: Limits, facts: seq<Fact>)
    requires Sound(c, 0) && c.phase == EndAcknowledged && |c.wire| == |facts| + 1 == l.records
    ensures Answered(c) == l.records + 1
  {
    hide Numbered, Funded, Metered, Faithful;
  }

  /** The same channel with one visit less. */
  function Poorer(c: Channel): Channel
    requires c.transport.remaining.visits >= 1
  {
    c.(transport := c.transport.(remaining := c.transport.remaining.(visits := c.transport.remaining.visits - 1)))
  }

  /** Nothing was refused and one visit is unspent. */
  predicate Spare(c: Channel) { !c.transport.failed && c.transport.remaining.visits >= 1 }

  lemma PoorerSend(c: Channel, sendable: bool)
    requires Aimed(c.journal) && c.journal.cursor < |c.journal.entries| && Spare(c)
    ensures Spare(Send(c, sendable)) && Send(Poorer(c), sendable) == Poorer(Send(c, sendable))
  {
    hide Frame, Wide, Copy;
  }

  lemma PendingAims(j: Journal)
    requires Aimed(j)
    ensures var (next, r) := Pending(j); Aimed(r) && r.limits == j.limits && (next == Record ==> r.cursor < |r.entries|)
  {
  }

  lemma PoorerPump(c: Channel, sendable: bool)
    requires Aimed(c.journal) && Spare(Pump(c, sendable))
    ensures Spare(c) && Pump(Poorer(c), sendable) == Poorer(Pump(c, sendable))
  {
    hide Send, Pending, SendVisits;
    if c.inflight.None? && Sending(c) {
      var (next, j) := Pending(c.journal);
      PendingAims(c.journal);
      if next == Record {
        var paid := c.(journal := j, transport := Spend(c.transport, 0, 1, SendVisits(j.limits)));
        if Covers(c.transport, 0, 1, SendVisits(j.limits)) {
          SendTransport(paid, sendable);
          PoorerSend(paid, sendable);
        }
      }
    }
  }

  lemma SendTransport(c: Channel, sendable: bool)
    requires Aimed(c.journal) && c.journal.cursor < |c.journal.entries|
    ensures Send(c, sendable).transport == c.transport
  {
    hide Frame, Wide;
  }

  lemma PoorerHear(c: Channel, fact: Fact, sendable: bool)
    requires Aimed(c.journal) && Spare(Hear(c, fact, sendable))
    ensures Spare(c) && Hear(Poorer(c), fact, sendable) == Poorer(Hear(c, fact, sendable))
  {
    hide Receive, Pump;
    if !Over(c) && Receive(c.journal, fact).first.None? {
      PoorerPump(c.(journal := Receive(c.journal, fact), heard := c.heard + [fact]), sendable);
    }
  }

  lemma PoorerStop(c: Channel, sequence: nat, observer: ObserverState, sendable: bool)
    requires Aimed(c.journal) && Spare(Stop(c, sequence, observer, sendable))
    ensures Spare(c) && Stop(Poorer(c), sequence, observer, sendable) == Poorer(Stop(c, sequence, observer, sendable))
  {
    hide End, Pump;
    if c.phase == Active && c.bound && sequence == c.lastFactAck && End(c.journal, observer).first.None? {
      PoorerPump(c.(phase := Draining, journal := End(c.journal, observer)), sendable);
    }
  }

  lemma PoorerAck(c: Channel, sequence: nat, sendable: bool)
    requires Aimed(c.journal) && Spare(Ack(c, sequence, sendable))
    ensures Spare(c) && Ack(Poorer(c), sequence, sendable) == Poorer(Ack(c, sequence, sendable))
  {
    hide Pump;
    if c.inflight.Some? && sequence == c.inflight.value.sequence && Advance(c.journal, true).ok && c.inflight.value.kind == FACT {
      PoorerPump(c.(journal := Advance(c.journal, true).journal, inflight := None,
        log := c.log + [Acked(sequence)], lastFactAck := sequence), sendable);
    }
  }

  lemma PoorerAnswer(c: Channel, data: Option<Bytes>, observer: ObserverState, sendable: bool)
    requires Aimed(c.journal) && Spare(Answer(c, data, observer, sendable))
    ensures Spare(c) && Answer(Poorer(c), data, observer, sendable) == Poorer(Answer(c, data, observer, sendable))
  {
    hide Stop, Ack, Wide, Word, ControlFrame;
    if !Over(c) && Covers(c.transport, 0, 1, 48) {
      var paid := c.(transport := Spend(c.transport, 0, 1, 48));
      if data.Some? && ControlFrame(data.value) {
        Sixteen(data.value);
        if data.value[1] == 4 {
          PoorerStop(paid, Wide(data.value, 4), observer, sendable);
        } else {
          PoorerAck(paid, Wide(data.value, 4), sendable);
        }
      }
    }
  }

  lemma Sixteen(b: Bytes)
    requires ControlFrame(b)
    ensures |b| == 16
  {
  }

  /** As long as one visit stays unspent, a step does not miss it. */
  lemma PoorerStep(c: Channel, e: Event)
    requires Aimed(c.journal) && Spare(Step(c, e))
    ensures Spare(c) && Step(Poorer(c), e) == Poorer(Step(c, e))
  {
    hide Pump, Hear, Answer;
    match e
    case Start(ok, sendable) =>
      if c.phase == Starting && ok { PoorerPump(c.(phase := Active, bound := true), sendable); }
    case Observe(fact, sendable) => PoorerHear(c, fact, sendable);
    case Control(data, observer, sendable) => PoorerAnswer(c, data, observer, sendable);
    case _ =>
  }

  lemma {:induction false} PoorerRun(c: Channel, es: seq<Event>)
    requires Aimed(c.journal) && Spare(Run(c, es))
    ensures Spare(c) && Run(Poorer(c), es) == Poorer(Run(c, es))
    decreases |es|
  {
    hide Step, Spare;
    if es != [] {
      PoorerRun(Step(c, es[0]), es[1..]);
      PoorerStep(c, es[0]);
    }
  }

  /** And the formula grants nothing it could do without: with one visit less, the same run ends in a refusal. */
  lemma OneLessFails(l: Limits, facts: seq<Fact>)
    requires Bootable(l) && Fits(l, facts) && |facts| + 1 == l.records
    ensures Spare(Fresh(l)) && Run(Poorer(Fresh(l)), Polite(facts) + [OFFENCE]).phase == Poisoned(NoFunding)
  {
    hide Fits, Fresh, Polite;
    var c := From(l, Polite(facts));
    BudgetUsedUp(l, facts);
    PoliteCloses(l, facts);
    SoundBounds(c, 0);
    hide Sound, Run;
    FreshAimed(l);
    PoorerRun(Fresh(l), Polite(facts));
    RunJoins(Poorer(Fresh(l)), Polite(facts), [OFFENCE]);
    RunOne(Poorer(c), OFFENCE);
  }

  lemma RunOne(c: Channel, e: Event)
    requires Aimed(c.journal)
    ensures Run(c, [e]) == Step(c, e)
  {
    hide Step;
    assert Run(Step(c, e), []) == Step(c, e);
  }

  /** Such runs exist already without a fact: one record and room for its END are enough. */
  lemma EmptyFits(l: Limits)
    requires l.records >= 1 && l.frameBytes >= 528 && l.journalBytes >= 528
    ensures Fits(l, [])
  {
    EndSize(0);
    FrameSize(Last([]));
    FlattenSnoc(Records([]), Last([]));
    assert Records([]) == [];
  }
}
