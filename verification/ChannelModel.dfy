/** The document channel as a value, stepped by its callbacks. Each callback is atomic. */
module ChannelModel {
  import opened Text
  import opened ProductFacts
  import opened Mirror
  import opened JournalModel

  datatype Bootstrap = Bootstrap(limits: Limits, journalCharge: Charge, transportCharge: Charge,
    owners: nat, events: nat, credential: Text)

  function Backing(l: Limits): nat { l.journalBytes + 8 * l.records }

  function JournalCharge(l: Limits): Charge {
    Charge(Backing(l), 104 * l.records + 8, Backing(l) + l.records * (4218 + 66 * l.frameBytes) + 8)
  }

  function TransportCharge(l: Limits): Charge {
    Charge(l.frameBytes + 16, 8 + 2 * l.records, l.frameBytes + 16 + l.records * (2 * l.frameBytes + 64) + 96)
  }

  predicate Safe(charge: Charge) { Natural(charge.backing) && Natural(charge.slots) && Natural(charge.visits) }

  predicate Key(u: Unit) { 65 <= u < 91 || 97 <= u < 123 || 48 <= u < 58 || u == 95 || u == 45 }

  /** The bootstrap is accepted: capacities fit and both charges are the exact formulas. */
  predicate Parsed(b: Bootstrap) {
    var l := b.limits;
    && Natural(b.owners) && Natural(b.events)
    && 8 * l.records <= U32_MAX && l.journalBytes <= U32_MAX && 16 <= l.frameBytes <= U32_MAX
    && b.journalCharge == JournalCharge(l) && Safe(b.journalCharge)
    && b.transportCharge == TransportCharge(l) && Safe(b.transportCharge)
    && |b.credential| == 43 && forall u <- b.credential :: Key(u)
  }

  datatype ChannelFault =
    | NoFunding | JournalFault | Attachment | Startup | SendFault
    | ControlShape | BadAck | BadStop | LostChannel | Revoked

  datatype Phase =
    | Prepared | Connecting | Starting | Active | Draining | EndAcknowledged | Closed
    | Poisoned(first: ChannelFault)

  datatype Inflight = Inflight(sequence: nat, kind: Byte)

  datatype Note = Sent(sequence: nat) | Acked(sequence: nat)

  /** `wire`, `log` and `heard` are histories: frames sent, sends and ACKs in order, facts received while alive. */
  datatype Channel = Channel(
    phase: Phase, journal: Journal, transport: Credit, bound: bool,
    inflight: Option<Inflight>, lastFactAck: nat,
    wire: seq<Bytes>, log: seq<Note>, heard: seq<Fact>)

  /** What the peer, the socket, the starter and the observer may do next. */
  datatype Event =
    | Attach(connecting: bool)
    | Open(protocol: bool)
    | Start(ok: bool, sendable: bool)
    | Observe(fact: Fact, sendable: bool)
    | Control(data: Option<Bytes>, observer: ObserverState, sendable: bool)
    | SocketError
    | SocketClose(clean: bool)
    | Revoke

  predicate Over(c: Channel) { c.phase.Poisoned? || c.phase == Closed }

  predicate Sending(c: Channel) { c.phase == Starting || c.phase == Active || c.phase == Draining }

  function Poison(c: Channel, fault: ChannelFault): Channel {
    if Over(c) then c else c.(phase := Poisoned(fault), journal := Lose(c.journal))
  }

  predicate Aimed(j: Journal) { j.cursor <= |j.entries| && (j.holding ==> j.cursor < |j.entries|) }

  function SendVisits(l: Limits): nat { 2 * l.frameBytes + 16 }

  /** Hands the next record to the socket unless one is outstanding. */
  function Pump(c: Channel, sendable: bool): (r: Channel)
    requires Aimed(c.journal)
    ensures Aimed(r.journal) && r.journal.limits == c.journal.limits
  {
    if c.inflight.Some? || !Sending(c) then c
    else
      var (next, j) := Pending(c.journal);
      match next
      case Empty => c
      case Incomplete(_) => Poison(c.(journal := j), JournalFault)
      case Record => Offered(c.(journal := j), sendable)
  }

  /** Pays for the record that was handed out and sends it. */
  function Offered(c: Channel, sendable: bool): (r: Channel)
    requires Aimed(c.journal) && c.journal.cursor < |c.journal.entries|
    ensures Aimed(r.journal) && r.journal.limits == c.journal.limits
  {
    var cost := SendVisits(c.journal.limits);
    var paid := c.(transport := Spend(c.transport, 0, 1, cost));
    if !Covers(c.transport, 0, 1, cost) then Poison(paid, NoFunding) else Send(paid, sendable)
  }

  function Send(c: Channel, sendable: bool): (r: Channel)
    requires Aimed(c.journal) && c.journal.cursor < |c.journal.entries|
    ensures Aimed(r.journal) && r.journal.limits == c.journal.limits
  {
    var frame := Frame(c.journal.entries[c.journal.cursor]);
    var copied := Copy(c.journal, true, |frame|, c.journal.limits.frameBytes);
    if !copied.ok then Poison(c.(journal := copied.journal), JournalFault)
    else
      FrameSize(c.journal.entries[c.journal.cursor]);
      var kind, wide := frame[1], Wide(frame, 4);
      if (kind != FACT && kind != END) || wide > MAX_SAFE then Poison(c.(journal := copied.journal), JournalFault)
      else
        Handed(c.(journal := copied.journal), frame, Inflight(wide, kind), sendable)
  }

  /** The frame is outstanding from now on, and goes to the socket if that takes it. */
  function Handed(c: Channel, frame: Bytes, inflight: Inflight, sendable: bool): (r: Channel)
    ensures r.journal.limits == c.journal.limits && (Aimed(c.journal) ==> Aimed(r.journal))
  {
    var out := c.(inflight := Some(inflight));
    if !sendable then Poison(out, SendFault)
    else out.(wire := c.wire + [frame], log := c.log + [Sent(inflight.sequence)])
  }

  function Hear(c: Channel, fact: Fact, sendable: bool): (r: Channel)
    requires Aimed(c.journal)
    ensures Aimed(r.journal) && r.journal.limits == c.journal.limits
  {
    if Over(c) then c
    else
      var j := Receive(c.journal, fact);
      var heard := c.(journal := j, heard := c.heard + [fact]);
      if j.first.Some? then Poison(heard, JournalFault) else Pump(heard, sendable)
  }

  /** A control frame is sixteen bytes: version 1, kind 3 or 4, zeros, a safe sequence, zeros. */
  predicate ControlFrame(b: Bytes) {
    && |b| == 16 && b[0] == 1 && b[2] == 0 && b[3] == 0 && Word(b, 12) == 0
    && Wide(b, 4) <= MAX_SAFE && (b[1] == 3 || b[1] == 4)
  }

  function Answer(c: Channel, data: Option<Bytes>, observer: ObserverState, sendable: bool): (r: Channel)
    requires Aimed(c.journal)
    ensures Aimed(r.journal) && r.journal.limits == c.journal.limits
  {
    if Over(c) then c
    else
      var paid := c.(transport := Spend(c.transport, 0, 1, 48));
      if !Covers(c.transport, 0, 1, 48) then Poison(paid, NoFunding) else Heed(paid, data, observer, sendable)
  }

  /** What a frame that was paid for says. */
  function Heed(c: Channel, data: Option<Bytes>, observer: ObserverState, sendable: bool): (r: Channel)
    requires Aimed(c.journal)
    ensures Aimed(r.journal) && r.journal.limits == c.journal.limits
  {
    if data == None || !ControlFrame(data.value) then Poison(c, ControlShape)
    else if data.value[1] == 4 then Stop(c, Wide(data.value, 4), observer, sendable)
    else Ack(c, Wide(data.value, 4), sendable)
  }

  function Stop(c: Channel, sequence: nat, observer: ObserverState, sendable: bool): (r: Channel)
    requires Aimed(c.journal)
    ensures Aimed(r.journal) && r.journal.limits == c.journal.limits
  {
    if c.phase != Active || !c.bound || sequence != c.lastFactAck then Poison(c, BadStop)
    else
      var j := End(c.journal, observer);
      var draining := c.(phase := Draining, journal := j);
      if j.first.Some? then Poison(draining, JournalFault) else Pump(draining, sendable)
  }

  function Ack(c: Channel, sequence: nat, sendable: bool): (r: Channel)
    requires Aimed(c.journal)
    ensures Aimed(r.journal) && r.journal.limits == c.journal.limits
  {
    if c.inflight.None? || sequence != c.inflight.value.sequence then Poison(c, BadAck)
    else
      var advanced := Advance(c.journal, true);
      var acked := c.(journal := advanced.journal);
      if !advanced.ok then Poison(acked, BadAck)
      else
        var noted := acked.(inflight := None, log := c.log + [Acked(sequence)]);
        if c.inflight.value.kind == FACT then Pump(noted.(lastFactAck := sequence), sendable)
        else noted.(phase := EndAcknowledged)
  }

  function Step(c: Channel, e: Event): (r: Channel)
    requires Aimed(c.journal)
    ensures Aimed(r.journal) && r.journal.limits == c.journal.limits
  {
    match e
    case Attach(connecting) =>
      if c.phase != Prepared then c
      else if connecting then c.(phase := Connecting) else Poison(c.(phase := Connecting), Attachment)
    case Open(protocol) =>
      if c.phase != Connecting then c
      else if protocol then c.(phase := Starting) else Poison(c, Attachment)
    case Start(ok, sendable) =>
      if c.phase != Starting then c
      else if ok then Pump(c.(phase := Active, bound := true), sendable) else Poison(c, Startup)
    case Observe(fact, sendable) => Hear(c, fact, sendable)
    case Control(data, observer, sendable) => Answer(c, data, observer, sendable)
    case SocketError => Poison(c, LostChannel)
    case SocketClose(clean) =>
      if c.phase == EndAcknowledged && clean then c.(phase := Closed, journal := Close(c.journal))
      else Poison(c, LostChannel)
    case Revoke => Poison(c, Revoked)
  }

  /** The channel a bootstrap prepares, both mirrors charged for what was allocated. */
  function Fresh(l: Limits): Channel {
    var journal := Journal(l, [], 0, 0, false, None, false,
      Credit(Charge(0, 102 * l.records + 8, l.records * (4218 + 66 * l.frameBytes) + 8), false));
    var transport := Credit(Charge(0, 4 + 2 * l.records, l.records * (2 * l.frameBytes + 64) + 96), false);
    Channel(Prepared, journal, transport, false, None, 0, [], [], [])
  }

  function Run(c: Channel, es: seq<Event>): Channel
    requires Aimed(c.journal)
    ensures Aimed(Run(c, es).journal) && Run(c, es).journal.limits == c.journal.limits
    decreases |es|
  {
    if es == [] then c else Run(Step(c, es[0]), es[1..])
  }
}
