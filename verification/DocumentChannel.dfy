/** The document channel over its journal, mirrors, reusable frame buffer and socket. */
module DocumentChannel {
  import opened Text
  import opened ProductFacts
  import opened Mirror
  import opened JournalModel
  import opened ChannelModel
  import opened ProductJournal
  import opened JournalSafety

  /** What the channel submitted to its WebSocket, frame by frame. */
  class Socket {
    var wire: seq<Bytes>

    constructor ()
      ensures wire == []
    {
      wire := [];
    }
  }

  class DocumentChannel {
    var phase: Phase
    var bound: bool
    var pending: JournalRecord?   // the record in flight
    var pendingSequence: nat
    var pendingKind: Byte
    var lastFactAck: nat
    const journal: ProductJournal
    const transport: MirrorCell
    const frame: array<Byte>
    const controls: array<Byte>
    const socket: Socket
    ghost var log: seq<Note>
    ghost var heard: seq<Fact>

    ghost function Repr(): set<object>
    {
      {this, transport, frame, controls, socket} + journal.Repr()
    }

    ghost predicate Separate() {
      && journal.Repr() !! {this, transport, frame, controls, socket}
      && frame != controls && frame.Length == journal.frameBytes && controls.Length == 16
    }

    ghost predicate Valid()
      reads Repr()
    {
      && Separate() && journal.Valid()
      && (pending != null ==> pending == journal.current)
    }

    ghost function View(): Channel
      reads Repr()
    {
      Channel(phase, journal.View(), transport.credit, bound,
        if pending == null then None else Some(Inflight(pendingSequence, pendingKind)),
        lastFactAck, socket.wire, log, heard)
    }

    lemma ViewAimed()
      requires Valid()
      ensures Aimed(View().journal) && View().journal.limits.frameBytes == frame.Length
    {
      hide ProductJournal.Tiled, Flatten, Frame;
    }

    constructor (journal: ProductJournal, transport: MirrorCell, frame: array<Byte>, controls: array<Byte>)
      requires journal.Valid() && journal.current == null && transport !in journal.Repr()
      requires frame !in journal.Repr() && controls !in journal.Repr() && frame != controls
      requires frame.Length == journal.frameBytes && controls.Length == 16
      ensures Valid() && this.journal == journal && this.transport == transport && this.frame == frame && this.controls == controls
      ensures fresh(socket)
      ensures View() == Channel(Prepared, journal.View(), transport.credit, false, None, 0, [], [], [])
    {
      hide ProductJournal.Valid, Flatten, Frame;
      phase, bound, pending, pendingSequence, pendingKind, lastFactAck := Prepared, false, null, 0, 0, 0;
      this.journal, this.transport, this.frame, this.controls := journal, transport, frame, controls;
      socket := new Socket();
      log, heard := [], [];
    }

    method Fail(fault: ChannelFault)
      requires Valid()
      modifies this`phase, journal`first
      ensures Valid() && View() == old(Poison(View(), fault))
    {
      hide ProductJournal.Tiled, Flatten, Frame;
      if phase.Poisoned? || phase == Closed {
        return;
      }
      phase := Poisoned(fault);
      journal.Lose();
    }

    method Receive(fact: Fact, sendable: bool)
      requires Valid() && Aimed(View().journal)
      modifies Repr()
      ensures Valid() && View() == old(Step(View(), Observe(fact, sendable)))
    {
      hide ProductJournal.Valid, Flatten, Frame, JournalModel.Receive, ChannelModel.Pump;
      if phase.Poisoned? || phase == Closed {
        return;
      }
      journal.Receive(fact);
      heard := heard + [fact];
      if journal.first.Some? {
        Fail(JournalFault);
        return;
      }
      Pump(sendable);
    }

    method Pump(sendable: bool)
      requires Valid() && Aimed(View().journal)
      modifies Repr()
      ensures Valid() && View() == old(ChannelModel.Pump(View(), sendable))
    {
      hide ProductJournal.Tiled, ProductJournal.Sized, Flatten, Frame, ChannelModel.Offered;
      ViewAimed();
      if pending != null || !(phase == Starting || phase == Active || phase == Draining) {
        return;
      }
      var next, record := journal.Pending();
      match next {
        case Empty =>
        case Incomplete(_) => Fail(JournalFault);
        case Record => Offer(record, sendable);
      }
    }

    /** Pays for the record handed out and submits it. */
    method Offer(record: JournalRecord, sendable: bool)
      requires Valid() && Aimed(View().journal) && pending == null && record == journal.current && !Over(View())
      requires journal.cursor < |journal.entries|
      modifies Repr()
      ensures Valid() && View() == old(Offered(View(), sendable))
    {
      hide ProductJournal.Tiled, ProductJournal.Sized, Flatten, Frame, ChannelModel.Send, Spend, Covers;
      ViewAimed();
      var paid := transport.Take(0, 1, 2 * frame.Length + 16);
      if !paid {
        Fail(NoFunding);
      } else {
        Submit(record, sendable);
      }
    }

    /** Copies the current record into the frame buffer, reads its header there and submits it. */
    method Submit(record: JournalRecord, sendable: bool)
      requires Valid() && Aimed(View().journal) && pending == null && record == journal.current && !Over(View())
      requires journal.cursor < |journal.entries|
      modifies Repr()
      ensures Valid() && View() == old(Send(View(), sendable))
    {
      hide ProductJournal.Tiled, ProductJournal.Sized, Flatten, Frame, Wide, FACT, END;
      ViewAimed();
      ghost var e := journal.entries[journal.cursor];
      FrameSize(e);
      var copied := journal.CopyInto(record, frame);
      if !copied {
        Fail(JournalFault);
        return;
      }
      PrefixReads(frame[..], Frame(e));
      var kind, wide := frame[1], Wide(frame[..], 4);
      if (kind != FACT && kind != END) || wide > MAX_SAFE {
        Fail(JournalFault);
      } else {
        Hand(record, kind, wide, sendable);
      }
    }

    /** The copied frame is outstanding from now on, and goes to the socket if that takes it. */
    method Hand(record: JournalRecord, kind: Byte, wide: nat, sendable: bool)
      requires record.byteLength <= frame.Length
      requires Valid() && pending == null && record == journal.current && !phase.Poisoned? && phase != Closed
      modifies this, socket, journal`first
      ensures Valid() && View() == old(Handed(View(), frame[..record.byteLength], Inflight(wide, kind), sendable))
    {
      hide ProductJournal.Tiled, ProductJournal.Sized, Flatten, Frame, Wide, FACT, END;
      pending, pendingSequence, pendingKind := record, wide, kind;
      if !sendable {
        Fail(SendFault);
        return;
      }
      socket.wire := socket.wire + [frame[..record.byteLength]];
      log := log + [Sent(wide)];
    }

    /** A control frame of the peer. One that is misplaced ends the channel, and nothing more is sent. */
    method Control(data: Option<Bytes>, observer: ObserverState, sendable: bool)
      requires Valid() && Aimed(View().journal)
      modifies Repr()
      ensures Valid() && View() == old(Step(View(), Event.Control(data, observer, sendable)))
      ensures old(Misplaced(View(), data)) ==> phase.Poisoned? && socket.wire == old(socket.wire) && lastFactAck == old(lastFactAck)
    {
      hide Valid, Step, Misplaced;
      if Misplaced(View(), data) {
        MisplacedFails(View(), data, observer, sendable);
      }
      Answered(data, observer, sendable);
    }

    method Answered(data: Option<Bytes>, observer: ObserverState, sendable: bool)
      requires Valid() && Aimed(View().journal)
      modifies Repr()
      ensures Valid() && View() == old(Step(View(), Event.Control(data, observer, sendable)))
    {
      hide ProductJournal.Valid, Flatten, Frame, ChannelModel.Heed, Hear, ChannelModel.Pump, Spend, Covers;
      if phase.Poisoned? || phase == Closed {
        return;
      }
      var paid := transport.Take(0, 1, 48);
      if !paid {
        Fail(NoFunding);
      } else {
        Heed(data, observer, sendable);
      }
    }

    method Heed(data: Option<Bytes>, observer: ObserverState, sendable: bool)
      requires Valid() && Aimed(View().journal)
      modifies Repr()
      ensures Valid() && View() == old(ChannelModel.Heed(View(), data, observer, sendable))
    {
      hide ProductJournal.Valid, Flatten, Frame, Wide, Word, ControlFrame, ChannelModel.Stop, ChannelModel.Ack;
      var ok, kind, sequence := Decode(data);
      if !ok {
        Fail(ControlShape);
      } else if kind == 4 {
        Stop(sequence, observer, sendable);
      } else {
        Ack(sequence, sendable);
      }
    }

    /** Reads one control frame through the sixteen-byte buffer. */
    method Decode(data: Option<Bytes>) returns (ok: bool, kind: Byte, sequence: nat)
      requires Valid()
      modifies controls
      ensures Valid() && View() == old(View())
      ensures ok <==> data.Some? && ControlFrame(data.value)
      ensures ok ==> kind == data.value[1] && sequence == Wide(data.value, 4)
    {
      hide ProductJournal.Valid, Flatten, Frame, Wide, Word;
      ok, kind, sequence := false, 0, 0;
      if data.None? || |data.value| != 16 {
        return;
      }
      forall i | 0 <= i < 16 {
        controls[i] := data.value[i];
      }
      assert controls[..] == data.value;
      kind, sequence := controls[1], Wide(controls[..], 4);
      ok := controls[0] == 1 && controls[2] == 0 && controls[3] == 0 && Word(controls[..], 12) == 0
        && sequence <= MAX_SAFE && (kind == 3 || kind == 4);
    }

    method Stop(sequence: nat, observer: ObserverState, sendable: bool)
      requires Valid() && Aimed(View().journal)
      modifies Repr()
      ensures Valid() && View() == old(ChannelModel.Stop(View(), sequence, observer, sendable))
    {
      hide ProductJournal.Valid, Flatten, Frame, ChannelModel.Pump, JournalModel.End;
      if phase != Active || !bound || sequence != lastFactAck {
        Fail(BadStop);
        return;
      }
      phase := Draining;
      journal.End(observer);
      if journal.first.Some? {
        Fail(JournalFault);
        return;
      }
      Pump(sendable);
    }

    method Ack(sequence: nat, sendable: bool)
      requires Valid() && Aimed(View().journal)
      modifies Repr()
      ensures Valid() && View() == old(ChannelModel.Ack(View(), sequence, sendable))
    {
      hide ProductJournal.Tiled, Flatten, Frame, ChannelModel.Pump;
      if pending == null || sequence != pendingSequence {
        Fail(BadAck);
        return;
      }
      var advanced := journal.Advance(pending);
      if !advanced {
        Fail(BadAck);
        return;
      }
      pending := null;
      log := log + [Acked(sequence)];
      if pendingKind == FACT {
        lastFactAck := sequence;
        Pump(sendable);
      } else {
        phase := EndAcknowledged;
      }
    }

    method Attach(connecting: bool)
      requires Valid() && Aimed(View().journal)
      modifies this`phase, journal`first
      ensures Valid() && View() == old(Step(View(), Event.Attach(connecting)))
    {
      hide ProductJournal.Valid, Flatten, Frame;
      if phase == Prepared {
        phase := Connecting;
        if !connecting {
          Fail(Attachment);
        }
      }
    }

    method Opened(protocol: bool)
      requires Valid() && Aimed(View().journal)
      modifies this`phase, journal`first
      ensures Valid() && View() == old(Step(View(), Open(protocol)))
    {
      hide ProductJournal.Valid, Flatten, Frame;
      if phase == Connecting {
        if protocol {
          phase := Starting;
        } else {
          Fail(Attachment);
        }
      }
    }

    method Started(ok: bool, sendable: bool)
      requires Valid() && Aimed(View().journal)
      modifies Repr()
      ensures Valid() && View() == old(Step(View(), Start(ok, sendable)))
    {
      hide ProductJournal.Valid, Flatten, Frame, ChannelModel.Pump;
      if phase == Starting {
        if ok {
          phase, bound := Active, true;
          Pump(sendable);
        } else {
          Fail(Startup);
        }
      }
    }

    method SocketFailed()
      requires Valid() && Aimed(View().journal)
      modifies this`phase, journal`first
      ensures Valid() && View() == old(Step(View(), SocketError))
    {
      hide ProductJournal.Valid;
      Fail(LostChannel);
    }

    method SocketClosed(clean: bool)
      requires Valid() && Aimed(View().journal)
      modifies this`phase, journal`first
      ensures Valid() && View() == old(Step(View(), SocketClose(clean)))
    {
      hide ProductJournal.Tiled, Flatten, Frame;
      if phase == EndAcknowledged && clean {
        journal.Close();
        phase := Closed;
      } else {
        Fail(LostChannel);
      }
    }

    method Revoke()
      requires Valid() && Aimed(View().journal)
      modifies this`phase, journal`first
      ensures Valid() && View() == old(Step(View(), Event.Revoke))
    {
      hide ProductJournal.Valid;
      Fail(Revoked);
    }
  }

  /** A control frame that names another record than the one that waits, or than the last one acknowledged. */
  predicate Misplaced(c: Channel, data: Option<Bytes>) {
    && !Over(c) && data.Some? && ControlFrame(data.value)
    && if data.value[1] == 4 then c.phase != Active || Wide(data.value, 4) != c.lastFactAck
       else c.inflight.None? || Wide(data.value, 4) != c.inflight.value.sequence
  }

  lemma MisplacedFails(c: Channel, data: Option<Bytes>, observer: ObserverState, sendable: bool)
    requires Aimed(c.journal) && Misplaced(c, data)
    ensures var r := Step(c, Event.Control(data, observer, sendable)); r.phase.Poisoned? && r.wire == c.wire && r.lastFactAck == c.lastFactAck
  {
    hide Wide, Word, ControlFrame, ChannelModel.Pump, JournalModel.End;
  }

  lemma PrefixReads(b: Bytes, prefix: Bytes)
    requires |prefix| >= 16 && prefix <= b
    ensures b[1] == prefix[1] && Wide(b, 4) == Wide(prefix, 4)
  {
    assert b[4] == prefix[4] && b[5] == prefix[5] && b[6] == prefix[6] && b[7] == prefix[7];
    assert b[8] == prefix[8] && b[9] == prefix[9] && b[10] == prefix[10] && b[11] == prefix[11];
  }

  lemma PreparedCredit(l: Limits)
    requires Safe(JournalCharge(l)) && Safe(TransportCharge(l))
    ensures Covers(Credit(JournalCharge(l), false), Backing(l), 2 * l.records, Backing(l))
    ensures Spend(Credit(JournalCharge(l), false), Backing(l), 2 * l.records, Backing(l)) == Fresh(l).journal.credit
    ensures Covers(Credit(TransportCharge(l), false), l.frameBytes + 16, 4, l.frameBytes + 16)
    ensures Spend(Credit(TransportCharge(l), false), l.frameBytes + 16, 4, l.frameBytes + 16) == Fresh(l).transport
  {
    AtLeast(l.records, 4218 + 66 * l.frameBytes);
    AtLeast(l.records, 2 * l.frameBytes + 64);
  }

  /** `prepareProductJournal` against the channel's own mirror: the charge comes before any allocation. */
  method PrepareJournal(l: Limits, mirror: MirrorCell) returns (journal: ProductJournal?)
    requires 8 * l.records <= U32_MAX && l.journalBytes <= U32_MAX
    modifies mirror
    ensures mirror.credit == old(Spend(mirror.credit, Backing(l), 2 * l.records, Backing(l)))
    ensures journal != null <==> old(Covers(mirror.credit, Backing(l), 2 * l.records, Backing(l)))
    ensures journal != null ==> fresh(journal.Repr() - {mirror}) && journal.mirror == mirror && journal.frameBytes == l.frameBytes
    ensures journal != null ==> journal.Valid() && journal.View() == Journal(l, [], 0, 0, false, None, false, mirror.credit)
  {
    hide Covers, Spend;
    var metadata := l.records * 8;
    var backing := metadata + l.journalBytes;
    var reserved := mirror.Take(backing, 2 * l.records, backing);
    if !reserved {
      return null;
    }
    var bytes := new Byte[l.journalBytes](_ => 0);
    var descriptors := new U32[2 * l.records](_ => 0);
    journal := new ProductJournal(bytes, descriptors, l.frameBytes, mirror, l);
  }

  /**
    Preparing a channel: refused exactly for a bootstrap that does not parse. The two mirrors are
    never short of what the preparation itself charges.
   */
  method PrepareDocumentChannel(b: Bootstrap) returns (channel: DocumentChannel?)
    ensures channel != null <==> Parsed(b)
    ensures channel != null ==> fresh(channel) && channel.Valid() && channel.View() == Fresh(b.limits)
  {
    hide Key;
    if !Parsed(b) {
      return null;
    }
    channel := PrepareParsed(b.limits, b.journalCharge, b.transportCharge);
  }

  method PrepareParsed(l: Limits, journalCharge: Charge, transportCharge: Charge) returns (channel: DocumentChannel?)
    requires 8 * l.records <= U32_MAX && l.journalBytes <= U32_MAX
    requires journalCharge == JournalCharge(l) && transportCharge == TransportCharge(l) && Safe(journalCharge) && Safe(transportCharge)
    ensures channel != null && fresh(channel) && channel.Valid() && channel.View() == Fresh(l)
  {
    hide JournalCharge, TransportCharge, Safe, Covers, Spend, ProductJournal.Valid;
    PreparedCredit(l);
    var journalMirror := new MirrorCell(journalCharge);
    var transport := new MirrorCell(transportCharge);
    var journal := PrepareJournal(l, journalMirror);
    if journal == null {
      return null;
    }
    var paid := transport.Take(l.frameBytes + 16, 4, l.frameBytes + 16);
    if !paid {
      return null;
    }
    var frame := new Byte[l.frameBytes](_ => 0);
    var controls := new Byte[16](_ => 0);
    channel := new DocumentChannel(journal, transport, frame, controls);
  }
}
