/** What the native workspace client adopts, reads and gives up, call by call. */
module NativeAnswers {
  import opened Text
  import opened NativeWorkspace

  /** The event settles the last await of a choose that is still current, with a folder. */
  predicate Adopts(c: Client, e: Event) {
    && e.Settle? && e.id in c.calls && c.calls[e.id].ChooseRecheck? && Current(c, c.calls[e.id].epoch)
    && !e.reply.Broken? && c.calls[e.id].offer.Offer? && !c.calls[e.id].offer.cancelled
  }

  lemma ReadOnHolds(c: Client, id: nat, epoch: nat, sequence: nat, size: nat, offset: nat, complete: bool)
    ensures var t := ReadOn(c, id, epoch, sequence, size, offset); t.grant == c.grant && t.projects == c.projects
    ensures var t := Retire(c, id, epoch, sequence, complete); t.grant == c.grant && t.projects == c.projects
  {
  }

  lemma OpenHolds(c: Client, id: nat, reply: Reply)
    requires id in c.calls && KindOf(c.calls[id]) == Kind.Opening
    ensures var t := SettleOpen(c, id, c.calls[id], reply); t.grant == c.grant && t.projects == c.projects
  {
    hide AfterOpen, AfterRead;
    match c.calls[id]
    case OpenSent(epoch, sequence) => SentHolds(c, id, epoch, sequence, reply);
    case OpenRead(_, _, _, _) => ReadHolds(c, id, c.calls[id], reply);
    case _ =>
  }

  lemma SentHolds(c: Client, id: nat, epoch: nat, sequence: nat, reply: Reply)
    ensures var t := AfterOpen(c, id, epoch, sequence, reply); t.grant == c.grant && t.projects == c.projects
  {
    hide ReadOn, Retire;
    ReadOnHolds(c, id, epoch, sequence, if reply.Descriptor? then reply.size else 0, 0, false);
  }

  lemma ReadHolds(c: Client, id: nat, call: Call, reply: Reply)
    requires call.OpenRead?
    ensures var t := AfterRead(c, id, call, reply); t.grant == c.grant && t.projects == c.projects
  {
    hide ReadOn, Retire;
    ReadOnHolds(c, id, call.epoch, call.sequence, call.size, if reply.Chunk? then call.offset + reply.size else 0, false);
  }

  /** Main result: folder and projects change exactly when a current choose ends with an offer, and then both are the offer's. */
  lemma AdoptsExactly(c: Client, e: Event)
    ensures var t := Step(c, e);
      if Adopts(c, e) then
        t.grant == Some(c.calls[e.id].offer.grant) && t.projects == c.calls[e.id].offer.projects && !t.choosing && e.id !in t.calls
      else t.grant == c.grant && t.projects == c.projects
  {
    hide SettleOpen;
    if e.Settle? && e.id in c.calls && KindOf(c.calls[e.id]) == Kind.Opening {
      OpenHolds(c, e.id, e.reply);
    }
  }

  // ---- Each await of a choose.

  /** The reply lets the choose go on. */
  predicate GoodForChoose(c: Client, call: Call, reply: Reply) {
    match call
    case ChooseRelease(_, waits) => Confirms(waits, reply)
    case ChooseCheck(epoch) => !reply.Broken? && Current(c, epoch)
    case ChoosePick(_) => !reply.Broken?
    case _ => false
  }

  /**
    A choose goes from its release to the check, from there to the picker, and on with what was picked,
    exactly by a good reply; a foreign folder is revoked; anything else ends the call and its picker.
  */
  lemma ChooseGoes(c: Client, id: nat, reply: Reply)
    requires id in c.calls && KindOf(c.calls[id]) in {Kind.Waiting, Kind.Picking}
    ensures var call, t := c.calls[id], Step(c, Settle(id, reply));
      if GoodForChoose(c, call, reply) then
        && id in t.calls
        && match call
           case ChooseRelease(epoch, _) => t.calls[id] == ChooseCheck(epoch) && t.choosing == c.choosing
           case ChooseCheck(epoch) => t.calls[id] == ChoosePick(epoch) && t.choosing
           case _ => t.calls[id] == ChooseRecheck(call.epoch, reply) && t.choosing == c.choosing
      else if call.ChooseRecheck? && !reply.Broken? && call.offer.Offer? && !call.offer.cancelled && !Current(c, call.epoch) then
        id in t.calls && t.calls[id] == ChooseRevoke && t.choosing == c.choosing
      else id !in t.calls && t.choosing == (c.choosing && KindOf(call) == Kind.Waiting)
  {
  }

  // ---- Each await of an open.

  predicate GoodForOpen(c: Client, call: Call, reply: Reply) {
    match call
    case OpenRelease(epoch, waits) => Confirms(waits, reply) && Current(c, epoch) && c.sequence < MAX_SEQUENCE
    case OpenSent(epoch, sequence) =>
      reply.Descriptor? && Current(c, epoch) && reply.sequence == sequence && reply.size <= MAX_MODEL
    case OpenRead(epoch, sequence, size, offset) => Current(c, epoch) && offset < size && Fits(reply, sequence, size, offset)
    case OpenRetire(epoch, waits, complete) => Confirms(waits, reply) && complete && Current(c, epoch)
    case OpenInspect(epoch) => !reply.Broken? && Current(c, epoch)
    case _ => false
  }

  /** The release that is asked for when one is pending. */
  function Asked(c: Client): seq<Entry> { if c.pending.Some? then [Release(c.pending.value)] else [] }

  /** The transfer's next read, or the release behind its last byte. */
  ghost predicate Reading(c: Client, t: Client, id: nat, epoch: nat, sequence: nat, size: nat, offset: nat) {
    && id in t.calls
    && if offset < size then t.calls[id] == OpenRead(epoch, sequence, size, offset) && t.log == c.log + [Read(sequence, offset)]
       else Releasing(c, t, id, epoch, sequence, true)
  }

  /** The transfer is over, whole or not, and its release is asked for. */
  ghost predicate Releasing(c: Client, t: Client, id: nat, epoch: nat, sequence: nat, complete: bool) {
    && id in t.calls && t.calls[id] == OpenRetire(epoch, c.pending, complete)
    && t.log == c.log + [Settled(sequence)] + Asked(c)
  }

  lemma ReadOnGoes(c: Client, id: nat, epoch: nat, sequence: nat, size: nat, offset: nat)
    ensures var t := ReadOn(c, id, epoch, sequence, size, offset);
      Reading(c, t, id, epoch, sequence, size, offset) && t.pending == c.pending && t.epoch == c.epoch && t.disposed == c.disposed
      && t.opening == c.opening && t.sequence == c.sequence
    ensures var t := Retire(c, id, epoch, sequence, false); Releasing(c, t, id, epoch, sequence, false)
  {
    assert c.log + [Settled(sequence)] + [] == c.log + [Settled(sequence)];
  }

  /** A good reply takes an open to its next await. */
  lemma GoodOpenGoesOn(c: Client, id: nat, reply: Reply)
    requires id in c.calls && KindOf(c.calls[id]) == Kind.Opening && GoodForOpen(c, c.calls[id], reply)
    ensures var t := Step(c, Settle(id, reply));
      match c.calls[id]
      case OpenRelease(epoch, _) =>
        id in t.calls && t.calls[id] == OpenSent(epoch, c.sequence + 1) && t.sequence == c.sequence + 1 && t.pending == Some(c.sequence + 1)
        && t.log != [] && t.log[|t.log| - 1] == Open(c.sequence + 1)
      case OpenSent(epoch, sequence) => Reading(c, t, id, epoch, sequence, reply.size, 0)
      case OpenRead(epoch, sequence, size, offset) => Reading(c, t, id, epoch, sequence, size, offset + reply.size)
      case OpenRetire(epoch, _, _) => id in t.calls && t.calls[id] == OpenInspect(epoch)
      case _ => id in t.calls && t.calls[id] == OpenCheck(c.calls[id].epoch)
  {
    hide ReadOn, Retire, Reading, Releasing, Fits;
    match c.calls[id]
    case OpenSent(epoch, sequence) => ReadOnGoes(c, id, epoch, sequence, reply.size, 0);
    case OpenRead(epoch, sequence, size, offset) =>
      FitsChunk(reply, sequence, size, offset);
      ReadOnGoes(c, id, epoch, sequence, size, offset + reply.size);
    case _ =>
  }

  lemma FitsChunk(reply: Reply, sequence: nat, size: nat, offset: nat)
    requires Fits(reply, sequence, size, offset)
    ensures reply.Chunk?
  {
  }

  /** Any other reply ends it: a transfer under way is released first, and then the open is left. */
  lemma OtherOpenLeaves(c: Client, id: nat, reply: Reply)
    requires id in c.calls && KindOf(c.calls[id]) == Kind.Opening && !GoodForOpen(c, c.calls[id], reply)
    ensures var t := Step(c, Settle(id, reply));
      match c.calls[id]
      case OpenSent(epoch, sequence) => Releasing(c, t, id, epoch, sequence, false)
      case OpenRead(epoch, sequence, _, _) => Releasing(c, t, id, epoch, sequence, false)
      case OpenLeave => id !in t.calls && !t.opening
      case _ => id in t.calls && t.calls[id] == OpenLeave && t.opening == c.opening
  {
    hide ReadOn, Retire, Releasing, Fits;
    match c.calls[id]
    case OpenSent(epoch, sequence) => ReadOnGoes(c, id, epoch, sequence, 0, 0);
    case OpenRead(epoch, sequence, size, offset) => ReadOnGoes(c, id, epoch, sequence, size, offset);
    case _ =>
  }

  /** An open begins exactly on an idle client, and is left at once for a folder or project that is not there. */
  lemma OpenBeginsExactly(c: Client, project: nat)
    ensures var t := Step(c, StartOpen(project));
      if c.choosing || c.opening then t == c
      else
        && t.opening && t.epoch == c.epoch + 1 && c.next in t.calls
        && if c.grant.Some? && project in c.projects && c.projects[project]
           then t.calls[c.next] == OpenRelease(t.epoch, c.pending)
           else t.calls[c.next] == OpenLeave && t.log == c.log
  {
  }

  /** A cancel takes the picker back, or asks for the release that is pending; an open under way releases its own. */
  lemma CancelBegins(c: Client)
    ensures var t := Step(c, StartCancel);
      && t.epoch == c.epoch + 1 && t.choosing == c.choosing && t.opening == c.opening
      && (c.choosing ==> t.calls == c.calls[c.next := CancelPick] && t.log == c.log)
      && (!c.choosing && c.opening ==> t.calls == c.calls && t.log == c.log)
      && (!c.choosing && !c.opening ==> t.calls == c.calls[c.next := CancelRelease(c.pending)] && t.log == c.log + Asked(c))
  {
    assert c.log + [] == c.log;
  }

  /** Behind the picker's cancel the pending release is asked for, unless an open began meanwhile. */
  lemma CancelGoes(c: Client, id: nat, reply: Reply)
    requires id in c.calls && c.calls[id].CancelPick?
    ensures var t := Step(c, Settle(id, reply));
      if reply.Broken? || c.opening then id !in t.calls && t.log == c.log
      else id in t.calls && t.calls[id] == CancelRelease(c.pending) && t.log == c.log + Asked(c)
  {
    assert c.log + [] == c.log;
  }

  // ---- Undisturbed calls.

  /** Nothing runs and nothing is pending. */
  predicate Free(c: Client) { !c.choosing && !c.opening && !c.disposed && c.pending.None? }

  /** A choose that nobody disturbs ends with the folder that was picked. */
  lemma UndisturbedChooseAdopts(c: Client, offer: Reply)
    requires Free(c) && offer.Offer? && !offer.cancelled
    ensures var t := Run(c, [StartChoose, Settle(c.next, Empty), Settle(c.next, Empty), Settle(c.next, offer), Settle(c.next, Empty)]);
      t.grant == Some(offer.grant) && t.projects == offer.projects && !t.choosing && c.next !in t.calls && t.log == c.log
  {
    var id := c.next;
    var begun := Step(c, StartChoose);
    var released := Step(begun, Settle(id, Empty));
    var checked := Step(released, Settle(id, Empty));
    var picked := Step(checked, Settle(id, offer));
    RunFive(c, StartChoose, Settle(id, Empty), Settle(id, Empty), Settle(id, offer), Settle(id, Empty));
    ChooseBeginsFree(c);
    hide Run, Step;
    ChooseGoes(begun, id, Empty);
    ChooseHolds(begun, id, Empty);
    ChooseGoes(released, id, Empty);
    ChooseHolds(released, id, Empty);
    ChooseGoes(checked, id, offer);
    ChooseHolds(checked, id, offer);
    ChooseGoes(picked, id, Empty);
    ChooseHolds(picked, id, Empty);
    AdoptsExactly(picked, Settle(id, Empty));
  }

  lemma ChooseBeginsFree(c: Client)
    requires Free(c)
    ensures var t := Step(c, StartChoose);
      && c.next in t.calls && t.calls[c.next] == ChooseRelease(t.epoch, None) && t.log == c.log && t.disposed == c.disposed
  {
  }

  /** A choose with no release before it leaves epoch and log alone. */
  lemma ChooseHolds(c: Client, id: nat, reply: Reply)
    requires id in c.calls && KindOf(c.calls[id]) in {Kind.Waiting, Kind.Picking}
    requires c.calls[id].ChooseRelease? ==> c.calls[id].waits.None?
    ensures var t := Step(c, Settle(id, reply)); t.epoch == c.epoch && t.disposed == c.disposed && t.log == c.log
  {
    hide SettleOpen, SettleCancel;
    assert Step(c, Settle(id, reply)) == SettleChoose(c, id, c.calls[id], reply);
  }

  lemma RunFive(c: Client, e1: Event, e2: Event, e3: Event, e4: Event, e5: Event)
    ensures Run(c, [e1, e2, e3, e4, e5]) == Step(Step(Step(Step(Step(c, e1), e2), e3), e4), e5)
  {
    hide Step;
    var c1, c2, c3, c4 := Step(c, e1), Step(Step(c, e1), e2), Step(Step(Step(c, e1), e2), e3), Step(Step(Step(Step(c, e1), e2), e3), e4);
    assert [e1, e2, e3, e4, e5][1..] == [e2, e3, e4, e5];
    assert [e2, e3, e4, e5][1..] == [e3, e4, e5];
    assert [e3, e4, e5][1..] == [e4, e5];
    assert [e4, e5][1..] == [e5];
    assert Run(c4, [e5]) == Run(Step(c4, e5), []);
    assert Run(c3, [e4, e5]) == Run(c4, [e5]);
    assert Run(c2, [e3, e4, e5]) == Run(c3, [e4, e5]);
    assert Run(c1, [e2, e3, e4, e5]) == Run(c2, [e3, e4, e5]);
  }

  function Piece(size: nat, offset: nat): nat { if offset + CHUNK <= size then CHUNK else if offset < size then size - offset else 0 }

  /** The answers of a host that serves the transfer to its end. */
  function Chunks(id: nat, sequence: nat, size: nat, offset: nat): seq<Event>
    decreases size - offset
  {
    if offset >= size then []
    else
      var n := Piece(size, offset);
      [Settle(id, Chunk(sequence, offset, n, offset + n == size))] + Chunks(id, sequence, size, offset + n)
  }

  /** The reads that such a transfer asks for. */
  function Reads(sequence: nat, size: nat, offset: nat): seq<Entry>
    decreases size - offset
  {
    if offset >= size then [] else [Read(sequence, offset)] + Reads(sequence, size, offset + Piece(size, offset))
  }

  lemma {:induction false} ChunksRead(c: Client, id: nat, epoch: nat, sequence: nat, size: nat, offset: nat)
    requires id in c.calls && c.calls[id] == OpenRead(epoch, sequence, size, offset) && offset < size
    requires Current(c, epoch) && c.pending == Some(sequence)
    ensures var t := Run(c, Chunks(id, sequence, size, offset));
      && id in t.calls && t.calls[id] == OpenRetire(epoch, Some(sequence), true) && Current(t, epoch) && t.pending == c.pending
      && t.log == c.log + Reads(sequence, size, offset)[1..] + [Settled(sequence), Release(sequence)] && t.opening == c.opening
    decreases size - offset
  {
    var n := Piece(size, offset);
    var e := Settle(id, Chunk(sequence, offset, n, offset + n == size));
    var next := Step(c, e);
    ChunkReads(c, id, epoch, sequence, size, offset);
    hide Step, Current;
    var rest := Chunks(id, sequence, size, offset + n);
    assert Chunks(id, sequence, size, offset) == [e] + rest && ([e] + rest)[1..] == rest;
    assert Reads(sequence, size, offset)[1..] == Reads(sequence, size, offset + n);
    assert Run(c, Chunks(id, sequence, size, offset)) == Run(next, rest);
    if offset + n < size {
      ChunksRead(next, id, epoch, sequence, size, offset + n);
      ReadsJoin(c.log, sequence, size, offset + n, [Settled(sequence), Release(sequence)]);
    } else {
      assert rest == [] && Run(next, rest) == next;
      assert c.log + [] + [Settled(sequence), Release(sequence)] == c.log + [Settled(sequence), Release(sequence)];
    }
  }

  lemma ReadsJoin(log: seq<Entry>, sequence: nat, size: nat, offset: nat, rest: seq<Entry>)
    requires offset < size
    ensures log + [Read(sequence, offset)] + Reads(sequence, size, offset)[1..] + rest == log + Reads(sequence, size, offset) + rest
  {
    var later := Reads(sequence, size, offset);
    assert later == [Read(sequence, offset)] + later[1..];
    assert log + [Read(sequence, offset)] + later[1..] == log + later;
  }

  lemma ChunkReads(c: Client, id: nat, epoch: nat, sequence: nat, size: nat, offset: nat)
    requires id in c.calls && c.calls[id] == OpenRead(epoch, sequence, size, offset) && offset < size
    requires Current(c, epoch) && c.pending == Some(sequence)
    ensures var n := Piece(size, offset);
      var t := Step(c, Settle(id, Chunk(sequence, offset, n, offset + n == size)));
      && t.pending == c.pending && Current(t, epoch) && t.opening == c.opening && id in t.calls && 0 < n <= size - offset
      && if offset + n < size
         then t.calls[id] == OpenRead(epoch, sequence, size, offset + n) && t.log == c.log + [Read(sequence, offset + n)]
         else t.calls[id] == OpenRetire(epoch, Some(sequence), true) && t.log == c.log + [Settled(sequence), Release(sequence)]
  {
    var n := Piece(size, offset);
    var reply := Chunk(sequence, offset, n, offset + n == size);
    assert Step(c, Settle(id, reply)) == ReadOn(c, id, epoch, sequence, size, offset + n);
    ReadOnGoes(c, id, epoch, sequence, size, offset + n);
    hide ReadOn;
    assert c.log + [Settled(sequence)] + [Release(sequence)] == c.log + [Settled(sequence), Release(sequence)];
  }

  lemma {:induction false} RunJoins(c: Client, a: seq<Event>, b: seq<Event>)
    ensures Run(c, a + b) == Run(Run(c, a), b)
    decreases |a|
  {
    hide Step;
    if a == [] {
      assert a + b == b;
    } else {
      RunJoins(Step(c, a[0]), a[1..], b);
      assert (a + b)[1..] == a[1..] + b;
    }
  }

  /** A release that was pending, asked for and confirmed. */
  function Cleared(c: Client): seq<Entry> {
    if c.pending.Some? then [Release(c.pending.value), Confirmed(c.pending.value)] else []
  }

  /** The folder is there and the project can be sent under one more sequence. */
  predicate Openable(c: Client, project: nat) {
    && !c.choosing && !c.opening && !c.disposed && c.grant.Some? && project in c.projects && c.projects[project]
    && c.sequence < MAX_SEQUENCE
  }

  /** Behind the pending release the open goes out under the next sequence. */
  lemma OpenGoesOut(c: Client, project: nat)
    requires Openable(c, project)
    ensures var t := Step(Step(c, StartOpen(project)), Settle(c.next, Empty)); var q := c.sequence + 1;
      && c.next in t.calls && t.calls[c.next] == OpenSent(c.epoch + 1, q) && Current(t, c.epoch + 1) && t.pending == Some(q)
      && t.log == c.log + Cleared(c) + [Open(q)] && t.opening
  {
    var begun := Step(c, StartOpen(project));
    assert begun.calls[c.next] == OpenRelease(c.epoch + 1, c.pending);
    assert Step(begun, Settle(c.next, Empty)) == AfterRelease(begun, c.next, c.epoch + 1, c.pending, Empty);
    assert c.log + Cleared(c) == if c.pending.Some? then c.log + [Release(c.pending.value)] + [Confirmed(c.pending.value)] else c.log;
  }

  lemma DescriptorReads(c: Client, id: nat, epoch: nat, q: nat, size: nat)
    requires id in c.calls && c.calls[id] == OpenSent(epoch, q) && Current(c, epoch) && c.pending == Some(q) && size <= MAX_MODEL
    ensures var t := Step(c, Settle(id, Descriptor(q, size)));
      && Reading(c, t, id, epoch, q, size, 0) && Current(t, epoch) && t.pending == c.pending && t.opening == c.opening
  {
    assert Step(c, Settle(id, Descriptor(q, size))) == ReadOn(c, id, epoch, q, size, 0);
    ReadOnGoes(c, id, epoch, q, size, 0);
    hide ReadOn;
  }

  /** The release of a whole transfer, confirmed, and then its inspection and the last check. */
  lemma ReleaseInspects(c: Client, id: nat, epoch: nat, q: nat)
    requires id in c.calls && c.calls[id] == OpenRetire(epoch, Some(q), true) && Current(c, epoch) && c.pending == Some(q)
    ensures var t := Step(c, Settle(id, Empty));
      && id in t.calls && t.calls[id] == OpenInspect(epoch) && t.pending.None? && t.log == c.log + [Confirmed(q)]
      && var r := Step(Step(Step(t, Settle(id, Empty)), Settle(id, Empty)), Settle(id, Empty));
        id !in r.calls && !r.opening && r.log == t.log && r.pending.None?
  {
    var t := Step(c, Settle(id, Empty));
    assert t == Continue(TakeRelease(c, Some(q), Empty), id, OpenInspect(epoch));
    var checking := Step(t, Settle(id, Empty));
    assert checking == Continue(t, id, OpenCheck(epoch));
    var leaving := Step(checking, Settle(id, Empty));
    assert leaving == Continue(checking, id, OpenLeave);
  }

  /** The transfer from its descriptor to its last byte. */
  lemma TransferReads(c: Client, id: nat, epoch: nat, q: nat, size: nat)
    requires id in c.calls && c.calls[id] == OpenSent(epoch, q) && Current(c, epoch) && c.pending == Some(q) && size <= MAX_MODEL
    ensures var t := Run(c, [Settle(id, Descriptor(q, size))] + Chunks(id, q, size, 0));
      && id in t.calls && t.calls[id] == OpenRetire(epoch, Some(q), true) && Current(t, epoch) && t.pending == c.pending && t.opening == c.opening
      && t.log == c.log + Reads(q, size, 0) + [Settled(q), Release(q)]
  {
    var next, rest := Step(c, Settle(id, Descriptor(q, size))), Chunks(id, q, size, 0);
    DescriptorReads(c, id, epoch, q, size);
    assert ([Settle(id, Descriptor(q, size))] + rest)[1..] == rest;
    assert Run(c, [Settle(id, Descriptor(q, size))] + rest) == Run(next, rest);
    hide Step, Current;
    if size > 0 {
      ChunksRead(next, id, epoch, q, size, 0);
      ReadsJoin(c.log, q, size, 0, [Settled(q), Release(q)]);
    } else {
      assert rest == [] && Run(next, rest) == next;
      assert c.log + Reads(q, size, 0) + [Settled(q), Release(q)] == c.log + [Settled(q)] + [Release(q)];
    }
  }

  /** The answers of a host that serves an open whole. */
  function Served(c: Client, project: nat, size: nat): seq<Event> {
    [StartOpen(project), Settle(c.next, Empty)] + ([Settle(c.next, Descriptor(c.sequence + 1, size))] + Chunks(c.next, c.sequence + 1, size, 0))
    + [Settle(c.next, Empty)]
  }

  lemma RunShort(c: Client, a: Event, b: Event)
    ensures Run(c, [a]) == Step(c, a) && Run(c, [a, b]) == Step(Step(c, a), b)
  {
    hide Step;
    var next := Step(c, a);
    assert [a][1..] == [] && [b][1..] == [] && [a, b][1..] == [b];
    assert Run(next, []) == next && Run(next, [b]) == Run(Step(next, b), []);
  }

  lemma ServedRuns(c: Client, project: nat, size: nat)
    ensures var id, q := c.next, c.sequence + 1;
      Run(c, Served(c, project, size)) ==
        Step(Run(Step(Step(c, StartOpen(project)), Settle(id, Empty)), [Settle(id, Descriptor(q, size))] + Chunks(id, q, size, 0)),
          Settle(id, Empty))
  {
    var id, q := c.next, c.sequence + 1;
    var begins, transfer := [StartOpen(project), Settle(id, Empty)], [Settle(id, Descriptor(q, size))] + Chunks(id, q, size, 0);
    var sent, ends := Step(Step(c, StartOpen(project)), Settle(id, Empty)), [Settle(id, Empty)];
    ServedAs(c, project, size);
    hide Step, Run, Chunks, Served;
    RunShort(c, StartOpen(project), Settle(id, Empty));
    RunJoins(c, begins + transfer, ends);
    RunJoins(c, begins, transfer);
    RunShort(Run(sent, transfer), Settle(id, Empty), Settle(id, Empty));
  }

  lemma ServedAs(c: Client, project: nat, size: nat)
    ensures var id, q := c.next, c.sequence + 1;
      Served(c, project, size) ==
        [StartOpen(project), Settle(id, Empty)] + ([Settle(id, Descriptor(q, size))] + Chunks(id, q, size, 0)) + [Settle(id, Empty)]
  {
    hide Chunks;
  }

  /**
    Main result: an open that nobody disturbs clears what was pending, asks for every chunk of the model in order,
    releases its transfer and reaches the inspection of what it read.
  */
  lemma UndisturbedOpenInspects(c: Client, project: nat, size: nat)
    requires Openable(c, project) && size <= MAX_MODEL
    ensures var t, q := Run(c, Served(c, project, size)), c.sequence + 1;
      && c.next in t.calls && t.calls[c.next] == OpenInspect(c.epoch + 1) && t.pending.None?
      && t.log == c.log + Cleared(c) + [Open(q)] + Reads(q, size, 0) + [Settled(q), Release(q), Confirmed(q)]
  {
    var id, q := c.next, c.sequence + 1;
    var sent := Step(Step(c, StartOpen(project)), Settle(id, Empty));
    OpenGoesOut(c, project);
    hide Step, Run, Current, Chunks, Reads, Served, Cleared, Openable;
    ServedRuns(c, project, size);
    TransferReads(sent, id, c.epoch + 1, q, size);
    ReleaseInspects(Run(sent, [Settle(id, Descriptor(q, size))] + Chunks(id, q, size, 0)), id, c.epoch + 1, q);
    assert [Settled(q), Release(q)] + [Confirmed(q)] == [Settled(q), Release(q), Confirmed(q)];
  }
}
