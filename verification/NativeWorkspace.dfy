/**
  The native workspace client under every interleaving of choose, open and cancel: code between two
  awaits is one step, and the environment decides which await settles next and how.
 */
module NativeWorkspace {
  import opened Text

  const MAX_SEQUENCE: nat := 2147483647
  const MAX_MODEL: nat := 16777216
  const CHUNK: nat := 196608

  /** What an await settles with; `Broken` stands for a rejection and for every malformed reply. */
  datatype Reply =
    | Broken
    | Empty
    | Offer(cancelled: bool, grant: nat, projects: map<nat, bool>)
    | Descriptor(sequence: nat, size: nat)
    | Chunk(sequence: nat, offset: nat, size: nat, done: bool)

  /** An unfinished call and the await it stands at; `waits` is the sequence whose release it asked for. */
  datatype Call =
    | ChooseRelease(epoch: nat, waits: Option<nat>)
    | ChooseCheck(epoch: nat)
    | ChoosePick(epoch: nat)
    | ChooseRecheck(epoch: nat, offer: Reply)
    | ChooseRevoke
    | OpenRelease(epoch: nat, waits: Option<nat>)
    | OpenSent(epoch: nat, sequence: nat)
    | OpenRead(epoch: nat, sequence: nat, size: nat, offset: nat)
    | OpenRetire(epoch: nat, waits: Option<nat>, complete: bool)
    | OpenInspect(epoch: nat)
    | OpenCheck(epoch: nat)
    | OpenLeave
    | CancelPick
    | CancelRelease(waits: Option<nat>)

  /** What the native side sees of the transfers, with the moments at which replies settle them. */
  datatype Entry =
    | Open(sequence: nat)
    | Read(sequence: nat, offset: nat)
    | Settled(sequence: nat)
    | Release(sequence: nat)
    | Confirmed(sequence: nat)

  datatype Client = Client(epoch: nat, sequence: nat, pending: Option<nat>, choosing: bool, opening: bool, disposed: bool,
    grant: Option<nat>, projects: map<nat, bool>, calls: map<nat, Call>, next: nat, log: seq<Entry>)

  datatype Event =
    | StartChoose | StartOpen(project: nat) | StartCancel | Dispose
    | Settle(id: nat, reply: Reply)

  predicate Current(c: Client, epoch: nat) { !c.disposed && epoch == c.epoch }

  function Start(c: Client, call: Call): Client { c.(calls := c.calls[c.next := call], next := c.next + 1) }

  function Continue(c: Client, id: nat, call: Call): Client { c.(calls := c.calls[id := call]) }

  function Return(c: Client, id: nat): Client { c.(calls := c.calls - {id}) }

  /** `release`: asks for the release of whatever is pending. */
  function AskRelease(c: Client): Client {
    if c.pending.Some? then c.(log := c.log + [Release(c.pending.value)]) else c
  }

  predicate Confirms(waits: Option<nat>, reply: Reply) { waits.None? || reply == Empty }

  /** The awaited release settles; only the transfer it was asked for is cleared. */
  function TakeRelease(c: Client, waits: Option<nat>, reply: Reply): Client {
    if waits.None? || reply != Empty then c
    else c.(log := c.log + [Confirmed(waits.value)], pending := if c.pending == waits then None else c.pending)
  }

  function BeginChoose(c: Client): Client {
    if c.choosing || c.opening then c
    else Start(AskRelease(c.(epoch := c.epoch + 1)), ChooseRelease(c.epoch + 1, c.pending))
  }

  function BeginOpen(c: Client, project: nat): Client {
    if c.choosing || c.opening then c
    else
      var c := c.(opening := true, epoch := c.epoch + 1);
      if c.grant.None? || project !in c.projects || !c.projects[project] then Start(c, OpenLeave)
      else Start(AskRelease(c), OpenRelease(c.epoch, c.pending))
  }

  function BeginCancel(c: Client): Client {
    var c := c.(epoch := c.epoch + 1);
    if c.choosing then Start(c, CancelPick)
    else if c.opening then c
    else Start(AskRelease(c), CancelRelease(c.pending))
  }

  /** The end of an open's transfer, reached or refused: its own release goes out. */
  function Retire(c: Client, id: nat, epoch: nat, sequence: nat, complete: bool): Client {
    var c := c.(log := c.log + [Settled(sequence)]);
    Continue(AskRelease(c), id, OpenRetire(epoch, c.pending, complete))
  }

  /** The next read of an open's transfer. */
  function ReadOn(c: Client, id: nat, epoch: nat, sequence: nat, size: nat, offset: nat): Client {
    if offset < size then
      Continue(c.(log := c.log + [Read(sequence, offset)]), id, OpenRead(epoch, sequence, size, offset))
    else Retire(c, id, epoch, sequence, true)
  }

  predicate Fits(reply: Reply, sequence: nat, size: nat, offset: nat) {
    && reply.Chunk? && reply.sequence == sequence && reply.offset == offset
    && reply.size == (if offset + CHUNK <= size then CHUNK else size - offset)
    && reply.done == (offset + reply.size == size)
  }

  /** A picked folder is adopted by the call that is still current and revoked by any other. */
  function AfterRecheck(c: Client, id: nat, epoch: nat, offer: Reply, reply: Reply): Client {
    if reply.Broken? || !offer.Offer? || offer.cancelled then Return(c.(choosing := false), id)
    else if !Current(c, epoch) then Continue(c, id, ChooseRevoke)
    else Return(c.(choosing := false, grant := Some(offer.grant), projects := offer.projects), id)
  }

  function SettleChoose(c: Client, id: nat, call: Call, reply: Reply): Client {
    match call
    case ChooseRelease(epoch, waits) =>
      var c := TakeRelease(c, waits, reply);
      if Confirms(waits, reply) then Continue(c, id, ChooseCheck(epoch)) else Return(c, id)
    case ChooseCheck(epoch) =>
      if reply.Broken? || !Current(c, epoch) then Return(c, id)
      else Continue(c.(choosing := true), id, ChoosePick(epoch))
    case ChoosePick(epoch) =>
      if reply.Broken? then Return(c.(choosing := false), id) else Continue(c, id, ChooseRecheck(epoch, reply))
    case ChooseRecheck(epoch, offer) => AfterRecheck(c, id, epoch, offer, reply)
    case _ => Return(c.(choosing := false), id)
  }

  /** The release before an open settled: the open goes out under the next sequence. */
  function AfterRelease(c: Client, id: nat, epoch: nat, waits: Option<nat>, reply: Reply): Client {
    var c := TakeRelease(c, waits, reply);
    if !Confirms(waits, reply) || !Current(c, epoch) || c.sequence >= MAX_SEQUENCE then Continue(c, id, OpenLeave)
    else SendOpen(c, id, epoch)
  }

  function SendOpen(c: Client, id: nat, epoch: nat): Client {
    var q := c.sequence + 1;
    Continue(c.(sequence := q, pending := Some(q), log := c.log + [Open(q)]), id, OpenSent(epoch, q))
  }

  function AfterOpen(c: Client, id: nat, epoch: nat, sequence: nat, reply: Reply): Client {
    if reply.Descriptor? && Current(c, epoch) && reply.sequence == sequence && reply.size <= MAX_MODEL then
      ReadOn(c, id, epoch, sequence, reply.size, 0)
    else Retire(c, id, epoch, sequence, false)
  }

  function AfterRead(c: Client, id: nat, call: Call, reply: Reply): Client
    requires call.OpenRead?
  {
    if Current(c, call.epoch) && call.offset < call.size && Fits(reply, call.sequence, call.size, call.offset) then
      ReadOn(c, id, call.epoch, call.sequence, call.size, call.offset + reply.size)
    else Retire(c, id, call.epoch, call.sequence, false)
  }

  function SettleOpen(c: Client, id: nat, call: Call, reply: Reply): Client {
    match call
    case OpenRelease(epoch, waits) => AfterRelease(c, id, epoch, waits, reply)
    case OpenSent(epoch, sequence) => AfterOpen(c, id, epoch, sequence, reply)
    case OpenRead(_, _, _, _) => AfterRead(c, id, call, reply)
    case OpenRetire(epoch, waits, complete) =>
      var c := TakeRelease(c, waits, reply);
      Continue(c, id, if Confirms(waits, reply) && complete && Current(c, epoch) then OpenInspect(epoch) else OpenLeave)
    case OpenInspect(epoch) =>
      Continue(c, id, if !reply.Broken? && Current(c, epoch) then OpenCheck(epoch) else OpenLeave)
    case OpenCheck(epoch) => Continue(c, id, OpenLeave)
    case _ => Return(c.(opening := false), id)
  }

  function SettleCancel(c: Client, id: nat, call: Call, reply: Reply): Client {
    match call
    case CancelPick =>
      if reply.Broken? || c.opening then Return(c, id)
      else Continue(AskRelease(c), id, CancelRelease(c.pending))
    case CancelRelease(waits) => Return(TakeRelease(c, waits, reply), id)
    case _ => Return(c, id)
  }

  /** A choose waits before it raises `choosing` and picks after. */
  datatype Kind = Waiting | Picking | Opening | Cancelling

  function KindOf(call: Call): Kind {
    match call
    case ChooseRelease(_, _) => Waiting
    case ChooseCheck(_) => Waiting
    case ChoosePick(_) => Picking
    case ChooseRecheck(_, _) => Picking
    case ChooseRevoke => Picking
    case CancelPick => Cancelling
    case CancelRelease(_) => Cancelling
    case _ => Opening
  }

  function Step(c: Client, e: Event): Client {
    match e
    case StartChoose => BeginChoose(c)
    case StartOpen(project) => BeginOpen(c, project)
    case StartCancel => BeginCancel(c)
    case Dispose => c.(disposed := true, epoch := c.epoch + 1)
    case Settle(id, reply) =>
      if id !in c.calls then c
      else
        match KindOf(c.calls[id])
        case Opening => SettleOpen(c, id, c.calls[id], reply)
        case Cancelling => SettleCancel(c, id, c.calls[id], reply)
        case _ => SettleChoose(c, id, c.calls[id], reply)
  }

  function Run(c: Client, es: seq<Event>): Client
    decreases |es|
  {
    if es == [] then c else Run(Step(c, es[0]), es[1..])
  }

  function New(): Client { Client(0, 0, None, false, false, false, None, map[], map[], 0, []) }

  // ---- What may stand behind what.

  predicate Allowed(before: seq<Entry>, e: Entry) {
    match e
    case Open(q) =>
      && q >= 1 && (forall k :: 1 <= k < q ==> Confirmed(k) in before)
      && (forall k :: 0 <= k < |before| && before[k].Open? ==> before[k].sequence < q)
    case Read(q, _) =>
      && Open(q) in before && Settled(q) !in before
      && (forall k :: 0 <= k < |before| && before[k].Open? ==> before[k].sequence <= q)
    case Settled(q) => Open(q) in before && Settled(q) !in before
    case Release(q) => Settled(q) in before
    case Confirmed(q) => Release(q) in before
  }

  ghost predicate Ordered(log: seq<Entry>) {
    forall i :: 0 <= i < |log| ==> Allowed(log[..i], log[i])
  }

  lemma OrderedGrows(log: seq<Entry>, e: Entry)
    requires Ordered(log) && Allowed(log, e)
    ensures Ordered(log + [e])
  {
    var longer := log + [e];
    forall i | 0 <= i < |longer|
      ensures Allowed(longer[..i], longer[i])
    {
      if i < |log| {
        assert longer[..i] == log[..i];
      } else {
        assert longer[..i] == log;
      }
    }
  }

  // ---- What every step keeps.

  function EpochOf(call: Call): nat {
    if call.ChooseRelease? || call.ChooseCheck? then call.epoch else 0
  }

  /**
    At most one open and one picker, never both; a waiting choose that is still current found nothing
    active, and nothing started since.
  */
  ghost predicate Table(calls: map<nat, Call>, next: nat, epoch: nat, choosing: bool, opening: bool) {
    && !(choosing && opening)
    && (forall id <- calls :: id < next)
    && (forall id <- calls :: KindOf(calls[id]) == Opening ==> opening)
    && (forall id <- calls :: KindOf(calls[id]) == Picking ==> choosing)
    && (forall id <- calls :: KindOf(calls[id]) == Waiting ==> EpochOf(calls[id]) <= epoch)
    && (forall id <- calls :: KindOf(calls[id]) == Waiting && EpochOf(calls[id]) == epoch ==> !choosing && !opening)
    && (forall i <- calls, j <- calls :: Clash(calls[i], calls[j]) ==> i == j)
  }

  ghost predicate TableOf(c: Client) { Table(c.calls, c.next, c.epoch, c.choosing, c.opening) }

  predicate Clash(a: Call, b: Call) {
    KindOf(a) == KindOf(b) && KindOf(a) != Cancelling && (KindOf(a) == Waiting ==> EpochOf(a) == EpochOf(b))
  }

  predicate Transfers(call: Call) { call.OpenSent? || call.OpenRead? }

  predicate Releases(call: Call) {
    call.ChooseRelease? || call.OpenRelease? || call.OpenRetire? || call.CancelRelease?
  }

  /** Where each call stands towards the pending release. */
  ghost predicate Placed(c: Client, call: Call) {
    && (Transfers(call) ==> call.sequence == c.sequence && c.pending == Some(c.sequence) && Settled(c.sequence) !in c.log)
    && (call.OpenRelease? ==> c.pending.None? || c.pending == call.waits)
    && (Releases(call) && call.waits.Some? ==> Release(call.waits.value) in c.log)
  }

  ghost predicate NoTransfer(c: Client) { forall id <- c.calls :: !Transfers(c.calls[id]) }

  /** Every transfer but the pending one is released, and the pending one is settled or under way. */
  ghost predicate Retired(c: Client) {
    && (c.pending.Some? ==> c.sequence >= 1 && c.pending.value == c.sequence)
    && (forall k :: 1 <= k <= c.sequence && c.pending != Some(k) ==> Confirmed(k) in c.log)
    && (forall k :: 1 <= k <= c.sequence ==> Open(k) in c.log)
    && (forall i :: 0 <= i < |c.log| ==> c.log[i].sequence <= c.sequence)
    && Ordered(c.log)
  }

  ghost predicate Idle(c: Client) {
    NoTransfer(c) && c.sequence >= 1 ==> Settled(c.sequence) in c.log
  }

  ghost predicate AllPlaced(c: Client) { forall id <- c.calls :: Placed(c, c.calls[id]) }

  ghost predicate Ledger(c: Client) { Retired(c) && Idle(c) && AllPlaced(c) }

  ghost predicate Inv(c: Client) {
    TableOf(c) && Ledger(c)
  }

  // ---- The calls and their flags.

  lemma AddCall(calls: map<nat, Call>, next: nat, epoch: nat, choosing: bool, opening: bool, call: Call)
    requires Table(calls, next, epoch, choosing, opening)
    requires KindOf(call) != Picking && (KindOf(call) != Cancelling ==> !choosing && !opening)
    requires KindOf(call) == Waiting ==> EpochOf(call) == epoch + 1
    ensures Table(calls[next := call], next + 1, epoch + 1, choosing, opening || KindOf(call) == Opening)
  {
    hide KindOf, EpochOf;
    var at := calls[next := call];
    forall i <- at, j <- at | Clash(at[i], at[j])
      ensures i == j
    {
      assert i in calls && j in calls ==> Clash(calls[i], calls[j]);
    }
  }

  lemma SameKind(calls: map<nat, Call>, next: nat, epoch: nat, choosing: bool, opening: bool, id: nat, call: Call)
    requires Table(calls, next, epoch, choosing, opening)
    requires id in calls && KindOf(call) == KindOf(calls[id]) && EpochOf(call) == EpochOf(calls[id])
    ensures Table(calls[id := call], next, epoch, choosing, opening)
  {
    hide KindOf, EpochOf;
    var at := calls[id := call];
    forall i <- at, j <- at | Clash(at[i], at[j])
      ensures i == j
    {
      assert Clash(calls[i], calls[j]);
    }
  }

  /** A call that returns takes its own flag down. */
  lemma DropCall(calls: map<nat, Call>, next: nat, epoch: nat, choosing: bool, opening: bool, id: nat)
    requires Table(calls, next, epoch, choosing, opening) && id in calls
    ensures Table(calls - {id}, next, epoch, choosing && KindOf(calls[id]) != Picking, opening && KindOf(calls[id]) != Opening)
  {
    hide KindOf, EpochOf;
    var at := calls - {id};
    forall i <- at
      ensures KindOf(at[i]) == Opening ==> opening && KindOf(calls[id]) != Opening
      ensures KindOf(at[i]) == Picking ==> choosing && KindOf(calls[id]) != Picking
    {
      assert Clash(calls[i], calls[id]) ==> i == id;
    }
    forall i <- at, j <- at | Clash(at[i], at[j])
      ensures i == j
    {
      assert Clash(calls[i], calls[j]);
    }
  }

  /** The choose that is still current opens its picker. */
  lemma RaiseChoosing(calls: map<nat, Call>, next: nat, epoch: nat, choosing: bool, opening: bool, id: nat, call: Call)
    requires Table(calls, next, epoch, choosing, opening)
    requires id in calls && KindOf(calls[id]) == Waiting && EpochOf(calls[id]) == epoch && KindOf(call) == Picking
    ensures Table(calls[id := call], next, epoch, true, opening)
  {
    hide KindOf, EpochOf;
    var at := calls[id := call];
    forall i <- at
      ensures KindOf(at[i]) == Waiting ==> EpochOf(at[i]) < epoch
    {
      assert i != id ==> !Clash(calls[i], calls[id]);
    }
    forall i <- at, j <- at | Clash(at[i], at[j])
      ensures i == j
    {
      assert i != id && j != id ==> Clash(calls[i], calls[j]);
    }
  }

  lemma LaterEpoch(c: Client)
    requires TableOf(c)
    ensures Table(c.calls, c.next, c.epoch + 1, c.choosing, c.opening)
  {
    hide KindOf, EpochOf;
  }

  /** The epoch a call was started in; calls that only clean up have none. */
  function CallEpoch(call: Call): nat {
    match call
    case ChooseRelease(epoch, _) => epoch
    case ChooseCheck(epoch) => epoch
    case ChoosePick(epoch) => epoch
    case ChooseRecheck(epoch, _) => epoch
    case OpenRelease(epoch, _) => epoch
    case OpenSent(epoch, _) => epoch
    case OpenRead(epoch, _, _, _) => epoch
    case OpenRetire(epoch, _, _) => epoch
    case OpenInspect(epoch) => epoch
    case OpenCheck(epoch) => epoch
    case _ => 0
  }

  /** What beginning does to the calls: at most one is added, in the epoch it begins. */
  ghost predicate Began(c: Client, after: Client) {
    && c.epoch <= after.epoch <= c.epoch + 1 && after.choosing == c.choosing
    && if after.next == c.next then after.calls == c.calls && after.opening == c.opening
       else
         && after.next == c.next + 1 && after.epoch == c.epoch + 1 && c.next in after.calls
         && after.calls == c.calls[c.next := after.calls[c.next]] && Added(c, after, after.calls[c.next])
  }

  ghost predicate Added(c: Client, after: Client, call: Call) {
    && KindOf(call) != Picking && (KindOf(call) != Cancelling ==> !c.choosing && !c.opening)
    && (KindOf(call) == Waiting ==> EpochOf(call) == c.epoch + 1) && CallEpoch(call) <= c.epoch + 1
    && after.opening == (c.opening || KindOf(call) == Opening)
  }

  lemma AskSame(c: Client)
    ensures AskRelease(c) == c.(log := AskRelease(c).log)
  {
  }

  lemma ChooseBegins(c: Client)
    ensures Began(c, BeginChoose(c))
  {
    hide AskRelease;
    AskSame(c.(epoch := c.epoch + 1));
  }

  lemma OpenBegins(c: Client, project: nat)
    ensures Began(c, BeginOpen(c, project))
  {
    hide AskRelease;
    AskSame(c.(opening := true, epoch := c.epoch + 1));
  }

  lemma CancelBegins(c: Client)
    ensures Began(c, BeginCancel(c))
  {
    hide AskRelease;
    AskSame(c.(epoch := c.epoch + 1));
  }

  lemma Begins(c: Client, e: Event)
    requires !e.Settle?
    ensures Began(c, Step(c, e))
  {
    hide Began, BeginChoose, BeginOpen, BeginCancel;
    match e
    case StartChoose => ChooseBegins(c);
    case StartOpen(project) => OpenBegins(c, project);
    case StartCancel => CancelBegins(c);
    case Dispose => DisposeBegins(c);
  }

  lemma DisposeBegins(c: Client)
    ensures Began(c, c.(disposed := true, epoch := c.epoch + 1))
  {
  }

  lemma BeginTable(c: Client, e: Event)
    requires TableOf(c) && !e.Settle?
    ensures TableOf(Step(c, e))
  {
    hide Table, Step, KindOf, EpochOf;
    LaterEpoch(c);
    Begins(c, e);
    var after := Step(c, e);
    if after.next != c.next {
      AddCall(c.calls, c.next, c.epoch, c.choosing, c.opening, after.calls[c.next]);
    }
  }

  /** What settling a call may do to the table. */
  ghost predicate Moved(c: Client, id: nat, after: Client)
    requires id in c.calls
  {
    && after.next == c.next && after.epoch == c.epoch
    && if id !in after.calls then
         && after.calls == c.calls - {id}
         && after.choosing == (c.choosing && KindOf(c.calls[id]) != Picking)
         && after.opening == (c.opening && KindOf(c.calls[id]) != Opening)
       else
         var call := after.calls[id];
         && after.calls == c.calls[id := call] && after.opening == c.opening
         && if KindOf(call) == KindOf(c.calls[id]) then
              EpochOf(call) == EpochOf(c.calls[id]) && after.choosing == c.choosing
            else
              KindOf(call) == Picking && KindOf(c.calls[id]) == Waiting && EpochOf(c.calls[id]) == c.epoch && after.choosing
  }

  lemma TakeReleaseMoves(c: Client, waits: Option<nat>, reply: Reply)
    ensures FlagsKept(c, TakeRelease(c, waits, reply)) && TakeRelease(c, waits, reply).calls == c.calls
    ensures TakeRelease(c, waits, reply).pending != c.pending ==> c.pending == waits && waits.Some? && reply == Empty
  {
  }

  ghost predicate FlagsKept(c: Client, after: Client) {
    && after.next == c.next && after.epoch == c.epoch && after.choosing == c.choosing && after.opening == c.opening
  }

  lemma RecheckMoves(c: Client, id: nat, epoch: nat, offer: Reply, reply: Reply)
    requires id in c.calls && c.calls[id] == ChooseRecheck(epoch, offer)
    ensures Moved(c, id, AfterRecheck(c, id, epoch, offer, reply))
  {
    hide Current;
  }

  lemma ChooseMoves(c: Client, id: nat, reply: Reply)
    requires id in c.calls && (KindOf(c.calls[id]) == Waiting || KindOf(c.calls[id]) == Picking)
    ensures Moved(c, id, SettleChoose(c, id, c.calls[id], reply))
  {
    hide TakeRelease, AfterRecheck;
    match c.calls[id]
    case ChooseRelease(_, waits) => TakeReleaseMoves(c, waits, reply);
    case ChooseRecheck(epoch, offer) =>
      RecheckMoves(c, id, epoch, offer, reply);
    case _ =>
  }

  lemma ReadOnMoves(c: Client, id: nat, epoch: nat, sequence: nat, size: nat, offset: nat, complete: bool)
    requires id in c.calls
    ensures var read := ReadOn(c, id, epoch, sequence, size, offset);
      FlagsKept(c, read) && id in read.calls && read.calls == c.calls[id := read.calls[id]] && KindOf(read.calls[id]) == Opening
    ensures var retired := Retire(c, id, epoch, sequence, complete);
      FlagsKept(c, retired) && id in retired.calls && retired.calls == c.calls[id := retired.calls[id]]
      && KindOf(retired.calls[id]) == Opening
    ensures ReadOn(c, id, epoch, sequence, size, offset).pending == Retire(c, id, epoch, sequence, complete).pending == c.pending
  {
  }

  lemma ReleaseMoves(c: Client, id: nat, epoch: nat, waits: Option<nat>, reply: Reply)
    requires id in c.calls && c.calls[id] == OpenRelease(epoch, waits)
    ensures Moved(c, id, AfterRelease(c, id, epoch, waits, reply))
  {
    hide TakeRelease, Confirms, Current;
    TakeReleaseMoves(c, waits, reply);
  }

  lemma SentMoves(c: Client, id: nat, reply: Reply)
    requires id in c.calls && c.calls[id].OpenSent?
    ensures Moved(c, id, AfterOpen(c, id, c.calls[id].epoch, c.calls[id].sequence, reply))
  {
    hide ReadOn, Retire, Current;
    ReadOnMoves(c, id, c.calls[id].epoch, c.calls[id].sequence, if reply.Descriptor? then reply.size else 0, 0, false);
  }

  lemma ReadMoves(c: Client, id: nat, reply: Reply)
    requires id in c.calls && c.calls[id].OpenRead?
    ensures Moved(c, id, AfterRead(c, id, c.calls[id], reply))
  {
    hide ReadOn, Retire, Current;
    var call := c.calls[id];
    ReadOnMoves(c, id, call.epoch, call.sequence, call.size, if reply.Chunk? then call.offset + reply.size else 0, false);
  }

  lemma OpenMoves(c: Client, id: nat, reply: Reply)
    requires id in c.calls && KindOf(c.calls[id]) == Opening
    ensures Moved(c, id, SettleOpen(c, id, c.calls[id], reply))
  {
    hide TakeRelease, AfterRelease, AfterOpen, AfterRead, Confirms, Current;
    match c.calls[id]
    case OpenRelease(epoch, waits) => ReleaseMoves(c, id, epoch, waits, reply);
    case OpenRetire(_, waits, _) => TakeReleaseMoves(c, waits, reply);
    case OpenSent(_, _) => SentMoves(c, id, reply);
    case OpenRead(_, _, _, _) => ReadMoves(c, id, reply);
    case _ =>
  }

  lemma CancelMoves(c: Client, id: nat, reply: Reply)
    requires id in c.calls && KindOf(c.calls[id]) == Cancelling
    ensures Moved(c, id, SettleCancel(c, id, c.calls[id], reply))
  {
  }

  lemma SettleMoves(c: Client, id: nat, reply: Reply)
    requires id in c.calls
    ensures Moved(c, id, Step(c, Settle(id, reply)))
  {
    hide KindOf, Moved, SettleChoose, SettleOpen, SettleCancel;
    match KindOf(c.calls[id])
    case Opening => OpenMoves(c, id, reply);
    case Cancelling => CancelMoves(c, id, reply);
    case _ => ChooseMoves(c, id, reply);
  }

  lemma StepTable(c: Client, e: Event)
    requires TableOf(c)
    ensures TableOf(Step(c, e))
  {
    hide Table, KindOf, EpochOf;
    if e.Settle? {
      if e.id in c.calls {
        SettleMoves(c, e.id, e.reply);
        SettleTable(c, e.id, Step(c, e));
      }
    } else {
      BeginTable(c, e);
    }
  }

  lemma SettleTable(c: Client, id: nat, after: Client)
    requires TableOf(c) && id in c.calls && Moved(c, id, after)
    ensures TableOf(after)
  {
    hide Table, KindOf, EpochOf;
    if id !in after.calls {
      DropCall(c.calls, c.next, c.epoch, c.choosing, c.opening, id);
    } else if KindOf(after.calls[id]) == KindOf(c.calls[id]) {
      SameKind(c.calls, c.next, c.epoch, c.choosing, c.opening, id, after.calls[id]);
    } else {
      RaiseChoosing(c.calls, c.next, c.epoch, c.choosing, c.opening, id, after.calls[id]);
    }
  }

  // ---- Transfers and their releases.

  lemma Reaches(log: seq<Entry>, e: Entry)
    requires Ordered(log) && e in log
    ensures e.Release? ==> Settled(e.sequence) in log
    ensures e.Confirmed? ==> Release(e.sequence) in log
    ensures e.Settled? ==> Open(e.sequence) in log
  {
    var i :| 0 <= i < |log| && log[i] == e;
    assert Allowed(log[..i], log[i]);
  }

  /** With no transfer under way, whatever is pending may be released. */
  lemma AskLedger(c: Client)
    requires Ledger(c) && NoTransfer(c)
    ensures Ledger(AskRelease(c))
    ensures c.pending.Some? ==> Release(c.pending.value) in AskRelease(c).log
  {
    if c.pending.Some? {
      assert Settled(c.pending.value) in c.log;
      OrderedGrows(c.log, Release(c.pending.value));
    }
  }

  lemma TakeLedger(c: Client, waits: Option<nat>, reply: Reply)
    requires Ledger(c) && (waits.Some? ==> Release(waits.value) in c.log)
    ensures Ledger(TakeRelease(c, waits, reply))
    ensures Confirms(waits, reply) && (c.pending.None? || c.pending == waits) ==> TakeRelease(c, waits, reply).pending.None?
  {
    hide Ordered;
    if waits.Some? && reply == Empty {
      Reaches(c.log, Release(waits.value));
      OrderedGrows(c.log, Confirmed(waits.value));
    }
  }

  lemma PutLedger(c: Client, id: nat, call: Call)
    requires Ledger(c) && Placed(c, call)
    requires id in c.calls && Transfers(c.calls[id]) && !Transfers(call) ==> Settled(c.sequence) in c.log
    ensures Ledger(Continue(c, id, call))
  {
    hide Ordered;
    var after := Continue(c, id, call);
    assert after.calls[id] == call;
    if NoTransfer(after) && !(id in c.calls && Transfers(c.calls[id])) {
      assert forall other <- c.calls :: other != id ==> after.calls[other] == c.calls[other];
      assert NoTransfer(c);
    }
  }

  lemma ReturnLedger(c: Client, id: nat)
    requires Ledger(c) && id in c.calls && !Transfers(c.calls[id])
    ensures Ledger(Return(c, id))
  {
    hide Ordered;
    var after := Return(c, id);
    if NoTransfer(after) {
      assert forall other <- c.calls :: other != id ==> after.calls[other] == c.calls[other];
      assert NoTransfer(c);
    }
  }

  /** Flags and epoch are no part of the ledger. */
  lemma SameLedger(c: Client, d: Client)
    requires Ledger(c) && d.pending == c.pending && d.sequence == c.sequence && d.log == c.log && d.calls == c.calls
    ensures Ledger(d)
  {
    hide Ordered;
    assert NoTransfer(d) == NoTransfer(c);
    assert forall call :: Placed(d, call) == Placed(c, call);
  }

  lemma QuietTable(c: Client)
    requires TableOf(c) && !c.opening
    ensures NoTransfer(c)
  {
  }

  /** Asking for the release and waiting for it, in a new call or in one that goes on. */
  lemma AskPut(c: Client, id: nat, call: Call)
    requires Ledger(c) && NoTransfer(c) && Releases(call) && call.waits == c.pending
    ensures Ledger(Continue(AskRelease(c), id, call))
  {
    hide Ledger;
    AskLedger(c);
    PutLedger(AskRelease(c), id, call);
  }

  lemma StartLedger(c: Client, d: Client, call: Call)
    requires Ledger(Continue(c, c.next, call))
    requires d.pending == c.pending && d.sequence == c.sequence && d.log == c.log && d.calls == c.calls && d.next == c.next
    ensures Ledger(Start(d, call))
  {
    hide Ledger;
    SameLedger(Continue(c, c.next, call), Start(d, call));
  }

  lemma PutFresh(c: Client, call: Call)
    requires TableOf(c) && Ledger(c) && !Transfers(call) && !Releases(call)
    ensures Ledger(Continue(c, c.next, call))
  {
    hide Ledger;
    PutLedger(c, c.next, call);
  }

  lemma BeginLedger(c: Client, e: Event)
    requires TableOf(c) && Ledger(c) && !e.Settle?
    ensures Ledger(Step(c, e))
  {
    hide Ledger, TableOf, NoTransfer;
    var after := Step(c, e);
    if after.next == c.next {
      SameLedger(c, after);
    } else {
      var call := after.calls[c.next];
      if Releases(call) {
        QuietTable(c);
        AskPut(c, c.next, call);
        var asked := AskRelease(c);
        StartLedger(asked, asked.(epoch := after.epoch, opening := after.opening), call);
      } else {
        PutFresh(c, call);
        StartLedger(c, c.(epoch := after.epoch, opening := after.opening), call);
      }
    }
  }

  lemma AskedBefore(c: Client, id: nat)
    requires Ledger(c) && id in c.calls && Releases(c.calls[id])
    ensures c.calls[id].waits.Some? ==> Release(c.calls[id].waits.value) in c.log
  {
    hide Ordered;
    assert Placed(c, c.calls[id]);
  }

  lemma WaitedLedger(c: Client, id: nat, waits: Option<nat>, reply: Reply)
    requires Ledger(c) && id in c.calls && c.calls[id].ChooseRelease? && c.calls[id].waits == waits
    ensures var taken := TakeRelease(c, waits, reply);
      Ledger(taken) && taken.calls == c.calls
  {
    hide Ledger, TakeRelease;
    AskedBefore(c, id);
    TakeLedger(c, waits, reply);
    TakeReleaseMoves(c, waits, reply);
  }

  lemma RecheckLedger(c: Client, id: nat, epoch: nat, offer: Reply, reply: Reply)
    requires Ledger(c) && id in c.calls && c.calls[id] == ChooseRecheck(epoch, offer)
    ensures Ledger(AfterRecheck(c, id, epoch, offer, reply))
  {
    hide Ledger, Current;
    PutChoose(c, id, ChooseRevoke);
    ReturnLedger(c, id);
    SameLedger(Return(c, id), Return(c.(choosing := false), id));
    SameLedger(Return(c, id), AfterAdoption(c, id, offer));
  }

  /** The client with the offered folder adopted. */
  function AfterAdoption(c: Client, id: nat, offer: Reply): Client {
    if offer.Offer? then Return(c.(choosing := false, grant := Some(offer.grant), projects := offer.projects), id)
    else Return(c, id)
  }

  lemma ChooseLedger(c: Client, id: nat, reply: Reply)
    requires Ledger(c) && id in c.calls && (KindOf(c.calls[id]) == Waiting || KindOf(c.calls[id]) == Picking)
    ensures Ledger(SettleChoose(c, id, c.calls[id], reply))
  {
    hide Ledger, TakeRelease, AfterRecheck, Current, Confirms;
    match c.calls[id]
    case ChooseRelease(epoch, waits) =>
      WaitedLedger(c, id, waits, reply);
      PutChoose(TakeRelease(c, waits, reply), id, ChooseCheck(epoch));
      ReturnLedger(TakeRelease(c, waits, reply), id);
    case ChooseCheck(epoch) =>
      ReturnLedger(c, id);
      PutChoose(c, id, ChoosePick(epoch));
      SameLedger(Continue(c, id, ChoosePick(epoch)), Continue(c.(choosing := true), id, ChoosePick(epoch)));
    case ChoosePick(epoch) =>
      PutChoose(c, id, ChooseRecheck(epoch, reply));
      ReturnLedger(c, id);
      SameLedger(Return(c, id), Return(c.(choosing := false), id));
    case ChooseRecheck(epoch, offer) => RecheckLedger(c, id, epoch, offer, reply);
    case _ =>
      ReturnLedger(c, id);
      SameLedger(Return(c, id), Return(c.(choosing := false), id));
  }

  lemma PutChoose(c: Client, id: nat, call: Call)
    requires Ledger(c) && id in c.calls && !Transfers(c.calls[id]) && !Transfers(call) && !Releases(call)
    ensures Ledger(Continue(c, id, call))
  {
    hide Ledger;
    PutLedger(c, id, call);
  }

  lemma CancelLedger(c: Client, id: nat, reply: Reply)
    requires TableOf(c) && Ledger(c) && id in c.calls && KindOf(c.calls[id]) == Cancelling
    ensures Ledger(SettleCancel(c, id, c.calls[id], reply))
  {
    hide Ledger, TableOf, NoTransfer, TakeRelease;
    match c.calls[id]
    case CancelRelease(waits) =>
      AskedBefore(c, id);
      TakeReleaseMoves(c, waits, reply);
      TakeLedger(c, waits, reply);
      ReturnLedger(TakeRelease(c, waits, reply), id);
    case CancelPick =>
      if reply.Broken? || c.opening {
        ReturnLedger(c, id);
      } else {
        QuietTable(c);
        AskPut(c, id, CancelRelease(c.pending));
      }
    case _ =>
  }

  lemma StandsAt(c: Client, id: nat)
    requires Ledger(c) && id in c.calls && Transfers(c.calls[id])
    ensures c.calls[id].sequence == c.sequence && c.pending == Some(c.sequence) && c.sequence >= 1
    ensures Settled(c.sequence) !in c.log && Open(c.sequence) in c.log
  {
    hide Ordered;
    assert Placed(c, c.calls[id]);
  }

  lemma OpenAllowed(c: Client)
    requires Retired(c) && c.pending.None?
    ensures Allowed(c.log, Open(c.sequence + 1)) && Settled(c.sequence + 1) !in c.log
  {
    hide Ordered;
  }

  lemma OpenOrder(c: Client, id: nat, epoch: nat)
    requires Retired(c) && c.pending.None?
    ensures Retired(SendOpen(c, id, epoch)) && Settled(c.sequence + 1) !in SendOpen(c, id, epoch).log
  {
    hide Ordered, Allowed;
    OpenAllowed(c);
    OrderedGrows(c.log, Open(c.sequence + 1));
    assert SendOpen(c, id, epoch).log == c.log + [Open(c.sequence + 1)];
  }

  /** The next transfer opens only with nothing pending; no other call is an open. */
  lemma OpenLedger(c: Client, id: nat, epoch: nat)
    requires Ledger(c) && c.pending.None? && id in c.calls
    requires forall other <- c.calls :: other != id ==> KindOf(c.calls[other]) != Opening
    ensures Ledger(SendOpen(c, id, epoch))
  {
    hide Retired;
    OpenOrder(c, id, epoch);
    var after := SendOpen(c, id, epoch);
    forall other <- after.calls
      ensures Placed(after, after.calls[other])
    {
      assert other != id ==> Placed(c, c.calls[other]);
    }
    assert after.calls[id] == OpenSent(epoch, c.sequence + 1);
  }

  lemma ReadLedger(c: Client, id: nat, epoch: nat, size: nat, offset: nat)
    requires Ledger(c) && id in c.calls && Transfers(c.calls[id])
    ensures Ledger(Continue(c.(log := c.log + [Read(c.sequence, offset)]), id, OpenRead(epoch, c.sequence, size, offset)))
  {
    hide Ordered;
    StandsAt(c, id);
    OrderedGrows(c.log, Read(c.sequence, offset));
    var after := Continue(c.(log := c.log + [Read(c.sequence, offset)]), id, OpenRead(epoch, c.sequence, size, offset));
    forall other <- after.calls
      ensures Placed(after, after.calls[other])
    {
      assert other != id ==> Placed(c, c.calls[other]);
    }
    assert after.calls[id] == OpenRead(epoch, c.sequence, size, offset);
  }

  /** A longer log keeps what was settled about the sequences. */
  lemma RetiredGrows(c: Client, e: Entry)
    requires Retired(c) && e.sequence == c.sequence && !e.Open? && Allowed(c.log, e)
    ensures Retired(c.(log := c.log + [e]))
  {
    OrderedGrows(c.log, e);
    hide Ordered, Allowed;
  }

  lemma RetireOrder(c: Client)
    requires Retired(c) && Open(c.sequence) in c.log && Settled(c.sequence) !in c.log
    ensures Retired(c.(log := c.log + [Settled(c.sequence), Release(c.sequence)]))
  {
    hide Ordered, Retired;
    RetiredGrows(c, Settled(c.sequence));
    var settled := c.(log := c.log + [Settled(c.sequence)]);
    RetiredGrows(settled, Release(c.sequence));
    assert settled.log + [Release(c.sequence)] == c.log + [Settled(c.sequence), Release(c.sequence)];
  }

  lemma RetirePlaces(c: Client, after: Client, id: nat)
    requires AllPlaced(c) && id in c.calls
    requires forall other <- c.calls :: other != id ==> KindOf(c.calls[other]) != Opening
    requires after.sequence == c.sequence && after.pending == c.pending && after.log == c.log + [Settled(c.sequence), Release(c.sequence)]
    requires id in after.calls && after.calls == c.calls[id := after.calls[id]] && Placed(after, after.calls[id])
    ensures AllPlaced(after)
  {
    forall other <- after.calls
      ensures Placed(after, after.calls[other])
    {
      assert other != id ==> Placed(c, c.calls[other]);
    }
  }

  lemma RetireLedger(c: Client, id: nat, epoch: nat, complete: bool)
    requires Ledger(c) && id in c.calls && Transfers(c.calls[id])
    requires forall other <- c.calls :: other != id ==> KindOf(c.calls[other]) != Opening
    ensures Ledger(Retire(c, id, epoch, c.sequence, complete))
  {
    hide Ordered, Retired, AllPlaced;
    StandsAt(c, id);
    RetireOrder(c);
    var after := Retire(c, id, epoch, c.sequence, complete);
    var logged := c.(log := c.log + [Settled(c.sequence), Release(c.sequence)]);
    assert after.log == logged.log && after.calls == c.calls[id := OpenRetire(epoch, c.pending, complete)];
    assert Settled(c.sequence) in logged.log && Release(c.sequence) in logged.log;
    RetiredFields(logged, after);
    RetirePlaces(c, after, id);
  }

  lemma RetiredFields(c: Client, d: Client)
    requires Retired(c) && d.pending == c.pending && d.sequence == c.sequence && d.log == c.log
    ensures Retired(d)
  {
    hide Ordered;
  }

  lemma SoleOpen(c: Client, id: nat)
    requires TableOf(c) && id in c.calls && KindOf(c.calls[id]) == Opening
    ensures forall other <- c.calls :: other != id ==> KindOf(c.calls[other]) != Opening
  {
    hide KindOf, EpochOf;
    forall other <- c.calls | other != id
      ensures KindOf(c.calls[other]) != Opening
    {
      assert !Clash(c.calls[other], c.calls[id]);
    }
  }

  /** What the release before an open leaves: the ledger, and nothing pending once it is confirmed. */
  lemma ReleaseTaken(c: Client, id: nat, waits: Option<nat>, reply: Reply)
    requires Ledger(c) && id in c.calls && c.calls[id].OpenRelease? && c.calls[id].waits == waits
    ensures var taken := TakeRelease(c, waits, reply);
      Ledger(taken) && taken.calls == c.calls && (Confirms(waits, reply) ==> taken.pending.None?)
  {
    hide Ledger, TakeRelease, Confirms;
    AskedBefore(c, id);
    PendingOf(c, id);
    TakeLedger(c, waits, reply);
    TakeReleaseMoves(c, waits, reply);
  }

  lemma ReleaseSettles(c: Client, id: nat, epoch: nat, waits: Option<nat>, reply: Reply)
    requires TableOf(c) && Ledger(c) && id in c.calls && c.calls[id] == OpenRelease(epoch, waits)
    ensures Ledger(AfterRelease(c, id, epoch, waits, reply))
  {
    hide Ledger, TableOf, KindOf, TakeRelease, Current, Confirms, SendOpen, Continue;
    OpeningKind(c.calls[id]);
    SoleOpen(c, id);
    ReleaseTaken(c, id, waits, reply);
    var taken := TakeRelease(c, waits, reply);
    PutChoose(taken, id, OpenLeave);
    if Confirms(waits, reply) {
      OpenLedger(taken, id, epoch);
    }
  }

  lemma ReadOnLedger(c: Client, id: nat, epoch: nat, size: nat, offset: nat, complete: bool)
    requires Ledger(c) && id in c.calls && Transfers(c.calls[id])
    requires forall other <- c.calls :: other != id ==> KindOf(c.calls[other]) != Opening
    ensures Ledger(ReadOn(c, id, epoch, c.sequence, size, offset)) && Ledger(Retire(c, id, epoch, c.sequence, complete))
  {
    hide Ledger, Retire, KindOf;
    RetireLedger(c, id, epoch, true);
    RetireLedger(c, id, epoch, complete);
    ReadLedger(c, id, epoch, size, offset);
  }

  lemma SentSettles(c: Client, id: nat, epoch: nat, sequence: nat, reply: Reply)
    requires TableOf(c) && Ledger(c) && id in c.calls && c.calls[id] == OpenSent(epoch, sequence)
    ensures Ledger(AfterOpen(c, id, epoch, sequence, reply))
  {
    hide Ledger, TableOf, KindOf, Retire, ReadOn, Current;
    OpeningKind(c.calls[id]);
    SoleOpen(c, id);
    StandsAt(c, id);
    ReadOnLedger(c, id, epoch, if reply.Descriptor? then reply.size else 0, 0, false);
  }

  lemma ReadSettles(c: Client, id: nat, reply: Reply)
    requires TableOf(c) && Ledger(c) && id in c.calls && c.calls[id].OpenRead?
    ensures Ledger(AfterRead(c, id, c.calls[id], reply))
  {
    hide Ledger, TableOf, KindOf, Retire, ReadOn, Current;
    var call := c.calls[id];
    OpeningKind(call);
    SoleOpen(c, id);
    StandsAt(c, id);
    ReadOnLedger(c, id, call.epoch, call.size, if reply.Chunk? then call.offset + reply.size else 0, false);
  }

  lemma OpeningKind(call: Call)
    ensures Transfers(call) || call.OpenRelease? ==> KindOf(call) == Opening
  {
  }

  lemma OpenSettles(c: Client, id: nat, reply: Reply)
    requires TableOf(c) && Ledger(c) && id in c.calls && KindOf(c.calls[id]) == Opening
    ensures Ledger(SettleOpen(c, id, c.calls[id], reply))
  {
    hide Ledger, TableOf, TakeRelease, Current, AfterRelease, AfterOpen, AfterRead;
    match c.calls[id]
    case OpenRelease(epoch, waits) => ReleaseSettles(c, id, epoch, waits, reply);
    case OpenSent(epoch, sequence) => SentSettles(c, id, epoch, sequence, reply);
    case OpenRead(_, _, _, _) => ReadSettles(c, id, reply);
    case OpenRetire(epoch, waits, _) =>
      AskedBefore(c, id);
      TakeLedger(c, waits, reply);
      TakeReleaseMoves(c, waits, reply);
      PutChoose(TakeRelease(c, waits, reply), id, OpenInspect(epoch));
      PutChoose(TakeRelease(c, waits, reply), id, OpenLeave);
    case OpenInspect(epoch) =>
      PutChoose(c, id, OpenCheck(epoch));
      PutChoose(c, id, OpenLeave);
    case OpenCheck(epoch) => PutChoose(c, id, OpenLeave);
    case _ =>
      ReturnLedger(c, id);
      SameLedger(Return(c, id), Return(c.(opening := false), id));
  }

  lemma PendingOf(c: Client, id: nat)
    requires Ledger(c) && id in c.calls && c.calls[id].OpenRelease?
    ensures c.pending.None? || c.pending == c.calls[id].waits
  {
    hide Ordered;
    assert Placed(c, c.calls[id]);
  }

  lemma StepKeeps(c: Client, e: Event)
    requires Inv(c)
    ensures Inv(Step(c, e))
  {
    hide Ledger, TableOf, KindOf, SettleOpen, SettleChoose, SettleCancel;
    StepTable(c, e);
    if e.Settle? {
      if e.id in c.calls {
        match KindOf(c.calls[e.id])
        case Opening => OpenSettles(c, e.id, e.reply);
        case Cancelling => CancelLedger(c, e.id, e.reply);
        case _ => ChooseLedger(c, e.id, e.reply);
      }
    } else {
      BeginLedger(c, e);
    }
  }

  lemma {:induction false} RunKeeps(c: Client, es: seq<Event>)
    requires Inv(c)
    ensures Inv(Run(c, es))
    decreases |es|
  {
    hide Inv, Step;
    if es != [] {
      StepKeeps(c, es[0]);
      RunKeeps(Step(c, es[0]), es[1..]);
    }
  }

  lemma EveryRun(es: seq<Event>)
    ensures Inv(Run(New(), es))
  {
    RunKeeps(New(), es);
  }

  // ---- What follows for every run.

  /** A picker and a model transfer are never active together, and each is active at most once. */
  lemma NeverBoth(es: seq<Event>)
    ensures var c := Run(New(), es);
      && !(c.choosing && c.opening)
      && (forall i <- c.calls, j <- c.calls :: KindOf(c.calls[i]) == KindOf(c.calls[j]) == Opening ==> i == j)
      && (forall i <- c.calls, j <- c.calls :: KindOf(c.calls[i]) == KindOf(c.calls[j]) == Picking ==> i == j)
  {
    hide Ledger;
    EveryRun(es);
    var c := Run(New(), es);
    assert forall i <- c.calls, j <- c.calls :: KindOf(c.calls[i]) == KindOf(c.calls[j]) == Opening ==> Clash(c.calls[i], c.calls[j]);
    assert forall i <- c.calls, j <- c.calls :: KindOf(c.calls[i]) == KindOf(c.calls[j]) == Picking ==> Clash(c.calls[i], c.calls[j]);
  }

  /**
    Sequences rise; an open goes out only when the release of every earlier sequence was confirmed, and a
    release only when its transfer settled.
  */
  lemma TransfersInOrder(es: seq<Event>)
    ensures Ordered(Run(New(), es).log)
  {
    hide Ordered, TableOf;
    EveryRun(es);
  }

  /** What is not pending was released and confirmed: `pending` forgets nothing. */
  lemma PendingIsAll(es: seq<Event>)
    ensures var c := Run(New(), es);
      && (c.pending.None? ==> forall k :: 1 <= k <= c.sequence ==> Confirmed(k) in c.log)
      && (c.pending.Some? ==> c.pending.value == c.sequence && forall k :: 1 <= k < c.sequence ==> Confirmed(k) in c.log)
  {
    hide Ordered, TableOf;
    EveryRun(es);
  }

  /** One step clears `pending` only when a release it was asked for is confirmed. */
  lemma ClearedByItsOwnRelease(es: seq<Event>, e: Event)
    ensures var c := Run(New(), es);
      c.pending.Some? && Step(c, e).pending != c.pending ==>
        && e.Settle? && e.id in c.calls && Releases(c.calls[e.id])
        && c.calls[e.id].waits == c.pending && e.reply == Empty
  {
    hide Ledger, TableOf, Step, Run;
    EveryRun(es);
    var c := Run(New(), es);
    if c.pending.Some? && Step(c, e).pending != c.pending {
      ClearsOnlyOwn(c, e);
    }
  }

  lemma BeginKeepsPending(c: Client, e: Event)
    requires !e.Settle?
    ensures Step(c, e).pending == c.pending
  {
  }

  /** What a settling call may do to what is pending. */
  ghost predicate Clears(c: Client, id: nat, reply: Reply, after: Client)
    requires id in c.calls
  {
    after.pending == c.pending || (
      && Releases(c.calls[id]) && (c.calls[id].waits.Some? ==> reply == Empty)
      && (c.calls[id].OpenRelease? || c.calls[id].waits == c.pending))
  }

  lemma OpenClears(c: Client, id: nat, reply: Reply)
    requires id in c.calls && KindOf(c.calls[id]) == Opening
    ensures Clears(c, id, reply, SettleOpen(c, id, c.calls[id], reply))
  {
    hide ReadOn, Retire, TakeRelease, Current;
    match c.calls[id]
    case OpenRelease(_, waits) => TakeReleaseMoves(c, waits, reply);
    case OpenRetire(_, waits, _) => TakeReleaseMoves(c, waits, reply);
    case OpenSent(epoch, sequence) => ReadOnMoves(c, id, epoch, sequence, if reply.Descriptor? then reply.size else 0, 0, false);
    case OpenRead(epoch, sequence, size, offset) =>
      ReadOnMoves(c, id, epoch, sequence, size, if reply.Chunk? then offset + reply.size else 0, false);
    case _ =>
  }

  lemma OthersClear(c: Client, id: nat, reply: Reply)
    requires id in c.calls && KindOf(c.calls[id]) != Opening
    ensures KindOf(c.calls[id]) == Cancelling ==> Clears(c, id, reply, SettleCancel(c, id, c.calls[id], reply))
    ensures KindOf(c.calls[id]) != Cancelling ==> Clears(c, id, reply, SettleChoose(c, id, c.calls[id], reply))
  {
    hide TakeRelease, Current;
    if Releases(c.calls[id]) {
      TakeReleaseMoves(c, c.calls[id].waits, reply);
    }
  }

  lemma ClearsOnlyOwn(c: Client, e: Event)
    requires Ledger(c) && c.pending.Some? && Step(c, e).pending != c.pending
    ensures e.Settle? && e.id in c.calls && Releases(c.calls[e.id])
    ensures c.calls[e.id].waits == c.pending && e.reply == Empty
  {
    hide Ledger, SettleOpen, SettleChoose, SettleCancel, KindOf;
    if !e.Settle? {
      BeginKeepsPending(c, e);
    } else if e.id in c.calls {
      if KindOf(c.calls[e.id]) == Opening {
        OpenClears(c, e.id, e.reply);
      } else {
        OthersClear(c, e.id, e.reply);
      }
      if c.calls[e.id].OpenRelease? {
        PendingOf(c, e.id);
      }
    }
  }

  // ---- Fences: what an epoch leaves to the calls before it.

  /** No call belongs to an epoch that has not begun. */
  ghost predicate Epochs(c: Client) { forall id <- c.calls :: CallEpoch(c.calls[id]) <= c.epoch }

  /** The calls numbered below `bound` belong to epochs that are over. */
  ghost predicate Fenced(c: Client, bound: nat) {
    bound <= c.next && forall id <- c.calls :: id < bound ==> CallEpoch(c.calls[id]) < c.epoch
  }

  /** Settling goes on in the epoch of the call, or in none. */
  ghost predicate KeepsEpoch(c: Client, id: nat, after: Client)
    requires id in c.calls
  {
    && after.epoch == c.epoch && after.next == c.next && (forall other <- after.calls :: other in c.calls)
    && (forall other <- after.calls :: other != id ==> after.calls[other] == c.calls[other])
    && (id in after.calls ==> CallEpoch(after.calls[id]) in {0, CallEpoch(c.calls[id])})
  }

  lemma ReadOnEpoch(c: Client, id: nat, epoch: nat, sequence: nat, size: nat, offset: nat, complete: bool)
    ensures CallEpoch(ReadOn(c, id, epoch, sequence, size, offset).calls[id]) == epoch
    ensures CallEpoch(Retire(c, id, epoch, sequence, complete).calls[id]) == epoch
  {
  }

  /** The epoch in which a call goes on. */
  ghost predicate GoesOn(c: Client, id: nat, after: Client)
    requires id in c.calls
  {
    id in after.calls ==> CallEpoch(after.calls[id]) in {0, CallEpoch(c.calls[id])}
  }

  lemma ChooseGoesOn(c: Client, id: nat, reply: Reply)
    requires id in c.calls && KindOf(c.calls[id]) in {Waiting, Picking}
    ensures GoesOn(c, id, SettleChoose(c, id, c.calls[id], reply))
  {
    hide TakeRelease, Current;
  }

  lemma OpenGoesOn(c: Client, id: nat, reply: Reply)
    requires id in c.calls && KindOf(c.calls[id]) == Opening
    ensures GoesOn(c, id, SettleOpen(c, id, c.calls[id], reply))
  {
    hide ReadOn, Retire, TakeRelease, Confirms, Current;
    match c.calls[id]
    case OpenSent(epoch, sequence) =>
      ReadOnEpoch(c, id, epoch, sequence, if reply.Descriptor? then reply.size else 0, 0, false);
    case OpenRead(epoch, sequence, size, offset) =>
      ReadOnEpoch(c, id, epoch, sequence, size, if reply.Chunk? then offset + reply.size else 0, false);
    case _ =>
  }

  lemma CancelGoesOn(c: Client, id: nat, reply: Reply)
    requires id in c.calls && KindOf(c.calls[id]) == Cancelling
    ensures GoesOn(c, id, SettleCancel(c, id, c.calls[id], reply))
  {
    hide TakeRelease;
  }

  lemma SettleEpoch(c: Client, id: nat, reply: Reply)
    requires id in c.calls
    ensures KeepsEpoch(c, id, Step(c, Settle(id, reply)))
  {
    hide SettleChoose, SettleOpen, SettleCancel, CallEpoch;
    SettleMoves(c, id, reply);
    match KindOf(c.calls[id])
    case Opening => OpenGoesOn(c, id, reply);
    case Cancelling => CancelGoesOn(c, id, reply);
    case _ => ChooseGoesOn(c, id, reply);
  }

  /** A new call belongs to the epoch it begins. */
  lemma BeginEpoch(c: Client, e: Event)
    requires !e.Settle? && c.next !in c.calls
    ensures var after := Step(c, e);
      && c.epoch <= after.epoch <= c.epoch + 1 && c.next <= after.next
      && (forall id <- after.calls :: id in c.calls || (id >= c.next && CallEpoch(after.calls[id]) <= after.epoch))
      && (forall id <- after.calls :: id in c.calls ==> after.calls[id] == c.calls[id])
  {
    hide Step, KindOf, EpochOf, CallEpoch;
    Begins(c, e);
  }

  lemma StepFenced(c: Client, e: Event, bound: nat)
    requires TableOf(c) && Epochs(c) && Fenced(c, bound)
    ensures Epochs(Step(c, e)) && Fenced(Step(c, e), bound)
  {
    if e.Settle? {
      if e.id in c.calls {
        SettleEpoch(c, e.id, e.reply);
      }
    } else {
      BeginEpoch(c, e);
    }
    hide Step;
  }

  lemma {:induction false} RunFenced(c: Client, es: seq<Event>, bound: nat)
    requires Inv(c) && Epochs(c) && Fenced(c, bound)
    ensures Inv(Run(c, es)) && Epochs(Run(c, es)) && Fenced(Run(c, es), bound)
    decreases |es|
  {
    hide Inv, Epochs, Fenced, Step;
    if es != [] {
      InvTable(c);
      StepKeeps(c, es[0]);
      StepFenced(c, es[0], bound);
      RunFenced(Step(c, es[0]), es[1..], bound);
    }
  }

  lemma InvTable(c: Client)
    requires Inv(c)
    ensures TableOf(c)
  {
  }

  /** A choose, open or cancel that is let in, and a disposal, begin an epoch and fence all calls before. */
  lemma BeginsFence(c: Client, e: Event)
    requires TableOf(c) && Epochs(c)
    requires e.StartCancel? || e.Dispose? || ((e.StartChoose? || e.StartOpen?) && !c.choosing && !c.opening)
    ensures Fenced(Step(c, e), c.next)
  {
    BeginEpoch(c, e);
  }

  /** What is left to a fenced call: it may clean up, and it adopts, opens and returns nothing. */
  ghost predicate Barren(c: Client, id: nat, after: Client) {
    && after.grant == c.grant && after.projects == c.projects && after.sequence == c.sequence
    && (after.choosing ==> c.choosing)
    && (id in after.calls ==> !Transfers(after.calls[id]) && !after.calls[id].OpenInspect? && !after.calls[id].OpenCheck?)
  }

  lemma TakeReleaseLeaves(c: Client, waits: Option<nat>, reply: Reply)
    ensures var after := TakeRelease(c, waits, reply);
      after.grant == c.grant && after.projects == c.projects && after.sequence == c.sequence && after.choosing == c.choosing
      && after.epoch == c.epoch
  {
  }

  lemma FencedRecheck(c: Client, id: nat, epoch: nat, offer: Reply, reply: Reply)
    requires epoch < c.epoch
    ensures Barren(c, id, AfterRecheck(c, id, epoch, offer, reply))
  {
  }

  lemma FencedChoose(c: Client, id: nat, reply: Reply)
    requires id in c.calls && CallEpoch(c.calls[id]) < c.epoch && KindOf(c.calls[id]) in {Waiting, Picking}
    ensures Barren(c, id, SettleChoose(c, id, c.calls[id], reply))
  {
    hide TakeRelease, AfterRecheck, Confirms;
    match c.calls[id]
    case ChooseRelease(_, waits) => TakeReleaseLeaves(c, waits, reply);
    case ChooseRecheck(epoch, offer) => FencedRecheck(c, id, epoch, offer, reply);
    case _ =>
  }

  lemma RetireLeaves(c: Client, id: nat, epoch: nat, sequence: nat)
    ensures var after := Retire(c, id, epoch, sequence, false);
      && after.grant == c.grant && after.projects == c.projects && after.sequence == c.sequence && after.choosing == c.choosing
      && id in after.calls && after.calls[id].OpenRetire?
  {
  }

  lemma FencedOpen(c: Client, id: nat, reply: Reply)
    requires id in c.calls && CallEpoch(c.calls[id]) < c.epoch && KindOf(c.calls[id]) == Opening
    ensures Barren(c, id, SettleOpen(c, id, c.calls[id], reply))
  {
    hide TakeRelease, ReadOn, Retire, SendOpen, Confirms;
    match c.calls[id]
    case OpenRelease(_, waits) => TakeReleaseLeaves(c, waits, reply);
    case OpenRetire(_, waits, _) => TakeReleaseLeaves(c, waits, reply);
    case OpenSent(epoch, sequence) => RetireLeaves(c, id, epoch, sequence);
    case OpenRead(epoch, sequence, _, _) => RetireLeaves(c, id, epoch, sequence);
    case _ =>
  }

  lemma FencedCancel(c: Client, id: nat, reply: Reply)
    requires id in c.calls && KindOf(c.calls[id]) == Cancelling
    ensures Barren(c, id, SettleCancel(c, id, c.calls[id], reply))
  {
    hide TakeRelease;
    if c.calls[id].CancelRelease? {
      TakeReleaseLeaves(c, c.calls[id].waits, reply);
    }
  }

  lemma FencedBarren(c: Client, id: nat, reply: Reply)
    requires id in c.calls && CallEpoch(c.calls[id]) < c.epoch
    ensures Barren(c, id, Step(c, Settle(id, reply)))
  {
    hide Barren, SettleChoose, SettleOpen, SettleCancel;
    match KindOf(c.calls[id])
    case Opening => FencedOpen(c, id, reply);
    case Cancelling => FencedCancel(c, id, reply);
    case _ => FencedChoose(c, id, reply);
  }

  /**
    A cancel, a disposal, and any choose or open that is let in fence every call before it: however late
    such a call goes on, it adopts no folder, opens no transfer, raises no picker and returns no content.
  */
  lemma EpochFences(before: seq<Event>, e: Event, after: seq<Event>, id: nat, reply: Reply)
    requires var c := Run(New(), before);
      e.StartCancel? || e.Dispose? || ((e.StartChoose? || e.StartOpen?) && !c.choosing && !c.opening)
    ensures var c := Run(New(), before);
      var s := Run(Step(c, e), after);
      id < c.next && id in s.calls ==> Barren(s, id, Step(s, Settle(id, reply)))
  {
    hide Inv, Epochs, Fenced, Barren, Step;
    var c := Run(New(), before);
    NewFenced();
    RunFenced(New(), before, 0);
    InvTable(c);
    BeginsFence(c, e);
    StepKeeps(c, e);
    FencesNothing(c);
    StepFenced(c, e, 0);
    RunFenced(Step(c, e), after, c.next);
    var s := Run(Step(c, e), after);
    if id < c.next && id in s.calls {
      FencedAt(s, c.next, id);
      FencedBarren(s, id, reply);
    }
  }

  lemma FencesNothing(c: Client)
    ensures Fenced(c, 0)
  {
  }

  lemma NewFenced()
    ensures Inv(New()) && Epochs(New()) && Fenced(New(), 0)
  {
  }

  lemma FencedAt(c: Client, bound: nat, id: nat)
    requires Fenced(c, bound) && id < bound && id in c.calls
    ensures CallEpoch(c.calls[id]) < c.epoch
  {
  }
}
