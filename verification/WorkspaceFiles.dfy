/**
  Saving a workspace folder: one grant of the client, a network that loses and delays, and the host
  whose contract the client relies on. Code between two replies is one step.
 */
module WorkspaceFiles {
  import opened Text

  const CHUNK: nat := 196608
  const MAX_SEQUENCE: nat := 2147483647
  const TRANSFER_LIMIT: nat := 25165824

  datatype Op =
    | Check
    | BeginEdit(sequence: nat, base: nat, size: nat)
    | Write(sequence: nat, offset: nat, content: Bytes)
    | Commit(sequence: nat)
    | Status(sequence: nat)
    | Release(sequence: nat)

  datatype Reply = Done | Committed(revision: nat) | NotCommitted | Refused

  // ---- The host: each sequence is begun at most once and committed at most once.

  datatype Transfer = NoTransfer | Transfer(sequence: nat, size: nat, received: Bytes)

  /** `history` holds every committed content in order; `committed` the revision each sequence made. */
  datatype Host = Host(base: nat, initial: Bytes, history: seq<Bytes>, last: nat, transfer: Transfer, committed: map<nat, nat>)

  function Revision(h: Host): nat { h.base + |h.history| }

  function Content(h: Host): Bytes { if h.history == [] then h.initial else h.history[|h.history| - 1] }

  predicate Holds(h: Host, sequence: nat) { h.transfer.Transfer? && h.transfer.sequence == sequence }

  function Serve(h: Host, op: Op): (Host, Reply) {
    match op
    case Check => (h, Done)
    case BeginEdit(sequence, base, size) =>
      if sequence > h.last && base == Revision(h) then
        (h.(last := sequence, transfer := Transfer(sequence, size, [])), Done)
      else (h, Refused)
    case Write(sequence, offset, content) =>
      if Holds(h, sequence) && sequence !in h.committed && offset == |h.transfer.received|
         && offset + |content| <= h.transfer.size then
        (h.(transfer := h.transfer.(received := h.transfer.received + content)), Done)
      else (h, Refused)
    case Commit(sequence) =>
      if Holds(h, sequence) && sequence !in h.committed && |h.transfer.received| == h.transfer.size then
        (h.(history := h.history + [h.transfer.received], committed := h.committed[sequence := Revision(h) + 1]),
          Committed(Revision(h) + 1))
      else (h, Refused)
    case Status(sequence) =>
      (h, if sequence in h.committed then Committed(h.committed[sequence]) else NotCommitted)
    case Release(sequence) =>
      (if Holds(h, sequence) then h.(transfer := NoTransfer) else h, Done)
  }

  // ---- The client's grant.

  /** What the grant waits for; `Stopped` once a save failed. */
  datatype Pc = Idle | AwaitCheck | AwaitBegin | AwaitWrite(offset: nat) | AwaitCommit | AwaitStatus | AwaitRelease | Stopped

  /** `saving` is the content captured by the running save, `queue` that of the saves behind it. */
  datatype Grant = Grant(revision: nat, sequence: nat, blocked: bool, pc: Pc, saving: Bytes, queue: seq<Bytes>,
    resolved: seq<Bytes>)

  /** A step's new grant and what it asks to be sent. */
  datatype Out = Out(grant: Grant, send: Option<Op>)

  /** `save`: captured now, run after the saves before it. */
  function Save(g: Grant, content: Bytes): Grant {
    if |content| > TRANSFER_LIMIT then g else g.(queue := g.queue + [content])
  }

  /** The next queued save runs when the one before it settled; on a blocked grant it is refused. */
  function StartNext(g: Grant): Out {
    if !(g.pc.Idle? || g.pc.Stopped?) || g.queue == [] then Out(g, None)
    else if g.blocked || g.sequence >= MAX_SEQUENCE then
      Out(g.(queue := g.queue[1..]), None)
    else
      Out(g.(queue := g.queue[1..], saving := g.queue[0], sequence := g.sequence + 1, pc := AwaitCheck), Some(Check))
  }

  function ChunkEnd(size: nat, offset: nat): nat { if offset + CHUNK <= size then offset + CHUNK else size }

  /** The next write of the upload loop, or the commit behind the last one. */
  function Upload(g: Grant, offset: nat): Out {
    if offset < |g.saving| then
      Out(g.(pc := AwaitWrite(offset)),
        Some(Write(g.sequence, offset, g.saving[offset..ChunkEnd(|g.saving|, offset)])))
    else Out(g.(pc := AwaitCommit), Some(Commit(g.sequence)))
  }

  function Block(g: Grant): Out { Out(g.(blocked := true, pc := Stopped), None) }

  function Confirm(g: Grant, revision: nat): Out {
    if revision != g.revision + 1 then Block(g)
    else Out(g.(revision := revision, pc := AwaitRelease), Some(Release(g.sequence)))
  }

  /** The awaited reply arrived, or (`None`) was lost, late or incompatible. */
  function Resume(g: Grant, reply: Option<Reply>): Out {
    var ok := reply.Some? && reply.value != Refused;
    match g.pc
    case Idle => Out(g, None)
    case AwaitCheck =>
      if ok then Out(g.(pc := AwaitBegin), Some(BeginEdit(g.sequence, g.revision, |g.saving|))) else Block(g)
    case AwaitBegin => if ok then Upload(g, 0) else Block(g)
    case AwaitWrite(offset) => if ok then Upload(g, offset + CHUNK) else Block(g)
    case AwaitCommit =>
      if ok && reply.value.Committed? then Confirm(g, reply.value.revision)
      else Out(g.(pc := AwaitStatus), Some(Status(g.sequence)))
    case AwaitStatus =>
      if ok && reply.value.Committed? then Confirm(g, reply.value.revision) else Block(g)
    case AwaitRelease => Out(g.(pc := Idle, resolved := g.resolved + [g.saving]), None)
    case Stopped => Out(g, None)
  }

  // ---- The whole system.

  /** Requests in flight by number, answers by number, and the number the client waits for. */
  datatype System = System(grant: Grant, host: Host, flight: map<nat, Op>, answers: map<nat, Reply>,
    next: nat, waiting: nat, commits: seq<nat>)

  datatype Event =
    | DoSave(content: Bytes) | DoStart | DoRevoke
    | DoServe(id: nat)   // the host handles a request, now or much later
    | DoRefuse(id: nat)  // the host rejects a request for a reason of its own
    | DoDrop(id: nat)    // the request is lost
    | DoReceive          // the awaited answer arrives
    | DoGiveUp           // it times out, is lost or does not decode

  function Sent(s: System, out: Out): System {
    match out.send
    case None => s.(grant := out.grant)
    case Some(op) =>
      s.(grant := out.grant, flight := s.flight[s.next := op], waiting := s.next, next := s.next + 1,
        commits := if op.Commit? then s.commits + [op.sequence] else s.commits)
  }

  function Served(s: System, id: nat): System
    requires id in s.flight
  {
    var r := Serve(s.host, s.flight[id]);
    s.(host := r.0, flight := s.flight - {id}, answers := s.answers[id := r.1])
  }

  function Step(s: System, e: Event): System {
    match e
    case DoSave(content) => s.(grant := Save(s.grant, content))
    case DoStart => Sent(s, StartNext(s.grant))
    case DoRevoke => s.(grant := s.grant.(blocked := true))
    case DoServe(id) => if id in s.flight then Served(s, id) else s
    case DoRefuse(id) =>
      if id in s.flight then s.(flight := s.flight - {id}, answers := s.answers[id := Refused]) else s
    case DoDrop(id) => s.(flight := s.flight - {id})
    case DoReceive =>
      if s.waiting in s.answers then Sent(s, Resume(s.grant, Some(s.answers[s.waiting]))) else s
    case DoGiveUp => Sent(s, Resume(s.grant, None))
  }

  function Run(s: System, es: seq<Event>): System
    decreases |es|
  {
    if es == [] then s else Run(Step(s, es[0]), es[1..])
  }

  /** A freshly chosen grant: its snapshot was read and released, and its revision is the host's. */
  function Chosen(revision: nat, sequence: nat, initial: Bytes): System {
    System(Grant(revision, sequence, false, Idle, [], [], []),
      Host(revision, initial, [], sequence, NoTransfer, map[]), map[], map[], 0, 0, [])
  }

  // ---- What every step keeps.

  function Acknowledged(g: Grant): seq<Bytes> {
    if g.pc.AwaitRelease? then g.resolved + [g.saving] else g.resolved
  }

  /** The client knows of everything the host committed. */
  ghost predicate InStep(s: System) {
    s.grant.revision == Revision(s.host) && s.host.history == Acknowledged(s.grant)
  }

  /** The running save was committed and the client does not know it yet. */
  ghost predicate Ahead(s: System) {
    && Revision(s.host) == s.grant.revision + 1 && s.host.history == Acknowledged(s.grant) + [s.grant.saving]
    && s.grant.sequence in s.host.committed && s.host.committed[s.grant.sequence] == Revision(s.host)
  }

  /** The running save's transfer stands at the host, uncommitted, with these bytes received. */
  ghost predicate Received(s: System, bytes: Bytes) {
    && InStep(s) && s.grant.sequence !in s.host.committed
    && s.host.transfer == Transfer(s.grant.sequence, |s.grant.saving|, bytes)
  }

  predicate Quiet(op: Op, sequence: nat) { op.Check? || op.Status? || (op.Release? && op.sequence < sequence) }

  ghost predicate Numbers(s: System) {
    && (forall id <- s.flight :: id < s.next && id !in s.answers)
    && (forall id <- s.answers :: id < s.next)
    && (forall id <- s.flight :: s.flight[id].BeginEdit? ==> s.flight[id].sequence <= s.grant.sequence)
    && (s.waiting < s.next || s.grant.pc.Idle?)
    && s.host.last <= s.grant.sequence
    && (s.host.transfer.Transfer? ==> s.host.transfer.sequence == s.host.last)
    && (forall q <- s.host.committed :: q <= s.host.last)
    && (s.grant.pc.Stopped? ==> s.grant.blocked)
  }

  ghost predicate CommitReady(s: System, id: nat)
    requires id in s.flight
  {
    && s.flight[id] == Commit(s.grant.sequence) && Received(s, s.grant.saving)
    && (forall other <- s.flight :: other == id || Quiet(s.flight[other], s.grant.sequence))
  }

  /** A commit on its way finds its transfer complete, and nothing on its way can disturb that. */
  ghost predicate Commits(s: System) {
    forall id <- s.flight :: s.flight[id].Commit? ==> CommitReady(s, id)
  }

  /** The request the grant awaits. */
  function Awaited(g: Grant): Option<Op> {
    match g.pc
    case Idle => None
    case AwaitCheck => Some(Check)
    case AwaitBegin => Some(BeginEdit(g.sequence, g.revision, |g.saving|))
    case AwaitWrite(offset) =>
      if offset < |g.saving| then Some(Write(g.sequence, offset, g.saving[offset..ChunkEnd(|g.saving|, offset)])) else None
    case AwaitCommit => Some(Commit(g.sequence))
    case AwaitStatus => Some(Status(g.sequence))
    case AwaitRelease => Some(Release(g.sequence))
    case Stopped => None
  }

  /** What may still be on its way besides the awaited request of a grant that has not failed. */
  predicate Late(g: Grant, op: Op) {
    || (op.Release? && (op.sequence < g.sequence || (g.pc.Idle? && op.sequence == g.sequence)))
    || (g.pc.AwaitStatus? && op.Commit?)
  }

  ghost predicate Traffic(s: System) {
    !s.grant.pc.Stopped? ==>
      forall id <- s.flight ::
        if id == s.waiting && !s.grant.pc.Idle? then Some(s.flight[id]) == Awaited(s.grant)
        else Late(s.grant, s.flight[id])
  }

  /** Where the save stands while the awaited request is on its way. */
  ghost predicate Before(s: System) {
    match s.grant.pc
    case AwaitCheck => InStep(s) && s.host.last < s.grant.sequence
    case AwaitBegin => InStep(s) && s.host.last < s.grant.sequence
    case AwaitWrite(offset) => offset < |s.grant.saving| && Received(s, s.grant.saving[..offset])
    case AwaitCommit => Received(s, s.grant.saving)
    case _ => true
  }

  /** And where it stands once that request was served. */
  ghost predicate After(s: System, reply: Reply) {
    reply == Refused ||
    match s.grant.pc
    case AwaitCheck => InStep(s) && s.host.last < s.grant.sequence
    case AwaitBegin => Received(s, [])
    case AwaitWrite(offset) => offset < |s.grant.saving| && Received(s, s.grant.saving[..ChunkEnd(|s.grant.saving|, offset)])
    case AwaitCommit => Ahead(s) && reply == Committed(Revision(s.host))
    case AwaitStatus => reply.Committed? ==> Ahead(s) && reply == Committed(Revision(s.host))
    case _ => true
  }

  ghost predicate Progress(s: System) {
    && (InStep(s) || (Ahead(s) && (s.grant.pc.AwaitCommit? || s.grant.pc.AwaitStatus? || s.grant.pc.Stopped?)))
    && (InStep(s) && (s.grant.pc.AwaitCommit? || s.grant.pc.AwaitStatus?) ==> s.grant.sequence !in s.host.committed)
    && (s.waiting in s.flight ==> Before(s))
    && (s.waiting in s.answers ==> After(s, s.answers[s.waiting]))
  }

  /** Commits are sent for ever greater sequences, the running one's at most once. */
  ghost predicate Rising(s: System) {
    && (forall i, j :: 0 <= i < j < |s.commits| ==> s.commits[i] < s.commits[j])
    && (forall i :: 0 <= i < |s.commits| ==> s.commits[i] <= s.grant.sequence)
    && (s.grant.pc.AwaitCheck? || s.grant.pc.AwaitBegin? || s.grant.pc.AwaitWrite? ==>
         forall i :: 0 <= i < |s.commits| ==> s.commits[i] < s.grant.sequence)
  }

  ghost predicate Inv(s: System) {
    Numbers(s) && Commits(s) && Traffic(s) && Progress(s) && Rising(s)
  }

  lemma ServeCommits(s: System, id: nat)
    requires Inv(s) && id in s.flight
    ensures Commits(Served(s, id))
  {
    var after := Served(s, id);
    forall c <- after.flight | after.flight[c].Commit?
      ensures CommitReady(after, c)
    {
      assert CommitReady(s, c);
      assert id == c || Quiet(s.flight[id], s.grant.sequence);
    }
  }

  lemma ServeProgress(s: System, id: nat)
    requires Inv(s) && id in s.flight
    ensures Progress(Served(s, id))
  {
    var after, op := Served(s, id), s.flight[id];
    if op.Commit? {
      assert CommitReady(s, id);
      assert after.host.history == s.host.history + [s.grant.saving];
      assert Ahead(after);
    } else {
      assert after.host.history == s.host.history && after.host.committed == s.host.committed;
      assert InStep(s) == InStep(after) && Ahead(s) == Ahead(after);
      if op.Write? && s.grant.pc.AwaitWrite? && id == s.waiting {
        var offset := s.grant.pc.offset;
        assert s.grant.saving[..offset] + op.content == s.grant.saving[..ChunkEnd(|s.grant.saving|, offset)];
      }
    }
  }

  lemma ServeKeeps(s: System, id: nat)
    requires Inv(s) && id in s.flight
    ensures Inv(Served(s, id))
  {
    ServeCommits(s, id);
    ServeProgress(s, id);
  }

  lemma BlockKeeps(s: System)
    requires Inv(s) && !s.grant.pc.Idle? && !s.grant.pc.AwaitRelease?
    ensures Inv(Sent(s, Block(s.grant)))
  {
    var after := Sent(s, Block(s.grant));
    forall c <- after.flight | after.flight[c].Commit?
      ensures CommitReady(after, c)
    {
      assert CommitReady(s, c);
    }
  }

  lemma UploadKeeps(s: System, offset: nat)
    requires Inv(s) && s.waiting in s.answers && s.answers[s.waiting] != Refused
    requires (s.grant.pc.AwaitBegin? && offset == 0) || (s.grant.pc.AwaitWrite? && offset == s.grant.pc.offset + CHUNK)
    ensures Inv(Sent(s, Upload(s.grant, offset)))
  {
    var after := Sent(s, Upload(s.grant, offset));
    if offset < |s.grant.saving| {
      assert Received(s, s.grant.saving[..offset]);
    } else {
      assert Received(s, s.grant.saving) by { assert s.grant.saving[..|s.grant.saving|] == s.grant.saving; }
      assert CommitReady(after, s.next);
    }
  }

  lemma AskStatusKeeps(s: System)
    requires Inv(s) && s.grant.pc.AwaitCommit?
    ensures Inv(Sent(s, Resume(s.grant, None)))
  {
    var after := Sent(s, Resume(s.grant, None));
    forall c <- after.flight | after.flight[c].Commit?
      ensures CommitReady(after, c)
    {
      assert CommitReady(s, c);
    }
  }

  lemma ConfirmKeeps(s: System)
    requires Inv(s) && (s.grant.pc.AwaitCommit? || s.grant.pc.AwaitStatus?)
    requires s.waiting in s.answers && s.answers[s.waiting].Committed?
    ensures Inv(Sent(s, Confirm(s.grant, s.answers[s.waiting].revision)))
  {
    assert Ahead(s);
    assert forall id <- s.flight :: !s.flight[id].Commit?;
  }

  lemma SettleKeeps(s: System)
    requires Inv(s) && s.grant.pc.AwaitRelease?
    ensures Inv(Sent(s, Resume(s.grant, None)))
  {
  }

  lemma BeginKeeps(s: System)
    requires Inv(s) && s.grant.pc.AwaitCheck? && s.waiting in s.answers && s.answers[s.waiting] != Refused
    ensures Inv(Sent(s, Resume(s.grant, Some(s.answers[s.waiting]))))
  {
  }

  lemma ResumeKeeps(s: System, reply: Option<Reply>)
    requires Inv(s)
    requires reply.Some? ==> s.waiting in s.answers && reply == Some(s.answers[s.waiting])
    ensures Inv(Sent(s, Resume(s.grant, reply)))
  {
    hide Inv;
    var ok := reply.Some? && reply.value != Refused;
    match s.grant.pc
    case Idle =>
    case Stopped =>
    case AwaitRelease => SettleKeeps(s);
    case AwaitCheck => if ok { BeginKeeps(s); } else { BlockKeeps(s); }
    case AwaitBegin => if ok { UploadKeeps(s, 0); } else { BlockKeeps(s); }
    case AwaitWrite(offset) => if ok { UploadKeeps(s, offset + CHUNK); } else { BlockKeeps(s); }
    case AwaitCommit => if ok && reply.value.Committed? { ConfirmKeeps(s); } else { AskStatusKeeps(s); }
    case AwaitStatus => if ok && reply.value.Committed? { ConfirmKeeps(s); } else { BlockKeeps(s); }
  }

  lemma StartKeeps(s: System)
    requires Inv(s)
    ensures Inv(Sent(s, StartNext(s.grant)))
  {
    var after := Sent(s, StartNext(s.grant));
    if after.grant.pc == s.grant.pc {
      forall c <- after.flight | after.flight[c].Commit?
        ensures CommitReady(after, c)
      {
        assert CommitReady(s, c);
      }
    }
  }

  /** Losing or refusing a request only takes it off its way. */
  lemma DropKeeps(s: System, id: nat, refused: bool)
    requires Inv(s) && (refused ==> id in s.flight)
    ensures Inv(if refused then Step(s, DoRefuse(id)) else Step(s, DoDrop(id)))
  {
    var after := if refused then Step(s, DoRefuse(id)) else Step(s, DoDrop(id));
    forall c <- after.flight | after.flight[c].Commit?
      ensures CommitReady(after, c)
    {
      assert CommitReady(s, c);
    }
  }

  lemma CallerKeeps(s: System, g: Grant)
    requires Inv(s)
    requires g == s.grant.(blocked := true) || exists content :: g == Save(s.grant, content)
    ensures Inv(s.(grant := g))
  {
    var after := s.(grant := g);
    forall c <- after.flight | after.flight[c].Commit?
      ensures CommitReady(after, c)
    {
      assert CommitReady(s, c);
    }
  }

  lemma StepKeeps(s: System, e: Event)
    requires Inv(s)
    ensures Inv(Step(s, e))
  {
    hide Inv;
    match e
    case DoSave(content) => CallerKeeps(s, Save(s.grant, content));
    case DoStart => StartKeeps(s);
    case DoRevoke => CallerKeeps(s, s.grant.(blocked := true));
    case DoServe(id) => if id in s.flight { ServeKeeps(s, id); }
    case DoRefuse(id) => if id in s.flight { DropKeeps(s, id, true); }
    case DoDrop(id) => DropKeeps(s, id, false);
    case DoReceive => if s.waiting in s.answers { ResumeKeeps(s, Some(s.answers[s.waiting])); }
    case DoGiveUp => ResumeKeeps(s, None);
  }

  lemma {:induction false} RunKeeps(s: System, es: seq<Event>)
    requires Inv(s)
    ensures Inv(Run(s, es))
    decreases |es|
  {
    if es != [] {
      StepKeeps(s, es[0]);
      RunKeeps(Step(s, es[0]), es[1..]);
    }
  }

  // ---- What follows for every run.

  /** The last content a resolved save acknowledged. */
  function LastResolved(g: Grant, initial: Bytes): Bytes {
    if g.resolved == [] then initial else g.resolved[|g.resolved| - 1]
  }

  /**
    Whenever no save runs and none failed, the grant's revision is the host's, the host holds the
    content of the last resolved save, and every commit it made was acknowledged.
  */
  lemma IdleAgrees(revision: nat, sequence: nat, initial: Bytes, es: seq<Event>)
    ensures var s := Run(Chosen(revision, sequence, initial), es);
      s.grant.pc.Idle? ==>
        s.grant.revision == Revision(s.host) && s.host.history == s.grant.resolved
        && Content(s.host) == LastResolved(s.grant, s.host.initial)
  {
    RunKeeps(Chosen(revision, sequence, initial), es);
  }

  /** An unblocked grant has not failed: it is idle, or runs a save. */
  lemma UnblockedAgrees(revision: nat, sequence: nat, initial: Bytes, es: seq<Event>)
    ensures var s := Run(Chosen(revision, sequence, initial), es);
      !s.grant.blocked ==> !s.grant.pc.Stopped?
  {
    RunKeeps(Chosen(revision, sequence, initial), es);
  }

  /** Whatever was lost, the host is never more than the one running or failed save ahead of the client. */
  lemma AtMostOneUnacknowledged(revision: nat, sequence: nat, initial: Bytes, es: seq<Event>)
    ensures var s := Run(Chosen(revision, sequence, initial), es);
      || s.host.history == Acknowledged(s.grant)
      || s.host.history == Acknowledged(s.grant) + [s.grant.saving]
  {
    RunKeeps(Chosen(revision, sequence, initial), es);
  }

  /** No two commits are ever sent for one sequence. */
  lemma CommitsOnce(revision: nat, sequence: nat, initial: Bytes, es: seq<Event>)
    ensures var s := Run(Chosen(revision, sequence, initial), es);
      forall i, j :: 0 <= i < j < |s.commits| ==> s.commits[i] < s.commits[j]
  {
    RunKeeps(Chosen(revision, sequence, initial), es);
  }

  /** After a save failed nothing more is sent on the grant, whatever the caller asks or the network brings. */
  lemma {:induction false} FailureIsFinal(s: System, es: seq<Event>)
    requires s.grant.pc.Stopped? && s.grant.blocked
    ensures var t := Run(s, es); t.grant.pc.Stopped? && t.commits == s.commits && t.next == s.next
    decreases |es|
  {
    if es != [] {
      FailureIsFinal(Step(s, es[0]), es[1..]);
    }
  }

  // ---- An undisturbed save succeeds.

  /** The host handles the awaited request and its answer arrives. */
  function Round(s: System): System { Step(Step(s, DoServe(s.waiting)), DoReceive) }

  function Rounds(s: System, n: nat): System
    decreases n
  {
    if n == 0 then s else Rounds(Round(s), n - 1)
  }

  function WritesFrom(size: nat, offset: nat): (n: nat)
    decreases size - offset
  {
    if offset < size then 1 + WritesFrom(size, offset + CHUNK) else 0
  }

  /** The awaited request is still on its way and nothing of the save is settled yet. */
  ghost predicate Undisturbed(s: System, pc: Pc) {
    Inv(s) && s.grant.pc == pc && s.waiting in s.flight
  }

  ghost predicate Same(s: System, t: System) {
    && t.grant.saving == s.grant.saving && t.grant.resolved == s.grant.resolved && t.grant.blocked == s.grant.blocked
    && t.host.history == s.host.history && t.grant.queue == s.grant.queue
  }

  function UploadPc(g: Grant, offset: nat): Pc {
    if offset < |g.saving| then AwaitWrite(offset) else AwaitCommit
  }

  lemma WriteRound(s: System, offset: nat)
    requires Undisturbed(s, AwaitWrite(offset))
    ensures Undisturbed(Round(s), UploadPc(s.grant, offset + CHUNK)) && Same(s, Round(s))
  {
    StepKeeps(s, DoServe(s.waiting));
    StepKeeps(Step(s, DoServe(s.waiting)), DoReceive);
  }

  lemma CommitRound(s: System)
    requires Undisturbed(s, AwaitCommit)
    ensures var t := Round(s);
      && Undisturbed(t, AwaitRelease) && t.grant.saving == s.grant.saving && t.grant.resolved == s.grant.resolved
      && t.grant.blocked == s.grant.blocked && t.grant.queue == s.grant.queue
      && t.host.history == s.host.history + [s.grant.saving]
  {
    StepKeeps(s, DoServe(s.waiting));
    StepKeeps(Step(s, DoServe(s.waiting)), DoReceive);
    assert CommitReady(s, s.waiting);
  }

  lemma ReleaseRound(s: System)
    requires Undisturbed(s, AwaitRelease)
    ensures var t := Round(s);
      && t.grant.pc.Idle? && t.grant.resolved == s.grant.resolved + [s.grant.saving] && t.grant.blocked == s.grant.blocked
      && t.host.history == s.host.history && t.grant.queue == s.grant.queue
  {
    hide Commits, Progress, Rising;
  }

  lemma TwoRounds(s: System)
    ensures Rounds(s, 2) == Round(Round(s))
  {
    hide Round;
    assert Rounds(Round(s), 1) == Rounds(Round(Round(s)), 0);
  }

  lemma CommitRounds(s: System)
    requires Undisturbed(s, AwaitCommit)
    ensures var t := Rounds(s, 2);
      && t.grant.pc.Idle? && t.grant.resolved == s.grant.resolved + [s.grant.saving] && t.grant.blocked == s.grant.blocked
      && t.host.history == s.host.history + [s.grant.saving] && t.grant.queue == s.grant.queue
  {
    hide Undisturbed, Round;
    TwoRounds(s);
    CommitRound(s);
    ReleaseRound(Round(s));
  }

  lemma {:induction false} UploadCompletes(s: System, offset: nat)
    requires Undisturbed(s, UploadPc(s.grant, offset))
    ensures var t := Rounds(s, WritesFrom(|s.grant.saving|, offset) + 2);
      && t.grant.pc.Idle? && t.grant.resolved == s.grant.resolved + [s.grant.saving] && t.grant.blocked == s.grant.blocked
      && t.host.history == s.host.history + [s.grant.saving] && t.grant.queue == s.grant.queue
    decreases |s.grant.saving| - offset
  {
    hide Inv, Round;
    if offset < |s.grant.saving| {
      WriteRound(s, offset);
      UploadCompletes(Round(s), offset + CHUNK);
    } else {
      CommitRounds(s);
    }
  }

  lemma CheckRound(s: System)
    requires Undisturbed(s, AwaitCheck)
    ensures Undisturbed(Round(s), AwaitBegin) && Same(s, Round(s))
  {
    StepKeeps(s, DoServe(s.waiting));
    StepKeeps(Step(s, DoServe(s.waiting)), DoReceive);
    hide Commits, Rising;
  }

  lemma BeginRound(s: System)
    requires Undisturbed(s, AwaitBegin)
    ensures Undisturbed(Round(s), UploadPc(s.grant, 0)) && Same(s, Round(s))
  {
    StepKeeps(s, DoServe(s.waiting));
    StepKeeps(Step(s, DoServe(s.waiting)), DoReceive);
    hide Commits, Rising;
  }

  lemma BeginRounds(s: System)
    requires Undisturbed(s, AwaitCheck)
    ensures Undisturbed(Rounds(s, 2), UploadPc(s.grant, 0)) && Same(s, Rounds(s, 2))
  {
    hide Undisturbed, Round;
    TwoRounds(s);
    CheckRound(s);
    BeginRound(Round(s));
  }

  lemma {:induction false} RoundsCompose(s: System, m: nat, n: nat)
    ensures Rounds(s, m + n) == Rounds(Rounds(s, m), n)
    decreases m
  {
    if m > 0 {
      RoundsCompose(Round(s), m - 1, n);
    }
  }

  /** With every request handled and every answer delivered, the next queued save resolves and the host holds it. */
  lemma UndisturbedSaveResolves(s: System)
    requires Inv(s) && s.grant.pc.Idle? && !s.grant.blocked && s.grant.queue != [] && s.grant.sequence < MAX_SEQUENCE
    ensures var content := s.grant.queue[0];
      var t := Rounds(Step(s, DoStart), 4 + WritesFrom(|content|, 0));
      && t.grant.pc.Idle? && !t.grant.blocked && t.grant.queue == s.grant.queue[1..]
      && t.grant.resolved == s.grant.resolved + [content] && Content(t.host) == content
  {
    hide Inv, Round, Rounds;
    var started := Step(s, DoStart);
    StepKeeps(s, DoStart);
    BeginRounds(started);
    var writes := WritesFrom(|started.grant.saving|, 0);
    UploadCompletes(Rounds(started, 2), 0);
    RoundsCompose(started, 2, writes + 2);
  }
}
