/**
  The two-slot worker scheduler of the execution provider. Every callback and every command is one
  step; the environment chooses their order, the fate of each start and what each worker reports.
*/
module ExecutionScheduler {
  import opened Text

  const SLOTS: nat := 2

  /** What claiming and starting a record will meet. */
  datatype Fate = ClaimRejected | SpawnThrows | PostThrows | Starts

  datatype Reason = Cancel | Crash | Deadline | Close

  datatype Stopping = NotStopping | Terminating | Terminated(ok: bool)

  /** Evidence a worker posted; `valid` is the core's judgement of it. */
  datatype Evidence = Evidence(value: nat, valid: bool)

  datatype Outcome =
    | Recorded(evidence: Evidence, cleanup: bool)
    | SelectionFailed(cleanup: bool)
    | Cancelled(cleanup: bool)
    | DeadlineExpired(cleanup: bool)
    | NoResult(cleanup: bool)
    | Crashed(cleanup: bool)
    | StartFailed
    | InvalidEvidence

  /** `worker`: it holds a slot; `spawned`: it has held one; `listed`: not released. */
  datatype Record = Record(selected: bool, fate: Fate, listed: bool, done: bool, failed: bool, worker: bool, spawned: bool,
    captured: Option<Evidence>, mismatch: bool, stopReason: Option<Reason>, stopping: Stopping, finished: bool, exitCode: int)

  /** The four ways a record is completed. */
  datatype Route = ByQueueCancel | ByClose | ByStartFailure | ByExit

  datatype Attempt = Attempt(id: nat, route: Route)

  datatype Task = DrainTask | CancelTask(id: nat)

  datatype Scheduler = Scheduler(active: int, closed: bool, queue: seq<nat>, records: seq<Record>, tasks: seq<Task>,
    completed: map<nat, Outcome>, attempts: seq<Attempt>, started: seq<nat>)

  datatype Event =
    | Submit(selected: bool, fate: Fate)
    | CancelRecord(id: nat)
    | ReleaseRecord(id: nat)
    | CloseProvider
    | RunTask
    | Message(id: nat, preserved: bool, evidence: Option<Evidence>)
    | WorkerError(id: nat)
    | Expire(id: nat)
    | Terminate(id: nat, ok: bool)
    | Exit(id: nat, code: int)
    | Join(id: nat)   // `finish` goes on after awaiting the termination

  function New(): Scheduler { Scheduler(0, false, [], [], [], map[], [], []) }

  function NewRecord(selected: bool, fate: Fate): Record {
    Record(selected, fate, true, false, false, false, false, None, false, None, NotStopping, false, 0)
  }

  function Stop(r: Record, reason: Reason): Record {
    r.(stopReason := if r.stopReason.None? then Some(reason) else r.stopReason,
      stopping := if r.stopping.NotStopping? then Terminating else r.stopping)
  }

  /** What the core makes of an outcome: invalid evidence is replaced by a failure that says so. */
  function Admitted(outcome: Outcome): Outcome {
    if outcome.Recorded? && !outcome.evidence.valid then InvalidEvidence else outcome
  }

  /**
    The core takes the first completion of an execution and replays an identical one; a different one
    is rejected, and so is any for an execution that was released.
  */
  predicate Accepts(s: Scheduler, id: nat, outcome: Outcome)
    requires id < |s.records|
  {
    id !in s.completed || (s.records[id].listed && s.completed[id] in {Admitted(outcome), InvalidEvidence})
  }

  function Complete(s: Scheduler, id: nat, outcome: Outcome, route: Route): Scheduler
    requires id < |s.records|
  {
    var r := s.records[id];
    var failed := r.failed || !Accepts(s, id, outcome);
    s.(records := s.records[id := r.(failed := failed, done := !failed, captured := None)],
      completed := if id in s.completed then s.completed else s.completed[id := Admitted(outcome)],
      attempts := s.attempts + [Attempt(id, route)])
  }

  function Start(s: Scheduler, id: nat): Scheduler
    requires id < |s.records|
  {
    var r := s.records[id];
    var s := s.(started := s.started + [id]);
    match r.fate
    case ClaimRejected => s.(records := s.records[id := r.(failed := true)])
    case SpawnThrows => Complete(s, id, StartFailed, ByStartFailure)
    case PostThrows => s.(active := s.active + 1, records := s.records[id := Stop(r.(worker := true, spawned := true), Crash)])
    case Starts => s.(active := s.active + 1, records := s.records[id := r.(worker := true, spawned := true)])
  }

  /** Starts what the free slots can take, in queue order. */
  function Drain(s: Scheduler): Scheduler
    decreases |s.queue|
  {
    if s.closed || s.active >= SLOTS || s.queue == [] then s
    else
      var id := s.queue[0];
      var rest := s.(queue := s.queue[1..]);
      Drain(if id >= |s.records| || s.records[id].done then rest else Start(rest, id))
  }

  /** The evidence of a worker that exited: what it captured, or else why it captured nothing. */
  function Verdict(r: Record): Outcome {
    var unclean := r.stopping == Terminated(false);
    if r.captured.Some? then
      Recorded(r.captured.value,
        unclean || (r.exitCode != 0 && (r.stopReason.None? || r.stopReason == Some(Crash))))
    else if r.mismatch then SelectionFailed(unclean)
    else if r.stopReason == Some(Cancel) || r.stopReason == Some(Close) then Cancelled(unclean)
    else if r.stopReason == Some(Deadline) then DeadlineExpired(unclean)
    else if r.exitCode == 0 then NoResult(unclean)
    else Crashed(unclean)
  }

  /** The rest of `finish`: complete, give the slot back, start the next. */
  function Conclude(s: Scheduler, id: nat): Scheduler
    requires id < |s.records|
  {
    var s := Complete(s, id, Verdict(s.records[id]), ByExit);
    Drain(s.(records := s.records[id := s.records[id].(worker := false)], active := s.active - 1))
  }

  function Without(queue: seq<nat>, id: nat): (rest: seq<nat>)
    ensures forall q <- rest :: q in queue
  {
    if queue == [] then [] else if queue[0] == id then queue[1..] else [queue[0]] + Without(queue[1..], id)
  }

  /** `close`: every queued record is completed as cancelled, in order. */
  function CloseQueue(s: Scheduler): Scheduler
    decreases |s.queue|
  {
    if s.queue == [] then s
    else
      var id, rest := s.queue[0], s.(queue := s.queue[1..]);
      CloseQueue(if id >= |s.records| then rest else Complete(rest, id, Cancelled(false), ByClose))
  }

  function Told(r: Record): Record { if r.listed && r.worker then Stop(r, Close) else r }

  function StopAll(records: seq<Record>): (stopped: seq<Record>)
    ensures |stopped| == |records| && forall i :: 0 <= i < |records| ==> stopped[i] == Told(records[i])
  {
    if records == [] then [] else [Told(records[0])] + StopAll(records[1..])
  }

  function Take(r: Record, preserved: bool, evidence: Option<Evidence>): Record {
    if !r.spawned || r.captured.Some? || r.mismatch then r
    else if r.selected && !preserved then r.(mismatch := true)
    else r.(captured := evidence)
  }

  function Submitted(s: Scheduler, selected: bool, fate: Fate): Scheduler {
    s.(records := s.records + [NewRecord(selected, fate)], queue := s.queue + [|s.records|], tasks := s.tasks + [DrainTask])
  }

  function Step(s: Scheduler, e: Event): Scheduler
  {
    match e
    case Submit(selected, fate) =>
      if s.closed then s else Submitted(s, selected, fate)
    case CancelRecord(id) =>
      if s.closed || id >= |s.records| || !s.records[id].listed || s.records[id].done || id in s.completed then s
      else if s.records[id].worker then s.(records := s.records[id := Stop(s.records[id], Cancel)])
      else s.(queue := Without(s.queue, id), tasks := s.tasks + [CancelTask(id)])
    case ReleaseRecord(id) =>
      if s.closed || id >= |s.records| || id !in s.completed then s
      else s.(records := s.records[id := s.records[id].(listed := false)])
    case CloseProvider =>
      var s := CloseQueue(s.(closed := true));
      s.(records := StopAll(s.records))
    case RunTask =>
      if s.tasks == [] then s
      else
        var rest := s.(tasks := s.tasks[1..]);
        if s.tasks[0].DrainTask? then Drain(rest)
        else if s.tasks[0].id >= |s.records| then rest
        else Complete(rest, s.tasks[0].id, Cancelled(false), ByQueueCancel)
    case Message(id, preserved, evidence) =>
      if id >= |s.records| then s else s.(records := s.records[id := Take(s.records[id], preserved, evidence)])
    case WorkerError(id) =>
      if id >= |s.records| || !s.records[id].worker then s
      else s.(records := s.records[id := Stop(s.records[id], Crash)])
    case Expire(id) =>
      if id >= |s.records| || !s.records[id].worker || s.records[id].finished then s
      else s.(records := s.records[id := Stop(s.records[id], Deadline)])
    case Terminate(id, ok) =>
      if id >= |s.records| || !s.records[id].stopping.Terminating? then s
      else s.(records := s.records[id := s.records[id].(stopping := Terminated(ok))])
    case Exit(id, code) =>
      if id >= |s.records| || !s.records[id].worker || s.records[id].finished then s
      else
        var s := s.(records := s.records[id := s.records[id].(finished := true, exitCode := code)]);
        if s.records[id].stopping.NotStopping? then Conclude(s, id) else s
    case Join(id) =>
      if id >= |s.records| || !s.records[id].worker || !s.records[id].finished || !s.records[id].stopping.Terminated? then s
      else Conclude(s, id)
  }

  // ---- What every step keeps.

  function Holding(records: seq<Record>): nat {
    if records == [] then 0 else Holding(records[..|records| - 1]) + if records[|records| - 1].worker then 1 else 0
  }

  ghost predicate Rising(ids: seq<nat>, bound: nat) {
    && (forall i, j :: 0 <= i < j < |ids| ==> ids[i] < ids[j])
    && (forall i :: 0 <= i < |ids| ==> ids[i] < bound)
  }

  /** Starts and the queue follow the order of submission. */
  ghost predicate Ordered(s: Scheduler) {
    && Rising(s.queue, |s.records|) && Rising(s.started, |s.records|)
    && (forall i, j :: 0 <= i < |s.started| && 0 <= j < |s.queue| ==> s.started[i] < s.queue[j])
  }

  /** Nothing happened to a queued record yet. */
  predicate Untouched(r: Record) { !r.worker && !r.spawned && !r.done && !r.finished && !r.failed }

  ghost predicate Queued(s: Scheduler) {
    forall i :: 0 <= i < |s.queue| ==>
      s.queue[i] < |s.records| && Untouched(s.records[s.queue[i]]) && s.queue[i] !in s.completed
  }

  /** A record with a worker is not completed; one that had a worker is, and only after its exit. */
  ghost predicate Staffed(s: Scheduler) {
    forall id :: 0 <= id < |s.records| ==>
      && (s.records[id].worker ==> s.records[id].spawned && id !in s.completed)
      && (s.records[id].spawned && !s.records[id].worker ==> s.records[id].finished && id in s.completed)
      && (id in s.completed && s.completed[id].Recorded? ==> s.records[id].spawned)
  }

  ghost predicate Cancelling(s: Scheduler) {
    forall k :: 0 <= k < |s.tasks| && s.tasks[k].CancelTask? ==>
      && s.tasks[k].id < |s.records| && !s.records[s.tasks[k].id].spawned && s.tasks[k].id !in s.queue
      && (forall a :: 0 <= a < |s.attempts| && s.attempts[a].id == s.tasks[k].id ==> s.attempts[a].route.ByQueueCancel?)
  }

  ghost predicate Attempted(s: Scheduler) {
    && (forall id <- s.completed :: id < |s.records|)
    && (forall a :: 0 <= a < |s.attempts| ==>
          && s.attempts[a].id < |s.records| && s.attempts[a].id in s.completed
          && (s.attempts[a].route.ByExit? <==> s.records[s.attempts[a].id].spawned))
    && (forall a, b :: 0 <= a < b < |s.attempts| && s.attempts[a].id == s.attempts[b].id ==>
          s.attempts[a].route.ByQueueCancel? && s.attempts[b].route.ByQueueCancel?)
  }

  /** No slot stays free beside a queue unless a drain is about to run. */
  ghost predicate Busy(s: Scheduler) {
    !s.closed && s.queue != [] && s.active < SLOTS ==> DrainTask in s.tasks
  }

  ghost predicate Slots(s: Scheduler) { s.active == Holding(s.records) && s.active <= SLOTS }

  /** All of it but `Busy`, which a drain restores. */
  ghost predicate Sound(s: Scheduler) {
    Slots(s) && Ordered(s) && Queued(s) && Staffed(s) && Cancelling(s) && Attempted(s)
  }

  ghost predicate Inv(s: Scheduler) { Sound(s) && Busy(s) }

  lemma {:induction false} HoldingUpdate(records: seq<Record>, id: nat, r: Record)
    requires id < |records|
    ensures Holding(records[id := r]) + (if records[id].worker then 1 else 0) == Holding(records) + (if r.worker then 1 else 0)
  {
    var n := |records| - 1;
    if id == n {
      assert records[id := r][..n] == records[..n];
    } else {
      HoldingUpdate(records[..n], id, r);
      assert records[id := r][..n] == records[..n][id := r];
    }
  }

  lemma HoldingGrows(records: seq<Record>, r: Record)
    ensures Holding(records + [r]) == Holding(records) + if r.worker then 1 else 0
  {
    assert (records + [r])[..|records|] == records;
  }

  /** A record that no route has completed yet may be completed by any. */
  lemma CompleteKeeps(s: Scheduler, id: nat, outcome: Outcome, route: Route)
    requires Sound(s) && id < |s.records| && id !in s.queue && !s.records[id].worker
    requires !route.ByExit? && !s.records[id].spawned && !outcome.Recorded?
    requires route.ByQueueCancel? || id !in s.completed
    requires route.ByQueueCancel? ==> forall a :: 0 <= a < |s.attempts| && s.attempts[a].id == id ==> s.attempts[a].route.ByQueueCancel?
    requires !route.ByQueueCancel? ==> CancelTask(id) !in s.tasks
    ensures Sound(Complete(s, id, outcome, route))
  {
    hide Holding, Accepts;
    var after := Complete(s, id, outcome, route);
    HoldingUpdate(s.records, id, after.records[id]);
    CompleteAttempts(s, id, outcome, route);
    assert Cancelling(after);
  }

  lemma CompleteAttempts(s: Scheduler, id: nat, outcome: Outcome, route: Route)
    requires Attempted(s) && id < |s.records| && !route.ByExit? && !s.records[id].spawned
    requires route.ByQueueCancel? || id !in s.completed
    requires route.ByQueueCancel? ==> forall a :: 0 <= a < |s.attempts| && s.attempts[a].id == id ==> s.attempts[a].route.ByQueueCancel?
    ensures Attempted(Complete(s, id, outcome, route))
  {
    hide Admitted, Accepts;
  }

  /** A record that just left the queue. */
  ghost predicate Next(s: Scheduler, id: nat) {
    && id < |s.records| && Untouched(s.records[id]) && id !in s.completed && id !in s.queue && CancelTask(id) !in s.tasks
    && (forall i :: 0 <= i < |s.started| ==> s.started[i] < id) && (forall j :: 0 <= j < |s.queue| ==> id < s.queue[j])
  }

  lemma PopNext(s: Scheduler)
    requires Sound(s) && s.queue != []
    ensures Sound(s.(queue := s.queue[1..])) && Next(s.(queue := s.queue[1..]), s.queue[0])
  {
  }

  lemma MarkStarted(s: Scheduler, id: nat)
    requires Sound(s) && Next(s, id)
    ensures Sound(s.(started := s.started + [id]))
  {
  }

  /** What a record may become on its own, with or without a slot. */
  ghost predicate Becomes(s: Scheduler, id: nat, r: Record)
    requires id < |s.records|
  {
    && (id in s.queue ==> Untouched(r))
    && (r.worker ==> r.spawned && id !in s.completed)
    && (r.spawned && !r.worker ==> r.finished && id in s.completed)
    && (id in s.completed ==> r.spawned == s.records[id].spawned)
    && (r.spawned ==> s.records[id].spawned || CancelTask(id) !in s.tasks)
  }

  function Slot(r: Record): nat { if r.worker then 1 else 0 }

  lemma UpdateKeeps(s: Scheduler, id: nat, r: Record, active: int)
    requires Sound(s) && id < |s.records| && Becomes(s, id, r)
    requires active == s.active + Slot(r) - Slot(s.records[id]) && active <= SLOTS
    ensures Sound(s.(records := s.records[id := r], active := active))
  {
    HoldingUpdate(s.records, id, r);
  }

  lemma NextBecomes(s: Scheduler, id: nat, r: Record)
    requires Next(s, id) && r.worker == r.spawned
    ensures Becomes(s.(started := s.started + [id]), id, r) && !s.records[id].worker && !s.records[id].spawned
  {
  }

  lemma NextCompletes(s: Scheduler, id: nat)
    requires Sound(s) && Next(s, id)
    ensures Sound(Complete(s.(started := s.started + [id]), id, StartFailed, ByStartFailure))
  {
    MarkStarted(s, id);
    assert forall a :: 0 <= a < |s.attempts| ==> s.attempts[a].id != id;
    hide Sound, Complete;
    CompleteKeeps(s.(started := s.started + [id]), id, StartFailed, ByStartFailure);
  }

  lemma StartsAs(s: Scheduler, id: nat, r: Record)
    requires Sound(s) && Next(s, id) && s.active < SLOTS && r.worker == r.spawned
    ensures Sound(s.(started := s.started + [id], records := s.records[id := r], active := s.active + Slot(r)))
  {
    hide Sound, Next, Becomes;
    MarkStarted(s, id);
    Kept(s, id);
    NextBecomes(s, id, r);
    UpdateKeeps(s.(started := s.started + [id]), id, r, s.active + Slot(r));
  }

  lemma StartKeeps(s: Scheduler, id: nat)
    requires Sound(s) && Next(s, id) && s.active < SLOTS
    ensures Sound(Start(s, id))
  {
    hide Sound, Next, Complete;
    Kept(s, id);
    var r := s.records[id];
    match r.fate
    case ClaimRejected => StartsAs(s, id, r.(failed := true));
    case SpawnThrows => NextCompletes(s, id);
    case PostThrows => StartsAs(s, id, Stop(r.(worker := true, spawned := true), Crash));
    case Starts => StartsAs(s, id, r.(worker := true, spawned := true));
  }

  lemma Kept(s: Scheduler, id: nat)
    requires Next(s, id)
    ensures id < |s.records| && !s.records[id].worker && !s.records[id].spawned
  {
  }

  lemma {:induction false} DrainKeeps(s: Scheduler)
    requires Sound(s)
    ensures Sound(Drain(s)) && Drain(s).tasks == s.tasks && Drain(s).closed == s.closed
    ensures var d := Drain(s); d.closed || d.active >= SLOTS || d.queue == []
    decreases |s.queue|
  {
    hide Sound, Start, Next;
    if !s.closed && s.active < SLOTS && s.queue != [] {
      var id, rest := s.queue[0], s.(queue := s.queue[1..]);
      PopNext(s);
      StartKeeps(rest, id);
      StartQueue(rest, id);
      DrainKeeps(if s.records[id].done then rest else Start(rest, id));
    }
  }

  lemma StartQueue(s: Scheduler, id: nat)
    requires id < |s.records|
    ensures var t := Start(s, id); t.queue == s.queue && t.tasks == s.tasks && t.closed == s.closed
    ensures |Start(s, id).records| == |s.records|
  {
  }

  /** Nobody tried to complete a record that has a worker, and nobody is about to. */
  lemma Unattempted(s: Scheduler, id: nat)
    requires Sound(s) && id < |s.records| && s.records[id].worker
    ensures s.records[id].spawned && id !in s.completed && id !in s.queue && CancelTask(id) !in s.tasks
    ensures forall a :: 0 <= a < |s.attempts| ==> s.attempts[a].id != id
  {
  }

  /** A worker that exited is completed and its slot taken back in one step. */
  lemma ExitKeeps(s: Scheduler, id: nat)
    requires Sound(s) && id < |s.records| && s.records[id].worker && s.records[id].finished
    ensures var c := Complete(s, id, Verdict(s.records[id]), ByExit);
      Sound(c.(records := c.records[id := c.records[id].(worker := false)], active := c.active - 1))
  {
    hide Holding, Verdict;
    Unattempted(s, id);
    var c := Complete(s, id, Verdict(s.records[id]), ByExit);
    var r := c.records[id].(worker := false);
    HoldingUpdate(s.records, id, r);
    assert c.records[id := r] == s.records[id := r];
  }

  lemma ConcludeKeeps(s: Scheduler, id: nat)
    requires Sound(s) && id < |s.records| && s.records[id].worker && s.records[id].finished
    ensures Inv(Conclude(s, id))
  {
    hide Sound, Verdict;
    ExitKeeps(s, id);
    var c := Complete(s, id, Verdict(s.records[id]), ByExit);
    DrainKeeps(c.(records := c.records[id := c.records[id].(worker := false)], active := c.active - 1));
  }

  lemma {:induction false} WithoutRises(queue: seq<nat>, id: nat, bound: nat)
    requires Rising(queue, bound)
    ensures Rising(Without(queue, id), bound) && id !in Without(queue, id)
    ensures Without(queue, id) != [] ==> queue != [] && Without(queue, id)[0] >= queue[0]
  {
    if queue != [] {
      var head, tail := queue[0], queue[1..];
      RisingTail(queue, bound);
      if head != id {
        WithoutRises(tail, id, bound);
        hide Rising;
        RisingCons(head, Without(tail, id), bound);
      }
    }
  }

  lemma RisingTail(queue: seq<nat>, bound: nat)
    requires Rising(queue, bound) && queue != []
    ensures Rising(queue[1..], bound) && queue[0] < bound && queue[0] !in queue[1..]
    ensures queue[1..] != [] ==> queue[0] < queue[1..][0]
  {
  }

  lemma RisingCons(head: nat, tail: seq<nat>, bound: nat)
    requires Rising(tail, bound) && head < bound && (tail != [] ==> head < tail[0])
    ensures Rising([head] + tail, bound)
  {
    var all := [head] + tail;
    forall i, j | 0 <= i < j < |all|
      ensures all[i] < all[j]
    {
      assert tail[0] <= tail[j - 1];
      if i > 0 {
        assert tail[i - 1] < tail[j - 1];
      }
    }
  }

  lemma CancelQueue(s: Scheduler, id: nat)
    requires Ordered(s) && Queued(s)
    ensures var after := s.(queue := Without(s.queue, id), tasks := s.tasks + [CancelTask(id)]);
      Ordered(after) && Queued(after) && id !in after.queue
    ensures Without(s.queue, id) != [] ==> s.queue != []
  {
    hide Without;
    WithoutRises(s.queue, id, |s.records|);
    var queue := Without(s.queue, id);
    assert forall j :: 0 <= j < |queue| ==> queue[j] in s.queue;
  }

  lemma CancelTasks(s: Scheduler, id: nat)
    requires Staffed(s) && Cancelling(s) && Attempted(s) && id < |s.records| && !s.records[id].worker && id !in s.completed
    requires id !in Without(s.queue, id)
    ensures var after := s.(queue := Without(s.queue, id), tasks := s.tasks + [CancelTask(id)]);
      Staffed(after) && Cancelling(after) && Attempted(after)
  {
    hide Without;
  }

  lemma CancelKeeps(s: Scheduler, id: nat)
    requires Inv(s) && id < |s.records| && !s.records[id].worker && id !in s.completed
    ensures Inv(s.(queue := Without(s.queue, id), tasks := s.tasks + [CancelTask(id)]))
  {
    hide Holding, Ordered, Queued, Staffed, Cancelling, Attempted, Without;
    CancelQueue(s, id);
    CancelTasks(s, id);
    assert DrainTask in s.tasks ==> DrainTask in s.tasks + [CancelTask(id)];
  }

  lemma SubmittedOrder(s: Scheduler, selected: bool, fate: Fate)
    requires Ordered(s) && Queued(s) && Attempted(s)
    ensures Ordered(Submitted(s, selected, fate)) && Queued(Submitted(s, selected, fate))
  {
    assert |s.records| !in s.completed;
  }

  lemma SubmittedRecords(s: Scheduler, selected: bool, fate: Fate)
    requires Staffed(s) && Cancelling(s) && Attempted(s)
    ensures Staffed(Submitted(s, selected, fate)) && Cancelling(Submitted(s, selected, fate)) && Attempted(Submitted(s, selected, fate))
  {
    assert |s.records| !in s.completed;
  }

  lemma SubmitKeeps(s: Scheduler, selected: bool, fate: Fate)
    requires Inv(s)
    ensures Inv(Submitted(s, selected, fate))
  {
    hide Holding, Ordered, Queued, Staffed, Cancelling, Attempted;
    HoldingGrows(s.records, NewRecord(selected, fate));
    SubmittedOrder(s, selected, fate);
    SubmittedRecords(s, selected, fate);
    assert Submitted(s, selected, fate).tasks[|s.tasks|] == DrainTask;
  }

  lemma {:induction false} CloseKeeps(s: Scheduler)
    requires Sound(s) && s.closed
    ensures Inv(CloseQueue(s)) && CloseQueue(s).queue == []
    decreases |s.queue|
  {
    if s.queue != [] {
      var id, rest := s.queue[0], s.(queue := s.queue[1..]);
      PopNext(s);
      assert forall a :: 0 <= a < |s.attempts| ==> s.attempts[a].id != id;
      hide Sound;
      CompleteKeeps(rest, id, Cancelled(false), ByClose);
      CloseKeeps(Complete(rest, id, Cancelled(false), ByClose));
    }
  }

  lemma {:induction false} HoldingAgrees(a: seq<Record>, b: seq<Record>)
    requires |a| == |b| && forall i :: 0 <= i < |a| ==> a[i].worker == b[i].worker
    ensures Holding(a) == Holding(b)
  {
    if a != [] {
      HoldingAgrees(a[..|a| - 1], b[..|b| - 1]);
    }
  }

  lemma OrderedAgrees(s: Scheduler, records: seq<Record>)
    requires |records| == |s.records|
    ensures Ordered(s) == Ordered(s.(records := records))
  {
  }

  lemma StopAllKeeps(s: Scheduler)
    requires Inv(s)
    ensures Inv(s.(records := StopAll(s.records)))
  {
    hide Holding, StopAll, Ordered;
    HoldingAgrees(s.records, StopAll(s.records));
    assert Ordered(s) == Ordered(s.(records := StopAll(s.records))) by { OrderedAgrees(s, StopAll(s.records)); }
  }

  lemma PopTask(s: Scheduler)
    requires Sound(s) && s.tasks != []
    ensures Sound(s.(tasks := s.tasks[1..]))
    ensures s.tasks[0].CancelTask? ==> CancelReady(s.(tasks := s.tasks[1..]), s.tasks[0].id)
  {
    hide Holding;
    var rest := s.(tasks := s.tasks[1..]);
    assert forall k :: 0 <= k < |rest.tasks| ==> rest.tasks[k] == s.tasks[k + 1];
    assert Cancelling(rest) && Slots(rest);
  }

  ghost predicate CancelReady(s: Scheduler, id: nat) {
    && id < |s.records| && id !in s.queue && !s.records[id].worker && !s.records[id].spawned
    && (forall a :: 0 <= a < |s.attempts| && s.attempts[a].id == id ==> s.attempts[a].route.ByQueueCancel?)
  }

  lemma TaskKeeps(s: Scheduler)
    requires Inv(s) && s.tasks != []
    ensures Inv(Step(s, RunTask))
  {
    hide Sound, Drain, Complete;
    var rest := s.(tasks := s.tasks[1..]);
    PopTask(s);
    if s.tasks[0].DrainTask? {
      DrainKeeps(rest);
    } else {
      CompleteKeeps(rest, s.tasks[0].id, Cancelled(false), ByQueueCancel);
      CompleteQueue(rest, s.tasks[0].id, Cancelled(false), ByQueueCancel);
      assert DrainTask in s.tasks ==> DrainTask in rest.tasks;
    }
  }

  lemma CompleteQueue(s: Scheduler, id: nat, outcome: Outcome, route: Route)
    requires id < |s.records|
    ensures var t := Complete(s, id, outcome, route);
      t.queue == s.queue && t.tasks == s.tasks && t.active == s.active && t.closed == s.closed && |t.records| == |s.records|
  {
  }

  /** A step that touches one record and no slot. */
  lemma TouchKeeps(s: Scheduler, id: nat, r: Record)
    requires Inv(s) && id < |s.records| && Becomes(s, id, r) && r.worker == s.records[id].worker
    ensures Inv(s.(records := s.records[id := r]))
  {
    UpdateKeeps(s, id, r, s.active);
  }

  /** What a record shows to the invariants. */
  ghost predicate Alike(r: Record, other: Record) {
    && other.worker == r.worker && other.spawned == r.spawned && other.done == r.done && other.finished == r.finished
    && other.failed == r.failed
  }

  lemma AlikeBecomes(s: Scheduler, id: nat, r: Record)
    requires Inv(s) && id < |s.records| && Alike(s.records[id], r)
    ensures Becomes(s, id, r)
  {
    hide Holding, Rising;
  }

  lemma AlikeKeeps(s: Scheduler, id: nat, r: Record)
    requires Inv(s) && id < |s.records| && Alike(s.records[id], r)
    ensures Inv(s.(records := s.records[id := r]))
  {
    hide Inv, Becomes;
    AlikeBecomes(s, id, r);
    TouchKeeps(s, id, r);
  }

  lemma RecordKeeps(s: Scheduler, e: Event)
    requires Inv(s) && (e.ReleaseRecord? || e.Message? || e.WorkerError? || e.Expire? || e.Terminate?)
    ensures Inv(Step(s, e))
  {
    hide Inv;
    if e.id < |s.records| {
      var r := s.records[e.id];
      match e
      case ReleaseRecord(id) => AlikeKeeps(s, id, r.(listed := false));
      case Message(id, preserved, evidence) => AlikeKeeps(s, id, Take(r, preserved, evidence));
      case WorkerError(id) => AlikeKeeps(s, id, Stop(r, Crash));
      case Expire(id) => AlikeKeeps(s, id, Stop(r, Deadline));
      case Terminate(id, ok) => AlikeKeeps(s, id, r.(stopping := Terminated(ok)));
    }
  }

  lemma ExitsKeep(s: Scheduler, e: Event)
    requires Inv(s) && (e.Exit? || e.Join?)
    ensures Inv(Step(s, e))
  {
    hide Inv, Conclude;
    if e.id < |s.records| && s.records[e.id].worker {
      if e.Exit? && !s.records[e.id].finished {
        var r := s.records[e.id].(finished := true, exitCode := e.code);
        WorkerBecomes(s, e.id, r);
        TouchKeeps(s, e.id, r);
        SoundOf(s.(records := s.records[e.id := r]));
        ConcludeKeeps(s.(records := s.records[e.id := r]), e.id);
      } else if e.Join? && s.records[e.id].finished {
        SoundOf(s);
        ConcludeKeeps(s, e.id);
      }
    }
  }

  lemma StepKeeps(s: Scheduler, e: Event)
    requires Inv(s)
    ensures Inv(Step(s, e))
  {
    match e
    case Submit(selected, fate) => SubmitKeeps(s, selected, fate);
    case CancelRecord(id) =>
      if id < |s.records| && !s.records[id].done && id !in s.completed {
        if s.records[id].worker {
          TouchKeeps(s, id, Stop(s.records[id], Cancel));
        } else {
          CancelKeeps(s, id);
        }
      }
    case CloseProvider =>
      CloseKeeps(s.(closed := true));
      StopAllKeeps(CloseQueue(s.(closed := true)));
    case RunTask => if s.tasks != [] { TaskKeeps(s); }
    case Exit(_, _) => ExitsKeep(s, e);
    case Join(_) => ExitsKeep(s, e);
    case _ => RecordKeeps(s, e);
  }

  function Run(s: Scheduler, es: seq<Event>): Scheduler
    decreases |es|
  {
    if es == [] then s else Run(Step(s, es[0]), es[1..])
  }

  lemma {:induction false} RunKeeps(s: Scheduler, es: seq<Event>)
    requires Inv(s)
    ensures Inv(Run(s, es))
    decreases |es|
  {
    hide Inv, Step;
    if es != [] {
      StepKeeps(s, es[0]);
      RunKeeps(Step(s, es[0]), es[1..]);
    }
  }

  lemma EveryRun(es: seq<Event>)
    ensures Inv(Run(New(), es))
  {
    RunKeeps(New(), es);
  }

  // ---- What follows for every run.

  /** The count of active workers is exact and never passes the slots. */
  lemma ActiveIsBounded(es: seq<Event>)
    ensures var s := Run(New(), es); s.active == Holding(s.records) && 0 <= s.active <= SLOTS
  {
    EveryRun(es);
  }

  /** Records are started in the order they were submitted, past those no longer queued. */
  lemma StartsInOrder(es: seq<Event>)
    ensures var s := Run(New(), es);
      && (forall i, j :: 0 <= i < j < |s.started| ==> s.started[i] < s.started[j])
      && (forall i, j :: 0 <= i < |s.started| && 0 <= j < |s.queue| ==> s.started[i] < s.queue[j])
  {
    hide Slots, Queued, Staffed, Cancelling, Attempted, Busy;
    EveryRun(es);
  }

  /** With a record waiting, a slot is free only while a drain is about to run. */
  lemma NoIdleSlot(es: seq<Event>)
    ensures var s := Run(New(), es); !s.closed && s.queue != [] && DrainTask !in s.tasks ==> s.active == SLOTS
  {
    EveryRun(es);
  }

  /**
    Any two attempts to complete one record are repeated queue cancellations: no other route is tried
    twice, and no two routes meet.
  */
  lemma OneRoute(es: seq<Event>)
    ensures var s := Run(New(), es);
      forall a, b :: 0 <= a < b < |s.attempts| && s.attempts[a].id == s.attempts[b].id ==>
        s.attempts[a].route.ByQueueCancel? && s.attempts[b].route.ByQueueCancel?
  {
    hide Slots, Queued, Staffed, Cancelling, Ordered, Busy;
    EveryRun(es);
  }

  /** A record that got a worker is completed exactly when its worker exited and gave the slot back. */
  lemma CompletedAfterExit(es: seq<Event>)
    ensures var s := Run(New(), es);
      forall id :: 0 <= id < |s.records| && s.records[id].spawned ==>
        (id in s.completed <==> !s.records[id].worker) && (id in s.completed ==> s.records[id].finished)
  {
    hide Slots, Queued, Cancelling, Attempted, Ordered, Busy;
    EveryRun(es);
  }

  // ---- Evidence.

  /** The outcome carries this evidence, or says that the core found it invalid. */
  predicate Carries(outcome: Outcome, x: Evidence) {
    if x.valid then outcome.Recorded? && outcome.evidence == x else outcome.InvalidEvidence?
  }

  /** Completions are final, and the record is still the same where it is not in the queue. */
  ghost predicate Leaves(s: Scheduler, t: Scheduler, id: nat) {
    && |s.records| <= |t.records|
    && (forall k <- s.completed :: k in t.completed && t.completed[k] == s.completed[k])
    && (id < |s.records| && id !in s.queue ==> t.records[id] == s.records[id] && id !in t.queue)
  }

  lemma {:induction false} DrainLeaves(s: Scheduler, id: nat)
    ensures Leaves(s, Drain(s), id)
    decreases |s.queue|
  {
    if !s.closed && s.active < SLOTS && s.queue != [] {
      var first, rest := s.queue[0], s.(queue := s.queue[1..]);
      assert id !in s.queue ==> id !in rest.queue && id != first;
      DrainLeaves(if first >= |s.records| || s.records[first].done then rest else Start(rest, first), id);
    }
  }

  lemma {:induction false} CloseLeaves(s: Scheduler, id: nat)
    ensures Leaves(s, CloseQueue(s), id)
    decreases |s.queue|
  {
    if s.queue != [] {
      var first, rest := s.queue[0], s.(queue := s.queue[1..]);
      assert id !in s.queue ==> id !in rest.queue && id != first;
      CloseLeaves(if first >= |s.records| then rest else Complete(rest, first, Cancelled(false), ByClose), id);
    }
  }

  ghost predicate Final(s: Scheduler, t: Scheduler) {
    && |s.records| <= |t.records|
    && (forall k <- s.completed :: k in t.completed && t.completed[k] == s.completed[k])
  }

  lemma ConcludeFinal(s: Scheduler, id: nat)
    requires id < |s.records|
    ensures Final(s, Conclude(s, id))
  {
    hide Drain, Verdict;
    var c := Complete(s, id, Verdict(s.records[id]), ByExit);
    DrainLeaves(c.(records := c.records[id := c.records[id].(worker := false)], active := c.active - 1), 0);
  }

  /** Completions are final. */
  lemma StepFinal(s: Scheduler, e: Event)
    ensures Final(s, Step(s, e))
  {
    hide Drain, CloseQueue, Conclude, StopAll, Take, Stop;
    match e
    case CloseProvider => CloseLeaves(s.(closed := true), 0);
    case RunTask => if s.tasks != [] { DrainLeaves(s.(tasks := s.tasks[1..]), 0); }
    case Exit(id, code) =>
      if id < |s.records| {
        ConcludeFinal(s.(records := s.records[id := s.records[id].(finished := true, exitCode := code)]), id);
      }
    case Join(id) => if id < |s.records| { ConcludeFinal(s, id); }
    case _ =>
  }

  ghost predicate Held(s: Scheduler, id: nat, x: Evidence) {
    id < |s.records| && s.records[id].worker && s.records[id].captured == Some(x)
  }

  ghost predicate Delivered(s: Scheduler, id: nat, x: Evidence) {
    id in s.completed && Carries(s.completed[id], x)
  }

  lemma ConcludeDelivers(s: Scheduler, done: nat, id: nat, x: Evidence)
    requires Sound(s) && Held(s, id, x) && done < |s.records| && s.records[done].worker
    ensures Held(Conclude(s, done), id, x) || Delivered(Conclude(s, done), id, x)
  {
    var c := Complete(s, done, Verdict(s.records[done]), ByExit);
    var freed := c.(records := c.records[done := c.records[done].(worker := false)], active := c.active - 1);
    assert id !in freed.queue;
    DrainLeaves(freed, id);
  }

  /** Nothing a caller or the worker does touches captured evidence. */
  lemma EvidenceStays(s: Scheduler, e: Event, id: nat, x: Evidence)
    requires Held(s, id, x)
    requires !e.CloseProvider? && !e.RunTask? && !e.Exit? && !e.Join?
    ensures Held(Step(s, e), id, x)
  {
  }

  lemma TaskLeaves(s: Scheduler, id: nat, x: Evidence)
    requires Inv(s) && Held(s, id, x) && s.tasks != []
    ensures Held(Step(s, RunTask), id, x)
  {
    hide Drain;
    assert id !in s.queue;
    DrainLeaves(s.(tasks := s.tasks[1..]), id);
  }

  lemma ExitDelivers(s: Scheduler, done: nat, code: int, id: nat, x: Evidence)
    requires Inv(s) && Held(s, id, x)
    ensures var t := Step(s, Exit(done, code)); Held(t, id, x) || Delivered(t, id, x)
  {
    hide Inv, Sound, Conclude, Carries;
    if done < |s.records| && s.records[done].worker && !s.records[done].finished {
      var ended := s.(records := s.records[done := s.records[done].(finished := true, exitCode := code)]);
      WorkerBecomes(s, done, ended.records[done]);
      TouchKeeps(s, done, ended.records[done]);
      SoundOf(ended);
      ConcludeDelivers(ended, done, id, x);
    }
  }

  lemma SoundOf(s: Scheduler)
    requires Inv(s)
    ensures Sound(s)
  {
  }

  lemma WorkerBecomes(s: Scheduler, id: nat, r: Record)
    requires Inv(s) && id < |s.records| && s.records[id].worker && r.worker && r.spawned == s.records[id].spawned
    ensures Becomes(s, id, r)
  {
  }

  lemma EvidenceStep(s: Scheduler, e: Event, id: nat, x: Evidence)
    requires Inv(s) && Held(s, id, x)
    ensures Held(Step(s, e), id, x) || Delivered(Step(s, e), id, x)
  {
    hide Inv, Sound, Conclude, Carries, Drain, CloseQueue;
    match e
    case CloseProvider =>
      NotQueued(s, id);
      CloseLeaves(s.(closed := true), id);
    case RunTask => if s.tasks != [] { TaskLeaves(s, id, x); }
    case Exit(done, code) => ExitDelivers(s, done, code, id, x);
    case Join(done) =>
      if done < |s.records| && s.records[done].worker {
        SoundOf(s);
        ConcludeDelivers(s, done, id, x);
      }
    case _ => EvidenceStays(s, e, id, x);
  }

  lemma NotQueued(s: Scheduler, id: nat)
    requires Inv(s) && id < |s.records| && s.records[id].worker
    ensures id !in s.queue
  {
  }

  /**
    Once a worker's evidence is captured, no cancellation, deadline, crash or close replaces it: it is
    held until the worker exits and then it is what the core receives.
  */
  lemma {:induction false} EvidenceSurvives(s: Scheduler, es: seq<Event>, id: nat, x: Evidence)
    requires Inv(s) && (Held(s, id, x) || Delivered(s, id, x))
    ensures Held(Run(s, es), id, x) || Delivered(Run(s, es), id, x)
    decreases |es|
  {
    hide Inv, Step, Held;
    if es != [] {
      StepKeeps(s, es[0]);
      if Held(s, id, x) {
        EvidenceStep(s, es[0], id, x);
      } else {
        StepFinal(s, es[0]);
      }
      EvidenceSurvives(Step(s, es[0]), es[1..], id, x);
    }
  }

  // ---- How records end.

  /** Where a record stands towards the core. */
  ghost predicate Ended(s: Scheduler, id: nat)
    requires id < |s.records|
  {
    var r := s.records[id];
    && (r.done <==> id in s.completed && !r.failed)
    && (r.failed ==> r.fate.ClaimRejected? || !r.listed)
    && (!r.listed ==> id in s.completed)
    && (CancelTask(id) in s.tasks && id in s.completed ==> s.completed[id] == Cancelled(false))
  }

  ghost predicate Terms(s: Scheduler) { forall id :: 0 <= id < |s.records| ==> Ended(s, id) }

  lemma CompleteTerms(s: Scheduler, id: nat, outcome: Outcome, route: Route)
    requires Terms(s) && id < |s.records|
    requires CancelTask(id) in s.tasks || id in s.completed ==> outcome == Cancelled(false)
    requires id in s.completed ==> s.completed[id] == Cancelled(false)
    ensures Terms(Complete(s, id, outcome, route))
  {
    var after := Complete(s, id, outcome, route);
    forall other | 0 <= other < |after.records|
      ensures Ended(after, other)
    {
      assert Ended(s, other);
    }
  }

  /** A step that touches one record, not its end. */
  lemma TouchTerms(s: Scheduler, id: nat, r: Record, active: int)
    requires Terms(s) && id < |s.records|
    requires r.done == s.records[id].done && r.fate == s.records[id].fate
    requires r.failed == s.records[id].failed || (r.failed && !r.done && r.fate.ClaimRejected?)
    requires r.listed == s.records[id].listed || (!r.listed && id in s.completed)
    ensures Terms(s.(records := s.records[id := r], active := active))
  {
    var after := s.(records := s.records[id := r], active := active);
    forall other | 0 <= other < |after.records|
      ensures Ended(after, other)
    {
      assert Ended(s, other);
    }
  }

  /** What leaves the queue or is noted as started does not matter here, and a task that is gone even less. */
  lemma SameTerms(s: Scheduler, t: Scheduler)
    requires Terms(s) && t.records == s.records && t.completed == s.completed && forall task <- t.tasks :: task in s.tasks
    ensures Terms(t)
  {
    forall id | 0 <= id < |t.records|
      ensures Ended(t, id)
    {
      assert Ended(s, id);
    }
  }

  lemma StartTerms(s: Scheduler, id: nat)
    requires Terms(s) && Next(s, id)
    ensures Terms(Start(s, id))
  {
    var marked, r := s.(started := s.started + [id]), s.records[id];
    SameTerms(s, marked);
    hide Terms, Complete;
    match r.fate
    case ClaimRejected => TouchTerms(marked, id, r.(failed := true), s.active);
    case SpawnThrows => CompleteTerms(marked, id, StartFailed, ByStartFailure);
    case PostThrows => TouchTerms(marked, id, Stop(r.(worker := true, spawned := true), Crash), s.active + 1);
    case Starts => TouchTerms(marked, id, r.(worker := true, spawned := true), s.active + 1);
  }

  lemma {:induction false} DrainTerms(s: Scheduler)
    requires Sound(s) && Terms(s)
    ensures Terms(Drain(s))
    decreases |s.queue|
  {
    hide Sound, Terms, Start, Next;
    if !s.closed && s.active < SLOTS && s.queue != [] {
      var id, rest := s.queue[0], s.(queue := s.queue[1..]);
      PopNext(s);
      SameTerms(s, rest);
      StartKeeps(rest, id);
      StartTerms(rest, id);
      StartQueue(rest, id);
      DrainTerms(if id >= |s.records| || s.records[id].done then rest else Start(rest, id));
    }
  }

  lemma {:induction false} CloseTerms(s: Scheduler)
    requires Sound(s) && s.closed && Terms(s)
    ensures Terms(CloseQueue(s))
    decreases |s.queue|
  {
    if s.queue != [] {
      var id, rest := s.queue[0], s.(queue := s.queue[1..]);
      PopNext(s);
      assert forall a :: 0 <= a < |s.attempts| ==> s.attempts[a].id != id;
      SameTerms(s, rest);
      hide Sound, Terms;
      CompleteKeeps(rest, id, Cancelled(false), ByClose);
      CompleteTerms(rest, id, Cancelled(false), ByClose);
      CloseTerms(Complete(rest, id, Cancelled(false), ByClose));
    }
  }

  lemma ConcludeTerms(s: Scheduler, id: nat)
    requires Sound(s) && Terms(s) && id < |s.records| && s.records[id].worker && s.records[id].finished
    ensures Terms(Conclude(s, id))
  {
    hide Sound, Terms, Verdict, Complete, Drain;
    Unattempted(s, id);
    ExitKeeps(s, id);
    CompleteTerms(s, id, Verdict(s.records[id]), ByExit);
    var c := Complete(s, id, Verdict(s.records[id]), ByExit);
    CompleteQueue(s, id, Verdict(s.records[id]), ByExit);
    TouchTerms(c, id, c.records[id].(worker := false), c.active - 1);
    DrainTerms(c.(records := c.records[id := c.records[id].(worker := false)], active := c.active - 1));
  }

  lemma StopAllTerms(s: Scheduler)
    requires Terms(s)
    ensures Terms(s.(records := StopAll(s.records)))
  {
    var after := s.(records := StopAll(s.records));
    forall id | 0 <= id < |after.records|
      ensures Ended(after, id)
    {
      assert Ended(s, id);
    }
  }

  lemma AddTerms(s: Scheduler, selected: bool, fate: Fate)
    requires Inv(s) && Terms(s)
    ensures Terms(Step(s, Submit(selected, fate)))
  {
    var after := Step(s, Submit(selected, fate));
    forall id | 0 <= id < |after.records|
      ensures Ended(after, id)
    {
      assert id < |s.records| ==> Ended(s, id);
    }
  }

  lemma CancelTerms(s: Scheduler, id: nat)
    requires Terms(s) && id !in s.completed
    ensures Terms(s.(queue := Without(s.queue, id), tasks := s.tasks + [CancelTask(id)]))
  {
    var after := s.(queue := Without(s.queue, id), tasks := s.tasks + [CancelTask(id)]);
    forall other | 0 <= other < |after.records|
      ensures Ended(after, other)
    {
      assert Ended(s, other);
    }
  }

  lemma TaskTerms(s: Scheduler)
    requires Inv(s) && Terms(s) && s.tasks != []
    ensures Terms(Step(s, RunTask))
  {
    var rest, task := s.(tasks := s.tasks[1..]), s.tasks[0];
    SameTerms(s, rest);
    PopTask(s);
    if task.DrainTask? {
      hide Sound, Terms, Drain;
      DrainTerms(rest);
    } else if task.id < |s.records| {
      assert Ended(s, task.id);
      hide Sound, Terms, Complete;
      CompleteTerms(rest, task.id, Cancelled(false), ByQueueCancel);
    }
  }

  lemma ExitTerms(s: Scheduler, e: Event)
    requires Inv(s) && Terms(s) && (e.Exit? || e.Join?)
    ensures Terms(Step(s, e))
  {
    hide Inv, Terms, Conclude;
    if e.id < |s.records| && s.records[e.id].worker {
      if e.Exit? && !s.records[e.id].finished {
        var r := s.records[e.id].(finished := true, exitCode := e.code);
        WorkerBecomes(s, e.id, r);
        TouchKeeps(s, e.id, r);
        TouchTerms(s, e.id, r, s.active);
        SoundOf(s.(records := s.records[e.id := r]));
        ConcludeTerms(s.(records := s.records[e.id := r]), e.id);
      } else if e.Join? && s.records[e.id].finished {
        SoundOf(s);
        ConcludeTerms(s, e.id);
      }
    }
  }

  /** The steps that touch one record. */
  lemma RecordTerms(s: Scheduler, e: Event)
    requires Terms(s) && (e.ReleaseRecord? || e.Message? || e.WorkerError? || e.Expire? || e.Terminate?)
    ensures Terms(Step(s, e))
  {
    hide Terms, Stop, Take;
    if e.id < |s.records| {
      var r := s.records[e.id];
      match e
      case ReleaseRecord(id) => if id in s.completed { TouchTerms(s, id, r.(listed := false), s.active); }
      case Message(id, preserved, evidence) =>
        TakeSame(r, preserved, evidence);
        TouchTerms(s, id, Take(r, preserved, evidence), s.active);
      case WorkerError(id) =>
        StopSame(r, Crash);
        TouchTerms(s, id, Stop(r, Crash), s.active);
      case Expire(id) =>
        StopSame(r, Deadline);
        TouchTerms(s, id, Stop(r, Deadline), s.active);
      case Terminate(id, ok) => TouchTerms(s, id, r.(stopping := Terminated(ok)), s.active);
    }
  }

  lemma StopSame(r: Record, reason: Reason)
    ensures var after := Stop(r, reason);
      after.done == r.done && after.failed == r.failed && after.fate == r.fate && after.listed == r.listed
  {
  }

  lemma TakeSame(r: Record, preserved: bool, evidence: Option<Evidence>)
    ensures var after := Take(r, preserved, evidence);
      after.done == r.done && after.failed == r.failed && after.fate == r.fate && after.listed == r.listed
  {
  }

  lemma CloseAllTerms(s: Scheduler)
    requires Inv(s) && Terms(s)
    ensures Terms(Step(s, CloseProvider))
  {
    hide Terms, CloseQueue, StopAll;
    ClosedSound(s);
    SameTerms(s, s.(closed := true));
    CloseTerms(s.(closed := true));
    StopAllTerms(CloseQueue(s.(closed := true)));
  }

  lemma ClosedSound(s: Scheduler)
    requires Inv(s)
    ensures Sound(s.(closed := true))
  {
  }

  lemma CancelledTerms(s: Scheduler, id: nat)
    requires Terms(s)
    ensures Terms(Step(s, CancelRecord(id)))
  {
    hide Terms, Stop, Without;
    if id < |s.records| && id !in s.completed {
      CancelTerms(s, id);
      StopSame(s.records[id], Cancel);
      TouchTerms(s, id, Stop(s.records[id], Cancel), s.active);
    }
  }

  lemma StepTerms(s: Scheduler, e: Event)
    requires Inv(s) && Terms(s)
    ensures Terms(Step(s, e))
  {
    hide Inv, Terms, Step;
    match e
    case Submit(selected, fate) => AddTerms(s, selected, fate);
    case CancelRecord(id) => CancelledTerms(s, id);
    case CloseProvider => CloseAllTerms(s);
    case RunTask => if s.tasks != [] { TaskTerms(s); } else { NoTask(s); }
    case Exit(_, _) => ExitTerms(s, e);
    case Join(_) => ExitTerms(s, e);
    case _ => RecordTerms(s, e);
  }

  lemma NoTask(s: Scheduler)
    requires s.tasks == []
    ensures Step(s, RunTask) == s
  {
  }

  lemma {:induction false} RunTerms(s: Scheduler, es: seq<Event>)
    requires Inv(s) && Terms(s)
    ensures Terms(Run(s, es))
    decreases |es|
  {
    hide Inv, Terms, Step;
    if es != [] {
      StepKeeps(s, es[0]);
      StepTerms(s, es[0]);
      RunTerms(Step(s, es[0]), es[1..]);
    }
  }

  /**
    However often a record is cancelled, it is done exactly when the core holds its end, unless its claim
    was rejected or it was released before the last cancellation took effect.
  */
  lemma DoneExactly(es: seq<Event>)
    ensures var s := Run(New(), es);
      forall id :: 0 <= id < |s.records| ==>
        && (s.records[id].done <==> id in s.completed && !s.records[id].failed)
        && (s.records[id].failed ==> s.records[id].fate.ClaimRejected? || !s.records[id].listed)
  {
    RunTerms(New(), es);
    var s := Run(New(), es);
    hide Run;
    forall id | 0 <= id < |s.records|
      ensures s.records[id].done <==> id in s.completed && !s.records[id].failed
      ensures s.records[id].failed ==> s.records[id].fate.ClaimRejected? || !s.records[id].listed
    {
      assert Ended(s, id);
    }
  }
}
