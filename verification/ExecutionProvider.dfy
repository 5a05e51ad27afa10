/** The scheduler as the provider keeps it: closure variables that every command and callback updates. */
module ExecutionProvider {
  import opened Text
  import opened ExecutionScheduler
  import opened WorkerOutcomes

  class Provider {
    var active: int
    var closed: bool
    var queue: seq<nat>
    var records: seq<Record>
    /** The microtasks queued and not yet run. */
    var tasks: seq<Task>
    /** What the core holds as terminal. */
    var completed: map<nat, Outcome>
    ghost var attempts: seq<Attempt>
    ghost var started: seq<nat>

    ghost function View(): Scheduler
      reads this
    {
      Scheduler(active, closed, queue, records, tasks, completed, attempts, started)
    }

    /** Slots, queue, routes and ends stand where every run keeps them. */
    ghost predicate Valid()
      reads this
    {
      Inv(View()) && Terms(View())
    }

    /** What a caller may rely on between any two steps. */
    ghost predicate Orderly()
      reads this
    {
      && 0 <= active <= SLOTS && (!closed && queue != [] && DrainTask !in tasks ==> active == SLOTS)
      && (forall id :: 0 <= id < |records| ==> (records[id].done <==> id in completed && !records[id].failed))
    }

    /** Evidence a worker handed in is still held, or is what the core received. */
    twostate predicate EvidenceKept()
      reads this
    {
      forall id, x | old(Held(View(), id, x)) :: Held(View(), id, x) || Delivered(View(), id, x)
    }

    constructor ()
      ensures Valid() && Orderly() && View() == New()
    {
      active, closed, queue, records, tasks := 0, false, [], [], [];
      completed, attempts, started := map[], [], [];
    }

    /** Whether the core refuses to complete `id` with `outcome`, and then with the fallback. */
    method Refused(id: nat, outcome: Outcome) returns (refused: bool)
      requires id < |records|
      ensures refused == !Accepts(View(), id, outcome)
    {
      hide Admitted;
      refused := id in completed && !(records[id].listed && (completed[id] == Admitted(outcome) || completed[id] == InvalidEvidence));
    }

    method Settle(id: nat, outcome: Outcome, ghost route: Route)
      requires id < |records|
      modifies this
      ensures View() == Complete(old(View()), id, outcome, route)
    {
      hide Admitted, Accepts;
      var record := records[id];
      var refused := Refused(id, outcome);
      var failed := record.failed || refused;
      if id !in completed {
        completed := completed[id := Admitted(outcome)];
      }
      attempts := attempts + [Attempt(id, route)];
      records := records[id := record.(failed := failed, done := !failed, captured := None)];
    }

    method Halt(id: nat, reason: Reason)
      requires id < |records|
      modifies this`records
      ensures records == old(records)[id := Stop(old(records[id]), reason)]
    {
      var record := records[id];
      if record.stopReason.None? {
        record := record.(stopReason := Some(reason));
      }
      if record.stopping.NotStopping? {
        record := record.(stopping := Terminating);
      }
      records := records[id := record];
    }

    method Launch(id: nat)
      requires id < |records|
      modifies this
      ensures View() == Start(old(View()), id)
    {
      hide Complete;
      var record := records[id];
      started := started + [id];
      if record.fate.ClaimRejected? {
        records := records[id := record.(failed := true)];
      } else if record.fate.SpawnThrows? {
        Settle(id, StartFailed, ByStartFailure);
      } else {
        active := active + 1;
        records := records[id := record.(worker := true, spawned := true)];
        if record.fate.PostThrows? {
          Halt(id, Crash);
        }
      }
    }

    method DrainQueue()
      modifies this
      ensures View() == Drain(old(View()))
    {
      hide Start;
      ghost var before := View();
      while !closed && active < SLOTS && queue != []
        invariant Drain(View()) == Drain(before)
        decreases |queue|
      {
        var id := queue[0];
        ghost var was := View();
        queue := queue[1..];
        if id < |records| && !records[id].done {
          StartQueue(View(), id);
          Launch(id);
        }
      }
    }

    method Add(selected: bool, fate: Fate)
      requires Valid()
      modifies this
      ensures Valid() && Orderly() && EvidenceKept() && View() == Step(old(View()), Submit(selected, fate))
      ensures old(closed) ==> unchanged(this)
    {
      hide Inv, Terms, Held, Delivered;
      Stepped(View(), Submit(selected, fate));
      if !closed {
        queue := queue + [|records|];
        records := records + [NewRecord(selected, fate)];
        tasks := tasks + [DrainTask];
      }
    }

    method Remove(id: nat)
      modifies this`queue
      ensures queue == Without(old(queue), id)
    {
      hide Without;
      var k := 0;
      while k < |queue| && queue[k] != id
        invariant k <= |queue| && queue == old(queue)
        invariant id !in queue[..k]
      {
        k := k + 1;
      }
      WithoutPrefix(queue, id, k);
      WithoutHead(queue[k..], id);
      if k < |queue| {
        assert queue[k..][1..] == queue[k + 1..];
        queue := queue[..k] + queue[k + 1..];
      } else {
        assert queue[k..] == [] && queue[..k] == queue;
      }
    }

    method CancelExecution(id: nat)
      requires Valid()
      modifies this
      ensures Valid() && Orderly() && EvidenceKept() && View() == Step(old(View()), CancelRecord(id))
      ensures id in old(completed) ==> unchanged(this)
    {
      hide Inv, Terms, Held, Delivered, Stop, Without;
      Stepped(View(), CancelRecord(id));
      if !closed && id < |records| && records[id].listed && !records[id].done && id !in completed {
        if records[id].worker {
          Halt(id, Cancel);
        } else {
          Remove(id);
          tasks := tasks + [CancelTask(id)];
        }
      }
    }

    method RunMicrotask()
      requires Valid()
      modifies this
      ensures Valid() && Orderly() && EvidenceKept() && View() == Step(old(View()), RunTask)
      ensures forall k <- old(completed) :: k in completed && completed[k] == old(completed)[k]
    {
      hide Inv, Terms, Held, Delivered, Drain, Complete;
      Stepped(View(), RunTask);
      if tasks != [] {
        var task := tasks[0];
        tasks := tasks[1..];
        if task.DrainTask? {
          DrainQueue();
        } else if task.id < |records| {
          Settle(task.id, Cancelled(false), ByQueueCancel);
        }
      }
    }

    method Receive(id: nat, preserved: bool, evidence: Option<Evidence>)
      requires Valid()
      modifies this
      ensures Valid() && Orderly() && EvidenceKept() && View() == Step(old(View()), Message(id, preserved, evidence))
      ensures id < |old(records)| && old(records)[id].captured.Some? ==> records[id].captured == old(records)[id].captured
      ensures unchanged(this`active, this`queue, this`completed)
    {
      hide Inv, Terms, Held, Delivered;
      Stepped(View(), Message(id, preserved, evidence));
      if id < |records| {
        var record := records[id];
        if record.spawned && record.captured.None? && !record.mismatch {
          record := if record.selected && !preserved then record.(mismatch := true) else record.(captured := evidence);
        }
        records := records[id := record];
      }
    }

    method Release(id: nat)
      requires Valid()
      modifies this
      ensures Valid() && Orderly() && EvidenceKept() && View() == Step(old(View()), ReleaseRecord(id))
      ensures id !in old(completed) ==> unchanged(this)
    {
      hide Inv, Terms, Held, Delivered;
      Stepped(View(), ReleaseRecord(id));
      if !closed && id < |records| && id in completed {
        records := records[id := records[id].(listed := false)];
      }
    }

    method OnWorkerError(id: nat)
      requires Valid()
      modifies this
      ensures Valid() && Orderly() && EvidenceKept() && View() == Step(old(View()), WorkerError(id))
      ensures unchanged(this`active, this`queue, this`completed)
    {
      hide Inv, Terms, Held, Delivered, Stop;
      Stepped(View(), WorkerError(id));
      if id < |records| && records[id].worker {
        Halt(id, Crash);
      }
    }

    method OnDeadline(id: nat)
      requires Valid()
      modifies this
      ensures Valid() && Orderly() && EvidenceKept() && View() == Step(old(View()), Expire(id))
      ensures unchanged(this`active, this`queue, this`completed)
    {
      hide Inv, Terms, Held, Delivered, Stop;
      Stepped(View(), Expire(id));
      if id < |records| && records[id].worker && !records[id].finished {
        Halt(id, Deadline);
      }
    }

    method OnTerminated(id: nat, ok: bool)
      requires Valid()
      modifies this
      ensures Valid() && Orderly() && EvidenceKept() && View() == Step(old(View()), Terminate(id, ok))
      ensures unchanged(this`active, this`queue, this`completed)
    {
      hide Inv, Terms, Held, Delivered;
      Stepped(View(), Terminate(id, ok));
      if id < |records| && records[id].stopping.Terminating? {
        records := records[id := records[id].(stopping := Terminated(ok))];
      }
    }

    /** The part of `finish` behind the awaited termination: the core learns what the worker's record accounts for. */
    method Finish(id: nat)
      requires id < |records|
      modifies this
      ensures View() == Conclude(old(View()), id)
      ensures old(id !in completed && records[id].finished) ==>
        id in completed && Explains(Account(old(records)[id]), completed[id])
    {
      ConcludeExplains(View(), id);
      hide Complete, Drain, Verdict;
      var outcome := Verdict(records[id]);
      CompleteQueue(View(), id, outcome, ByExit);
      Settle(id, outcome, ByExit);
      records := records[id := records[id].(worker := false)];
      active := active - 1;
      DrainQueue();
    }

    method Exited(id: nat, code: int)
      requires Valid()
      modifies this
      ensures Valid() && Orderly() && EvidenceKept() && View() == Step(old(View()), Exit(id, code))
      ensures forall k <- old(completed) :: k in completed && completed[k] == old(completed)[k]
    {
      hide Inv, Terms, Held, Delivered, Conclude;
      Stepped(View(), Exit(id, code));
      if id < |records| && records[id].worker && !records[id].finished {
        records := records[id := records[id].(finished := true, exitCode := code)];
        if records[id].stopping.NotStopping? {
          Finish(id);
        }
      }
    }

    method Joined(id: nat)
      requires Valid()
      modifies this
      ensures Valid() && Orderly() && EvidenceKept() && View() == Step(old(View()), Join(id))
      ensures forall k <- old(completed) :: k in completed && completed[k] == old(completed)[k]
    {
      hide Inv, Terms, Held, Delivered, Conclude;
      Stepped(View(), Join(id));
      if id < |records| && records[id].worker && records[id].finished && records[id].stopping.Terminated? {
        Finish(id);
      }
    }

    method CancelQueue()
      modifies this
      ensures View() == CloseQueue(old(View()))
    {
      ghost var before := View();
      while queue != []
        invariant CloseQueue(View()) == CloseQueue(before)
        decreases |queue|
      {
        var id := queue[0];
        queue := queue[1..];
        if id < |records| {
          Settle(id, Cancelled(false), ByClose);
        }
      }
    }

    /** Every running record that is still listed is told to stop. */
    method StopRunning()
      modifies this`records
      ensures records == StopAll(old(records))
    {
      hide Stop, StopAll;
      ghost var before := records;
      for id := 0 to |records|
        invariant |records| == |before|
        invariant forall i :: 0 <= i < id ==> records[i] == Told(before[i])
        invariant forall i :: id <= i < |records| ==> records[i] == before[i]
      {
        if records[id].listed && records[id].worker {
          Halt(id, Close);
        }
      }
    }

    method CloseAll()
      requires Valid()
      modifies this
      ensures Valid() && Orderly() && EvidenceKept() && View() == Step(old(View()), CloseProvider)
      ensures closed && queue == []
    {
      hide Inv, Terms, Held, Delivered, CloseQueue, StopAll;
      Stepped(View(), CloseProvider);
      closed := true;
      CancelQueue();
      StopRunning();
    }
  }

  /** What a valid provider is after a step. */
  lemma Stepped(s: Scheduler, e: Event)
    requires Inv(s) && Terms(s)
    ensures var t := Step(s, e);
      && Inv(t) && Terms(t)
      && 0 <= t.active <= SLOTS && (!t.closed && t.queue != [] && DrainTask !in t.tasks ==> t.active == SLOTS)
      && (forall id :: 0 <= id < |t.records| ==> (t.records[id].done <==> id in t.completed && !t.records[id].failed))
      && (forall k <- s.completed :: k in t.completed && t.completed[k] == s.completed[k])
      && (e.CloseProvider? ==> t.queue == [] && t.closed)
    ensures forall id, x | Held(s, id, x) :: Held(Step(s, e), id, x) || Delivered(Step(s, e), id, x)
  {
    hide Inv, Terms, Step, Held, Delivered;
    StepKeeps(s, e);
    StepTerms(s, e);
    StepFinal(s, e);
    Standing(Step(s, e));
    if e.CloseProvider? {
      Closed(s);
    }
    forall id, x | Held(s, id, x)
      ensures Held(Step(s, e), id, x) || Delivered(Step(s, e), id, x)
    {
      EvidenceStep(s, e, id, x);
    }
  }

  lemma Standing(s: Scheduler)
    requires Inv(s) && Terms(s)
    ensures 0 <= s.active <= SLOTS && (!s.closed && s.queue != [] && DrainTask !in s.tasks ==> s.active == SLOTS)
    ensures forall id :: 0 <= id < |s.records| ==> (s.records[id].done <==> id in s.completed && !s.records[id].failed)
  {
    hide Ordered, Queued, Staffed, Cancelling, Attempted;
    forall id | 0 <= id < |s.records|
      ensures s.records[id].done <==> id in s.completed && !s.records[id].failed
    {
      assert Ended(s, id);
    }
  }

  lemma Closed(s: Scheduler)
    requires Inv(s)
    ensures var t := Step(s, CloseProvider); t.queue == [] && t.closed
  {
    hide CloseQueue;
    CloseKeeps(s.(closed := true));
    CloseStays(s.(closed := true));
  }

  lemma {:induction false} CloseStays(s: Scheduler)
    ensures CloseQueue(s).closed == s.closed
    decreases |s.queue|
  {
    hide Complete;
    if s.queue != [] {
      var id, rest := s.queue[0], s.(queue := s.queue[1..]);
      if id < |s.records| {
        CompleteQueue(rest, id, Cancelled(false), ByClose);
      }
      CloseStays(if id >= |s.records| then rest else Complete(rest, id, Cancelled(false), ByClose));
    }
  }

  lemma ConcludeExplains(s: Scheduler, id: nat)
    requires id < |s.records|
    ensures var t := Conclude(s, id);
      id !in s.completed && s.records[id].finished ==> id in t.completed && Explains(Account(s.records[id]), t.completed[id])
  {
    hide Verdict, Drain, Explains, Account, Admitted, Accepts;
    var c := Complete(s, id, Verdict(s.records[id]), ByExit);
    DrainLeaves(c.(records := c.records[id := c.records[id].(worker := false)], active := c.active - 1), id);
    if s.records[id].finished {
      VerdictExplains(s.records[id]);
    }
  }

  lemma WithoutHead(queue: seq<nat>, id: nat)
    ensures Without([], id) == [] && (queue != [] && queue[0] == id ==> Without(queue, id) == queue[1..])
  {
  }

  /** What stands before the first occurrence stays. */
  lemma {:induction false} WithoutPrefix(queue: seq<nat>, id: nat, k: nat)
    requires k <= |queue| && id !in queue[..k]
    ensures Without(queue, id) == queue[..k] + Without(queue[k..], id)
    decreases k
  {
    if k == 0 {
      assert queue[0..] == queue;
    } else {
      var tail := queue[1..];
      assert queue[0] in queue[..k] && tail[..k - 1] == queue[..k][1..] && tail[k - 1..] == queue[k..];
      WithoutPrefix(tail, id, k - 1);
      assert queue[..k] == [queue[0]] + tail[..k - 1];
    }
  }
}
