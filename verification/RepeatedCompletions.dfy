/** How often a record is completed: twice exactly when it is cancelled again while a cancellation waits. */
module RepeatedCompletions {
  import opened Text
  import opened ExecutionScheduler

  /** The attempts to complete one record. */
  function Tries(attempts: seq<Attempt>, id: nat): nat {
    if attempts == [] then 0
    else Tries(attempts[..|attempts| - 1], id) + if attempts[|attempts| - 1].id == id then 1 else 0
  }

  /** The cancellations of one record that wait for their microtask. */
  function Pends(tasks: seq<Task>, id: nat): nat {
    if tasks == [] then 0 else (if tasks[0] == CancelTask(id) then 1 else 0) + Pends(tasks[1..], id)
  }

  function Due(s: Scheduler, id: nat): nat { Tries(s.attempts, id) + Pends(s.tasks, id) }

  /** A cancellation that is accepted although an earlier one of the same record still waits. */
  predicate Repeats(s: Scheduler, e: Event, id: nat) {
    && e == CancelRecord(id) && CancelTask(id) in s.tasks
    && !s.closed && id < |s.records| && s.records[id].listed && !s.records[id].done && id !in s.completed
  }

  predicate Repeated(s: Scheduler, es: seq<Event>, id: nat)
    decreases |es|
  {
    es != [] && (Repeats(s, es[0], id) || Repeated(Step(s, es[0]), es[1..], id))
  }

  /** At most the first attempt is new. */
  ghost predicate Once(s: Scheduler, t: Scheduler, id: nat) {
    Due(t, id) == Due(s, id) || (Due(s, id) == 0 && Due(t, id) == 1)
  }

  lemma {:induction false} PendsAppend(tasks: seq<Task>, task: Task, id: nat)
    ensures Pends(tasks + [task], id) == Pends(tasks, id) + if task == CancelTask(id) then 1 else 0
  {
    if tasks == [] {
      assert tasks + [task] == [task];
    } else {
      PendsAppend(tasks[1..], task, id);
      assert (tasks + [task])[1..] == tasks[1..] + [task];
    }
  }

  lemma {:induction false} NoPends(tasks: seq<Task>, id: nat)
    ensures Pends(tasks, id) == 0 <==> CancelTask(id) !in tasks
  {
    if tasks != [] { NoPends(tasks[1..], id); }
  }

  lemma {:induction false} NoTries(attempts: seq<Attempt>, id: nat)
    requires forall a :: 0 <= a < |attempts| ==> attempts[a].id != id
    ensures Tries(attempts, id) == 0
  {
    if attempts != [] { NoTries(attempts[..|attempts| - 1], id); }
  }

  lemma Fresh(s: Scheduler, id: nat)
    requires Sound(s) && id !in s.completed && CancelTask(id) !in s.tasks
    ensures Due(s, id) == 0
  {
    assert forall a :: 0 <= a < |s.attempts| ==> s.attempts[a].id != id;
    hide Sound;
    NoTries(s.attempts, id);
    NoPends(s.tasks, id);
  }

  lemma CompleteDue(s: Scheduler, id: nat, outcome: Outcome, route: Route, x: nat)
    requires id < |s.records|
    ensures Due(Complete(s, id, outcome, route), x) == Due(s, x) + if x == id then 1 else 0
  {
    hide Accepts;
    assert (s.attempts + [Attempt(id, route)])[..|s.attempts|] == s.attempts;
  }

  lemma StartDue(s: Scheduler, id: nat, x: nat)
    requires Sound(s) && Next(s, id)
    ensures Once(s, Start(s, id), x)
  {
    assert id < |s.records| && id !in s.completed && CancelTask(id) !in s.tasks;
    hide Sound, Next, Complete;
    Fresh(s, id);
    CompleteDue(s.(started := s.started + [id]), id, StartFailed, ByStartFailure, x);
  }

  lemma {:induction false} DrainDue(s: Scheduler, x: nat)
    requires Sound(s)
    ensures Once(s, Drain(s), x)
    decreases |s.queue|
  {
    hide Sound, Start, Next, Due;
    if !s.closed && s.active < SLOTS && s.queue != [] {
      var id, rest := s.queue[0], s.(queue := s.queue[1..]);
      PopNext(s);
      SameDue(s, rest, x);
      StartKeeps(rest, id);
      StartDue(rest, id, x);
      StartQueue(rest, id);
      DrainDue(if id >= |s.records| || s.records[id].done then rest else Start(rest, id), x);
    }
  }

  lemma SameDue(s: Scheduler, t: Scheduler, x: nat)
    requires t.attempts == s.attempts && t.tasks == s.tasks
    ensures Due(t, x) == Due(s, x)
  {
  }

  lemma {:induction false} CloseDue(s: Scheduler, x: nat)
    requires Sound(s) && s.closed
    ensures Once(s, CloseQueue(s), x)
    decreases |s.queue|
  {
    if s.queue != [] {
      var id, rest := s.queue[0], s.(queue := s.queue[1..]);
      PopNext(s);
      assert forall a :: 0 <= a < |s.attempts| ==> s.attempts[a].id != id;
      SameDue(s, rest, x);
      Fresh(rest, id);
      hide Sound, Due;
      CompleteKeeps(rest, id, Cancelled(false), ByClose);
      CompleteDue(rest, id, Cancelled(false), ByClose, x);
      CloseDue(Complete(rest, id, Cancelled(false), ByClose), x);
    }
  }

  lemma ConcludeDue(s: Scheduler, id: nat, x: nat)
    requires Sound(s) && id < |s.records| && s.records[id].worker && s.records[id].finished
    ensures Once(s, Conclude(s, id), x)
  {
    hide Sound, Verdict, Complete, Drain, Due;
    Unattempted(s, id);
    Fresh(s, id);
    ExitKeeps(s, id);
    var c := Complete(s, id, Verdict(s.records[id]), ByExit);
    CompleteDue(s, id, Verdict(s.records[id]), ByExit, x);
    CompleteQueue(s, id, Verdict(s.records[id]), ByExit);
    var freed := c.(records := c.records[id := c.records[id].(worker := false)], active := c.active - 1);
    SameDue(c, freed, x);
    DrainDue(freed, x);
  }

  lemma ExitDue(s: Scheduler, e: Event, x: nat)
    requires Inv(s) && (e.Exit? || e.Join?)
    ensures Once(s, Step(s, e), x)
  {
    hide Inv, Conclude, Due;
    if e.id < |s.records| && s.records[e.id].worker {
      if e.Exit? && !s.records[e.id].finished {
        var r := s.records[e.id].(finished := true, exitCode := e.code);
        var marked := s.(records := s.records[e.id := r]);
        WorkerBecomes(s, e.id, r);
        TouchKeeps(s, e.id, r);
        SameDue(s, marked, x);
        SoundOf(marked);
        ConcludeDue(marked, e.id, x);
      } else if e.Join? && s.records[e.id].finished {
        SoundOf(s);
        ConcludeDue(s, e.id, x);
      }
    }
  }

  lemma TaskGone(s: Scheduler, x: nat)
    requires s.tasks != []
    ensures Due(s, x) == Due(s.(tasks := s.tasks[1..]), x) + if s.tasks[0] == CancelTask(x) then 1 else 0
  {
  }

  /** A task that runs turns a waiting cancellation into an attempt. */
  lemma TaskDue(s: Scheduler, x: nat)
    requires Inv(s) && s.tasks != []
    ensures Once(s, Step(s, RunTask), x)
  {
    SoundOf(s);
    hide Inv, Sound, Drain, Complete, Due, CancelReady;
    var rest, task := s.(tasks := s.tasks[1..]), s.tasks[0];
    PopTask(s);
    TaskGone(s, x);
    if task.DrainTask? {
      DrainDue(rest, x);
    } else {
      TaskKnown(s);
      CompleteDue(rest, task.id, Cancelled(false), ByQueueCancel, x);
    }
  }

  lemma TaskKnown(s: Scheduler)
    requires Inv(s) && s.tasks != [] && s.tasks[0].CancelTask?
    ensures s.tasks[0].id < |s.records|
  {
  }

  lemma CloseAllDue(s: Scheduler, x: nat)
    requires Inv(s)
    ensures Once(s, Step(s, CloseProvider), x)
  {
    hide CloseQueue, StopAll, Due;
    ClosedSound(s);
    var closed := s.(closed := true);
    SameDue(s, closed, x);
    CloseDue(closed, x);
    var ended := CloseQueue(closed);
    SameDue(ended, ended.(records := StopAll(ended.records)), x);
  }

  lemma CancelDue(s: Scheduler, id: nat, x: nat)
    requires Inv(s)
    ensures var t := Step(s, CancelRecord(id));
      if Repeats(s, CancelRecord(id), x) then Due(t, x) == Due(s, x) + 1 && Due(s, x) > 0 else Once(s, t, x)
  {
    SoundOf(s);
    hide Inv, Sound, Stop, Without;
    NoPends(s.tasks, id);
    PendsAppend(s.tasks, CancelTask(id), x);
    if id < |s.records| && !s.records[id].worker && id !in s.completed && CancelTask(id) !in s.tasks { Fresh(s, id); }
  }

  lemma StepDue(s: Scheduler, e: Event, x: nat)
    requires Inv(s)
    ensures if Repeats(s, e, x) then Due(Step(s, e), x) == Due(s, x) + 1 && Due(s, x) > 0 else Once(s, Step(s, e), x)
  {
    hide Inv, Due;
    match e
    case Submit(selected, fate) => SubmitDue(s, selected, fate, x);
    case CancelRecord(id) => CancelDue(s, id, x);
    case CloseProvider => hide Step; CloseAllDue(s, x);
    case RunTask => hide Step; if s.tasks != [] { TaskDue(s, x); } else { NoTask(s); }
    case Exit(_, _) => hide Step; ExitDue(s, e, x);
    case Join(_) => hide Step; ExitDue(s, e, x);
    case _ => SameDue(s, Step(s, e), x);
  }

  lemma SubmitDue(s: Scheduler, selected: bool, fate: Fate, x: nat)
    ensures Due(Step(s, Submit(selected, fate)), x) == Due(s, x)
  {
    PendsAppend(s.tasks, DrainTask, x);
  }

  lemma {:induction false} RunDue(s: Scheduler, es: seq<Event>, id: nat)
    requires Inv(s)
    ensures Due(Run(s, es), id) > 1 <==> Due(s, id) > 1 || Repeated(s, es, id)
    decreases |es|
  {
    hide Inv, Due, Step, Repeats;
    if es != [] {
      StepKeeps(s, es[0]);
      StepDue(s, es[0], id);
      RunDue(Step(s, es[0]), es[1..], id);
    }
  }

  /**
    When every microtask has run, a record was completed more than once exactly if a cancellation of it
    was accepted while an earlier one still waited.
  */
  lemma CompletedTwice(es: seq<Event>, id: nat)
    ensures var s := Run(New(), es);
      s.tasks == [] ==> (Tries(s.attempts, id) > 1 <==> Repeated(New(), es, id))
  {
    assert Inv(New());
    hide Run, Step, Inv;
    RunDue(New(), es, id);
  }
}
