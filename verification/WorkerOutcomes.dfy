/** How a worker's record ends, read off the events of the run: what was asked of the worker, what it said, how it exited. */
module WorkerOutcomes {
  import opened Text
  import opened ExecutionScheduler

  /** What the worker said: nothing that counts, evidence, or a result for another plan. */
  datatype Said = Nothing | Kept(evidence: Evidence) | OtherPlan

  /** The first stop asked of a worker, the first thing it said, how its termination ended, and its exit code. */
  datatype Life = Life(asked: Option<Reason>, said: Said, terminated: Option<bool>, code: Option<int>)

  const BLANK: Life := Life(None, Nothing, None, None)

  predicate Working(s: Scheduler, id: nat) { id < |s.records| && s.records[id].worker }

  predicate Spawned(s: Scheduler, id: nat) { id < |s.records| && s.records[id].spawned }

  /** The stop that an event asks of the worker of `id`; a worker whose first message throws is asked at once. */
  function Asks(s: Scheduler, e: Event, id: nat): Option<Reason> {
    if !Working(s, id) then
      if !Spawned(s, id) && Spawned(Step(s, e), id) && Step(s, e).records[id].fate.PostThrows? then Some(Crash) else None
    else match e
      case CancelRecord(other) =>
        if other == id && !s.closed && s.records[id].listed && !s.records[id].done then Some(Cancel) else None
      case CloseProvider => if s.records[id].listed then Some(Close) else None
      case WorkerError(other) => if other == id then Some(Crash) else None
      case Expire(other) => if other == id && !s.records[id].finished then Some(Deadline) else None
      case _ => None
  }

  function Says(s: Scheduler, e: Event, id: nat): Said {
    if Working(s, id) && e.Message? && e.id == id then
      if s.records[id].selected && !e.preserved then OtherPlan
      else if e.evidence.Some? then Kept(e.evidence.value) else Nothing
    else Nothing
  }

  /** How the termination ends that the first stop began. */
  function Terminates(s: Scheduler, e: Event, id: nat): Option<bool> {
    if id < |s.records| && id !in s.completed && e.Terminate? && e.id == id && s.records[id].stopping.Terminating? then Some(e.ok)
    else None
  }

  function Exits(s: Scheduler, e: Event, id: nat): Option<int> {
    if Working(s, id) && e.Exit? && e.id == id && !s.records[id].finished then Some(e.code) else None
  }

  function Seen(s: Scheduler, e: Event, id: nat): Life {
    Life(Asks(s, e, id), Says(s, e, id), Terminates(s, e, id), Exits(s, e, id))
  }

  /** What came first counts. */
  function First(a: Life, b: Life): Life {
    Life(if a.asked.Some? then a.asked else b.asked, if a.said == Nothing then b.said else a.said,
      if a.terminated.Some? then a.terminated else b.terminated, if a.code.Some? then a.code else b.code)
  }

  /** The life of the worker of `id` over the events of a run. */
  function Witnessed(s: Scheduler, es: seq<Event>, id: nat): Life
    decreases |es|
  {
    if es == [] then BLANK else First(Seen(s, es[0], id), Witnessed(Step(s, es[0]), es[1..], id))
  }

  /** The record's own account. */
  function Account(r: Record): Life {
    Life(r.stopReason, if r.captured.Some? then Kept(r.captured.value) else if r.mismatch then OtherPlan else Nothing,
      if r.stopping.Terminated? then Some(r.stopping.ok) else None, if r.finished then Some(r.exitCode) else None)
  }

  function Now(s: Scheduler, id: nat): Life { if id < |s.records| then Account(s.records[id]) else BLANK }

  predicate Unclean(l: Life) { l.terminated == Some(false) }

  /** Nobody asked for the exit, or only because the worker failed. */
  predicate Unasked(l: Life) { l.asked.None? || l.asked == Some(Crash) }

  predicate Abrupt(l: Life) { l.code.Some? && l.code.value != 0 }

  /** What the core holds for a worker with such a life. */
  ghost predicate Explains(l: Life, outcome: Outcome) {
    match l.said
    case Kept(x) =>
      Carries(outcome, x) && (outcome.Recorded? ==> (outcome.cleanup <==> Unclean(l) || (Abrupt(l) && Unasked(l))))
    case OtherPlan => outcome == SelectionFailed(Unclean(l))
    case Nothing =>
      && (outcome == Cancelled(Unclean(l)) <==> l.asked in {Some(Cancel), Some(Close)})
      && (outcome == DeadlineExpired(Unclean(l)) <==> l.asked == Some(Deadline))
      && (outcome == NoResult(Unclean(l)) <==> Unasked(l) && !Abrupt(l))
      && (outcome == Crashed(Unclean(l)) <==> Unasked(l) && Abrupt(l))
      && outcome in {Cancelled(Unclean(l)), DeadlineExpired(Unclean(l)), NoResult(Unclean(l)), Crashed(Unclean(l))}
  }

  // ---- One step.

  /** What a step may make of a record that was not completed before it. */
  ghost predicate Follows(s: Scheduler, t: Scheduler, id: nat, seen: Life) {
    if id !in t.completed then Now(t, id) == First(Now(s, id), seen)
    else Spawned(t, id) ==> Explains(First(Now(s, id), seen), t.completed[id])
  }

  lemma VerdictExplains(r: Record)
    requires r.finished
    ensures Explains(Account(r), Admitted(Verdict(r)))
  {
    match r.stopReason
    case Some(Crash) =>
    case _ =>
  }

  function Start0(s: Scheduler, t: Scheduler, id: nat): Life {
    BLANK.(asked := if !Spawned(s, id) && Spawned(t, id) && t.records[id].fate.PostThrows? then Some(Crash) else None)
  }

  lemma StartFollows(s: Scheduler, first: nat, id: nat)
    requires Sound(s) && Next(s, first) && id < |s.records| && id !in s.completed
    ensures var t := Start(s, first); Follows(s, t, id, Start0(s, t, id)) && (id in t.completed ==> !Spawned(t, id))
    ensures var t := Start(s, first);
      id != first ==> t.records[id] == s.records[id] && id !in t.completed && |t.records| == |s.records|
  {
    NextIs(s, first);
    hide Sound, Next, Explains;
    if id == first { StartsItself(s, first); } else { StartsOther(s, first, id); }
  }

  lemma StartsItself(s: Scheduler, id: nat)
    requires id < |s.records| && !s.records[id].spawned && id !in s.completed
    ensures var t := Start(s, id); Follows(s, t, id, Start0(s, t, id)) && (id in t.completed ==> !Spawned(t, id))
  {
    var r, t := s.records[id], Start(s, id);
    var spawned := r.(worker := true, spawned := true);
    Posts(spawned);
    BlankFirst(Account(r));
    hide Admitted, Accepts, Explains, Stop, Account;
    match r.fate
    case ClaimRejected => assert t.records[id] == r.(failed := true) && Account(t.records[id]) == Account(r) by { SameAccount(r, t.records[id]); }
    case SpawnThrows => assert id in t.completed && !Spawned(t, id);
    case PostThrows => assert t.records[id] == Stop(spawned, Crash) && Account(spawned) == Account(r) by { SameAccount(r, spawned); }
    case Starts => assert t.records[id] == spawned && Account(spawned) == Account(r) by { SameAccount(r, spawned); }
  }

  /** A worker whose first message throws is asked to stop at once. */
  lemma Posts(r: Record)
    ensures Account(Stop(r, Crash)) == First(Account(r), BLANK.(asked := Some(Crash)))
    ensures Stop(r, Crash).spawned == r.spawned && Stop(r, Crash).fate == r.fate
  {
  }

  lemma SameAccount(r: Record, t: Record)
    requires t == r.(failed := t.failed, worker := t.worker, spawned := t.spawned)
    ensures Account(t) == Account(r)
  {
  }

  lemma StartsOther(s: Scheduler, first: nat, id: nat)
    requires first < |s.records| && id < |s.records| && id !in s.completed && id != first
    ensures var t := Start(s, first);
      t.records[id] == s.records[id] && id !in t.completed && |t.records| == |s.records| && Follows(s, t, id, Start0(s, t, id))
  {
    hide Admitted, Accepts, Explains, Account;
    BlankFirst(Account(s.records[id]));
  }

  lemma {:induction false} DrainAdds(s: Scheduler)
    ensures forall id <- Drain(s).completed :: id in s.completed || id in s.queue
    decreases |s.queue|
  {
    hide Admitted, Accepts;
    if !s.closed && s.active < SLOTS && s.queue != [] {
      var first, rest := s.queue[0], s.(queue := s.queue[1..]);
      DrainAdds(if first >= |s.records| || s.records[first].done then rest else Start(rest, first));
    }
  }

  lemma {:induction false} CloseAdds(s: Scheduler)
    ensures forall id <- CloseQueue(s).completed :: id in s.completed || id in s.queue
    decreases |s.queue|
  {
    hide Admitted, Accepts;
    if s.queue != [] {
      var first, rest := s.queue[0], s.(queue := s.queue[1..]);
      CloseAdds(if first >= |s.records| then rest else Complete(rest, first, Cancelled(false), ByClose));
    }
  }

  lemma NextIs(s: Scheduler, id: nat)
    requires Next(s, id)
    ensures id < |s.records| && !s.records[id].done && !s.records[id].spawned && id !in s.queue && id !in s.completed
  {
  }

  lemma {:induction false} DrainFollows(s: Scheduler, id: nat)
    requires Sound(s) && id < |s.records| && id !in s.completed
    ensures var t := Drain(s); Follows(s, t, id, Start0(s, t, id)) && (id in t.completed ==> !Spawned(t, id))
    decreases |s.queue|
  {
    hide Sound, Start, Next, Explains, Account;
    if !s.closed && s.active < SLOTS && s.queue != [] {
      var first, rest := s.queue[0], s.(queue := s.queue[1..]);
      PopNext(s);
      NextIs(rest, first);
      StartKeeps(rest, first);
      StartQueue(rest, first);
      StartFollows(rest, first, id);
      var next := Start(rest, first);
      assert Drain(s) == Drain(next);
      if first == id {
        DrainLeaves(next, id);
        DrainAdds(next);
      } else {
        DrainFollows(next, id);
      }
    }
  }

  /** A completed record is never started again. */
  lemma CompletedRests(s: Scheduler, e: Event, id: nat)
    requires Inv(s) && id in s.completed
    ensures var t := Step(s, e);
      id in t.completed && t.completed[id] == s.completed[id] && (Spawned(t, id) <==> Spawned(s, id)) && Seen(s, e, id) == BLANK
  {
    StepFinal(s, e);
    StepKeeps(s, e);
    RestsUnspawned(s, e, id);
    Rested(s, id);
    Rested(Step(s, e), id);
    hide Inv, Step;
  }

  lemma Rested(s: Scheduler, id: nat)
    requires Inv(s) && id in s.completed
    ensures id < |s.records| && !s.records[id].worker && id !in s.queue
  {
  }

  /** The exit of another worker leaves a record alone that is not queued. */
  lemma ConcludeLeaves(s: Scheduler, done: nat, id: nat)
    requires done < |s.records| && id < |s.records| && id !in s.queue
    ensures var t := Conclude(s, done);
      && (done != id ==> id < |t.records| && t.records[id] == s.records[id] && (id in t.completed <==> id in s.completed))
      && id < |t.records| && id !in t.queue
  {
    hide Drain, Verdict, Accepts, Admitted;
    var c := Complete(s, done, Verdict(s.records[done]), ByExit);
    var freed := c.(records := c.records[done := c.records[done].(worker := false)], active := c.active - 1);
    DrainLeaves(freed, id);
    DrainAdds(freed);
  }

  /** Only its own start touches whether a record was spawned. */
  lemma RestsUnspawned(s: Scheduler, e: Event, id: nat)
    requires Inv(s) && id in s.completed
    ensures Spawned(Step(s, e), id) <==> Spawned(s, id)
  {
    Rested(s, id);
    hide Inv, Step, Spawned;
    match e
    case CloseProvider => ClosingRests(s, id);
    case RunTask => TaskRests(s, id);
    case Exit(_, _) => ExitRests(s, e, id);
    case Join(_) => ExitRests(s, e, id);
    case _ => TouchRests(s, e, id);
  }

  lemma ClosingRests(s: Scheduler, id: nat)
    requires id < |s.records| && id !in s.queue
    ensures Spawned(Step(s, CloseProvider), id) <==> Spawned(s, id)
  {
    hide CloseQueue, StopAll;
    CloseLeaves(s.(closed := true), id);
  }

  lemma TaskRests(s: Scheduler, id: nat)
    requires id < |s.records| && id !in s.queue
    ensures Spawned(Step(s, RunTask), id) <==> Spawned(s, id)
  {
    hide Drain, Accepts, Admitted;
    if s.tasks != [] { DrainLeaves(s.(tasks := s.tasks[1..]), id); }
  }

  lemma ExitRests(s: Scheduler, e: Event, id: nat)
    requires id < |s.records| && id !in s.queue && !s.records[id].worker && (e.Exit? || e.Join?)
    ensures Spawned(Step(s, e), id) <==> Spawned(s, id)
  {
    hide Conclude;
    if e.id < |s.records| && e.id != id {
      if e.Exit? {
        ConcludeLeaves(s.(records := s.records[e.id := s.records[e.id].(finished := true, exitCode := e.code)]), e.id, id);
      } else {
        ConcludeLeaves(s, e.id, id);
      }
    }
  }

  lemma TouchRests(s: Scheduler, e: Event, id: nat)
    requires id < |s.records| && !e.CloseProvider? && !e.RunTask? && !e.Exit? && !e.Join?
    ensures Spawned(Step(s, e), id) <==> Spawned(s, id)
  {
    hide Without;
  }

  // ---- Each event.

  ghost predicate Steps(s: Scheduler, e: Event, id: nat) { Follows(s, Step(s, e), id, Seen(s, e, id)) }

  lemma TaskFollows(s: Scheduler, id: nat)
    requires Inv(s) && id < |s.records| && id !in s.completed && s.tasks != []
    ensures Steps(s, RunTask, id)
  {
    var rest, task := s.(tasks := s.tasks[1..]), s.tasks[0];
    PopTask(s);
    SoundOf(s);
    if task.DrainTask? {
      hide Sound, Inv, Drain, Account, Explains;
      DrainFollows(rest, id);
    } else {
      hide Sound, Inv, Explains, Accepts, Admitted;
    }
  }

  /** The worker of `id` concludes with the verdict, or another one does and the drain behind it may start `id`. */
  lemma ConcludeFollows(s: Scheduler, done: nat, id: nat)
    requires Sound(s) && done < |s.records| && s.records[done].worker && s.records[done].finished
    requires id < |s.records| && id !in s.completed
    ensures var t := Conclude(s, done); Follows(s, t, id, Start0(s, t, id))
    ensures s.records[id].spawned ==> Start0(s, Conclude(s, done), id) == BLANK
  {
    hide Sound, Verdict, Drain, Explains, Account, Admitted, Accepts;
    Unattempted(s, done);
    ExitKeeps(s, done);
    var c := Complete(s, done, Verdict(s.records[done]), ByExit);
    var freed := c.(records := c.records[done := c.records[done].(worker := false)], active := c.active - 1);
    if done == id {
      VerdictExplains(s.records[id]);
      DrainLeaves(freed, id);
      assert freed.completed[id] == Admitted(Verdict(s.records[id]));
      BlankFirst(Account(s.records[id]));
    } else {
      DrainFollows(freed, id);
    }
  }

  lemma BlankFirst(l: Life)
    ensures First(l, BLANK) == l && First(BLANK, l) == l
  {
  }

  /** A record without a worker that is not completed was never spawned. */
  lemma Unborn(s: Scheduler, id: nat)
    requires Inv(s) && id < |s.records| && id !in s.completed
    ensures s.records[id].spawned <==> s.records[id].worker
    ensures s.records[id].worker ==> id !in s.queue
  {
  }

  lemma ExitFollows(s: Scheduler, done: nat, code: int, id: nat)
    requires Inv(s) && id < |s.records| && id !in s.completed
    ensures Steps(s, Exit(done, code), id)
  {
    Unborn(s, id);
    if done < |s.records| && s.records[done].worker && !s.records[done].finished {
      var r := s.records[done].(finished := true, exitCode := code);
      var ended := s.(records := s.records[done := r]);
      WorkerBecomes(s, done, r);
      TouchKeeps(s, done, r);
      SoundOf(ended);
      hide Inv, Sound, Conclude, Explains, Follows;
      if r.stopping.NotStopping? {
        ConcludeFollows(ended, done, id);
        ExitSeen(s, done, code, id);
      } else {
        ExitNoted(s, done, code, id);
      }
    } else {
      hide Inv, Explains, Conclude;
    }
  }

  /** The exit of a worker that nobody stopped concludes at once, and says its code. */
  lemma ExitSeen(s: Scheduler, done: nat, code: int, id: nat)
    requires id < |s.records| && id !in s.completed && (s.records[id].spawned <==> s.records[id].worker)
    requires done < |s.records| && s.records[done].worker && !s.records[done].finished && s.records[done].stopping.NotStopping?
    requires var ended := s.(records := s.records[done := s.records[done].(finished := true, exitCode := code)]);
      Follows(ended, Conclude(ended, done), id, Start0(ended, Conclude(ended, done), id))
      && (ended.records[id].spawned ==> Start0(ended, Conclude(ended, done), id) == BLANK)
    ensures Steps(s, Exit(done, code), id)
  {
    hide Conclude, Explains;
    var ended := s.(records := s.records[done := s.records[done].(finished := true, exitCode := code)]);
    assert Step(s, Exit(done, code)) == Conclude(ended, done);
    assert First(Now(ended, id), Start0(ended, Conclude(ended, done), id)) == First(Now(s, id), Seen(s, Exit(done, code), id));
  }

  /** The exit of a worker whose termination is awaited is noted. */
  lemma ExitNoted(s: Scheduler, done: nat, code: int, id: nat)
    requires id < |s.records| && id !in s.completed && (s.records[id].spawned <==> s.records[id].worker)
    requires done < |s.records| && s.records[done].worker && !s.records[done].finished && !s.records[done].stopping.NotStopping?
    ensures Steps(s, Exit(done, code), id)
  {
    hide Conclude, Explains;
  }

  lemma JoinFollows(s: Scheduler, done: nat, id: nat)
    requires Inv(s) && id < |s.records| && id !in s.completed
    ensures Steps(s, Join(done), id)
  {
    Unborn(s, id);
    SoundOf(s);
    hide Inv, Sound, Conclude, Explains;
    if done < |s.records| && s.records[done].worker && s.records[done].finished && s.records[done].stopping.Terminated? {
      ConcludeFollows(s, done, id);
    }
  }

  lemma CloseFollows(s: Scheduler, id: nat)
    requires Inv(s) && id < |s.records| && id !in s.completed
    ensures Steps(s, CloseProvider, id)
  {
    Unborn(s, id);
    hide Inv, CloseQueue, Explains, StopAll, Told, Account;
    var closing := s.(closed := true);
    CloseAdds(closing);
    CloseLeaves(closing, id);
    QueuedCloses(closing, id);
    ToldStops(s.records[id]);
    if id in s.queue {
      assert !Spawned(Step(s, CloseProvider), id) by { ToldStops(CloseQueue(closing).records[id]); }
    } else {
      assert Step(s, CloseProvider).records[id] == Told(s.records[id]);
    }
  }

  /** A listed worker is asked to stop by the close, any other record is left alone. */
  lemma ToldStops(r: Record)
    ensures Account(Told(r)) == First(Account(r), BLANK.(asked := if r.worker && r.listed then Some(Close) else None))
    ensures Told(r).spawned == r.spawned
  {
  }

  /** A queued record that is closed was never spawned. */
  lemma {:induction false} QueuedCloses(s: Scheduler, id: nat)
    ensures |CloseQueue(s).records| == |s.records|
    ensures id < |s.records| ==> CloseQueue(s).records[id].spawned == s.records[id].spawned
    ensures id in s.queue && id < |s.records| ==> id in CloseQueue(s).completed
    decreases |s.queue|
  {
    hide Admitted, Accepts;
    if s.queue != [] {
      var first, rest := s.queue[0], s.(queue := s.queue[1..]);
      var next := if first >= |s.records| then rest else Complete(rest, first, Cancelled(false), ByClose);
      QueuedCloses(next, id);
      CloseLeaves(next, 0);
    }
  }

  lemma CancelFollows(s: Scheduler, done: nat, id: nat)
    requires Inv(s) && id < |s.records| && id !in s.completed
    ensures Steps(s, CancelRecord(done), id)
  {
    Unborn(s, id);
    hide Inv, Without;
  }

  lemma MessageFollows(s: Scheduler, preserved: bool, evidence: Option<Evidence>, id: nat)
    requires Inv(s) && id < |s.records| && id !in s.completed
    ensures Steps(s, Message(id, preserved, evidence), id)
  {
    Unborn(s, id);
    var e := Message(id, preserved, evidence);
    Listens(s.records[id], preserved, evidence);
    hide Inv, Explains, Drain, CloseQueue, Conclude, StopAll, Accepts, Admitted, Take, Account;
    assert Now(Step(s, e), id) == Account(Take(s.records[id], preserved, evidence));
  }

  /** What a message adds to the account of its record. */
  lemma Listens(r: Record, preserved: bool, evidence: Option<Evidence>)
    ensures var said := if !r.spawned then Nothing else if r.selected && !preserved then OtherPlan
        else if evidence.Some? then Kept(evidence.value) else Nothing;
      Account(Take(r, preserved, evidence)) == First(Account(r), BLANK.(said := said))
    ensures Take(r, preserved, evidence).spawned == r.spawned
  {
  }

  /** A stop that is asked of a worker. */
  lemma StopFollows(s: Scheduler, e: Event, id: nat, reason: Reason)
    requires Inv(s) && id < |s.records| && id !in s.completed
    requires (e == WorkerError(id) && reason == Crash) || (e == Expire(id) && reason == Deadline)
    ensures Steps(s, e, id)
  {
    Unborn(s, id);
    hide Inv, Explains, Drain, CloseQueue, Conclude, StopAll, Accepts, Admitted;
    var t := Step(s, e);
    assert Now(t, id) == Now(s, id) || Now(t, id) == Account(Stop(s.records[id], reason));
  }

  lemma TerminateFollows(s: Scheduler, ok: bool, id: nat)
    requires Inv(s) && id < |s.records| && id !in s.completed
    ensures Steps(s, Terminate(id, ok), id)
  {
    Unborn(s, id);
    hide Inv, Explains, Drain, CloseQueue, Conclude, StopAll, Accepts, Admitted;
    var t := Step(s, Terminate(id, ok));
    assert s.records[id].stopping.Terminating? ==> Now(t, id) == Account(s.records[id].(stopping := Terminated(ok)));
  }

  lemma OtherFollows(s: Scheduler, e: Event, id: nat)
    requires Inv(s) && id < |s.records| && id !in s.completed
    requires e.Submit? || e.ReleaseRecord? || e.Message? || e.WorkerError? || e.Expire? || e.Terminate?
    requires e.Submit? || e.ReleaseRecord? || e.id != id
    ensures Steps(s, e, id)
  {
    Unborn(s, id);
    hide Inv, Explains, Stop, Take;
    var t := Step(s, e);
    assert t.completed == s.completed && |t.records| >= |s.records|;
    assert Seen(s, e, id) == BLANK && Now(t, id) == Now(s, id);
    BlankFirst(Now(s, id));
  }

  lemma StepFollows(s: Scheduler, e: Event, id: nat)
    requires Inv(s) && id < |s.records| && id !in s.completed
    ensures Steps(s, e, id)
  {
    hide Inv, Steps;
    match e
    case CancelRecord(done) => CancelFollows(s, done, id);
    case CloseProvider => CloseFollows(s, id);
    case RunTask => if s.tasks != [] { TaskFollows(s, id); } else { IdleFollows(s, id); }
    case Exit(done, code) => ExitFollows(s, done, code, id);
    case Join(done) => JoinFollows(s, done, id);
    case Submit(_, _) => OtherFollows(s, e, id);
    case ReleaseRecord(_) => OtherFollows(s, e, id);
    case Message(done, preserved, evidence) => if done == id { MessageFollows(s, preserved, evidence, id); } else { OtherFollows(s, e, id); }
    case WorkerError(done) => if done == id { StopFollows(s, e, id, Crash); } else { OtherFollows(s, e, id); }
    case Expire(done) => if done == id { StopFollows(s, e, id, Deadline); } else { OtherFollows(s, e, id); }
    case Terminate(done, ok) => if done == id { TerminateFollows(s, ok, id); } else { OtherFollows(s, e, id); }
  }

  lemma IdleFollows(s: Scheduler, id: nat)
    requires Inv(s) && id < |s.records| && id !in s.completed && s.tasks == []
    ensures Steps(s, RunTask, id)
  {
    Unborn(s, id);
    hide Inv;
  }

  // ---- Whole runs.

  /** A record that is still to come, or has just come. */
  lemma Unknown(s: Scheduler, e: Event, id: nat)
    requires Inv(s) && id >= |s.records|
    ensures var t := Step(s, e);
      id !in s.completed && Seen(s, e, id) == BLANK && id !in t.completed && (id < |t.records| ==> Now(t, id) == BLANK && !t.records[id].spawned)
  {
    StepKeeps(s, e);
    Known(s);
    Known(Step(s, e));
    hide Inv, Step;
    SameCount(s, e);
    if e.Submit? {
      Arrives(s, e, id);
    }
    NothingSeen(s, e, id);
  }

  lemma Known(s: Scheduler)
    requires Inv(s)
    ensures forall id <- s.completed :: id < |s.records|
  {
  }

  lemma Arrives(s: Scheduler, e: Event, id: nat)
    requires e.Submit? && id >= |s.records|
    ensures var t := Step(s, e); t.completed == s.completed && (id < |t.records| ==> Now(t, id) == BLANK && !t.records[id].spawned)
  {
  }

  lemma NothingSeen(s: Scheduler, e: Event, id: nat)
    requires id >= |s.records| && !Spawned(Step(s, e), id)
    ensures Seen(s, e, id) == BLANK
  {
    hide Step;
  }

  lemma {:induction false} DrainCount(s: Scheduler)
    ensures |Drain(s).records| == |s.records|
    decreases |s.queue|
  {
    hide Accepts, Admitted;
    if !s.closed && s.active < SLOTS && s.queue != [] {
      var first, rest := s.queue[0], s.(queue := s.queue[1..]);
      DrainCount(if first >= |s.records| || s.records[first].done then rest else Start(rest, first));
    }
  }

  lemma ConcludeCount(s: Scheduler, done: nat)
    requires done < |s.records|
    ensures |Conclude(s, done).records| == |s.records|
  {
    hide Drain, Verdict, Accepts, Admitted;
    var c := Complete(s, done, Verdict(s.records[done]), ByExit);
    DrainCount(c.(records := c.records[done := c.records[done].(worker := false)], active := c.active - 1));
  }

  /** Only a submission makes a record. */
  lemma SameCount(s: Scheduler, e: Event)
    ensures !e.Submit? ==> |Step(s, e).records| == |s.records|
  {
    hide Drain, CloseQueue, Conclude, Accepts, Admitted, Stop, Take;
    match e
    case CloseProvider => QueuedCloses(s.(closed := true), 0);
    case RunTask => if s.tasks != [] { DrainCount(s.(tasks := s.tasks[1..])); }
    case Exit(done, code) =>
      if done < |s.records| {
        ConcludeCount(s.(records := s.records[done := s.records[done].(finished := true, exitCode := code)]), done);
      }
    case Join(done) => if done < |s.records| { ConcludeCount(s, done); }
    case _ =>
  }

  lemma {:induction false} LifeOfAny(s: Scheduler, es: seq<Event>, id: nat)
    requires Inv(s)
    ensures var t, life := Run(s, es), First(Now(s, id), Witnessed(s, es, id));
      && (id !in s.completed ==> Follows(s, t, id, Witnessed(s, es, id)))
      && (id in s.completed ==> id in t.completed && t.completed[id] == s.completed[id] && (Spawned(t, id) <==> Spawned(s, id)))
      && (id in s.completed ==> Witnessed(s, es, id) == BLANK)
    decreases |es|
  {
    hide Inv, Step, Seen, Explains, Account;
    if es == [] {
      BlankFirst(Now(s, id));
    } else {
      var next := Step(s, es[0]);
      StepKeeps(s, es[0]);
      LifeOfAny(next, es[1..], id);
      if id in s.completed {
        CompletedRests(s, es[0], id);
      } else if id < |s.records| {
        StepFollows(s, es[0], id);
        assert First(First(Now(s, id), Seen(s, es[0], id)), Witnessed(next, es[1..], id)) == First(Now(s, id), Witnessed(s, es, id));
        BlankFirst(First(Now(s, id), Seen(s, es[0], id)));
      } else {
        Unknown(s, es[0], id);
        BlankFirst(Witnessed(next, es[1..], id));
      }
    }
  }

  /**
    Main result: whatever happens in a run, the core holds for a worker that is over what the first thing it said,
    or else the first stop asked of it, or else its exit code says; its cleanup failed exactly if its termination did,
    or if it exited badly, unasked, behind its evidence.
  */
  lemma WorkersEndAsTheyLived(es: seq<Event>, id: nat)
    ensures var s := Run(New(), es);
      Spawned(s, id) && !s.records[id].worker ==> id in s.completed && Explains(Witnessed(New(), es, id), s.completed[id])
  {
    assert Inv(New());
    LifeOfAny(New(), es, id);
    BlankFirst(Witnessed(New(), es, id));
    RunKeeps(New(), es);
    Concluded(Run(New(), es), id);
    hide Run, Inv, Explains;
  }

  lemma Concluded(s: Scheduler, id: nat)
    requires Inv(s)
    ensures Spawned(s, id) && !s.records[id].worker ==> id in s.completed
  {
  }

  // ---- Records that never got a worker.

  /** A record whose spawn threw is completed as that; any other that ends without a worker was cancelled. */
  ghost predicate Fated(s: Scheduler, id: nat) {
    id < |s.records| ==>
      var thrown := id in s.started && s.records[id].fate.SpawnThrows?;
      && (thrown ==> id in s.completed)
      && (id in s.started && s.records[id].fate.ClaimRejected? ==> s.records[id].failed)
      && (id in s.completed && !s.records[id].spawned ==> s.completed[id] == if thrown then StartFailed else Cancelled(false))
  }

  lemma CompleteFated(s: Scheduler, done: nat, route: Route, id: nat)
    requires Fated(s, id) && done < |s.records|
    ensures Fated(Complete(s, done, Cancelled(false), route), id)
  {
    hide Accepts;
  }

  lemma StartFated(s: Scheduler, first: nat, id: nat)
    requires Fated(s, id) && Next(s, first)
    ensures Fated(Start(s, first), id)
  {
    hide Accepts;
    assert first !in s.completed;
    assert id != first ==> (id in s.started + [first] <==> id in s.started);
  }

  lemma {:induction false} DrainFated(s: Scheduler, id: nat)
    requires Sound(s) && Fated(s, id)
    ensures Fated(Drain(s), id)
    decreases |s.queue|
  {
    hide Sound, Start, Next, Fated;
    if !s.closed && s.active < SLOTS && s.queue != [] {
      var first, rest := s.queue[0], s.(queue := s.queue[1..]);
      PopNext(s);
      NextIs(rest, first);
      SameFated(s, rest, id);
      StartKeeps(rest, first);
      StartQueue(rest, first);
      StartFated(rest, first, id);
      assert Drain(s) == Drain(Start(rest, first));
      DrainFated(Start(rest, first), id);
    }
  }

  lemma SameFated(s: Scheduler, t: Scheduler, id: nat)
    requires Fated(s, id) && t.started == s.started && t.completed == s.completed && |t.records| == |s.records|
    requires id < |s.records| ==>
      && t.records[id].fate == s.records[id].fate && (s.records[id].spawned ==> t.records[id].spawned)
      && (s.records[id].failed ==> t.records[id].failed)
    ensures Fated(t, id)
  {
  }

  lemma {:induction false} CloseFated(s: Scheduler, id: nat)
    requires Fated(s, id)
    ensures Fated(CloseQueue(s), id)
    decreases |s.queue|
  {
    hide Complete, Fated;
    if s.queue != [] {
      var first, rest := s.queue[0], s.(queue := s.queue[1..]);
      SameFated(s, rest, id);
      if first < |s.records| {
        CompleteQueue(rest, first, Cancelled(false), ByClose);
        CompleteFated(rest, first, ByClose, id);
      }
      CloseFated(if first >= |s.records| then rest else Complete(rest, first, Cancelled(false), ByClose), id);
    }
  }

  lemma ConcludeFated(s: Scheduler, done: nat, id: nat)
    requires Sound(s) && Fated(s, id) && done < |s.records| && s.records[done].worker && s.records[done].finished
    ensures Fated(Conclude(s, done), id)
  {
    hide Sound, Verdict, Drain, Fated;
    Unattempted(s, done);
    ExitKeeps(s, done);
    var c := Complete(s, done, Verdict(s.records[done]), ByExit);
    var freed := c.(records := c.records[done := c.records[done].(worker := false)], active := c.active - 1);
    FreedFated(s, done, id);
    DrainFated(freed, id);
  }

  lemma FreedFated(s: Scheduler, done: nat, id: nat)
    requires Fated(s, id) && done < |s.records| && s.records[done].spawned
    ensures var c := Complete(s, done, Verdict(s.records[done]), ByExit);
      Fated(c.(records := c.records[done := c.records[done].(worker := false)], active := c.active - 1), id)
  {
    hide Verdict, Accepts, Admitted;
  }

  lemma StepFated(s: Scheduler, e: Event, id: nat)
    requires Inv(s) && Fated(s, id)
    ensures Fated(Step(s, e), id)
  {
    SoundOf(s);
    hide Inv, Sound, Drain, CloseQueue, Conclude, Complete, Fated, Stop, Take;
    match e
    case CloseProvider =>
      var closing := s.(closed := true);
      SameFated(s, closing, id);
      CloseFated(closing, id);
      var closed := CloseQueue(closing);
      ToldFated(closed, id);
    case RunTask =>
      if s.tasks != [] {
        var rest, task := s.(tasks := s.tasks[1..]), s.tasks[0];
        PopTask(s);
        SameFated(s, rest, id);
        if task.DrainTask? { DrainFated(rest, id); } else if task.id < |s.records| { CompleteFated(rest, task.id, ByQueueCancel, id); }
      }
    case Exit(done, code) =>
      if done < |s.records| && s.records[done].worker && !s.records[done].finished {
        var ended := s.(records := s.records[done := s.records[done].(finished := true, exitCode := code)]);
        WorkerBecomes(s, done, ended.records[done]);
        TouchKeeps(s, done, ended.records[done]);
        SoundOf(ended);
        SameFated(s, ended, id);
        ConcludeFated(ended, done, id);
      }
    case Join(done) => if done < |s.records| && s.records[done].worker && s.records[done].finished { ConcludeFated(s, done, id); }
    case Submit(_, _) => NewFated(s, e, id);
    case _ => TouchedFated(s, e, id);
  }

  lemma ToldFated(s: Scheduler, id: nat)
    requires Fated(s, id)
    ensures Fated(s.(records := StopAll(s.records)), id)
  {
    hide StopAll;
    var t := s.(records := StopAll(s.records));
    assert id < |s.records| ==> t.records[id] == Told(s.records[id]);
    hide Fated;
    SameFated(s, t, id);
  }

  lemma NewFated(s: Scheduler, e: Event, id: nat)
    requires Inv(s) && Fated(s, id) && e.Submit?
    ensures Fated(Step(s, e), id)
  {
    Known(s);
    StartedKnown(s);
    hide Inv;
  }

  lemma StartedKnown(s: Scheduler)
    requires Inv(s)
    ensures |s.records| !in s.started
  {
  }

  lemma TouchedFated(s: Scheduler, e: Event, id: nat)
    requires Fated(s, id)
    requires e.CancelRecord? || e.ReleaseRecord? || e.Message? || e.WorkerError? || e.Expire? || e.Terminate?
    ensures Fated(Step(s, e), id)
  {
    hide Fated, Drain, CloseQueue, Conclude, Complete, Without;
    SameFated(s, Step(s, e), id);
  }

  lemma {:induction false} RunFated(s: Scheduler, es: seq<Event>, id: nat)
    requires Inv(s) && Fated(s, id)
    ensures Fated(Run(s, es), id)
    decreases |es|
  {
    hide Inv, Step, Fated;
    if es != [] {
      StepKeeps(s, es[0]);
      StepFated(s, es[0], id);
      RunFated(Step(s, es[0]), es[1..], id);
    }
  }

  /** A started record whose claim the core rejected has failed. */
  lemma RejectedClaimsFail(es: seq<Event>, id: nat)
    ensures var s := Run(New(), es);
      id < |s.records| && id in s.started && s.records[id].fate.ClaimRejected? ==> s.records[id].failed && !s.records[id].done
  {
    assert Inv(New());
    RunFated(New(), es, id);
    DoneExactly(es);
    hide Run;
  }

  /** A record that ended without a worker failed to start if it was started, and else was cancelled, by its caller or by the close. */
  lemma OthersAreCancelled(es: seq<Event>, id: nat)
    ensures var s := Run(New(), es);
      id < |s.records| && id in s.completed && !s.records[id].spawned ==>
        s.completed[id] == if id in s.started && s.records[id].fate.SpawnThrows? then StartFailed else Cancelled(false)
  {
    assert Inv(New());
    RunFated(New(), es, id);
    hide Run;
  }
}
