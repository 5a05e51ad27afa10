/** What an archive operation tells, step by step: which event, for which cause, and what the operation then holds. */
module ArchiveOutcomes {
  import opened ArchiveLifecycle

  /** The one step that an encoding ends with is the one it was in. */
  predicate Encodes(o: Operation) { o.encoding == Running && o.state == Building }

  /** What a step tells the receiver. */
  function Tells(o: Operation, step: Step): seq<Event> {
    match step
    case DoBegin(granted, _) =>
      if o.encoding == Waiting && o.state == Scheduled && !granted then [FailedEvent(AllocationFailure)] else []
    case DoFinish(encoded, _) =>
      if !Encodes(o) then [] else if encoded then [ReadyEvent] else [FailedEvent(EncodingFailure)]
    case DoNotice(_) => if o.notice && o.encoding in {Unscheduled, Settled} then [FailedEvent(RetiredFailure)] else []
    case _ => []
  }

  /** The receiver neither retires the operation nor takes its bytes. */
  predicate Keeps(reaction: Reaction) {
    !reaction.throws && forall i :: 0 <= i < |reaction.calls| ==> reaction.calls[i] == CallStart
  }

  predicate Retires(reaction: Reaction) { reaction.throws || CallRetire in reaction.calls }

  // ---- A receiver at work.

  /** A ready archive behind its receiver's calls: its bytes are there unless one of the calls took or retired it. */
  lemma {:induction false} ReadyAnswers(o: Operation, calls: seq<Call>)
    requires Kept(o) && o.state == Ready && o.delivery != Unstarted
    ensures var r := AnswerAll(o, calls);
      && (r.held <==> o.held && forall i :: 0 <= i < |calls| ==> calls[i] == CallStart)
      && r.state == (if CallRetire in calls then Retired else Ready)
      && (r.held ==> r.delivery == o.delivery)
    decreases |calls|
  {
    if calls != [] {
      var next := Answer(o, calls[0]);
      AnswerKeeps(o, calls[0]);
      if calls[0] == CallRetire {
        RetiredAnswers(next, calls[1..]);
      } else {
        ReadyAnswers(next, calls[1..]);
      }
    }
  }

  lemma {:induction false} RetiredAnswers(o: Operation, calls: seq<Call>)
    requires Kept(o) && o.state == Retired && o.delivery != Unstarted
    ensures AnswerAll(o, calls) == o
    decreases |calls|
  {
    if calls != [] {
      assert !o.held && o.delivery != Active;
      RetiredAnswers(o, calls[1..]);
    }
  }

  lemma ReadyNotified(o: Operation, reaction: Reaction)
    requires Kept(o.(events := o.events + [ReadyEvent])) && o.state == Ready && o.held && o.delivery == Active
    ensures var r := Notify(o, ReadyEvent, reaction);
      && (r.held <==> Keeps(reaction)) && (r.held ==> r.delivery == Active)
      && r.state == if Retires(reaction) then Retired else Ready
  {
    hide Kept;
    ReadyAnswers(o.(events := o.events + [ReadyEvent]), reaction.calls);
    AnswersKeep(o.(events := o.events + [ReadyEvent]), reaction.calls);
    RetireLoses(AnswerAll(o.(events := o.events + [ReadyEvent]), reaction.calls));
  }

  lemma RetireLoses(o: Operation)
    requires Kept(o) && o.state in {Ready, Retired}
    ensures Retire(o).state == Retired && !Retire(o).held
  {
  }

  // ---- One step.

  /** Every step tells exactly what is due in it. */
  lemma DoTells(o: Operation, step: Step)
    requires Inv(o)
    ensures Do(o, step).events == o.events + Tells(o, step)
  {
    hide Notify;
    match step
    case DoBegin(granted, reaction) =>
      if o.encoding == Waiting && o.state == Scheduled && !granted {
        NotifyKeeps(FinishDelivery(o.(snapshot := false)).(state := Failed(AllocationFailure)), FailedEvent(AllocationFailure), reaction);
      }
    case DoFinish(encoded, reaction) =>
      if Encodes(o) {
        NotifyKeeps(o.(state := Ready, held := true), ReadyEvent, reaction);
        NotifyKeeps(FinishDelivery(o.(state := Failed(EncodingFailure))), FailedEvent(EncodingFailure), reaction);
      }
    case DoNotice(reaction) => if Tells(o, step) != [] { NoticeTells(o, reaction); }
    case _ =>
  }

  /** A clean encoding is ready and stays so, with its bytes, unless the receiver retires or takes it. */
  lemma CleanEncodingIsReady(o: Operation, reaction: Reaction)
    requires Inv(o) && Encodes(o)
    ensures var r := Finish(o, true, reaction);
      && r.events == o.events + [ReadyEvent]
      && (r.held <==> Keeps(reaction))
      && r.state == (if Retires(reaction) then Retired else Ready)
  {
    hide Notify, Keeps, Retires;
    DoTells(o, DoFinish(true, reaction));
    NotifyKeeps(o.(state := Ready, held := true), ReadyEvent, reaction);
    ReadyNotified(o.(state := Ready, held := true), reaction);
  }

  /** A bad encoding fails, says so, and never holds bytes. */
  lemma BadEncodingFails(o: Operation, reaction: Reaction)
    requires Inv(o) && Encodes(o)
    ensures var r := Finish(o, false, reaction);
      r.events == o.events + [FailedEvent(EncodingFailure)] && r.state == Failed(EncodingFailure) && !r.held && r.delivery == Closed
  {
    hide Notify;
    DoTells(o, DoFinish(false, reaction));
    FinishKeeps(o, false, reaction);
    NotifyKeeps(FinishDelivery(o.(state := Failed(EncodingFailure))), FailedEvent(EncodingFailure), reaction);
  }

  /** An encoding that was retired meanwhile is retired, however it ends, and tells nothing itself. */
  lemma RetiredEncodingEnds(o: Operation, encoded: bool, reaction: Reaction)
    requires Inv(o) && o.state == Retiring
    ensures var r := Finish(o, encoded, reaction); r.state == Retired && !r.held && r.events == o.events && r.notice
  {
  }

  /** The encoding begins, or fails for want of memory, exactly while it is still scheduled. */
  lemma EncodingBegins(o: Operation, granted: bool, reaction: Reaction)
    requires Inv(o) && o.encoding == Waiting
    ensures var r := Begin(o, granted, reaction);
      if o.state == Retired then r.state == Retired && r.encoding == Settled && r.events == o.events && r.writer == NoWriter
      else if granted then Encodes(r) && r.writer == LiveWriter && r.events == o.events
      else r.state == Failed(AllocationFailure) && r.events == [FailedEvent(AllocationFailure)] && !r.snapshot && r.delivery == Closed
  {
    hide Notify;
    DoTells(o, DoBegin(granted, reaction));
    BeginKeeps(o, granted, reaction);
    if o.state == Scheduled && !granted {
      NotifyKeeps(FinishDelivery(o.(snapshot := false)).(state := Failed(AllocationFailure)), FailedEvent(AllocationFailure), reaction);
    }
  }

  /** Retiring a started operation that has not ended queues its notice; any other is left untold. */
  lemma RetireQueues(o: Operation)
    requires Inv(o)
    ensures Retire(o).delivery == if o.delivery == Active then RetirementQueued else o.delivery
    ensures Retire(o).state == match o.state { case Failed(_) => o.state case Retired => Retired case Building => Retiring case Retiring => Retiring case _ => Retired }
  {
  }

  /** The bytes are handed out at most once, and then the delivery is over. */
  lemma DownloadTakes(o: Operation)
    requires Inv(o)
    ensures var r := Download(o);
      !r.held && r.state == o.state && r.events == o.events && r.delivery == if o.held then Closed else o.delivery
  {
  }

  // ---- Whole runs.

  /** Every event of a run was told in one of its steps. */
  lemma {:induction false} ToldInAStep(o: Operation, steps: seq<Step>, event: Event) returns (k: nat)
    requires Inv(o) && event in Run(o, steps).events && event !in o.events
    ensures k < |steps| && event in Tells(Run(o, steps[..k]), steps[k])
    decreases |steps|
  {
    hide Inv, Do, Tells;
    var next := Do(o, steps[0]);
    DoKeeps(o, steps[0]);
    DoTells(o, steps[0]);
    if event in next.events {
      k := 0;
      assert steps[..0] == [];
    } else {
      var i := ToldInAStep(next, steps[1..], event);
      k := i + 1;
      assert steps[..k][0] == steps[0] && steps[..k][1..] == steps[1..][..i];
    }
  }

  /** And what a step told stays told. */
  lemma {:induction false} ToldStays(o: Operation, steps: seq<Step>)
    requires Inv(o)
    ensures o.events <= Run(o, steps).events
    decreases |steps|
  {
    hide Inv, Do, Tells;
    if steps != [] {
      DoKeeps(o, steps[0]);
      DoTells(o, steps[0]);
      ToldStays(Do(o, steps[0]), steps[1..]);
    }
  }

  lemma {:induction false} RunJoins(o: Operation, a: seq<Step>, b: seq<Step>)
    ensures Run(o, a + b) == Run(Run(o, a), b)
    decreases |a|
  {
    hide Do;
    if a == [] {
      assert a + b == b;
    } else {
      RunJoins(Do(o, a[0]), a[1..], b);
      assert (a + b)[1..] == a[1..] + b;
    }
  }

  /** Step `k` of the run is the cause of the event. */
  predicate Caused(steps: seq<Step>, k: nat, event: Event) {
    k < |steps| && event in Tells(Run(NEW, steps[..k]), steps[k])
  }

  lemma RunsThrough(steps: seq<Step>, k: nat)
    requires k < |steps|
    ensures Run(NEW, steps) == Run(Do(Run(NEW, steps[..k]), steps[k]), steps[k + 1..])
  {
    hide Do;
    assert steps == steps[..k] + steps[k..] && steps[k..][1..] == steps[k + 1..];
    RunJoins(NEW, steps[..k], steps[k..]);
  }

  lemma CausedIsTold(steps: seq<Step>, k: nat, event: Event)
    requires Caused(steps, k, event)
    ensures event in Run(NEW, steps).events
  {
    RunKeeps(NEW, steps[..k]);
    hide Inv, Do, Tells, Run;
    var o := Run(NEW, steps[..k]);
    DoKeeps(o, steps[k]);
    DoTells(o, steps[k]);
    ToldStays(Do(o, steps[k]), steps[k + 1..]);
    RunsThrough(steps, k);
    var told := Do(o, steps[k]).events;
    assert event in o.events + Tells(o, steps[k]) && told <= Run(NEW, steps).events;
    assert event in told;
  }

  /** Main result: an event is told in a run exactly when one of its steps is the cause of it. */
  lemma ToldExactly(steps: seq<Step>, event: Event)
    ensures event in Run(NEW, steps).events <==> exists k: nat :: Caused(steps, k, event)
  {
    if event in Run(NEW, steps).events {
      var k := ToldInAStep(NEW, steps, event);
      assert Caused(steps, k, event);
    }
    hide Caused, Run;
    if k: nat :| Caused(steps, k, event) {
      CausedIsTold(steps, k, event);
    }
  }

  /** Step `k` of the run ended, well or badly, the encoding of an operation that nobody had retired. */
  predicate EncodedAt(steps: seq<Step>, k: nat, well: bool) {
    k < |steps| && steps[k].DoFinish? && steps[k].encoded == well && Encodes(Run(NEW, steps[..k]))
  }

  lemma EncodedCauses(steps: seq<Step>, k: nat, well: bool)
    ensures EncodedAt(steps, k, well) <==> Caused(steps, k, if well then ReadyEvent else FailedEvent(EncodingFailure))
  {
    hide Run, Encodes;
  }

  /** Ready is told exactly when an encoding that nobody retired ended well, failed when it ended badly; bytes are held only behind ready. */
  lemma ReadyExactly(steps: seq<Step>)
    ensures ReadyEvent in Run(NEW, steps).events <==> exists k: nat :: EncodedAt(steps, k, true)
    ensures FailedEvent(EncodingFailure) in Run(NEW, steps).events <==> exists k: nat :: EncodedAt(steps, k, false)
    ensures Run(NEW, steps).held ==> ReadyEvent in Run(NEW, steps).events
  {
    RunKeeps(NEW, steps);
    hide Run, EncodedAt, Caused;
    ToldExactly(steps, ReadyEvent);
    ToldExactly(steps, FailedEvent(EncodingFailure));
    forall k: nat
      ensures EncodedAt(steps, k, true) <==> Caused(steps, k, ReadyEvent)
      ensures EncodedAt(steps, k, false) <==> Caused(steps, k, FailedEvent(EncodingFailure))
    {
      EncodedCauses(steps, k, true);
      EncodedCauses(steps, k, false);
    }
  }

  /** Whoever retires an operation that is under way, or ready and not taken, is told so as the last event. */
  lemma RetiringIsTold(before: seq<Step>, between: seq<Step>, granted: bool, encoded: bool, reactions: (Reaction, Reaction, Reaction))
    requires Run(NEW, before).delivery == Active
    ensures var o := Run(Run(NEW, before + [DoRetire]), between);
      var events := Run(o, [DoBegin(granted, reactions.0), DoFinish(encoded, reactions.1), DoNotice(reactions.2)]).events;
      events != [] && events[|events| - 1] == FailedEvent(RetiredFailure)
  {
    RunKeeps(NEW, before);
    RunJoins(NEW, before, [DoRetire]);
    var o := Run(NEW, before);
    assert Run(o, [DoRetire]) == Run(Retire(o), []) == Retire(o);
    RetireQueues(o);
    RetirementIsTold(before + [DoRetire], between, granted, encoded, reactions);
  }
}
