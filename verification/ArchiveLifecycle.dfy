/** The life of one archive operation as a value, stepped by its callers and its encoding. */
module ArchiveLifecycle {
  datatype FailureKind = RetiredFailure | AllocationFailure | EncodingFailure

  datatype State = Prepared | Scheduled | Building | Retiring | Ready | Retired | Failed(first: FailureKind)

  datatype Delivery = Unstarted | Active | RetirementQueued | Closed

  datatype Event = ReadyEvent | FailedEvent(failure: FailureKind)

  datatype Writer = NoWriter | LiveWriter | DisposedWriter

  /** The encoding promise: not created, waiting for its microtask, inside library calls, settled. */
  datatype Encoding = Unscheduled | Waiting | Running | Settled

  /** What a delivered event's receiver may do before it returns or throws. */
  datatype Call = CallRetire | CallDownload | CallStart

  datatype Reaction = Reaction(calls: seq<Call>, throws: bool)

  /** `held` says that the ready archive still owns its bytes; `events` is everything delivered. */
  datatype Operation = Operation(
    state: State, delivery: Delivery, encoding: Encoding, snapshot: bool, writer: Writer,
    held: bool, notice: bool, events: seq<Event>)

  const NEW: Operation := Operation(Prepared, Unstarted, Unscheduled, true, NoWriter, false, false, [])

  /** The retirement notice is chained behind the encoding. */
  function QueueRetirement(o: Operation): Operation {
    if o.delivery != Active then o else o.(delivery := RetirementQueued, notice := true)
  }

  function FinishDelivery(o: Operation): Operation {
    if o.delivery == Active then o.(delivery := Closed) else o
  }

  function DisposeArchive(o: Operation): Operation {
    if o.held then FinishDelivery(o.(held := false)) else o
  }

  function Retire(o: Operation): Operation {
    var queued := if o.state.Failed? then o else QueueRetirement(o);
    match o.state
    case Prepared | Scheduled => queued.(snapshot := false, state := Retired)
    case Ready => DisposeArchive(queued).(state := Retired)
    case Building => queued.(state := Retiring)
    case _ => queued
  }

  function Start(o: Operation): Operation {
    if o.delivery != Unstarted then o
    else if o.state == Retired then QueueRetirement(o.(delivery := Active))
    else if o.state != Prepared then o
    else o.(delivery := Active, state := Scheduled, encoding := Waiting)
  }

  function Download(o: Operation): Operation {
    if o.held then FinishDelivery(o.(held := false)) else o
  }

  function Answer(o: Operation, call: Call): Operation {
    match call
    case CallRetire => Retire(o)
    case CallDownload => Download(o)
    case CallStart => Start(o)
  }

  function AnswerAll(o: Operation, calls: seq<Call>): Operation
    decreases |calls|
  {
    if calls == [] then o else AnswerAll(Answer(o, calls[0]), calls[1..])
  }

  /** Delivering an event runs the receiver; an exception it throws retires the operation. */
  function Notify(o: Operation, event: Event, reaction: Reaction): Operation {
    var answered := AnswerAll(o.(events := o.events + [event]), reaction.calls);
    if reaction.throws then Retire(answered) else answered
  }

  /** The encoding's microtask: allocation may fail, otherwise the library calls begin. */
  function Begin(o: Operation, granted: bool, reaction: Reaction): Operation {
    if o.encoding != Waiting then o
    else if o.state != Scheduled then o.(encoding := Settled)
    else if granted then o.(state := Building, writer := LiveWriter, encoding := Running)
    else
      var failed := FinishDelivery(o.(snapshot := false)).(state := Failed(AllocationFailure));
      Notify(failed, FailedEvent(AllocationFailure), reaction).(encoding := Settled)
  }

  /** The library calls settle, well or badly; the snapshot is cleared and the writer disposed in any case. */
  function Finish(o: Operation, encoded: bool, reaction: Reaction): Operation {
    if o.encoding != Running then o
    else
      var settled :=
        if encoded && o.state == Building then
          Notify(o.(state := Ready, held := true), ReadyEvent, reaction)
        else if o.state == Retiring then o.(state := Retired)
        else
          Notify(FinishDelivery(o.(state := Failed(EncodingFailure))), FailedEvent(EncodingFailure), reaction);
      settled.(snapshot := false, writer := DisposedWriter, encoding := Settled)
  }

  /** The queued notice, which runs only behind a settled encoding. */
  function Notice(o: Operation, reaction: Reaction): Operation {
    if !o.notice || o.encoding == Waiting || o.encoding == Running then o
    else Notify(o.(notice := false, delivery := Closed), FailedEvent(RetiredFailure), reaction)
  }

  datatype Step =
    | DoStart | DoRetire | DoDownload
    | DoBegin(granted: bool, reaction: Reaction)
    | DoFinish(encoded: bool, reaction: Reaction)
    | DoNotice(reaction: Reaction)

  function Do(o: Operation, step: Step): Operation {
    match step
    case DoStart => Start(o)
    case DoRetire => Retire(o)
    case DoDownload => Download(o)
    case DoBegin(granted, reaction) => Begin(o, granted, reaction)
    case DoFinish(encoded, reaction) => Finish(o, encoded, reaction)
    case DoNotice(reaction) => Notice(o, reaction)
  }

  function Run(o: Operation, steps: seq<Step>): Operation
    decreases |steps|
  {
    if steps == [] then o else Run(Do(o, steps[0]), steps[1..])
  }

  // ---- What every step keeps.

  /** At most one ready, then at most one failed, and nothing after a failed one. */
  ghost predicate Told(o: Operation) {
    || o.events == []
    || o.events == [ReadyEvent]
    || (|o.events| == 1 && o.events[0].FailedEvent? && o.delivery == Closed)
    || (|o.events| == 2 && o.events[0] == ReadyEvent && o.events[1].FailedEvent? && o.delivery == Closed)
  }

  /** Holds at every moment, also while a receiver runs inside the encoding. */
  ghost predicate Kept(o: Operation) {
    && Told(o)
    && (o.notice <==> o.delivery == RetirementQueued)
    && (o.held ==> o.state == Ready)
    && (o.events != [] ==> o.state in {Ready, Retired} || o.state.Failed?)
    && (o.delivery == Unstarted ==> o.state in {Prepared, Retired} && o.encoding == Unscheduled && o.events == [])
    && (o.delivery == Active ==> o.state in {Scheduled, Building} || (o.state == Ready && o.held))
    && match o.state
      case Prepared => o.delivery == Unstarted
      case Scheduled | Building => o.delivery == Active && o.events == []
      case Retiring => o.delivery == RetirementQueued && o.events == []
      case Ready => o.events == [ReadyEvent] && o.delivery != RetirementQueued
      case Retired => true
      case Failed(_) => o.delivery == Closed && o.events != [] && o.events[|o.events| - 1].FailedEvent?
  }

  /** Between steps: who owns the snapshot and the writer. */
  ghost predicate Clean(o: Operation) {
    match o.encoding
    case Unscheduled => o.writer == NoWriter && o.state in {Prepared, Retired} && (o.snapshot <==> o.state == Prepared) && ReadyEvent !in o.events
    case Waiting => o.writer == NoWriter && o.state in {Scheduled, Retired} && (o.snapshot <==> o.state == Scheduled) && o.events == []
    case Running => o.writer == LiveWriter && o.snapshot && o.state in {Building, Retiring}
    case Settled => o.writer != LiveWriter && !o.snapshot && (o.state in {Ready, Retired} || o.state.Failed?)
  }

  ghost predicate Inv(o: Operation) { Kept(o) && Clean(o) }

  /** What a running receiver leaves as it is. */
  ghost predicate Undisturbed(o: Operation, r: Operation) {
    && r.delivery != Unstarted && r.events == o.events && r.encoding == o.encoding && r.writer == o.writer
    && (r.snapshot ==> o.snapshot)
    && (o.state in {Ready, Retired} ==> r.state in {Ready, Retired})
    && (o.state.Failed? ==> r.state == o.state)
  }

  /** While a receiver runs it can retire and download, and neither delivers anything. */
  lemma AnswerKeeps(o: Operation, call: Call)
    requires Kept(o) && o.delivery != Unstarted
    ensures Kept(Answer(o, call)) && Undisturbed(o, Answer(o, call))
  {
  }

  lemma {:induction false} AnswersKeep(o: Operation, calls: seq<Call>)
    requires Kept(o) && o.delivery != Unstarted
    ensures Kept(AnswerAll(o, calls)) && Undisturbed(o, AnswerAll(o, calls))
    decreases |calls|
  {
    hide Kept, Answer;
    if calls != [] {
      AnswerKeeps(o, calls[0]);
      AnswersKeep(Answer(o, calls[0]), calls[1..]);
    }
  }

  lemma NotifyKeeps(o: Operation, event: Event, reaction: Reaction)
    requires Kept(o.(events := o.events + [event])) && o.delivery != Unstarted
    ensures Kept(Notify(o, event, reaction)) && Undisturbed(o.(events := o.events + [event]), Notify(o, event, reaction))
  {
    hide Kept, Retire;
    var told := o.(events := o.events + [event]);
    AnswersKeep(told, reaction.calls);
    AnswerKeeps(AnswerAll(told, reaction.calls), CallRetire);
  }

  lemma BeginKeeps(o: Operation, granted: bool, reaction: Reaction)
    requires Inv(o)
    ensures Inv(Begin(o, granted, reaction))
  {
    hide Notify;
    if o.encoding == Waiting && o.state == Scheduled && !granted {
      var failed := FinishDelivery(o.(snapshot := false)).(state := Failed(AllocationFailure));
      NotifyKeeps(failed, FailedEvent(AllocationFailure), reaction);
    }
  }

  lemma FinishKeeps(o: Operation, encoded: bool, reaction: Reaction)
    requires Inv(o)
    ensures Inv(Finish(o, encoded, reaction))
  {
    hide Notify;
    if o.encoding == Running && o.state == Building {
      NotifyKeeps(o.(state := Ready, held := true), ReadyEvent, reaction);
      NotifyKeeps(FinishDelivery(o.(state := Failed(EncodingFailure))), FailedEvent(EncodingFailure), reaction);
    }
  }

  lemma NoticeKeeps(o: Operation, reaction: Reaction)
    requires Inv(o)
    ensures Inv(Notice(o, reaction))
    ensures Notice(o, reaction).events != o.events ==> o.encoding in {Unscheduled, Settled}
  {
    hide Notify;
    if o.notice && o.encoding in {Unscheduled, Settled} {
      var closed := o.(notice := false, delivery := Closed);
      NotifyKeeps(closed, FailedEvent(RetiredFailure), reaction);
      assert Notify(closed, FailedEvent(RetiredFailure), reaction).events[|o.events|] == FailedEvent(RetiredFailure);
    }
  }

  lemma DoKeeps(o: Operation, step: Step)
    requires Inv(o)
    ensures Inv(Do(o, step))
  {
    match step
    case DoBegin(granted, reaction) => BeginKeeps(o, granted, reaction);
    case DoFinish(encoded, reaction) => FinishKeeps(o, encoded, reaction);
    case DoNotice(reaction) => NoticeKeeps(o, reaction);
    case _ =>
  }

  lemma {:induction false} RunKeeps(o: Operation, steps: seq<Step>)
    requires Inv(o)
    ensures Inv(Run(o, steps))
    decreases |steps|
  {
    hide Inv, Do;
    if steps != [] {
      DoKeeps(o, steps[0]);
      RunKeeps(Do(o, steps[0]), steps[1..]);
    }
  }

  // ---- Results over every run.

  /** At most one ready and one failed event, and a failed one is the last. */
  lemma DeliversOnce(steps: seq<Step>)
    ensures var events := Run(NEW, steps).events;
      && |events| <= 2 && (|events| == 2 ==> events[0] == ReadyEvent)
      && forall i, j :: 0 <= i < j < |events| ==> events[i] == ReadyEvent && events[j].FailedEvent?
  {
    hide Run;
    RunKeeps(NEW, steps);
  }

  /** Once the encoding settled nothing it owned is left, and no operation ends before that. */
  lemma EndsClean(steps: seq<Step>)
    ensures var o := Run(NEW, steps);
      && (o.encoding == Settled ==> !o.snapshot && o.writer != LiveWriter)
      && (o.state == Ready || o.state.Failed? ==> o.encoding == Settled)
      && (o.state == Retired ==> o.encoding != Running && !o.snapshot && o.writer != LiveWriter)
      && (o.held ==> o.state == Ready)
  {
    hide Run;
    RunKeeps(NEW, steps);
  }

  /** A retirement notice is delivered only behind a settled, or never created, encoding. */
  lemma NoticeAfterEncoding(steps: seq<Step>, step: Step)
    requires FailedEvent(RetiredFailure) in Do(Run(NEW, steps), step).events
    requires FailedEvent(RetiredFailure) !in Run(NEW, steps).events
    ensures step.DoNotice? && Run(NEW, steps).encoding in {Unscheduled, Settled}
  {
    hide Run, Notify, AnswerAll;
    var o := Run(NEW, steps);
    RunKeeps(NEW, steps);
    match step
    case DoBegin(granted, reaction) => BeginTells(o, granted, reaction);
    case DoFinish(encoded, reaction) => FinishTells(o, encoded, reaction);
    case DoNotice(reaction) => NoticeKeeps(o, reaction);
    case _ =>
  }

  lemma BeginTells(o: Operation, granted: bool, reaction: Reaction)
    requires Inv(o)
    ensures Begin(o, granted, reaction).events in {o.events, o.events + [FailedEvent(AllocationFailure)]}
  {
    hide Notify;
    if o.encoding == Waiting && o.state == Scheduled && !granted {
      NotifyKeeps(FinishDelivery(o.(snapshot := false)).(state := Failed(AllocationFailure)), FailedEvent(AllocationFailure), reaction);
    }
  }

  lemma FinishTells(o: Operation, encoded: bool, reaction: Reaction)
    requires Inv(o)
    ensures Finish(o, encoded, reaction).events in {o.events, o.events + [ReadyEvent], o.events + [FailedEvent(EncodingFailure)]}
  {
    hide Notify;
    if o.encoding == Running && o.state == Building {
      NotifyKeeps(o.(state := Ready, held := true), ReadyEvent, reaction);
      NotifyKeeps(FinishDelivery(o.(state := Failed(EncodingFailure))), FailedEvent(EncodingFailure), reaction);
    }
  }

  /** One notice of a settled encoding. */
  lemma NoticeTells(o: Operation, reaction: Reaction)
    requires Inv(o) && o.delivery == RetirementQueued && o.encoding in {Unscheduled, Settled}
    ensures Notice(o, reaction).events == o.events + [FailedEvent(RetiredFailure)]
  {
    hide Notify;
    NotifyKeeps(o.(notice := false, delivery := Closed), FailedEvent(RetiredFailure), reaction);
  }

  /** Told is told: the queued notice waits through every step and is the last event once it is delivered. */
  ghost predicate Informed(o: Operation) {
    o.delivery == RetirementQueued || (o.events != [] && o.events[|o.events| - 1] == FailedEvent(RetiredFailure))
  }

  lemma DoInforms(o: Operation, step: Step)
    requires Inv(o) && Informed(o)
    ensures Informed(Do(o, step))
    ensures o.delivery != RetirementQueued ==> Do(o, step).delivery != RetirementQueued
  {
    hide Notify, AnswerAll;
    DoKeeps(o, step);
    match step
    case DoBegin(granted, reaction) => BeginTells(o, granted, reaction);
    case DoFinish(encoded, reaction) => FinishTells(o, encoded, reaction);
    case DoNotice(reaction) => if o.delivery == RetirementQueued && o.encoding in {Unscheduled, Settled} { NoticeTells(o, reaction); }
    case _ =>
  }

  lemma {:induction false} RunInforms(o: Operation, steps: seq<Step>)
    requires Inv(o) && Informed(o)
    ensures Informed(Run(o, steps))
    decreases |steps|
  {
    hide Inv, Informed, Do;
    if steps != [] {
      DoKeeps(o, steps[0]);
      DoInforms(o, steps[0]);
      RunInforms(Do(o, steps[0]), steps[1..]);
    }
  }

  /**
    A retirement whose notice was queued is told in the end: no step loses the notice, and once the
    encoding's own steps were taken it is delivered, as the last event, whatever they meet.
  */
  lemma RetirementIsTold(before: seq<Step>, between: seq<Step>, granted: bool, encoded: bool, reactions: (Reaction, Reaction, Reaction))
    requires Run(NEW, before).delivery == RetirementQueued
    ensures var o := Run(Run(NEW, before), between);
      var events := Run(o, [DoBegin(granted, reactions.0), DoFinish(encoded, reactions.1), DoNotice(reactions.2)]).events;
      events != [] && events[|events| - 1] == FailedEvent(RetiredFailure)
  {
    var o := Run(Run(NEW, before), between);
    RunKeeps(NEW, before);
    RunKeeps(Run(NEW, before), between);
    RunInforms(Run(NEW, before), between);
    DueTells(o, granted, encoded, reactions);
  }

  lemma RunThree(o: Operation, a: Step, b: Step, c: Step)
    ensures Run(o, [a, b, c]) == Do(Do(Do(o, a), b), c)
  {
    hide Do;
    var first, second := Do(o, a), Do(Do(o, a), b);
    assert Run(second, [c]) == Run(Do(second, c), []);
    assert [b, c][1..] == [c] && Run(first, [b, c]) == Run(second, [c]);
    assert [a, b, c][1..] == [b, c];
  }

  /** The encoding's steps, as far as they are due, and the notice behind them. */
  lemma DueTells(o: Operation, granted: bool, encoded: bool, reactions: (Reaction, Reaction, Reaction))
    requires Inv(o) && Informed(o)
    ensures var events := Run(o, [DoBegin(granted, reactions.0), DoFinish(encoded, reactions.1), DoNotice(reactions.2)]).events;
      events != [] && events[|events| - 1] == FailedEvent(RetiredFailure)
  {
    var begun := Begin(o, granted, reactions.0);
    var finished := Finish(begun, encoded, reactions.1);
    var told := Notice(finished, reactions.2);
    RunThree(o, DoBegin(granted, reactions.0), DoFinish(encoded, reactions.1), DoNotice(reactions.2));
    hide Run, Notify, AnswerAll;
    DoKeeps(o, DoBegin(granted, reactions.0));
    DoInforms(o, DoBegin(granted, reactions.0));
    DoKeeps(begun, DoFinish(encoded, reactions.1));
    DoInforms(begun, DoFinish(encoded, reactions.1));
    DoInforms(finished, DoNotice(reactions.2));
    if o.delivery == RetirementQueued {
      DueSettles(o, granted, encoded, reactions.0, reactions.1);
      NoticeTells(finished, reactions.2);
      assert told.events[|finished.events|] == FailedEvent(RetiredFailure);
    } else {
      assert begun.delivery != RetirementQueued && finished.delivery != RetirementQueued && told.delivery != RetirementQueued;
    }
  }

  /** Behind a queued notice the begin and the finish deliver nothing and leave the encoding settled. */
  lemma DueSettles(o: Operation, granted: bool, encoded: bool, first: Reaction, second: Reaction)
    requires Inv(o) && o.delivery == RetirementQueued
    ensures var finished := Finish(Begin(o, granted, first), encoded, second);
      finished.delivery == RetirementQueued && finished.encoding in {Unscheduled, Settled}
  {
    hide Notify;
  }
}
