/**
  One connected opening and the stage it hands over: who owns the session, the payload and the pending
  inspection. Code runs to completion between two callbacks; what stands behind a running callback is
  counted as owed and may run at any later point, so every re-entrant order is covered.
*/
module ConnectedOriginals {
  import opened Text

  /** Which `receive` the opening was made for. */
  datatype Mode = Originals | Model

  datatype State = Discovering | Sources | Opening | Projects | Receiving | Queued | Inspection | Failed | Retired

  datatype Settlement = Stored | SettledRetired | SettledFailed

  datatype PendingState = Available | Taken | Held | Enqueued | Inspecting | Awaiting | Over

  datatype RetainedState = OriginalsAvailable | OriginalsTaken | OriginalsStored | OriginalsRetired

  datatype Stage =
    | NoStage
    | PlainStage(payload: bool)
    | RetainedStage(retained: RetainedState)
    | PendingStage(pending: PendingState)

  /** The milestones of a stage on its way to storage. */
  datatype Mark = Took | WasHeld | WasEnqueued | WasStarted | WasInspected | WasStored

  /** What remains to be done behind callbacks: returns of callbacks, and the rest of a disposal. */
  datatype Owed = Owed(closings: nat, stageDisposals: nat, cancels: nat, retirements: nat, deliveries: nat, adoptions: nat,
    enqueuings: nat)

  /** `discovering`, `sourcing`, `receiving`, `performing`: the asynchronous operations in flight. */
  datatype Owner = Owner(mode: Mode, state: State, aborted: bool, discovering: bool, sourcing: bool, receiving: bool,
    performing: bool, obtained: bool, closes: nat, stage: Stage, adopted: nat, cancelled: nat, settled: Option<Settlement>,
    marks: seq<Mark>, owed: Owed)

  datatype Discovery = Ready | NoSession

  datatype Receipt = Verified | Unavailable | Broken

  /** `current` is what the caller's own check answers when it is asked. */
  datatype Event =
    | Dispose
    | DisposeStage
    | ChooseSource(current: bool, known: bool)
    | ChooseProject(current: bool, known: bool)
    | SocketClosed(current: bool)
    | Discovered(current: bool, discovery: Discovery)
    | SourceOpened(current: bool, ok: bool)
    | Received(current: bool, receipt: Receipt)
    | Take(current: bool)
    | HoldInspection(current: bool) | HoldStage(current: bool)
    | Execute(current: bool)
    | Inspect(current: bool)
    | Performed(current: bool)
    | Settle(current: bool)
    | SettleOriginals(current: bool)
    | CloseReturns | OwedStageDisposal | CancelReturns | OwedRetirement
    | DeliveryReturns(throws: bool)
    | AdoptionReturns(throws: bool)
    | EnqueueReturns(throws: bool)

  function New(mode: Mode): Owner {
    Owner(mode, Discovering, false, true, false, false, false, false, 0, NoStage, 0, 0, None, [], Owed(0, 0, 0, 0, 0, 0, 0))
  }

  predicate Terminal(o: Owner) { o.state.Failed? || o.state.Retired? }

  predicate Current(o: Owner, current: bool) { !Terminal(o) && !o.aborted && current }

  predicate HasSession(s: State) {
    s.Sources? || s.Opening? || s.Projects? || s.Receiving? || s.Queued? || s.Inspection?
  }

  predicate HasStage(s: State) { s.Queued? || s.Inspection? }

  function FirstSettlement(o: Owner, s: Settlement): Option<Settlement> {
    if o.mode.Model? && o.settled.None? then Some(s) else o.settled
  }

  /** `finish`: the terminal state first, then what the previous state owned. */
  function Finish(o: Owner, to: State): Owner {
    o.(state := to, aborted := true,
      settled := FirstSettlement(o, if to.Failed? then SettledFailed else SettledRetired),
      owed := o.owed.(closings := o.owed.closings + if HasSession(o.state) then 1 else 0,
        stageDisposals := o.owed.stageDisposals + if HasStage(o.state) then 1 else 0))
  }

  function DisposeOpening(o: Owner): Owner { if o.state.Retired? then o else Finish(o, Retired) }

  function Fail(o: Owner, current: bool): Owner {
    if !Current(o, current) then if o.state.Failed? then o else DisposeOpening(o)
    else
      var o := Finish(o, Failed);
      o.(owed := o.owed.(deliveries := o.owed.deliveries + 1))
  }

  function Deliver(o: Owner): Owner { o.(owed := o.owed.(deliveries := o.owed.deliveries + 1)) }

  /** The stage's `retire` callback: it disposes the opening that still stands at this stage. */
  function RetireOpening(o: Owner): Owner { if HasStage(o.state) then DisposeOpening(o) else o }

  predicate Cancellable(p: PendingState) { p.Held? || p.Enqueued? || p.Inspecting? }

  predicate Gone(stage: Stage) {
    match stage
    case NoStage => true
    case PlainStage(payload) => !payload
    case RetainedStage(r) => r.OriginalsStored? || r.OriginalsRetired?
    case PendingStage(p) => p.Over?
  }

  function Ended(stage: Stage): Stage {
    match stage
    case NoStage => NoStage
    case PlainStage(_) => PlainStage(false)
    case RetainedStage(_) => RetainedStage(OriginalsRetired)
    case PendingStage(_) => PendingStage(Over)
  }

  /** `dispose` of a stage: over first, then its cancel if it holds one, then its opening. */
  function StageOver(o: Owner): Owner {
    if Gone(o.stage) then o
    else if o.stage.PendingStage? && Cancellable(o.stage.pending) then
      o.(stage := PendingStage(Over), owed := o.owed.(cancels := o.owed.cancels + 1))
    else RetireOpening(o.(stage := Ended(o.stage)))
  }

  /** The stage's own `current`. */
  predicate StageCurrent(o: Owner, current: bool) {
    Current(o, current) &&
    match o.stage
    case NoStage => false
    case PlainStage(payload) => payload && o.state.Queued?
    case RetainedStage(r) => !r.OriginalsStored? && !r.OriginalsRetired? && o.state.Queued?
    case PendingStage(p) => !p.Over? && o.state.Inspection?
  }

  /** The stage moves on and passes a milestone. */
  function Passed(o: Owner, stage: Stage, mark: Mark): Owner { o.(stage := stage, marks := o.marks + [mark]) }

  predicate Takeable(stage: Stage) {
    stage == PlainStage(true) || stage == RetainedStage(OriginalsAvailable) || stage == PendingStage(Available)
  }

  /** What a taken stage is: its payload is consumed before the callback adopts it. */
  function Consumed(stage: Stage): Stage {
    match stage
    case NoStage => NoStage
    case PlainStage(_) => PlainStage(false)
    case RetainedStage(_) => RetainedStage(OriginalsTaken)
    case PendingStage(_) => PendingStage(Taken)
  }

  function TakeStage(o: Owner, current: bool): Owner {
    if !StageCurrent(o, current) then StageOver(o)
    else if Takeable(o.stage) then
      Passed(o, Consumed(o.stage), Took).(adopted := o.adopted + 1, owed := o.owed.(adoptions := o.owed.adoptions + 1))
    else o
  }

  /** Every operation of a pending inspection: from one state to the next, or ignored. */
  function Advance(o: Owner, current: bool, from: PendingState, to: PendingState, mark: Mark): Owner {
    if !o.stage.PendingStage? then o
    else if !StageCurrent(o, current) then StageOver(o)
    else if o.stage.pending == from then Passed(o, PendingStage(to), mark)
    else o
  }

  /** `stored`: the settlement first, then the opening is disposed. */
  function StoreOpening(o: Owner): Owner { DisposeOpening(o.(settled := FirstSettlement(o, Stored))) }

  function ChosenSource(o: Owner, current: bool, known: bool): Owner {
    if !Current(o, current) then DisposeOpening(o)
    else if o.state.Sources? && known then o.(state := Opening, sourcing := true)
    else o
  }

  function ChosenProject(o: Owner, current: bool, known: bool): Owner {
    if !Current(o, current) then DisposeOpening(o)
    else if o.state.Projects? && known then o.(state := Receiving, receiving := true)
    else o
  }

  /** The session arrives; an opening that ended meanwhile closes it itself. */
  function SessionArrived(o: Owner, current: bool): Owner {
    var o := o.(obtained := true);
    if Current(o, current) then Deliver(o.(state := Sources))
    else
      var o := DisposeOpening(o);
      o.(owed := o.owed.(closings := o.owed.closings + 1))
  }

  function AfterDiscovery(o: Owner, current: bool, discovery: Discovery): Owner {
    if !o.discovering then o
    else
      var o := o.(discovering := false);
      if discovery.NoSession? then Fail(o, current) else SessionArrived(o, current)
  }

  function AfterSource(o: Owner, current: bool, ok: bool): Owner {
    if !o.sourcing then o
    else
      var o := o.(sourcing := false);
      if !ok then Fail(o, current)
      else if Current(o, current) then Deliver(o.(state := Projects))
      else DisposeOpening(o)
  }

  /** The verified originals become a stage of the kind the opening was made for. */
  function Staged(o: Owner, receipt: Receipt): Owner {
    if o.mode.Originals? then o.(state := Queued, stage := PlainStage(true))
    else if receipt.Verified? then o.(state := Inspection, stage := PendingStage(Available))
    else o.(state := Queued, stage := RetainedStage(OriginalsAvailable))
  }

  function AfterReceipt(o: Owner, current: bool, receipt: Receipt): Owner {
    if !o.receiving then o
    else
      var o := o.(receiving := false);
      if receipt.Broken? then Fail(o, current)
      else if !Current(o, current) then DisposeOpening(o)
      else Deliver(Staged(o, receipt))
  }

  function Executed(o: Owner, current: bool): Owner {
    var held := o.stage == PendingStage(Held) && StageCurrent(o, current);
    var o := Advance(o, current, Held, Enqueued, WasEnqueued);
    if held then o.(owed := o.owed.(enqueuings := o.owed.enqueuings + 1)) else o
  }

  function Started(o: Owner, current: bool): Owner {
    var enqueued := o.stage == PendingStage(Enqueued) && StageCurrent(o, current);
    var o := Advance(o, current, Enqueued, Inspecting, WasStarted);
    if enqueued then o.(performing := true) else o
  }

  function AfterInspection(o: Owner, current: bool): Owner {
    if !o.performing then o
    else
      var o := o.(performing := false);
      if o.stage == PendingStage(Inspecting) then Advance(o, current, Inspecting, Awaiting, WasInspected) else o
  }

  function Settled(o: Owner, current: bool): Owner {
    if !o.stage.PendingStage? then o
    else if !StageCurrent(o, current) then StageOver(o)
    else if o.stage.pending.Awaiting? then StoreOpening(Passed(o, PendingStage(Over), WasStored))
    else o
  }

  function SettledRetained(o: Owner, current: bool): Owner {
    if !Current(o, current) then DisposeOpening(o)
    else if o.state.Queued? && o.stage == RetainedStage(OriginalsTaken) then
      StoreOpening(Passed(o, RetainedStage(OriginalsStored), WasStored))
    else o
  }

  function StageDisposed(o: Owner): Owner {
    if o.owed.stageDisposals == 0 then o else StageOver(o.(owed := o.owed.(stageDisposals := o.owed.stageDisposals - 1)))
  }

  function AfterCancel(o: Owner): Owner {
    if o.owed.cancels == 0 then o
    else o.(cancelled := o.cancelled + 1, owed := o.owed.(cancels := o.owed.cancels - 1, retirements := o.owed.retirements + 1))
  }

  function AfterClose(o: Owner): Owner {
    if o.owed.closings == 0 then o else o.(closes := o.closes + 1, owed := o.owed.(closings := o.owed.closings - 1))
  }

  function AfterRetirement(o: Owner): Owner {
    if o.owed.retirements == 0 then o else RetireOpening(o.(owed := o.owed.(retirements := o.owed.retirements - 1)))
  }

  function AfterDelivery(o: Owner, throws: bool): Owner {
    if o.owed.deliveries == 0 then o
    else
      var o := o.(owed := o.owed.(deliveries := o.owed.deliveries - 1));
      if throws then DisposeOpening(o) else o
  }

  function AfterAdoption(o: Owner, throws: bool): Owner {
    if o.owed.adoptions == 0 then o
    else
      var o := o.(owed := o.owed.(adoptions := o.owed.adoptions - 1));
      if o.stage.PlainStage? then RetireOpening(o) else if throws then StageOver(o) else o
  }

  function AfterEnqueue(o: Owner, throws: bool): Owner {
    if o.owed.enqueuings == 0 then o
    else
      var o := o.(owed := o.owed.(enqueuings := o.owed.enqueuings - 1));
      if throws then StageOver(o) else o
  }

  function Step(o: Owner, e: Event): Owner {
    match e
    case Dispose => DisposeOpening(o)
    case DisposeStage => StageOver(o)
    case ChooseSource(current, known) => ChosenSource(o, current, known)
    case ChooseProject(current, known) => ChosenProject(o, current, known)
    case SocketClosed(current) => Fail(o, current)
    case Discovered(current, discovery) => AfterDiscovery(o, current, discovery)
    case SourceOpened(current, ok) => AfterSource(o, current, ok)
    case Received(current, receipt) => AfterReceipt(o, current, receipt)
    case Take(current) => TakeStage(o, current)
    case HoldInspection(current) =>
      if !Current(o, current) then DisposeOpening(o) else Advance(o, current, Taken, Held, WasHeld)
    case HoldStage(current) => Advance(o, current, Taken, Held, WasHeld)
    case Execute(current) => Executed(o, current)
    case Inspect(current) => Started(o, current)
    case Performed(current) => AfterInspection(o, current)
    case Settle(current) => Settled(o, current)
    case SettleOriginals(current) => SettledRetained(o, current)
    case CloseReturns => AfterClose(o)
    case OwedStageDisposal => StageDisposed(o)
    case CancelReturns => AfterCancel(o)
    case OwedRetirement => AfterRetirement(o)
    case DeliveryReturns(throws) => AfterDelivery(o, throws)
    case AdoptionReturns(throws) => AfterAdoption(o, throws)
    case EnqueueReturns(throws) => AfterEnqueue(o, throws)
  }

  function Run(o: Owner, es: seq<Event>): Owner
    decreases |es|
  {
    if es == [] then o else Run(Step(o, es[0]), es[1..])
  }

  // ---- What every step keeps.

  function Path(p: PendingState): seq<Mark> {
    match p
    case Available => []
    case Taken => [Took]
    case Held => [Took, WasHeld]
    case Enqueued => [Took, WasHeld, WasEnqueued]
    case Inspecting => [Took, WasHeld, WasEnqueued, WasStarted]
    case Awaiting => [Took, WasHeld, WasEnqueued, WasStarted, WasInspected]
    case Over => [Took, WasHeld, WasEnqueued, WasStarted, WasInspected, WasStored]
  }

  /** The session has exactly one owner: the state, a closing that is owed, or the past. */
  ghost predicate SessionOwned(o: Owner) {
    && o.closes + o.owed.closings + (if HasSession(o.state) then 1 else 0) == (if o.obtained then 1 else 0)
    && (o.discovering ==> !o.obtained && (o.state.Discovering? || Terminal(o)))
    && (o.state.Discovering? ==> !o.obtained)
  }

  ghost predicate Progress(o: Owner) {
    && (o.aborted <==> Terminal(o))
    && (o.sourcing ==> o.stage.NoStage? && !o.receiving && (o.state.Opening? || Terminal(o)))
    && (o.receiving ==> o.stage.NoStage? && (o.state.Receiving? || Terminal(o)))
    && (o.discovering ==> o.stage.NoStage? && !o.sourcing && !o.receiving)
    && (o.stage.NoStage? ==> !HasStage(o.state))
    && (!o.stage.NoStage? ==> HasStage(o.state) || Terminal(o))
    && (o.state.Queued? ==> !o.stage.PendingStage?) && (o.state.Inspection? ==> o.stage.PendingStage?)
  }

  /** A way that may end anywhere. */
  predicate Stopped(marks: seq<Mark>) {
    marks == Path(Available) || marks == Path(Taken) || marks == Path(Held) || marks == Path(Enqueued)
    || marks == Path(Inspecting) || marks == Path(Awaiting) || marks == Path(Over)
  }

  /** The milestones follow the stage's state; what is over stopped somewhere on the way. */
  ghost predicate Milestones(o: Owner) {
    && o.adopted == (if o.marks == [] then 0 else 1)
    && match o.stage
       case NoStage => o.marks == []
       case PlainStage(payload) => o.mode.Originals? && (if payload then o.marks == [] else o.marks == [] || o.marks == [Took])
       case RetainedStage(r) =>
         && o.mode.Model?
         && (match r
             case OriginalsAvailable => o.marks == []
             case OriginalsTaken => o.marks == [Took]
             case OriginalsStored => o.marks == [Took, WasStored]
             case OriginalsRetired => o.marks == [] || o.marks == [Took])
       case PendingStage(p) => o.mode.Model? && if p.Over? then Stopped(o.marks) else o.marks == Path(p)
  }

  predicate CutShort(o: Owner) {
    o.stage == PendingStage(Over) && 2 <= |o.marks| <= 4
  }

  ghost predicate Cancels(o: Owner) {
    o.cancelled + o.owed.cancels == if CutShort(o) then 1 else 0
  }

  ghost predicate Settlements(o: Owner) {
    && (o.mode.Originals? ==> o.settled.None?)
    && (o.mode.Model? ==> (o.settled.Some? <==> Terminal(o)))
    && (o.settled == Some(Stored) <==> WasStored in o.marks)
  }

  /** Nobody is left behind: each end that is reached owes the other. */
  ghost predicate Owing(o: Owner) {
    && (Terminal(o) && !Gone(o.stage) ==> o.owed.stageDisposals >= 1)
    && (Gone(o.stage) && !o.stage.NoStage? && !Terminal(o) ==>
          o.owed.cancels + o.owed.retirements >= 1 || (o.stage.PlainStage? && o.owed.adoptions >= 1))
  }

  ghost predicate Inv(o: Owner) {
    SessionOwned(o) && Progress(o) && Milestones(o) && Cancels(o) && Settlements(o) && Owing(o)
  }

  lemma DisposeOpeningKeeps(o: Owner)
    requires Inv(o)
    ensures Inv(DisposeOpening(o)) && Terminal(DisposeOpening(o))
  {
  }

  lemma FailKeeps(o: Owner, current: bool)
    requires Inv(o)
    ensures Inv(Fail(o, current)) && Terminal(Fail(o, current))
  {
  }

  /** All but what the ends owe each other. */
  ghost predicate Nearly(o: Owner) {
    SessionOwned(o) && Progress(o) && Milestones(o) && Cancels(o) && Settlements(o)
  }

  lemma RetireKeeps(o: Owner)
    requires Nearly(o)
    ensures Nearly(RetireOpening(o)) && (HasStage(o.state) || Owing(o) ==> Inv(RetireOpening(o)))
  {
  }

  /** A stage that needs no cancel ends with its opening. */
  lemma PlainOver(o: Owner)
    requires Nearly(o) && !Gone(o.stage) && !(o.stage.PendingStage? && Cancellable(o.stage.pending))
    ensures Inv(RetireOpening(o.(stage := Ended(o.stage))))
  {
    RetireKeeps(o.(stage := Ended(o.stage)));
  }

  lemma CancelOver(o: Owner)
    requires Nearly(o) && o.stage.PendingStage? && Cancellable(o.stage.pending)
    ensures Inv(o.(stage := PendingStage(Over), owed := o.owed.(cancels := o.owed.cancels + 1)))
  {
  }

  /** Ending the stage settles whatever was owed to it. */
  lemma StageOverKeeps(o: Owner)
    requires Nearly(o) && (Gone(o.stage) ==> Owing(o))
    ensures Inv(StageOver(o))
  {
    hide Nearly, Inv, RetireOpening;
    if Gone(o.stage) {
      assert StageOver(o) == o;
      NearlyInv(o);
    } else if o.stage.PendingStage? && Cancellable(o.stage.pending) {
      CancelOver(o);
    } else {
      PlainOver(o);
    }
  }

  lemma NearlyInv(o: Owner)
    ensures Nearly(o) && Owing(o) <==> Inv(o)
  {
  }

  lemma TakeKeeps(o: Owner, current: bool)
    requires Inv(o)
    ensures Inv(TakeStage(o, current))
  {
    if !StageCurrent(o, current) {
      StageOverKeeps(o);
    } else {
      assert o.marks == [] ==> o.marks + [Took] == [Took];
      hide StageOver;
    }
  }

  lemma AdvanceKeeps(o: Owner, current: bool, from: PendingState, to: PendingState, mark: Mark)
    requires Inv(o)
    requires !from.Available? && !from.Over? && !to.Over? && Path(to) == Path(from) + [mark] && mark != WasStored
    ensures Inv(Advance(o, current, from, to, mark))
  {
    if o.stage.PendingStage? && !StageCurrent(o, current) {
      StageOverKeeps(o);
    } else {
      hide StageOver, StageCurrent;
    }
  }

  lemma SettleKeeps(o: Owner, current: bool)
    requires Inv(o)
    ensures Inv(Settled(o, current))
  {
    if o.stage.PendingStage? && !StageCurrent(o, current) {
      StageOverKeeps(o);
    } else {
      hide StageOver;
    }
  }

  lemma SettleRetainedKeeps(o: Owner, current: bool)
    requires Inv(o)
    ensures Inv(SettledRetained(o, current))
  {
    if !Current(o, current) {
      DisposeOpeningKeeps(o);
    }
  }

  lemma ChosenKeeps(o: Owner, current: bool, known: bool)
    requires Inv(o)
    ensures Inv(ChosenSource(o, current, known)) && Inv(ChosenProject(o, current, known))
  {
    if !Current(o, current) {
      DisposeOpeningKeeps(o);
    }
  }

  lemma ExecutedKeeps(o: Owner, current: bool)
    requires Inv(o)
    ensures Inv(Executed(o, current))
  {
    AdvanceKeeps(o, current, Held, Enqueued, WasEnqueued);
    hide Advance;
    var advanced := Advance(o, current, Held, Enqueued, WasEnqueued);
    OwedKeeps(advanced, advanced.(owed := advanced.owed.(enqueuings := advanced.owed.enqueuings + 1)));
  }

  /** The flags of a running inspection and what is owed to it are no part of the invariants. */
  lemma OwedKeeps(o: Owner, p: Owner)
    requires Inv(o)
    requires p == o.(performing := p.performing, owed := o.owed.(enqueuings := p.owed.enqueuings, deliveries := p.owed.deliveries))
    ensures Inv(p)
  {
  }

  lemma StartedKeeps(o: Owner, current: bool)
    requires Inv(o)
    ensures Inv(Started(o, current))
  {
    AdvanceKeeps(o, current, Enqueued, Inspecting, WasStarted);
    hide Advance;
    var advanced := Advance(o, current, Enqueued, Inspecting, WasStarted);
    OwedKeeps(advanced, advanced.(performing := true));
  }

  lemma PerformedKeeps(o: Owner, current: bool)
    requires Inv(o)
    ensures Inv(AfterInspection(o, current))
  {
    var back := o.(performing := false);
    OwedKeeps(o, back);
    AdvanceKeeps(back, current, Inspecting, Awaiting, WasInspected);
    hide Advance;
  }

  lemma DiscoveredKeeps(o: Owner, current: bool, discovery: Discovery)
    requires Inv(o)
    ensures Inv(AfterDiscovery(o, current, discovery))
  {
    if o.discovering {
      var back := o.(discovering := false);
      FailKeeps(back, current);
      ArrivedKeeps(o, current);
      hide Fail, SessionArrived;
    }
  }

  lemma ArrivedKeeps(o: Owner, current: bool)
    requires Inv(o) && o.discovering
    ensures Inv(SessionArrived(o.(discovering := false), current))
  {
  }

  lemma SourceOpenedKeeps(o: Owner, current: bool, ok: bool)
    requires Inv(o)
    ensures Inv(AfterSource(o, current, ok))
  {
    if o.sourcing {
      var back := o.(sourcing := false);
      FailKeeps(back, current);
      DisposeOpeningKeeps(back);
      hide Fail, DisposeOpening;
    }
  }

  lemma StagedKeeps(o: Owner, receipt: Receipt)
    requires Inv(o) && o.receiving && !Terminal(o)
    ensures Inv(Staged(o.(receiving := false), receipt))
  {
  }

  lemma ReceivedKeeps(o: Owner, current: bool, receipt: Receipt)
    requires Inv(o)
    ensures Inv(AfterReceipt(o, current, receipt))
  {
    if o.receiving {
      var back := o.(receiving := false);
      ReceivingOver(o);
      FailKeeps(back, current);
      DisposeOpeningKeeps(back);
      if !Terminal(o) {
        StagedKeeps(o, receipt);
        OwedKeeps(Staged(back, receipt), Deliver(Staged(back, receipt)));
      }
      hide Fail, DisposeOpening, Staged, Inv;
    }
  }

  lemma ReceivingOver(o: Owner)
    requires Inv(o)
    ensures Inv(o.(receiving := false))
  {
  }

  lemma AdoptionBack(o: Owner)
    requires Inv(o) && o.owed.adoptions > 0
    ensures var back := o.(owed := o.owed.(adoptions := o.owed.adoptions - 1));
      Nearly(back) && (!o.stage.PlainStage? ==> Owing(back))
  {
  }

  lemma AdoptionKeeps(o: Owner, throws: bool)
    requires Inv(o)
    ensures Inv(AfterAdoption(o, throws))
  {
    if o.owed.adoptions > 0 {
      var back := o.(owed := o.owed.(adoptions := o.owed.adoptions - 1));
      AdoptionBack(o);
      if o.stage.PlainStage? {
        PlainBack(o);
      } else {
        StageOverKeeps(back);
        NearlyInv(back);
      }
      hide StageOver, RetireOpening, Inv;
    }
  }

  /** When an adoption of plain originals returns, the opening that waited for it retires. */
  lemma PlainBack(o: Owner)
    requires Inv(o) && o.owed.adoptions > 0 && o.stage.PlainStage?
    ensures Inv(RetireOpening(o.(owed := o.owed.(adoptions := o.owed.adoptions - 1))))
  {
    RetireKeeps(o.(owed := o.owed.(adoptions := o.owed.adoptions - 1)));
  }

  lemma EnqueueKeeps(o: Owner, throws: bool)
    requires Inv(o)
    ensures Inv(AfterEnqueue(o, throws))
  {
    if o.owed.enqueuings > 0 {
      var back := o.(owed := o.owed.(enqueuings := o.owed.enqueuings - 1));
      OwedKeeps(o, back);
      StageOverKeeps(back);
      hide StageOver;
    }
  }

  lemma DeliveryKeeps(o: Owner, throws: bool)
    requires Inv(o)
    ensures Inv(AfterDelivery(o, throws))
  {
    if o.owed.deliveries > 0 {
      var back := o.(owed := o.owed.(deliveries := o.owed.deliveries - 1));
      OwedKeeps(o, back);
      DisposeOpeningKeeps(back);
      hide DisposeOpening;
    }
  }

  /** The disposal of the stage that a finished opening owes. */
  lemma DisposalKeeps(o: Owner)
    requires Inv(o)
    ensures Inv(StageDisposed(o))
  {
    if o.owed.stageDisposals > 0 {
      var back := o.(owed := o.owed.(stageDisposals := o.owed.stageDisposals - 1));
      assert Gone(back.stage) ==> Owing(back);
      StageOverKeeps(back);
    }
  }

  lemma CloseKeeps(o: Owner)
    requires Inv(o)
    ensures Inv(AfterClose(o))
  {
    hide Milestones, Settlements;
    assert Milestones(AfterClose(o)) == Milestones(o) && Settlements(AfterClose(o)) == Settlements(o) by { CountersAside(o, AfterClose(o)); }
  }

  lemma CancelledKeeps(o: Owner)
    requires Inv(o)
    ensures Inv(AfterCancel(o))
  {
    hide Milestones, Settlements;
    assert Milestones(AfterCancel(o)) == Milestones(o) && Settlements(AfterCancel(o)) == Settlements(o) by { CountersAside(o, AfterCancel(o)); }
  }

  /** What is owed, closed or cancelled is no part of the milestones and settlements. */
  lemma CountersAside(o: Owner, p: Owner)
    requires p == o.(owed := p.owed, closes := p.closes, cancelled := p.cancelled)
    ensures Milestones(p) == Milestones(o) && Settlements(p) == Settlements(o)
  {
  }

  lemma RetiredKeeps(o: Owner)
    requires Inv(o)
    ensures Inv(AfterRetirement(o))
  {
    if o.owed.retirements > 0 {
      RetiredBack(o);
      RetireKeeps(o.(owed := o.owed.(retirements := o.owed.retirements - 1)));
      hide RetireOpening, Inv;
    }
  }

  lemma RetiredBack(o: Owner)
    requires Inv(o) && o.owed.retirements > 0
    ensures var back := o.(owed := o.owed.(retirements := o.owed.retirements - 1));
      Nearly(back) && (HasStage(back.state) || Owing(back))
  {
  }

  lemma StepKeeps(o: Owner, e: Event)
    requires Inv(o)
    ensures Inv(Step(o, e))
  {
    hide Inv, DisposeOpening, StageOver, Fail, ChosenSource, ChosenProject, AfterDiscovery, AfterSource, AfterReceipt,
      TakeStage, Advance, Executed, Started, AfterInspection, Settled, SettledRetained, AfterClose, StageDisposed,
      AfterCancel, AfterRetirement, AfterDelivery, AfterAdoption, AfterEnqueue, Current;
    match e
    case Dispose => DisposeOpeningKeeps(o);
    case DisposeStage => WholeStageOver(o);
    case SocketClosed(current) => FailKeeps(o, current);
    case ChooseSource(current, known) => ChosenKeeps(o, current, known);
    case ChooseProject(current, known) => ChosenKeeps(o, current, known);
    case HoldInspection(current) =>
      DisposeOpeningKeeps(o);
      AdvanceKeeps(o, current, Taken, Held, WasHeld);
    case HoldStage(current) => AdvanceKeeps(o, current, Taken, Held, WasHeld);
    case Discovered(current, discovery) => DiscoveredKeeps(o, current, discovery);
    case SourceOpened(current, ok) => SourceOpenedKeeps(o, current, ok);
    case Received(current, receipt) => ReceivedKeeps(o, current, receipt);
    case Take(current) => TakeKeeps(o, current);
    case Settle(current) => SettleKeeps(o, current);
    case SettleOriginals(current) => SettleRetainedKeeps(o, current);
    case Execute(current) => ExecutedKeeps(o, current);
    case Inspect(current) => StartedKeeps(o, current);
    case Performed(current) => PerformedKeeps(o, current);
    case CloseReturns => CloseKeeps(o);
    case CancelReturns => CancelledKeeps(o);
    case OwedRetirement => RetiredKeeps(o);
    case OwedStageDisposal => DisposalKeeps(o);
    case DeliveryReturns(throws) => DeliveryKeeps(o, throws);
    case AdoptionReturns(throws) => AdoptionKeeps(o, throws);
    case EnqueueReturns(throws) => EnqueueKeeps(o, throws);
  }

  lemma WholeStageOver(o: Owner)
    requires Inv(o)
    ensures Inv(StageOver(o))
  {
    StageOverKeeps(o);
  }

  lemma {:induction false} RunKeeps(o: Owner, es: seq<Event>)
    requires Inv(o)
    ensures Inv(Run(o, es))
    decreases |es|
  {
    hide Inv, Step;
    if es != [] {
      StepKeeps(o, es[0]);
      RunKeeps(Step(o, es[0]), es[1..]);
    }
  }

  lemma NewInv(mode: Mode)
    ensures Inv(New(mode))
  {
  }

  lemma EveryRun(mode: Mode, es: seq<Event>)
    ensures Inv(Run(New(mode), es))
  {
    hide Inv, Run;
    NewInv(mode);
    RunKeeps(New(mode), es);
  }

  // ---- What follows for every run.

  predicate Quiescent(o: Owner) { o.owed == Owed(0, 0, 0, 0, 0, 0, 0) }

  /** A session is closed at most once, and exactly once when the opening is terminal and nothing is owed. */
  lemma SessionClosedOnce(mode: Mode, es: seq<Event>)
    ensures var o := Run(New(mode), es);
      && o.closes <= 1 && (o.closes == 1 ==> o.obtained && Terminal(o))
      && (Terminal(o) && o.owed.closings == 0 ==> o.closes == if o.obtained then 1 else 0)
  {
    EveryRun(mode, es);
  }

  lemma AdoptedOnce(mode: Mode, es: seq<Event>)
    ensures Run(New(mode), es).adopted <= 1
  {
    EveryRun(mode, es);
  }

  /**
    `stored` settles exactly for the stage that went the whole way: taken, held, enqueued, started,
    inspected and stored, or for the retained originals taken and stored.
  */
  lemma StoredNeedsWholePath(mode: Mode, es: seq<Event>)
    ensures var o := Run(New(mode), es);
      o.settled == Some(Stored) <==>
        o.marks == [Took, WasHeld, WasEnqueued, WasStarted, WasInspected, WasStored] || o.marks == [Took, WasStored]
    ensures var o := Run(New(mode), es); o.settled == Some(Stored) ==> o.adopted == 1 && o.cancelled + o.owed.cancels == 0
  {
    EveryRun(mode, es);
  }

  /** A cancel is called once at most, and just for an inspection cut short between its hold and its result. */
  lemma CancelledOnce(mode: Mode, es: seq<Event>)
    ensures var o := Run(New(mode), es);
      o.cancelled + o.owed.cancels == if o.stage == PendingStage(Over) && 2 <= |o.marks| <= 4 then 1 else 0
  {
    EveryRun(mode, es);
  }

  /** With nothing owed, a stage is over exactly when its opening is terminal. */
  lemma EndTogether(mode: Mode, es: seq<Event>)
    ensures var o := Run(New(mode), es);
      Quiescent(o) && !o.stage.NoStage? ==> (Terminal(o) <==> Gone(o.stage))
    ensures var o := Run(New(mode), es); o.mode.Model? ==> (o.settled.Some? <==> Terminal(o))
  {
    EveryRun(mode, es);
  }

  // ---- Disposal terminates.

  /** What the opening and its stage may still come to owe, and what they owe already. */
  function Measure(o: Owner): nat {
    (if Terminal(o) then 0 else 3) + (if Gone(o.stage) then 0 else 3)
    + o.owed.closings + o.owed.stageDisposals + 2 * o.owed.cancels + o.owed.retirements + o.owed.deliveries
    + o.owed.adoptions + o.owed.enqueuings
  }

  predicate Due(o: Owner, e: Event) {
    match e
    case CloseReturns => o.owed.closings > 0
    case OwedStageDisposal => o.owed.stageDisposals > 0
    case CancelReturns => o.owed.cancels > 0
    case OwedRetirement => o.owed.retirements > 0
    case DeliveryReturns(_) => o.owed.deliveries > 0
    case AdoptionReturns(_) => o.owed.adoptions > 0
    case EnqueueReturns(_) => o.owed.enqueuings > 0
    case _ => false
  }

  lemma DisposeLowers(o: Owner)
    ensures Measure(DisposeOpening(o)) <= Measure(o)
  {
  }

  lemma StageOverLowers(o: Owner)
    ensures Measure(StageOver(o)) <= Measure(o)
  {
    DisposeLowers(o.(stage := Ended(o.stage)));
    hide DisposeOpening;
  }

  lemma CloseDecreases(o: Owner)
    requires o.owed.closings > 0
    ensures Measure(AfterClose(o)) < Measure(o)
  {
  }

  lemma CancelDecreases(o: Owner)
    requires o.owed.cancels > 0
    ensures Measure(AfterCancel(o)) < Measure(o)
  {
  }

  lemma DisposalDecreases(o: Owner)
    requires o.owed.stageDisposals > 0
    ensures Measure(StageDisposed(o)) < Measure(o)
  {
    StageOverLowers(o.(owed := o.owed.(stageDisposals := o.owed.stageDisposals - 1)));
    hide StageOver;
  }

  lemma RetirementDecreases(o: Owner)
    requires o.owed.retirements > 0
    ensures Measure(AfterRetirement(o)) < Measure(o)
  {
    DisposeLowers(o.(owed := o.owed.(retirements := o.owed.retirements - 1)));
    hide DisposeOpening;
  }

  lemma DeliveryDecreases(o: Owner, throws: bool)
    requires o.owed.deliveries > 0
    ensures Measure(AfterDelivery(o, throws)) < Measure(o)
  {
    DisposeLowers(o.(owed := o.owed.(deliveries := o.owed.deliveries - 1)));
    hide DisposeOpening;
  }

  lemma AdoptionDecreases(o: Owner, throws: bool)
    requires o.owed.adoptions > 0
    ensures Measure(AfterAdoption(o, throws)) < Measure(o)
  {
    var back := o.(owed := o.owed.(adoptions := o.owed.adoptions - 1));
    DisposeLowers(back);
    StageOverLowers(back);
    hide DisposeOpening, StageOver;
  }

  lemma EnqueueDecreases(o: Owner, throws: bool)
    requires o.owed.enqueuings > 0
    ensures Measure(AfterEnqueue(o, throws)) < Measure(o)
  {
    StageOverLowers(o.(owed := o.owed.(enqueuings := o.owed.enqueuings - 1)));
    hide StageOver;
  }

  lemma DueDecreases(o: Owner, e: Event)
    requires Due(o, e)
    ensures Measure(Step(o, e)) < Measure(o)
  {
    hide Measure, AfterClose, AfterCancel, AfterRetirement, StageDisposed, AfterDelivery, AfterAdoption, AfterEnqueue,
      DisposeOpening, StageOver, Fail, Advance, Current;
    match e
    case CloseReturns => CloseDecreases(o);
    case CancelReturns => CancelDecreases(o);
    case OwedStageDisposal => DisposalDecreases(o);
    case OwedRetirement => RetirementDecreases(o);
    case DeliveryReturns(throws) => DeliveryDecreases(o, throws);
    case AdoptionReturns(throws) => AdoptionDecreases(o, throws);
    case EnqueueReturns(throws) => EnqueueDecreases(o, throws);
    case _ =>
  }

  /** Every event of the run is a return that is due. */
  predicate AllDue(o: Owner, es: seq<Event>)
    decreases |es|
  {
    es == [] || (Due(o, es[0]) && AllDue(Step(o, es[0]), es[1..]))
  }

  /** However callbacks and disposals of opening and stage call each other, they come to an end. */
  lemma {:induction false} DisposalEnds(o: Owner, es: seq<Event>)
    requires AllDue(o, es)
    ensures |es| + Measure(Run(o, es)) <= Measure(o)
    ensures |es| == Measure(o) ==> Quiescent(Run(o, es))
    decreases |es|
  {
    hide Step, Due;
    if es != [] {
      DueDecreases(o, es[0]);
      DisposalEnds(Step(o, es[0]), es[1..]);
    }
  }
}
