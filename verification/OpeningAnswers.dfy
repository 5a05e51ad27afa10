/** What a connected opening answers to each event, and what a run's receipt makes of its stage. */
module OpeningAnswers {
  import opened Text
  import opened ConnectedOriginals

  // ---- When an opening ends.

  /** The event puts the question whether the opening is still current to its caller. */
  predicate Questions(o: Owner, e: Event) {
    || e.ChooseSource? || e.ChooseProject? || e.SocketClosed? || e.HoldInspection? || e.SettleOriginals?
    || (e.Discovered? && o.discovering) || (e.SourceOpened? && o.sourcing) || (e.Received? && o.receiving)
  }

  /** The event reports that the connection or an operation failed. */
  predicate Reports(o: Owner, e: Event) {
    || e.SocketClosed? || (e.Discovered? && o.discovering && e.discovery.NoSession?)
    || (e.SourceOpened? && o.sourcing && !e.ok) || (e.Received? && o.receiving && e.receipt.Broken?)
  }

  /** The event is an operation of the stage that asks whether it is still current. */
  predicate Operates(o: Owner, e: Event) {
    || e.Take?
    || (o.stage.PendingStage? && (e.HoldStage? || e.Execute? || e.Inspect? || e.Settle?))
    || (o.stage == PendingStage(Inspecting) && e.Performed? && o.performing)
  }

  /** The event disposes the stage: directly, by a check that fails, or by a callback that throws. */
  predicate DisposesStage(o: Owner, e: Event) {
    || e.DisposeStage? || (e.OwedStageDisposal? && o.owed.stageDisposals > 0)
    || (Operates(o, e) && !e.current)
    || (e.AdoptionReturns? && o.owed.adoptions > 0 && !o.stage.PlainStage? && e.throws)
    || (e.EnqueueReturns? && o.owed.enqueuings > 0 && e.throws)
  }

  /** A stage whose end cancels an inspection first. */
  predicate Holding(o: Owner) { o.stage.PendingStage? && Cancellable(o.stage.pending) }

  /** The event settles the whole path as stored. */
  predicate Stores(o: Owner, e: Event) {
    || (e == Settle(true) && o.stage == PendingStage(Awaiting))
    || (e == SettleOriginals(true) && o.stage == RetainedStage(OriginalsTaken))
  }

  /** The event is the end of a callback that lets the opening go. */
  predicate Lets(o: Owner, e: Event) {
    || (e.OwedRetirement? && o.owed.retirements > 0 && !o.stage.NoStage?)
    || (e.DeliveryReturns? && o.owed.deliveries > 0 && e.throws)
    || (e.AdoptionReturns? && o.owed.adoptions > 0 && o.stage.PlainStage?)
  }

  /** A live opening fails exactly when a failure is reported while it is current. */
  predicate Fails(o: Owner, e: Event) { Reports(o, e) && e.current }

  predicate Retires(o: Owner, e: Event) {
    || e.Dispose? || (Questions(o, e) && !e.current) || Stores(o, e) || Lets(o, e)
    || (DisposesStage(o, e) && !Gone(o.stage) && !Holding(o))
  }

  /** Main result: a live opening ends in exactly these steps, and in this way; an ended one stays ended. */
  lemma EndsExactly(o: Owner, e: Event)
    requires Inv(o)
    ensures EndsAs(o, e)
  {
    hide Inv, EndsAs;
    match e
    case Take(current) => TakeEnds(o, current);
    case HoldStage(current) => HoldStageEnds(o, current);
    case Execute(current) => ExecuteEnds(o, current);
    case Inspect(current) => InspectEnds(o, current);
    case Performed(current) => PerformedEnds(o, current);
    case Settle(current) => SettledEnds(o, current);
    case Dispose => ChoiceEnds(o, e);
    case DisposeStage => HoldEnds(o, e);
    case ChooseSource(_, _) => ChoiceEnds(o, e);
    case ChooseProject(_, _) => ChoiceEnds(o, e);
    case HoldInspection(_) => HoldEnds(o, e);
    case SettleOriginals(_) => SettleEnds(o, e);
    case SocketClosed(current) => SocketEnds(o, current);
    case Discovered(current, discovery) => DiscoveryEnds(o, current, discovery);
    case SourceOpened(current, ok) => SourceEnds(o, current, ok);
    case Received(current, receipt) => ReceiptEnds(o, current, receipt);
    case OwedStageDisposal => StageDisposalEnds(o, e);
    case AdoptionReturns(_) => AdoptionEnds(o, e);
    case EnqueueReturns(_) => EnqueueEnds(o, e);
    case CloseReturns => CloseEnds(o);
    case CancelReturns => CancelEnds(o);
    case OwedRetirement => RetirementEnds(o);
    case DeliveryReturns(throws) => DeliveryEnds(o, throws);
  }

  /** The step of this event ends the opening as stated. */
  ghost predicate EndsAs(o: Owner, e: Event) {
    var t := Step(o, e);
    && (!Terminal(o) ==> (t.state.Failed? <==> Fails(o, e)) && (t.state.Retired? <==> Retires(o, e)))
    && (Terminal(o) ==> Terminal(t))
  }

  lemma TakeEnds(o: Owner, current: bool)
    requires Inv(o)
    ensures EndsAs(o, Event.Take(current))
  {
    hide SessionOwned, Cancels, Settlements, Owing, Milestones;
  }

  lemma HoldStageEnds(o: Owner, current: bool)
    requires Inv(o)
    ensures EndsAs(o, HoldStage(current))
  {
    hide SessionOwned, Cancels, Settlements, Owing, Milestones;
  }

  lemma ExecuteEnds(o: Owner, current: bool)
    requires Inv(o)
    ensures EndsAs(o, Execute(current))
  {
    hide SessionOwned, Cancels, Settlements, Owing, Milestones;
  }

  lemma InspectEnds(o: Owner, current: bool)
    requires Inv(o)
    ensures EndsAs(o, Inspect(current))
  {
    hide SessionOwned, Cancels, Settlements, Owing, Milestones;
  }

  lemma PerformedEnds(o: Owner, current: bool)
    requires Inv(o)
    ensures EndsAs(o, Performed(current))
  {
    hide SessionOwned, Cancels, Settlements, Owing, Milestones;
  }

  lemma SettledEnds(o: Owner, current: bool)
    requires Inv(o)
    ensures EndsAs(o, Event.Settle(current))
  {
    hide SessionOwned, Cancels, Settlements, Owing, Milestones;
  }

  lemma ChoiceEnds(o: Owner, e: Event)
    requires Inv(o) && (e.Dispose? || e.ChooseSource? || e.ChooseProject?)
    ensures EndsAs(o, e)
  {
    hide SessionOwned, Cancels, Settlements, Owing, Milestones, StageOver;
  }

  lemma HoldEnds(o: Owner, e: Event)
    requires Inv(o) && (e.HoldInspection? || e.DisposeStage?)
    ensures EndsAs(o, e)
  {
    hide SessionOwned, Cancels, Settlements, Owing, Milestones;
  }

  lemma SettleEnds(o: Owner, e: Event)
    requires Inv(o) && (e.SettleOriginals?)
    ensures EndsAs(o, e)
  {
    hide SessionOwned, Cancels, Settlements, Owing;
  }

  lemma SocketEnds(o: Owner, current: bool)
    requires Inv(o)
    ensures EndsAs(o, SocketClosed(current))
  {
    hide Cancels, Settlements, Owing, Milestones, StageOver;
  }

  lemma DiscoveryEnds(o: Owner, current: bool, discovery: Discovery)
    requires Inv(o)
    ensures EndsAs(o, Discovered(current, discovery))
  {
    hide Cancels, Settlements, Owing, Milestones, StageOver;
  }

  lemma SourceEnds(o: Owner, current: bool, ok: bool)
    requires Inv(o)
    ensures EndsAs(o, SourceOpened(current, ok))
  {
    hide Cancels, Settlements, Owing, Milestones, StageOver;
  }

  lemma ReceiptEnds(o: Owner, current: bool, receipt: Receipt)
    requires Inv(o)
    ensures EndsAs(o, Event.Received(current, receipt))
  {
    hide Cancels, Settlements, Owing, Milestones, StageOver;
  }

  lemma CloseEnds(o: Owner)
    requires Inv(o)
    ensures EndsAs(o, CloseReturns)
  {
    hide SessionOwned, Cancels, Settlements, Owing, Milestones, StageOver;
  }

  lemma CancelEnds(o: Owner)
    requires Inv(o)
    ensures EndsAs(o, CancelReturns)
  {
    hide SessionOwned, Cancels, Settlements, Owing, Milestones, StageOver;
  }

  lemma RetirementEnds(o: Owner)
    requires Inv(o)
    ensures EndsAs(o, OwedRetirement)
  {
    hide SessionOwned, Cancels, Settlements, Owing, Milestones, StageOver;
  }

  lemma DeliveryEnds(o: Owner, throws: bool)
    requires Inv(o)
    ensures EndsAs(o, DeliveryReturns(throws))
  {
    hide SessionOwned, Cancels, Settlements, Owing, Milestones, StageOver;
  }

  lemma StageDisposalEnds(o: Owner, e: Event)
    requires Inv(o) && (e.OwedStageDisposal?)
    ensures EndsAs(o, e)
  {
    hide SessionOwned, Cancels, Settlements, Owing, Milestones;
  }

  lemma AdoptionEnds(o: Owner, e: Event)
    requires Inv(o) && (e.AdoptionReturns?)
    ensures EndsAs(o, e)
  {
    hide SessionOwned, Cancels, Settlements, Owing, Milestones;
  }

  lemma EnqueueEnds(o: Owner, e: Event)
    requires Inv(o) && (e.EnqueueReturns?)
    ensures EndsAs(o, e)
  {
    hide SessionOwned, Cancels, Settlements, Owing, Milestones;
  }

  // ---- How a live opening moves.

  /** A receipt that is not broken arrives while the opening waits for it. */
  predicate Arrives(o: Owner, e: Event) { e.Received? && o.receiving && Current(o, e.current) && !e.receipt.Broken? }

  /** The stage a receipt makes: only a verified projection can be inspected, and only for a model. */
  function StageOf(mode: Mode, receipt: Receipt): Stage {
    match mode
    case Originals => PlainStage(true)
    case Model => if receipt.Verified? then PendingStage(Available) else RetainedStage(OriginalsAvailable)
  }

  /** The state behind an event that does not end the opening. */
  function Moved(o: Owner, e: Event): State {
    if e.Discovered? && o.discovering then Sources
    else if e.ChooseSource? && o.state.Sources? && e.known then Opening
    else if e.SourceOpened? && o.sourcing then Projects
    else if e.ChooseProject? && o.state.Projects? && e.known then Receiving
    else if Arrives(o, e) then if StageOf(o.mode, e.receipt).PendingStage? then Inspection else Queued
    else o.state
  }

  /** The milestone an event passes on a live opening. */
  function Passes(o: Owner, e: Event): seq<Mark> {
    if Terminal(o) then []
    else if e == Event.Take(true) && Takeable(o.stage) then [Took]
    else if e in {HoldInspection(true), HoldStage(true)} && o.stage == PendingStage(Taken) then [WasHeld]
    else if e == Execute(true) && o.stage == PendingStage(Held) then [WasEnqueued]
    else if e == Inspect(true) && o.stage == PendingStage(Enqueued) then [WasStarted]
    else if e == Performed(true) && o.performing && o.stage == PendingStage(Inspecting) then [WasInspected]
    else if Stores(o, e) then [WasStored]
    else []
  }

  /** An opening that goes on moves exactly so. */
  lemma MovesExactly(o: Owner, e: Event)
    requires !Terminal(o) && !Terminal(Step(o, e))
    ensures Step(o, e).state == Moved(o, e) && Step(o, e).mode == o.mode
  {
    hide Moved, Step;
    match e
    case ChooseSource(current, known) => SourceChoiceMoves(o, current, known);
    case ChooseProject(current, known) => ProjectChoiceMoves(o, current, known);
    case SocketClosed(current) => SocketMoves(o, current);
    case Discovered(_, _) => AsyncMoves(o, e);
    case SourceOpened(_, _) => AsyncMoves(o, e);
    case Received(_, _) => ReceiptMoves(o, e);
    case _ => StageMoves(o, e);
  }

  lemma SourceChoiceMoves(o: Owner, current: bool, known: bool)
    requires !Terminal(o) && !Terminal(Step(o, ChooseSource(current, known)))
    ensures Step(o, ChooseSource(current, known)).state == Moved(o, ChooseSource(current, known)) && Step(o, ChooseSource(current, known)).mode == o.mode
  {
    hide StageOver, Advance;
  }

  lemma ProjectChoiceMoves(o: Owner, current: bool, known: bool)
    requires !Terminal(o) && !Terminal(Step(o, ChooseProject(current, known)))
    ensures Step(o, ChooseProject(current, known)).state == Moved(o, ChooseProject(current, known)) && Step(o, ChooseProject(current, known)).mode == o.mode
  {
    hide StageOver, Advance;
  }

  lemma SocketMoves(o: Owner, current: bool)
    requires !Terminal(o)
    ensures Terminal(Step(o, SocketClosed(current)))
  {
  }

  lemma ArrivedMoves(o: Owner, current: bool)
    requires !Terminal(o) && !Terminal(SessionArrived(o.(discovering := false), current))
    ensures var t := SessionArrived(o.(discovering := false), current); t.state == Sources && t.mode == o.mode
  {
  }

  lemma FailEnds(o: Owner, current: bool)
    ensures Terminal(Fail(o, current)) && Terminal(DisposeOpening(o))
  {
  }

  lemma DiscoveryMoves(o: Owner, current: bool, discovery: Discovery)
    requires !Terminal(o) && !Terminal(AfterDiscovery(o, current, discovery))
    ensures var t := AfterDiscovery(o, current, discovery); t.state == (if o.discovering then Sources else o.state) && t.mode == o.mode
  {
    hide SessionArrived, Fail;
    if o.discovering {
      FailEnds(o.(discovering := false), current);
      if discovery.Ready? { ArrivedMoves(o, current); }
    }
  }

  lemma SourceMoves(o: Owner, current: bool, ok: bool)
    requires !Terminal(o) && !Terminal(AfterSource(o, current, ok))
    ensures var t := AfterSource(o, current, ok); t.state == (if o.sourcing then Projects else o.state) && t.mode == o.mode
  {
    hide Fail, DisposeOpening;
    if o.sourcing { FailEnds(o.(sourcing := false), current); }
  }

  lemma AsyncMoves(o: Owner, e: Event)
    requires !Terminal(o) && !Terminal(Step(o, e)) && (e.Discovered? || e.SourceOpened?)
    ensures Step(o, e).state == Moved(o, e) && Step(o, e).mode == o.mode
  {
    hide AfterDiscovery, AfterSource;
    if e.Discovered? { DiscoveryMoves(o, e.current, e.discovery); } else { SourceMoves(o, e.current, e.ok); }
  }

  /** A receipt that ends the receiving well, seen from the opening. */
  lemma ArrivalStages(o: Owner, receipt: Receipt)
    requires o.receiving && Current(o, true) && !receipt.Broken?
    ensures var t := AfterReceipt(o, true, receipt);
      t.state == (if StageOf(o.mode, receipt).PendingStage? then Inspection else Queued)
      && t.mode == o.mode && t.stage == StageOf(o.mode, receipt)
  {
  }

  lemma NoArrival(o: Owner, current: bool, receipt: Receipt)
    requires !Terminal(o) && !Terminal(AfterReceipt(o, current, receipt))
    requires !(o.receiving && Current(o, current) && !receipt.Broken?)
    ensures AfterReceipt(o, current, receipt) == o
  {
  }

  /** A current receipt in `receiving` makes the stage of its kind. */
  lemma ReceiptMoves(o: Owner, e: Event)
    requires !Terminal(o) && !Terminal(Step(o, e)) && e.Received?
    ensures Step(o, e).state == Moved(o, e) && Step(o, e).mode == o.mode
    ensures Step(o, e).stage == if Arrives(o, e) then StageOf(o.mode, e.receipt) else o.stage
  {
    hide AfterReceipt, StageOf, Current, Terminal;
    assert Step(o, e) == AfterReceipt(o, e.current, e.receipt);
    if Arrives(o, e) {
      ArrivalCurrent(o, e);
      ArrivalStages(o, e.receipt);
    } else {
      NoArrival(o, e.current, e.receipt);
    }
  }

  lemma ArrivalCurrent(o: Owner, e: Event)
    requires Arrives(o, e)
    ensures e.current && Current(o, true)
  {
  }

  /** The opening stands where it stood, or has ended, and tells nothing. */
  ghost predicate Still(o: Owner, t: Owner) {
    (Terminal(t) || t.state == o.state) && t.mode == o.mode && t.owed.deliveries == o.owed.deliveries
  }

  lemma DisposeStill(o: Owner)
    ensures Still(o, DisposeOpening(o)) && Still(o, RetireOpening(o))
  {
  }

  lemma StageOverStill(o: Owner)
    ensures Still(o, StageOver(o)) && Still(o, DisposeOpening(o)) && Still(o, RetireOpening(o))
  {
    DisposeStill(o);
    DisposeStill(o.(stage := Ended(o.stage)));
    hide DisposeOpening, RetireOpening, Ended, Gone, Cancellable;
  }

  lemma StoreStill(o: Owner)
    ensures Still(o, StoreOpening(o))
  {
    DisposeStill(o.(settled := FirstSettlement(o, Stored)));
    hide DisposeOpening;
  }

  lemma AdvanceStill(o: Owner, current: bool, from: PendingState, to: PendingState, mark: Mark)
    ensures Still(o, Advance(o, current, from, to, mark))
  {
    StageOverStill(o);
    hide StageOver;
  }

  lemma TakeStill(o: Owner, current: bool)
    ensures Still(o, TakeStage(o, current))
  {
    StageOverStill(o);
    hide StageOver, StageCurrent, Takeable, Consumed;
  }

  lemma SettleStill(o: Owner, current: bool)
    ensures Still(o, Settled(o, current)) && Still(o, SettledRetained(o, current))
  {
    StageOverStill(o);
    StoreStill(Passed(o, PendingStage(Over), WasStored));
    StoreStill(Passed(o, RetainedStage(OriginalsStored), WasStored));
    hide StageOver, DisposeOpening, StoreOpening, StageCurrent, Current;
  }

  lemma OperationStill(o: Owner, e: Event)
    requires e.Take? || e.HoldInspection? || e.HoldStage? || e.Execute? || e.Inspect? || e.Performed? || e.Settle? || e.SettleOriginals?
    ensures Still(o, Step(o, e))
  {
    hide TakeStage, Settled, SettledRetained, DisposeOpening, Advance, StageCurrent, Current;
    match e
    case Take(current) => TakeStill(o, current);
    case HoldInspection(current) =>
      DisposeStill(o);
      AdvanceStill(o, current, Taken, Held, WasHeld);
    case HoldStage(current) => AdvanceStill(o, current, Taken, Held, WasHeld);
    case Execute(current) => AdvanceStill(o, current, Held, Enqueued, WasEnqueued);
    case Inspect(current) => AdvanceStill(o, current, Enqueued, Inspecting, WasStarted);
    case Performed(current) => AdvanceStill(o.(performing := false), current, Inspecting, Awaiting, WasInspected);
    case Settle(current) => SettleStill(o, current);
    case SettleOriginals(current) => SettleStill(o, current);
  }

  lemma ReturnStill(o: Owner, e: Event)
    requires e.Dispose? || e.DisposeStage? || e.CloseReturns? || e.OwedStageDisposal? || e.CancelReturns? || e.OwedRetirement?
      || e.AdoptionReturns? || e.EnqueueReturns?
    ensures Still(o, Step(o, e))
  {
    hide StageOver, DisposeOpening, RetireOpening, StageDisposed, AfterRetirement, AfterDelivery, AfterAdoption, AfterEnqueue;
    StageOverStill(o);
    match e
    case OwedStageDisposal => DisposedStill(o);
    case OwedRetirement => RetiredStill(o);
    case AdoptionReturns(throws) => AdoptedStill(o, throws);
    case EnqueueReturns(throws) => EnqueuedStill(o, throws);
    case _ =>
  }

  lemma DisposedStill(o: Owner)
    ensures Still(o, StageDisposed(o))
  {
    hide StageOver;
    if o.owed.stageDisposals > 0 { StageOverStill(o.(owed := o.owed.(stageDisposals := o.owed.stageDisposals - 1))); }
  }

  lemma RetiredStill(o: Owner)
    ensures Still(o, AfterRetirement(o))
  {
    hide RetireOpening;
    if o.owed.retirements > 0 { StageOverStill(o.(owed := o.owed.(retirements := o.owed.retirements - 1))); }
  }

  lemma DeliveredStill(o: Owner, throws: bool)
    ensures var back := if o.owed.deliveries > 0 then o.(owed := o.owed.(deliveries := o.owed.deliveries - 1)) else o;
      Still(back, AfterDelivery(o, throws))
  {
    hide DisposeOpening;
    if o.owed.deliveries > 0 { StageOverStill(o.(owed := o.owed.(deliveries := o.owed.deliveries - 1))); }
  }

  lemma AdoptedStill(o: Owner, throws: bool)
    ensures Still(o, AfterAdoption(o, throws))
  {
    hide StageOver, RetireOpening;
    if o.owed.adoptions > 0 { StageOverStill(o.(owed := o.owed.(adoptions := o.owed.adoptions - 1))); }
  }

  lemma EnqueuedStill(o: Owner, throws: bool)
    ensures Still(o, AfterEnqueue(o, throws))
  {
    hide StageOver;
    if o.owed.enqueuings > 0 { StageOverStill(o.(owed := o.owed.(enqueuings := o.owed.enqueuings - 1))); }
  }

  /** Nothing that happens to the stage moves the opening, unless it ends it. */
  lemma StageMoves(o: Owner, e: Event)
    requires !e.ChooseSource? && !e.ChooseProject? && !e.SocketClosed? && !e.Discovered? && !e.SourceOpened? && !e.Received?
    ensures var t := Step(o, e); (Terminal(t) || t.state == o.state) && t.mode == o.mode && Moved(o, e) == o.state
    ensures Step(o, e).owed.deliveries == o.owed.deliveries - if e.DeliveryReturns? && o.owed.deliveries > 0 then 1 else 0
  {
    hide Step;
    if e.DeliveryReturns? {
      Returned(o, e);
      DeliveredStill(o, e.throws);
    } else if e.Take? || e.HoldInspection? || e.HoldStage? || e.Execute? || e.Inspect? || e.Performed? || e.Settle? || e.SettleOriginals? {
      OperationStill(o, e);
    } else {
      ReturnStill(o, e);
    }
  }

  lemma Returned(o: Owner, e: Event)
    requires e.DeliveryReturns?
    ensures Step(o, e) == AfterDelivery(o, e.throws)
  {
    hide AfterDelivery;
  }

  /** The event is news that a current opening passes on to its caller. */
  predicate Tells(o: Owner, e: Event) {
    !Terminal(o) && (
      || Fails(o, e)
      || (e.Discovered? && o.discovering && e.current && e.discovery.Ready?)
      || (e.SourceOpened? && o.sourcing && e.current && e.ok)
      || Arrives(o, e))
  }

  lemma SourceChoiceTells(o: Owner, current: bool, known: bool)
    requires Inv(o)
    ensures Step(o, ChooseSource(current, known)).owed.deliveries == o.owed.deliveries + if Tells(o, ChooseSource(current, known)) then 1 else 0
  {
    hide SessionOwned, Cancels, Settlements, Owing, Milestones;
  }

  lemma ProjectChoiceTells(o: Owner, current: bool, known: bool)
    requires Inv(o)
    ensures Step(o, ChooseProject(current, known)).owed.deliveries == o.owed.deliveries + if Tells(o, ChooseProject(current, known)) then 1 else 0
  {
    hide SessionOwned, Cancels, Settlements, Owing, Milestones;
  }

  lemma SocketTells(o: Owner, current: bool)
    requires Inv(o)
    ensures Step(o, SocketClosed(current)).owed.deliveries == o.owed.deliveries + if Tells(o, SocketClosed(current)) then 1 else 0
  {
    hide SessionOwned, Cancels, Settlements, Owing, Milestones;
  }

  lemma FailTells(o: Owner, current: bool)
    requires o.aborted <==> Terminal(o)
    ensures Fail(o, current).owed.deliveries == o.owed.deliveries + if !Terminal(o) && current then 1 else 0
    ensures DisposeOpening(o).owed.deliveries == o.owed.deliveries
  {
  }

  lemma DiscoveryTells(o: Owner, e: Event)
    requires Inv(o) && e.Discovered?
    ensures Step(o, e).owed.deliveries == o.owed.deliveries + if Tells(o, e) then 1 else 0
  {
    hide SessionOwned, Cancels, Settlements, Owing, Milestones, Fail, DisposeOpening;
    FailTells(o.(discovering := false), e.current);
    FailTells(o.(discovering := false, obtained := true), e.current);
  }

  lemma SourceTells(o: Owner, e: Event)
    requires Inv(o) && e.SourceOpened?
    ensures Step(o, e).owed.deliveries == o.owed.deliveries + if Tells(o, e) then 1 else 0
  {
    hide SessionOwned, Cancels, Settlements, Owing, Milestones, Fail, DisposeOpening;
    FailTells(o.(sourcing := false), e.current);
  }

  lemma ReceiptTells(o: Owner, e: Event)
    requires Inv(o) && e.Received?
    ensures Step(o, e).owed.deliveries == o.owed.deliveries + if Tells(o, e) then 1 else 0
  {
    hide SessionOwned, Cancels, Settlements, Owing, Milestones, Fail, DisposeOpening;
    FailTells(o.(receiving := false), e.current);
  }

  /** The caller is told, once each, that sources, projects and a stage are there, or that the opening failed; nothing else is told. */
  lemma TellsExactly(o: Owner, e: Event)
    requires Inv(o)
    ensures Step(o, e).owed.deliveries ==
      o.owed.deliveries + (if Tells(o, e) then 1 else 0) - if e.DeliveryReturns? && o.owed.deliveries > 0 then 1 else 0
  {
    hide Inv, Step;
    match e
    case ChooseSource(current, known) => SourceChoiceTells(o, current, known);
    case ChooseProject(current, known) => ProjectChoiceTells(o, current, known);
    case SocketClosed(current) => SocketTells(o, current);
    case Discovered(_, _) => DiscoveryTells(o, e);
    case SourceOpened(_, _) => SourceTells(o, e);
    case Received(_, _) => ReceiptTells(o, e);
    case _ => StageMoves(o, e);
  }

  // ---- What a step leaves: milestones, the kind of the stage, the settlement.

  /** Stages of one kind, whatever their state. */
  predicate Kin(a: Stage, b: Stage) {
    && (a.NoStage? <==> b.NoStage?) && (a.PlainStage? <==> b.PlainStage?)
    && (a.RetainedStage? <==> b.RetainedStage?) && (a.PendingStage? <==> b.PendingStage?)
  }

  /** A step that passes nothing settles only by the way it ends. */
  ghost predicate Calm(o: Owner, t: Owner) {
    && t.marks == o.marks && Kin(o.stage, t.stage)
    && t.settled == if o.mode.Originals? || o.settled.Some? || !Terminal(t) then o.settled
      else Some(if t.state.Failed? then SettledFailed else SettledRetired)
  }

  ghost predicate Ready(o: Owner) {
    && (o.aborted <==> Terminal(o)) && (o.mode.Model? ==> (o.settled.Some? <==> Terminal(o)))
    && (o.state.Queued? ==> !o.stage.PendingStage?) && (o.state.Inspection? ==> o.stage.PendingStage?)
    && (!o.stage.NoStage? ==> HasStage(o.state) || Terminal(o)) && (o.receiving ==> o.stage.NoStage?)
    && (o.stage.RetainedStage? || o.stage.PendingStage? ==> o.mode.Model?)
  }

  lemma InvReady(o: Owner)
    requires Inv(o)
    ensures Ready(o)
  {
  }

  lemma DisposeCalm(o: Owner)
    requires o.mode.Model? && Terminal(o) ==> o.settled.Some?
    ensures Calm(o, DisposeOpening(o)) && Calm(o, RetireOpening(o))
  {
  }

  lemma OverCalm(o: Owner)
    requires o.mode.Model? && Terminal(o) ==> o.settled.Some?
    ensures Calm(o, StageOver(o))
  {
    EndedKin(o.stage);
    if Gone(o.stage) || Holding(o) {
      hide RetireOpening, Ended, Gone, Cancellable;
    } else {
      var ended := o.(stage := Ended(o.stage));
      DisposeCalm(ended);
      assert StageOver(o) == RetireOpening(ended);
      hide StageOver, RetireOpening, Ended, Gone, Cancellable;
    }
  }

  lemma EndedKin(stage: Stage)
    ensures Kin(stage, Ended(stage))
  {
  }

  lemma FailCalm(o: Owner, current: bool)
    requires o.mode.Model? && Terminal(o) ==> o.settled.Some?
    ensures Calm(o, Fail(o, current))
  {
  }

  /** What a step comes to. */
  ghost predicate Effects(o: Owner, e: Event, t: Owner) {
    && t.marks == o.marks + Passes(o, e)
    && (if Arrives(o, e) then t.stage == StageOf(o.mode, e.receipt) else Kin(o.stage, t.stage))
    && t.settled ==
      if Passes(o, e) == [WasStored] then Some(Stored)
      else if o.mode.Originals? || o.settled.Some? || !Terminal(t) then o.settled
      else Some(if t.state.Failed? then SettledFailed else SettledRetired)
  }

  lemma CalmEffects(o: Owner, p: Owner, e: Event, t: Owner)
    requires Calm(p, t) && p.marks == o.marks && p.stage == o.stage && p.settled == o.settled && p.mode == o.mode
    requires Passes(o, e) == [] && !Arrives(o, e)
    ensures Effects(o, e, t)
  {
    assert o.marks + [] == o.marks;
  }

  lemma AdvanceEffects(o: Owner, e: Event, current: bool, from: PendingState, to: PendingState, mark: Mark)
    requires Ready(o) && !e.Received?
    requires Passes(o, e) == if !Terminal(o) && current && o.stage == PendingStage(from) then [mark] else []
    requires !from.Over? && mark != WasStored
    ensures Effects(o, e, Advance(o, current, from, to, mark))
  {
    hide Passes;
    if o.stage.PendingStage? && !StageCurrent(o, current) {
      OverCalm(o);
      hide StageOver, Calm;
      NotCurrent(o, current);
      CalmEffects(o, o, e, StageOver(o));
    } else if o.stage == PendingStage(from) {
    } else {
      CalmEffects(o, o, e, o);
    }
  }

  lemma NotCurrent(o: Owner, current: bool)
    requires Ready(o) && o.stage.PendingStage?
    ensures StageCurrent(o, current) <==> !Terminal(o) && current && !o.stage.pending.Over?
  {
  }

  lemma Takes(o: Owner, current: bool)
    requires Ready(o)
    ensures Passes(o, Event.Take(current)) == if StageCurrent(o, current) && Takeable(o.stage) then [Took] else []
  {
  }

  lemma TakeEffects(o: Owner, current: bool)
    requires Ready(o)
    ensures Effects(o, Event.Take(current), TakeStage(o, current))
  {
    var e := Event.Take(current);
    Takes(o, current);
    OverCalm(o);
    hide StageOver, Passes, StageCurrent;
    if !StageCurrent(o, current) {
      CalmEffects(o, o, e, StageOver(o));
    } else if !Takeable(o.stage) {
      CalmEffects(o, o, e, o);
    }
  }

  lemma StoreEffects(o: Owner, stage: Stage)
    requires Ready(o) && o.mode.Model? && !Terminal(o) && Kin(o.stage, stage)
    ensures var t := StoreOpening(Passed(o, stage, WasStored));
      t.marks == o.marks + [WasStored] && Kin(o.stage, t.stage) && t.settled == Some(Stored) && t.state.Retired?
  {
  }

  lemma SettleEffects(o: Owner, current: bool)
    requires Ready(o)
    ensures Effects(o, Event.Settle(current), Settled(o, current))
  {
    var e := Event.Settle(current);
    OverCalm(o);
    if o.stage.PendingStage? { NotCurrent(o, current); }
    SettlePasses(o, current);
    hide StageOver, Passes, StageCurrent, StoreOpening, Passed;
    if o.stage.PendingStage? && !StageCurrent(o, current) {
      CalmEffects(o, o, e, StageOver(o));
    } else if o.stage == PendingStage(Awaiting) {
      StoreEffects(o, PendingStage(Over));
    } else {
      CalmEffects(o, o, e, o);
    }
  }

  lemma SettlePasses(o: Owner, current: bool)
    ensures Passes(o, Event.Settle(current)) == if !Terminal(o) && current && o.stage == PendingStage(Awaiting) then [WasStored] else []
    ensures Passes(o, SettleOriginals(current)) == if !Terminal(o) && current && o.stage == RetainedStage(OriginalsTaken) then [WasStored] else []
  {
  }

  lemma SettleRetainedEffects(o: Owner, current: bool)
    requires Ready(o)
    ensures Effects(o, SettleOriginals(current), SettledRetained(o, current))
  {
    var e := SettleOriginals(current);
    DisposeCalm(o);
    SettlePasses(o, current);
    hide DisposeOpening, Passes, StoreOpening, Passed;
    if !Current(o, current) {
      CalmEffects(o, o, e, DisposeOpening(o));
    } else if o.state.Queued? && o.stage == RetainedStage(OriginalsTaken) {
      StoreEffects(o, RetainedStage(OriginalsStored));
    } else {
      CalmEffects(o, o, e, o);
    }
  }

  lemma HoldEffects(o: Owner, e: Event)
    requires Ready(o) && (e.HoldInspection? || e.HoldStage?)
    ensures Effects(o, e, Step(o, e))
  {
    if e.HoldInspection? && !Current(o, e.current) {
      DisposeCalm(o);
      hide DisposeOpening, Advance;
      CalmEffects(o, o, e, DisposeOpening(o));
    } else {
      hide Advance;
      AdvanceEffects(o, e, e.current, Taken, Held, WasHeld);
    }
  }

  /** What is owed or running makes no difference to the effects. */
  lemma SameEffects(o: Owner, e: Event, t: Owner, p: Owner)
    requires Effects(o, e, t) && p == t.(owed := p.owed, performing := p.performing)
    ensures Effects(o, e, p)
  {
    hide Passes;
  }

  lemma ExecuteEffects(o: Owner, current: bool)
    requires Ready(o)
    ensures Effects(o, Execute(current), Executed(o, current))
  {
    var e, t := Execute(current), Advance(o, current, Held, Enqueued, WasEnqueued);
    InspectPasses(o, current);
    AdvanceEffects(o, e, current, Held, Enqueued, WasEnqueued);
    hide Advance, Passes, StageCurrent, Effects;
    SameEffects(o, e, t, t);
    SameEffects(o, e, t, t.(owed := t.owed.(enqueuings := t.owed.enqueuings + 1)));
  }

  lemma InspectEffects(o: Owner, current: bool)
    requires Ready(o)
    ensures Effects(o, Inspect(current), Started(o, current))
  {
    var e, t := Inspect(current), Advance(o, current, Enqueued, Inspecting, WasStarted);
    InspectPasses(o, current);
    AdvanceEffects(o, e, current, Enqueued, Inspecting, WasStarted);
    hide Advance, Passes, StageCurrent, Effects;
    SameEffects(o, e, t, t);
    SameEffects(o, e, t, t.(performing := true));
  }

  lemma InspectPasses(o: Owner, current: bool)
    ensures Passes(o, Execute(current)) == if !Terminal(o) && current && o.stage == PendingStage(Held) then [WasEnqueued] else []
    ensures Passes(o, Inspect(current)) == if !Terminal(o) && current && o.stage == PendingStage(Enqueued) then [WasStarted] else []
    ensures Passes(o, Performed(current)) ==
      if !Terminal(o) && current && o.performing && o.stage == PendingStage(Inspecting) then [WasInspected] else []
  {
  }

  lemma PerformEffects(o: Owner, current: bool)
    requires Ready(o)
    ensures Effects(o, Performed(current), AfterInspection(o, current))
  {
    var e := Performed(current);
    InspectPasses(o, current);
    if !o.performing {
      CalmEffects(o, o, e, o);
    } else {
      var back := o.(performing := false);
      if o.stage == PendingStage(Inspecting) {
        PerformedEffects(o, current);
      } else {
        hide Passes, Advance;
        CalmEffects(o, back, e, back);
      }
    }
  }

  lemma PerformedEffects(o: Owner, current: bool)
    requires Ready(o) && o.performing && o.stage == PendingStage(Inspecting)
    ensures Effects(o, Performed(current), Advance(o.(performing := false), current, Inspecting, Awaiting, WasInspected))
  {
    var e, back := Performed(current), o.(performing := false);
    InspectPasses(o, current);
    OverCalm(back);
    NotCurrent(back, current);
    hide Passes, StageOver, StageCurrent;
    if !StageCurrent(back, current) {
      CalmEffects(o, back, e, StageOver(back));
    }
  }

  /** What passes nothing and brings no receipt. */
  predicate Passing(e: Event) {
    || e.Take? || e.HoldInspection? || e.HoldStage? || e.Execute? || e.Inspect? || e.Performed? || e.Settle? || e.SettleOriginals?
  }

  lemma PassesNothing(o: Owner, e: Event)
    requires !Passing(e)
    ensures Passes(o, e) == [] && (!e.Received? ==> !Arrives(o, e))
  {
  }

  lemma DisposalEffects(o: Owner)
    requires Ready(o)
    ensures Effects(o, OwedStageDisposal, StageDisposed(o))
  {
    hide Passes, StageOver, DisposeOpening, RetireOpening, Effects;
    PassesNothing(o, OwedStageDisposal);
    DueEffects(o, o, OwedStageDisposal);
    if o.owed.stageDisposals > 0 { DueEffects(o, o.(owed := o.owed.(stageDisposals := o.owed.stageDisposals - 1)), OwedStageDisposal); }
  }

  lemma RetirementEffects(o: Owner)
    requires Ready(o)
    ensures Effects(o, OwedRetirement, AfterRetirement(o))
  {
    hide Passes, StageOver, DisposeOpening, RetireOpening, Effects;
    PassesNothing(o, OwedRetirement);
    DueEffects(o, o, OwedRetirement);
    if o.owed.retirements > 0 { DueEffects(o, o.(owed := o.owed.(retirements := o.owed.retirements - 1)), OwedRetirement); }
  }

  lemma DeliveryEffects(o: Owner, throws: bool)
    requires Ready(o)
    ensures Effects(o, DeliveryReturns(throws), AfterDelivery(o, throws))
  {
    hide Passes, StageOver, DisposeOpening, RetireOpening, Effects;
    PassesNothing(o, DeliveryReturns(throws));
    DueEffects(o, o, DeliveryReturns(throws));
    if o.owed.deliveries > 0 { DueEffects(o, o.(owed := o.owed.(deliveries := o.owed.deliveries - 1)), DeliveryReturns(throws)); }
  }

  lemma AdoptionEffects(o: Owner, throws: bool)
    requires Ready(o)
    ensures Effects(o, AdoptionReturns(throws), AfterAdoption(o, throws))
  {
    hide Passes, StageOver, DisposeOpening, RetireOpening, Effects;
    PassesNothing(o, AdoptionReturns(throws));
    DueEffects(o, o, AdoptionReturns(throws));
    if o.owed.adoptions > 0 { DueEffects(o, o.(owed := o.owed.(adoptions := o.owed.adoptions - 1)), AdoptionReturns(throws)); }
  }

  lemma EnqueueEffects(o: Owner, throws: bool)
    requires Ready(o)
    ensures Effects(o, EnqueueReturns(throws), AfterEnqueue(o, throws))
  {
    hide Passes, StageOver, DisposeOpening, RetireOpening, Effects;
    PassesNothing(o, EnqueueReturns(throws));
    DueEffects(o, o, EnqueueReturns(throws));
    if o.owed.enqueuings > 0 { DueEffects(o, o.(owed := o.owed.(enqueuings := o.owed.enqueuings - 1)), EnqueueReturns(throws)); }
  }

  lemma SelfEffects(o: Owner, e: Event, t: Owner)
    requires Ready(o) && Passes(o, e) == [] && !Arrives(o, e)
    requires t.state == o.state && t.marks == o.marks && t.stage == o.stage && t.settled == o.settled
    ensures Effects(o, e, t)
  {
    hide Passes, Arrives;
    assert o.marks + [] == o.marks;
  }

  lemma ReturnEffects(o: Owner)
    requires Ready(o)
    ensures Effects(o, CloseReturns, AfterClose(o)) && Effects(o, CancelReturns, AfterCancel(o))
  {
    hide Passes, Effects, Ready;
    PassesNothing(o, CloseReturns);
    PassesNothing(o, CancelReturns);
    SelfEffects(o, CloseReturns, AfterClose(o));
    SelfEffects(o, CancelReturns, AfterCancel(o));
  }

  lemma DueEffects(o: Owner, p: Owner, e: Event)
    requires Ready(o) && p == o.(owed := p.owed) && Passes(o, e) == [] && !Arrives(o, e)
    ensures Effects(o, e, p) && Effects(o, e, StageOver(p)) && Effects(o, e, DisposeOpening(p)) && Effects(o, e, RetireOpening(p))
  {
    hide Passes, StageOver, DisposeOpening, RetireOpening;
    assert o.marks + [] == o.marks;
    OverCalm(p);
    DisposeCalm(p);
    CalmEffects(o, p, e, StageOver(p));
    CalmEffects(o, p, e, DisposeOpening(p));
    CalmEffects(o, p, e, RetireOpening(p));
  }

  // ---- The steps of the host.

  lemma ChoiceEffects(o: Owner, e: Event)
    requires Ready(o) && (e.ChooseSource? || e.ChooseProject?)
    ensures Effects(o, e, Step(o, e))
  {
    PassesNothing(o, e);
    DisposeCalm(o);
    hide Passes, DisposeOpening;
    assert o.marks + [] == o.marks;
  }

  lemma EndEffects(o: Owner, e: Event)
    requires Ready(o) && (e.SocketClosed? || e.Dispose? || e.DisposeStage?)
    ensures Effects(o, e, Step(o, e))
  {
    PassesNothing(o, e);
    DisposeCalm(o);
    OverCalm(o);
    hide Passes, DisposeOpening, StageOver, Fail, Calm, Effects;
    match e
    case SocketClosed(current) =>
      FailCalm(o, current);
      CalmEffects(o, o, e, Fail(o, current));
    case Dispose => CalmEffects(o, o, e, DisposeOpening(o));
    case DisposeStage => CalmEffects(o, o, e, StageOver(o));
  }

  lemma DiscoveryEffects(o: Owner, current: bool, discovery: Discovery)
    requires Ready(o)
    ensures Effects(o, Discovered(current, discovery), AfterDiscovery(o, current, discovery))
  {
    var e, back := Discovered(current, discovery), o.(discovering := false);
    PassesNothing(o, e);
    hide Passes, Fail, DisposeOpening;
    if !o.discovering {
      SelfEffects(o, e, o);
    } else if discovery.NoSession? {
      FailCalm(back, current);
      CalmEffects(o, back, e, Fail(back, current));
    } else {
      ArrivedEffects(o, current, e);
    }
  }

  lemma ArrivedEffects(o: Owner, current: bool, e: Event)
    requires Ready(o) && Passes(o, e) == [] && !Arrives(o, e)
    ensures Effects(o, e, SessionArrived(o.(discovering := false), current))
  {
    var back := o.(discovering := false, obtained := true);
    hide Passes, DisposeOpening, Arrives, Effects, Calm;
    if Current(back, current) {
      LiveEffects(o, e, Deliver(back.(state := Sources)));
    } else {
      var t := DisposeOpening(back);
      DisposeCalm(back);
      CalmEffects(o, back, e, t);
      SameEffects(o, e, t, t.(owed := t.owed.(closings := t.owed.closings + 1)));
    }
  }

  lemma LiveEffects(o: Owner, e: Event, t: Owner)
    requires Passes(o, e) == [] && !Arrives(o, e) && !Terminal(t)
    requires t.marks == o.marks && t.stage == o.stage && t.settled == o.settled
    ensures Effects(o, e, t)
  {
    hide Passes, Arrives;
    assert o.marks + [] == o.marks;
  }

  lemma SourceEffects(o: Owner, current: bool, ok: bool)
    requires Ready(o)
    ensures Effects(o, SourceOpened(current, ok), AfterSource(o, current, ok))
  {
    var e, back := SourceOpened(current, ok), o.(sourcing := false);
    PassesNothing(o, e);
    hide Passes, Fail, DisposeOpening;
    assert o.marks + [] == o.marks;
    FailCalm(back, current);
    DisposeCalm(back);
  }

  lemma ReceiptEffects(o: Owner, current: bool, receipt: Receipt)
    requires Ready(o)
    ensures Effects(o, Event.Received(current, receipt), AfterReceipt(o, current, receipt))
  {
    var e, back := Event.Received(current, receipt), o.(receiving := false);
    PassesNothing(o, e);
    hide Passes, Calm, Fail, DisposeOpening;
    if Arrives(o, e) {
      ReceivedEffects(o, receipt);
    } else if !o.receiving {
      SelfEffects(o, e, o);
    } else if receipt.Broken? {
      FailCalm(back, current);
      CalmEffects(o, back, e, Fail(back, current));
    } else {
      DisposeCalm(back);
      CalmEffects(o, back, e, DisposeOpening(back));
    }
  }

  lemma ReceivedEffects(o: Owner, receipt: Receipt)
    requires Ready(o) && Arrives(o, Event.Received(true, receipt))
    ensures Effects(o, Event.Received(true, receipt), AfterReceipt(o, true, receipt))
  {
    PassesNothing(o, Event.Received(true, receipt));
    hide Passes;
    assert o.marks + [] == o.marks;
    ArrivalStages(o, receipt);
  }

  /** Every step passes exactly its milestone, keeps the kind of the stage that the receipt made, and settles as it ends. */
  lemma StepEffects(o: Owner, e: Event)
    requires Inv(o)
    ensures Effects(o, e, Step(o, e))
  {
    InvReady(o);
    hide Inv, Ready, Effects, StageDisposed, AfterRetirement, AfterDelivery, AfterAdoption, AfterEnqueue, AfterClose, AfterCancel, Executed,
      Started, AfterDiscovery, AfterSource, AfterReceipt, AfterInspection, Settled, SettledRetained, TakeStage;
    match e
    case Take(current) => TakeEffects(o, current);
    case HoldInspection(_) => HoldEffects(o, e);
    case HoldStage(_) => HoldEffects(o, e);
    case Execute(current) => ExecuteEffects(o, current);
    case Inspect(current) => InspectEffects(o, current);
    case Performed(current) => PerformEffects(o, current);
    case Settle(current) => SettleEffects(o, current);
    case SettleOriginals(current) => SettleRetainedEffects(o, current);
    case OwedStageDisposal => DisposalEffects(o);
    case OwedRetirement => RetirementEffects(o);
    case DeliveryReturns(throws) => DeliveryEffects(o, throws);
    case AdoptionReturns(throws) => AdoptionEffects(o, throws);
    case EnqueueReturns(throws) => EnqueueEffects(o, throws);
    case CloseReturns => ReturnEffects(o);
    case CancelReturns => ReturnEffects(o);
    case Discovered(current, discovery) => DiscoveryEffects(o, current, discovery);
    case SourceOpened(current, ok) => SourceEffects(o, current, ok);
    case Received(current, receipt) => ReceiptEffects(o, current, receipt);
    case ChooseSource(_, _) => ChoiceEffects(o, e);
    case ChooseProject(_, _) => ChoiceEffects(o, e);
    case _ => EndEffects(o, e);
  }

  // ---- Whole runs.

  /** The receipt that ended the receiving of a run, if one did. */
  function Received(o: Owner, es: seq<Event>): Option<Receipt>
    decreases |es|
  {
    if es == [] then None
    else if Arrives(o, es[0]) then Some(es[0].receipt) else Received(Step(o, es[0]), es[1..])
  }

  /** The step at which the opening ended was a failure, a store, or a retirement. */
  function Ending(o: Owner, es: seq<Event>): Option<Settlement>
    decreases |es|
  {
    if es == [] then None
    else if !Terminal(o) && Terminal(Step(o, es[0])) then
      Some(if Stores(o, es[0]) then Stored else if Fails(o, es[0]) then SettledFailed else SettledRetired)
    else Ending(Step(o, es[0]), es[1..])
  }

  lemma {:induction false} KindStays(o: Owner, es: seq<Event>)
    requires Inv(o) && !o.stage.NoStage?
    ensures Kin(o.stage, Run(o, es).stage)
    decreases |es|
  {
    hide Inv, Step, Arrives;
    if es != [] {
      StepKeeps(o, es[0]);
      StepEffects(o, es[0]);
      if Arrives(o, es[0]) { StagedOnce(o, es[0]); }
      KindStays(Step(o, es[0]), es[1..]);
    }
  }

  lemma StagedOnce(o: Owner, e: Event)
    requires Inv(o) && Arrives(o, e)
    ensures o.stage.NoStage?
  {
  }

  lemma ModeStays(o: Owner, e: Event)
    ensures Step(o, e).mode == o.mode
  {
    hide Step;
    if e.ChooseSource? || e.ChooseProject? || e.SocketClosed? {
      ChoiceMode(o, e);
    } else if e.Discovered? || e.SourceOpened? {
      ArrivalMode(o, e);
    } else if e.Received? {
      ReceiptMode(o, e);
    } else {
      StageMoves(o, e);
    }
  }

  lemma ChoiceMode(o: Owner, e: Event)
    requires e.ChooseSource? || e.ChooseProject? || e.SocketClosed?
    ensures Step(o, e).mode == o.mode
  {
    hide Current, Fail, DisposeOpening;
    EndMode(o, e.current);
  }

  lemma EndMode(o: Owner, current: bool)
    ensures Fail(o, current).mode == o.mode && DisposeOpening(o).mode == o.mode
  {
  }

  lemma ArrivalMode(o: Owner, e: Event)
    requires e.Discovered? || e.SourceOpened?
    ensures Step(o, e).mode == o.mode
  {
    hide Current, Fail, DisposeOpening;
    if e.Discovered? {
      EndMode(o.(discovering := false), e.current);
      EndMode(o.(discovering := false, obtained := true), e.current);
    } else {
      EndMode(o.(sourcing := false), e.current);
    }
  }

  lemma StagedMode(o: Owner, receipt: Receipt)
    ensures Deliver(Staged(o, receipt)).mode == o.mode
  {
  }

  lemma ReceiptMode(o: Owner, e: Event)
    requires e.Received?
    ensures Step(o, e).mode == o.mode
  {
    hide Current, Fail, DisposeOpening, Staged, Deliver;
    EndMode(o.(receiving := false), e.current);
    StagedMode(o.(receiving := false), e.receipt);
  }

  lemma {:induction false} KindIsReceived(o: Owner, es: seq<Event>)
    requires Inv(o) && o.stage.NoStage?
    ensures match Received(o, es)
      case None => Run(o, es).stage.NoStage?
      case Some(receipt) => Kin(StageOf(o.mode, receipt), Run(o, es).stage)
    decreases |es|
  {
    hide Inv, Step, Arrives, StageOf;
    if es != [] {
      StepKeeps(o, es[0]);
      StepEffects(o, es[0]);
      if Arrives(o, es[0]) {
        SomeStage(o, es[0]);
        KindStays(Step(o, es[0]), es[1..]);
      } else {
        ModeStays(o, es[0]);
        KindIsReceived(Step(o, es[0]), es[1..]);
      }
    }
  }

  lemma SomeStage(o: Owner, e: Event)
    requires Arrives(o, e)
    ensures e.Received? && !StageOf(o.mode, e.receipt).NoStage?
  {
  }

  /**
    Main result: in every run the stage is of the kind that the receipt makes. Only a verified projection is ever
    staged for inspection, and a model is stored as inspected only behind one.
  */
  lemma StageIsReceived(mode: Mode, es: seq<Event>)
    ensures var o, receipt := Run(New(mode), es), Received(New(mode), es);
      && (o.stage.NoStage? <==> receipt.None?)
      && (o.stage.PendingStage? <==> mode.Model? && receipt == Some(Verified))
      && (o.stage.RetainedStage? <==> mode.Model? && receipt == Some(Unavailable))
      && (WasInspected in o.marks ==> receipt == Some(Verified))
  {
    hide Run, Received, Inv, Milestones, Cancels, Owing, SessionOwned, Progress, Settlements;
    NewInv(mode);
    FreshStage(mode);
    KindIsReceived(New(mode), es);
    EveryRun(mode, es);
    ReceivedWell(New(mode), es);
    if WasInspected in Run(New(mode), es).marks { InspectedPending(Run(New(mode), es)); }
  }

  lemma FreshStage(mode: Mode)
    ensures New(mode).stage.NoStage? && New(mode).mode == mode
  {
  }

  lemma {:induction false} ReceivedWell(o: Owner, es: seq<Event>)
    ensures Received(o, es) != Some(Broken)
    decreases |es|
  {
    hide Step;
    if es != [] { ReceivedWell(Step(o, es[0]), es[1..]); }
  }

  lemma InspectedPending(o: Owner)
    requires Inv(o) && WasInspected in o.marks
    ensures o.stage.PendingStage?
  {
  }

  lemma {:induction false} SettledStays(o: Owner, es: seq<Event>)
    requires Inv(o) && Terminal(o) && o.mode.Model?
    ensures Run(o, es).settled == o.settled && Ending(o, es).None?
    decreases |es|
  {
    hide Inv, Step;
    if es != [] {
      StepKeeps(o, es[0]);
      EndsExactly(o, es[0]);
      StepEffects(o, es[0]);
      ModeStays(o, es[0]);
      SettledTerminal(o);
      SettledStays(Step(o, es[0]), es[1..]);
    }
  }

  lemma SettledTerminal(o: Owner)
    requires Inv(o)
    ensures o.mode.Model? ==> (o.settled.Some? <==> Terminal(o))
  {
  }

  lemma {:induction false} SettledAsEnded(o: Owner, es: seq<Event>)
    requires Inv(o) && !Terminal(o) && o.mode.Model?
    ensures Run(o, es).settled == Ending(o, es)
    decreases |es|
  {
    hide Inv, Step, Stores, Fails, Retires, Passes;
    SettledTerminal(o);
    if es != [] {
      StepKeeps(o, es[0]);
      EndsExactly(o, es[0]);
      StepEffects(o, es[0]);
      ModeStays(o, es[0]);
      StoresPasses(o, es[0]);
      if Terminal(Step(o, es[0])) {
        SettledStays(Step(o, es[0]), es[1..]);
      } else {
        SettledAsEnded(Step(o, es[0]), es[1..]);
      }
    }
  }

  lemma StoresPasses(o: Owner, e: Event)
    requires !Terminal(o)
    ensures Stores(o, e) <==> Passes(o, e) == [WasStored]
  {
  }

  /** The settlement of a model opening is the way it first ended: by a store, by a failure, or by anything else that retires it. */
  lemma SettlementIsTheEnding(es: seq<Event>)
    ensures Run(New(Model), es).settled == Ending(New(Model), es)
  {
    NewInv(Model);
    hide Run;
    SettledAsEnded(New(Model), es);
  }
}
