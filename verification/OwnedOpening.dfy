/**
  The opening and its stage as one object: every method is the code between two callbacks, and what the
  callbacks still owe is counted.
*/
module OwnedOpening {
  import opened Text
  import opened ConnectedOriginals
  import OpeningAnswers

  class Opening {
    const mode: Mode
    var state: State
    var aborted: bool
    var discovering: bool
    var sourcing: bool
    var receiving: bool
    var performing: bool
    var obtained: bool
    var stage: Stage
    var settled: Option<Settlement>
    var owed: Owed
    ghost var closes: nat
    ghost var adopted: nat
    ghost var cancelled: nat
    ghost var marks: seq<Mark>

    ghost function View(): Owner
      reads this
    {
      Owner(mode, state, aborted, discovering, sourcing, receiving, performing, obtained, closes, stage, adopted, cancelled,
        settled, marks, owed)
    }

    /** Session, payload and cancel have one owner each. */
    ghost predicate Valid()
      reads this
    {
      Inv(View())
    }

    /** What a caller may rely on between any two steps. */
    ghost predicate Accounted()
      reads this
    {
      Accounts(View())
    }

    constructor (mode: Mode)
      ensures Valid() && Accounted() && View() == New(mode)
    {
      hide Inv, Accounts;
      NewInv(mode);
      InvAccounts(New(mode));
      this.mode := mode;
      state, aborted, discovering, sourcing, receiving, performing, obtained := Discovering, false, true, false, false, false, false;
      stage, settled, owed := NoStage, None, Owed(0, 0, 0, 0, 0, 0, 0);
      closes, adopted, cancelled, marks := 0, 0, 0, [];
    }

    method Settle(outcome: Settlement)
      modifies this`settled
      ensures settled == FirstSettlement(old(View()), outcome)
    {
      if mode.Model? && settled.None? {
        settled := Some(outcome);
      }
    }

    method End(to: State)
      modifies this
      ensures View() == Finish(old(View()), to)
    {
      hide HasSession, HasStage;
      var previous := state;
      state := to;
      Settle(if to.Failed? then SettledFailed else SettledRetired);
      aborted := true;
      owed := owed.(closings := owed.closings + if HasSession(previous) then 1 else 0,
        stageDisposals := owed.stageDisposals + if HasStage(previous) then 1 else 0);
    }

    method Discard()
      modifies this
      ensures View() == DisposeOpening(old(View()))
    {
      hide Finish;
      if !state.Retired? {
        End(Retired);
      }
    }

    predicate IsCurrent(current: bool)
      reads this
      ensures IsCurrent(current) == Current(View(), current)
    {
      !state.Failed? && !state.Retired? && !aborted && current
    }

    method Break(current: bool)
      modifies this
      ensures View() == Fail(old(View()), current)
    {
      hide Finish, DisposeOpening, Current;
      if IsCurrent(current) {
        End(Failed);
        owed := owed.(deliveries := owed.deliveries + 1);
      } else if !state.Failed? {
        Discard();
      }
    }

    method Retire()
      modifies this
      ensures View() == RetireOpening(old(View()))
    {
      hide DisposeOpening;
      if HasStage(state) {
        Discard();
      }
    }

    method GiveUp()
      modifies this
      ensures View() == StageOver(old(View()))
    {
      hide RetireOpening;
      if !Gone(stage) {
        if stage.PendingStage? && Cancellable(stage.pending) {
          stage := PendingStage(Over);
          owed := owed.(cancels := owed.cancels + 1);
        } else {
          stage := Ended(stage);
          Retire();
        }
      }
    }

    /** A disposed opening is over; its session is closed or owed to be, and a model opening is settled. */
    method Dispose()
      requires Valid()
      modifies this
      ensures Valid() && Accounted() && View() == Step(old(View()), Event.Dispose)
      ensures state.Retired? && (old(settled.Some?) ==> settled == old(settled))
    {
      hide Inv, Accounts, Measure, DisposeOpening;
      Stepped(View(), Event.Dispose);
      RetiredAfter(View());
      Discard();
    }

    /** The socket closed: a live opening fails, one that is over keeps its settlement. */
    method Failing(current: bool)
      requires Valid()
      modifies this
      ensures Valid() && Accounted() && View() == Step(old(View()), SocketClosed(current))
      ensures (state.Failed? || state.Retired?) && (old(settled.Some?) ==> settled == old(settled))
    {
      hide Inv, Accounts, Measure, Fail;
      Stepped(View(), SocketClosed(current));
      FailedAfter(View(), current);
      Break(current);
    }

    /** A disposed stage is over, and owes its cancel exactly when it held an inspection. */
    method DisposeStage()
      requires Valid()
      modifies this
      ensures Valid() && Accounted() && View() == Step(old(View()), Event.DisposeStage)
      ensures Gone(stage) && adopted == old(adopted) && marks == old(marks)
      ensures owed.cancels == old(owed.cancels) + if old(stage.PendingStage? && Cancellable(stage.pending)) then 1 else 0
    {
      hide Inv, Accounts, Measure, StageOver;
      Stepped(View(), Event.DisposeStage);
      StageOverGone(View());
      StageOverCancels(View());
      GiveUp();
    }

    method Arrived(current: bool)
      modifies this
      ensures View() == SessionArrived(old(View()), current)
    {
      hide DisposeOpening, Current;
      obtained := true;
      if IsCurrent(current) {
        Enter(Sources, stage);
      } else {
        Discard();
        owed := owed.(closings := owed.closings + 1);
      }
    }

    method OnDiscovered(current: bool, discovery: Discovery)
      requires Valid()
      modifies this
      ensures Valid() && Accounted() && View() == Step(old(View()), Discovered(current, discovery))
      ensures (state.Failed? || state.Retired?) && obtained ==> closes + owed.closings == 1
    {
      hide Inv, Measure, Fail, SessionArrived;
      Stepped(View(), Discovered(current, discovery));
      if discovering {
        discovering := false;
        if discovery.NoSession? {
          Break(current);
        } else {
          Arrived(current);
        }
      }
    }

    method OnChooseSource(current: bool, known: bool)
      requires Valid()
      modifies this
      ensures Valid() && Accounted() && View() == Step(old(View()), ChooseSource(current, known))
      ensures sourcing && !old(sourcing) ==> old(state) == Sources
    {
      hide Inv, Accounts, Measure, DisposeOpening, Current;
      Stepped(View(), ChooseSource(current, known));
      ChosenEffect(View(), current, known);
      if !IsCurrent(current) {
        Discard();
      } else if state.Sources? && known {
        state, sourcing := State.Opening, true;
      }
    }

    method OnSourceOpened(current: bool, ok: bool)
      requires Valid()
      modifies this
      ensures Valid() && Accounted() && View() == Step(old(View()), SourceOpened(current, ok))
      ensures closes + owed.closings <= 1
    {
      hide Inv, Measure, Fail, DisposeOpening, Current;
      Stepped(View(), SourceOpened(current, ok));
      if sourcing {
        sourcing := false;
        if !ok {
          Break(current);
        } else if IsCurrent(current) {
          Enter(Projects, stage);
        } else {
          Discard();
        }
      }
    }

    method OnChooseProject(current: bool, known: bool)
      requires Valid()
      modifies this
      ensures Valid() && Accounted() && View() == Step(old(View()), ChooseProject(current, known))
      ensures receiving && !old(receiving) ==> old(state) == Projects
    {
      hide Inv, Accounts, Measure, DisposeOpening, Current;
      Stepped(View(), ChooseProject(current, known));
      ChosenEffect(View(), current, known);
      if !IsCurrent(current) {
        Discard();
      } else if state.Projects? && known {
        state, receiving := State.Receiving, true;
      }
    }

    /** A new state is delivered. */
    method Enter(to: State, with: Stage)
      modifies this`state, this`stage, this`owed
      ensures View() == Deliver(old(View()).(state := to, stage := with))
    {
      state, stage := to, with;
      owed := owed.(deliveries := owed.deliveries + 1);
    }

    method Stand(receipt: Receipt)
      modifies this`state, this`stage, this`owed
      ensures View() == Deliver(Staged(old(View()), receipt))
    {
      hide Deliver;
      if mode.Originals? {
        Enter(Queued, PlainStage(true));
      } else if receipt.Verified? {
        Enter(Inspection, PendingStage(Available));
      } else {
        Enter(Queued, RetainedStage(OriginalsAvailable));
      }
    }

    method OnReceived(current: bool, receipt: Receipt)
      requires Valid()
      modifies this
      ensures Valid() && Accounted() && View() == Step(old(View()), Received(current, receipt))
      ensures stage != old(stage) ==> old(stage).NoStage? && marks == [] && !receiving && (stage.PlainStage? <==> mode.Originals?)
      ensures stage == if old(OpeningAnswers.Arrives(View(), Received(current, receipt))) then OpeningAnswers.StageOf(mode, receipt) else old(stage)
    {
      hide Inv, Accounts, Measure, Fail, DisposeOpening, Current, Staged, Deliver;
      Stepped(View(), Received(current, receipt));
      ReceivedEffect(View(), current, receipt);
      ReceivedKind(View(), current, receipt);
      if receiving {
        receiving := false;
        if receipt.Broken? {
          Break(current);
        } else if !IsCurrent(current) {
          Discard();
        } else {
          Stand(receipt);
        }
      }
    }

    predicate IsStageCurrent(current: bool)
      reads this
      ensures IsStageCurrent(current) == StageCurrent(View(), current)
    {
      !Gone(stage) && IsCurrent(current) && (if stage.PendingStage? then state.Inspection? else state.Queued?)
    }

    method OnTake(current: bool)
      requires Valid()
      modifies this
      ensures Valid() && Accounted() && View() == Step(old(View()), Take(current))
      ensures adopted <= 1 && (adopted == 1 && old(adopted) == 0 ==> old(marks) == [] && marks == [Took] && Takeable(old(stage)))
    {
      hide Inv, Accounts, Measure, StageOver, StageCurrent;
      Stepped(View(), Take(current));
      TakenEffect(View(), current);
      if !IsStageCurrent(current) {
        GiveUp();
      } else if Takeable(stage) {
        stage := Consumed(stage);
        adopted, marks := adopted + 1, marks + [Took];
        owed := owed.(adoptions := owed.adoptions + 1);
      }
    }

    /** The stage moves on and passes a milestone. */
    method Pass(to: Stage, ghost mark: Mark)
      modifies this`stage, this`marks
      ensures View() == Passed(old(View()), to, mark)
    {
      stage := to;
      marks := marks + [mark];
    }

    method Move(current: bool, from: PendingState, to: PendingState, ghost mark: Mark) returns (moved: bool)
      modifies this
      ensures View() == Advance(old(View()), current, from, to, mark)
      ensures moved == (old(stage) == PendingStage(from) && StageCurrent(old(View()), current))
    {
      hide StageOver, StageCurrent, Passed;
      moved := false;
      if !stage.PendingStage? {
        return;
      }
      if !IsStageCurrent(current) {
        GiveUp();
        return;
      }
      if stage.pending == from {
        moved := true;
        Pass(PendingStage(to), mark);
      }
    }

    method OnHold(current: bool)
      requires Valid()
      modifies this
      ensures Valid() && Accounted() && View() == Step(old(View()), HoldInspection(current))
      ensures stage == PendingStage(Held) && old(stage) != PendingStage(Held) ==> marks == [Took, WasHeld] && adopted == 1
    {
      hide Inv, Accounts, Measure, DisposeOpening, Advance, Current;
      Stepped(View(), HoldInspection(current));
      AdvanceEffect(View(), current, Taken, Held, WasHeld);
      if !IsCurrent(current) {
        Discard();
      } else {
        var _ := Move(current, Taken, Held, WasHeld);
      }
    }

    method OnExecute(current: bool)
      requires Valid()
      modifies this
      ensures Valid() && Accounted() && View() == Step(old(View()), Execute(current))
      ensures stage == PendingStage(Enqueued) && old(stage) != PendingStage(Enqueued) ==> old(stage) == PendingStage(Held)
    {
      hide Inv, Accounts, Measure, Advance, StageCurrent;
      Stepped(View(), Execute(current));
      AdvanceEffect(View(), current, Held, Enqueued, WasEnqueued);
      var moved := Move(current, Held, Enqueued, WasEnqueued);
      if moved {
        owed := owed.(enqueuings := owed.enqueuings + 1);
      }
    }

    method OnInspect(current: bool)
      requires Valid()
      modifies this
      ensures Valid() && Accounted() && View() == Step(old(View()), Inspect(current))
      ensures stage == PendingStage(Inspecting) && old(stage) != PendingStage(Inspecting) ==> old(stage) == PendingStage(Enqueued)
    {
      hide Inv, Accounts, Measure, Advance, StageCurrent;
      Stepped(View(), Inspect(current));
      AdvanceEffect(View(), current, Enqueued, Inspecting, WasStarted);
      var moved := Move(current, Enqueued, Inspecting, WasStarted);
      if moved {
        performing := true;
      }
    }

    method OnPerformed(current: bool)
      requires Valid()
      modifies this
      ensures Valid() && Accounted() && View() == Step(old(View()), Performed(current))
      ensures stage == PendingStage(Awaiting) && old(stage) != PendingStage(Awaiting) ==> old(stage) == PendingStage(Inspecting)
    {
      hide Inv, Accounts, Measure, Advance, StageCurrent;
      Stepped(View(), Performed(current));
      AdvanceFrom(View().(performing := false), current, Inspecting, Awaiting, WasInspected);
      if performing {
        performing := false;
        if stage == PendingStage(Inspecting) {
          var _ := Move(current, Inspecting, Awaiting, WasInspected);
        }
      }
    }

    method StoredHere()
      modifies this
      ensures View() == StoreOpening(old(View()))
    {
      hide DisposeOpening;
      Settle(Stored);
      Discard();
    }

    method OnSettle(current: bool)
      requires Valid()
      modifies this
      ensures Valid() && Accounted() && View() == Step(old(View()), ConnectedOriginals.Settle(current))
      ensures settled == Some(Stored) && old(settled) != Some(Stored) ==> marks == Path(Over) && Gone(stage) && cancelled + owed.cancels == 0
    {
      hide Inv, Accounts, Measure, StageOver, StoreOpening, StageCurrent;
      Stepped(View(), ConnectedOriginals.Settle(current));
      SettledEffect(View(), current);
      if stage.PendingStage? {
        if !IsStageCurrent(current) {
          GiveUp();
        } else if stage.pending.Awaiting? {
          stage := PendingStage(Over);
          marks := marks + [WasStored];
          StoredHere();
        }
      }
    }

    method OnSettleOriginals(current: bool)
      requires Valid()
      modifies this
      ensures Valid() && Accounted() && View() == Step(old(View()), SettleOriginals(current))
      ensures settled == Some(Stored) && old(settled) != Some(Stored) ==> marks == [Took, WasStored] && adopted == 1
    {
      hide Inv, Accounts, Measure, DisposeOpening, StoreOpening, Current;
      Stepped(View(), SettleOriginals(current));
      SettledEffect(View(), current);
      if !IsCurrent(current) {
        Discard();
      } else if state.Queued? && stage == RetainedStage(OriginalsTaken) {
        stage := RetainedStage(OriginalsStored);
        marks := marks + [WasStored];
        StoredHere();
      }
    }

    /** The callback with which an adoption returns, or the exception it throws. */
    method OnAdoption(throws: bool)
      requires Valid() && owed.adoptions > 0
      modifies this
      ensures Valid() && Accounted() && View() == Step(old(View()), AdoptionReturns(throws))
      ensures Measure(View()) < old(Measure(View()))
    {
      hide Inv, Accounts, Measure, RetireOpening, StageOver;
      Stepped(View(), AdoptionReturns(throws));
      owed := owed.(adoptions := owed.adoptions - 1);
      if stage.PlainStage? {
        Retire();
      } else if throws {
        GiveUp();
      }
    }

    /** The queued work of a held inspection was handed over, or its callback threw. */
    method OnEnqueued(throws: bool)
      requires Valid() && owed.enqueuings > 0
      modifies this
      ensures Valid() && Accounted() && View() == Step(old(View()), EnqueueReturns(throws))
      ensures Measure(View()) < old(Measure(View()))
    {
      hide Inv, Accounts, Measure, StageOver;
      Stepped(View(), EnqueueReturns(throws));
      owed := owed.(enqueuings := owed.enqueuings - 1);
      if throws {
        GiveUp();
      }
    }

    method OnDelivered(throws: bool)
      requires Valid() && owed.deliveries > 0
      modifies this
      ensures Valid() && Accounted() && View() == Step(old(View()), DeliveryReturns(throws))
      ensures Measure(View()) < old(Measure(View()))
    {
      hide Inv, Accounts, Measure, DisposeOpening;
      Stepped(View(), DeliveryReturns(throws));
      owed := owed.(deliveries := owed.deliveries - 1);
      if throws {
        Discard();
      }
    }

    method OnCancelled()
      requires Valid() && owed.cancels > 0
      modifies this
      ensures Valid() && Accounted() && View() == Step(old(View()), CancelReturns)
      ensures cancelled == old(cancelled) + 1 == 1
      ensures Measure(View()) < old(Measure(View()))
    {
      hide Inv, Measure;
      Stepped(View(), CancelReturns);
      owed := owed.(cancels := owed.cancels - 1, retirements := owed.retirements + 1);
      cancelled := cancelled + 1;
    }

    method OnRetirement()
      requires Valid() && owed.retirements > 0
      modifies this
      ensures Valid() && Accounted() && View() == Step(old(View()), OwedRetirement)
      ensures Measure(View()) < old(Measure(View()))
    {
      hide Inv, Accounts, Measure, RetireOpening;
      Stepped(View(), OwedRetirement);
      owed := owed.(retirements := owed.retirements - 1);
      Retire();
    }

    method OnSessionClose()
      requires Valid() && owed.closings > 0
      modifies this
      ensures Valid() && Accounted() && View() == Step(old(View()), CloseReturns)
      ensures closes == old(closes) + 1 == 1
      ensures Measure(View()) < old(Measure(View()))
    {
      hide Inv, Measure;
      Stepped(View(), CloseReturns);
      owed := owed.(closings := owed.closings - 1);
      closes := closes + 1;
    }

    method OnStageDisposal()
      requires Valid() && owed.stageDisposals > 0
      modifies this
      ensures Valid() && Accounted() && View() == Step(old(View()), OwedStageDisposal)
      ensures Gone(stage)
      ensures Measure(View()) < old(Measure(View()))
    {
      hide Inv, Accounts, Measure, StageOver;
      Stepped(View(), OwedStageDisposal);
      StageOverGone(View().(owed := owed.(stageDisposals := owed.stageDisposals - 1)));
      owed := owed.(stageDisposals := owed.stageDisposals - 1);
      GiveUp();
    }
  }

  lemma StageOverGone(o: Owner)
    ensures Gone(StageOver(o).stage) && StageOver(o).marks == o.marks && StageOver(o).adopted == o.adopted
    ensures StageOver(o).settled != Some(Stored) || o.settled == Some(Stored)
  {
    hide DisposeOpening;
    if !Gone(o.stage) {
      EndedGone(o.stage);
      DisposedSame(o.(stage := Ended(o.stage)));
      hide Gone, Ended;
    }
  }

  lemma EndedGone(stage: Stage)
    ensures Gone(Ended(stage)) && Gone(PendingStage(Over))
  {
  }

  lemma StageOverCancels(o: Owner)
    ensures StageOver(o).owed.cancels == o.owed.cancels + if o.stage.PendingStage? && Cancellable(o.stage.pending) then 1 else 0
  {
    hide DisposeOpening;
    DisposedCancels(o.(stage := Ended(o.stage)));
  }

  lemma DisposedCancels(o: Owner)
    ensures DisposeOpening(o).owed.cancels == o.owed.cancels
  {
  }

  lemma RetiredAfter(o: Owner)
    ensures DisposeOpening(o).state.Retired? && (o.settled.Some? ==> DisposeOpening(o).settled == o.settled)
  {
  }

  lemma FailedAfter(o: Owner, current: bool)
    ensures Terminal(Fail(o, current)) && (o.settled.Some? ==> Fail(o, current).settled == o.settled)
  {
  }

  lemma DisposedSame(o: Owner)
    ensures var d := DisposeOpening(o);
      d.stage == o.stage && d.marks == o.marks && d.adopted == o.adopted && d.sourcing == o.sourcing && d.receiving == o.receiving
    ensures DisposeOpening(o).settled != Some(Stored) || o.settled == Some(Stored)
  {
  }

  lemma ChosenEffect(o: Owner, current: bool, known: bool)
    ensures ChosenSource(o, current, known).sourcing && !o.sourcing ==> o.state.Sources?
    ensures ChosenProject(o, current, known).receiving && !o.receiving ==> o.state.Projects?
  {
    hide DisposeOpening;
    DisposedSame(o);
  }

  lemma ReceivedEffect(o: Owner, current: bool, receipt: Receipt)
    requires Inv(o)
    ensures var r := AfterReceipt(o, current, receipt);
      r.stage != o.stage ==> o.stage.NoStage? && r.marks == [] && !r.receiving && (r.stage.PlainStage? <==> o.mode.Originals?)
  {
    hide DisposeOpening, Current;
    DisposedSame(o.(receiving := false));
  }

  lemma ReceivedKind(o: Owner, current: bool, receipt: Receipt)
    ensures AfterReceipt(o, current, receipt).stage ==
      if OpeningAnswers.Arrives(o, Received(current, receipt)) then OpeningAnswers.StageOf(o.mode, receipt) else o.stage
  {
    var back := o.(receiving := false);
    if OpeningAnswers.Arrives(o, Received(current, receipt)) {
      OpeningAnswers.ArrivalStages(o, receipt);
    } else {
      EndsStage(back, current);
    }
    hide Fail, DisposeOpening;
  }

  lemma EndsStage(o: Owner, current: bool)
    ensures Fail(o, current).stage == o.stage && DisposeOpening(o).stage == o.stage
  {
  }

  lemma TakenEffect(o: Owner, current: bool)
    requires Inv(o)
    ensures var r := TakeStage(o, current);
      r.adopted <= 1 && (r.adopted == 1 && o.adopted == 0 ==> o.marks == [] && r.marks == [Took] && Takeable(o.stage))
  {
    hide StageOver, StageCurrent;
    StageOverGone(o);
    assert o.marks == [] ==> o.marks + [Took] == [Took];
  }

  lemma AdvanceFrom(o: Owner, current: bool, from: PendingState, to: PendingState, mark: Mark)
    requires !to.Over?
    ensures Advance(o, current, from, to, mark).stage == PendingStage(to) && o.stage != PendingStage(to) ==> o.stage == PendingStage(from)
  {
    hide StageOver, StageCurrent;
    StageOverGone(o);
  }

  lemma AdvanceEffect(o: Owner, current: bool, from: PendingState, to: PendingState, mark: Mark)
    requires Inv(o) && !to.Over? && !from.Over? && from != to
    ensures var r := Advance(o, current, from, to, mark);
      r.stage == PendingStage(to) && o.stage != PendingStage(to) ==>
        o.stage == PendingStage(from) && r.marks == Path(from) + [mark] && r.adopted == o.adopted
    ensures o.stage == PendingStage(Taken) ==> o.adopted == 1
    ensures DisposeOpening(o).stage == o.stage
  {
    hide StageOver, StageCurrent, DisposeOpening;
    StageOverGone(o);
    DisposedSame(o);
  }

  lemma SettledEffect(o: Owner, current: bool)
    requires Inv(o)
    ensures var r := Settled(o, current);
      r.settled == Some(Stored) && o.settled != Some(Stored) ==> r.marks == Path(Over) && Gone(r.stage) && r.cancelled + r.owed.cancels == 0
    ensures var r := SettledRetained(o, current);
      r.settled == Some(Stored) && o.settled != Some(Stored) ==> r.marks == [Took, WasStored] && r.adopted == 1
  {
    hide StageOver, StageCurrent;
    StageOverGone(o);
    DisposedSame(o);
  }

  /** Session, payload, cancel and settlement, counted. */
  ghost predicate Accounts(o: Owner) {
    && o.closes + o.owed.closings <= 1 && (Terminal(o) ==> o.closes + o.owed.closings == if o.obtained then 1 else 0)
    && o.adopted <= 1 && o.cancelled + o.owed.cancels <= 1
    && (o.mode.Model? ==> (o.settled.Some? <==> Terminal(o)))
    && (o.settled == Some(Stored) ==> o.adopted == 1 && o.cancelled + o.owed.cancels == 0)
  }

  lemma InvAccounts(o: Owner)
    requires Inv(o)
    ensures Accounts(o)
  {
  }

  /** What a valid opening is after a step. */
  lemma Stepped(o: Owner, e: Event)
    requires Inv(o)
    ensures Inv(Step(o, e)) && Accounts(Step(o, e))
    ensures Due(o, e) ==> Measure(Step(o, e)) < Measure(o)
  {
    hide Inv, Accounts, Step, Due, Measure;
    StepKeeps(o, e);
    InvAccounts(Step(o, e));
    if Due(o, e) {
      DueDecreases(o, e);
    }
  }
}
