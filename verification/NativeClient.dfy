/** The native workspace client as an object: each method is the code between two awaits. */
module NativeClient {
  import opened Text
  import opened NativeWorkspace
  import NativeAnswers

  class NativeWorkspaceClient {
    var epoch: nat
    var sequence: nat
    var pendingRelease: Option<nat>
    var choosing: bool
    var opening: bool
    var disposed: bool
    var grant: Option<nat>
    var projects: map<nat, bool>
    /** The unfinished calls: in the program they are the suspended async functions. */
    var calls: map<nat, Call>
    var next: nat
    ghost var log: seq<Entry>

    ghost function View(): Client
      reads this
    {
      Client(epoch, sequence, pendingRelease, choosing, opening, disposed, grant, projects, calls, next, log)
    }

    /** Flags, calls and releases stand where every run keeps them. */
    ghost predicate Valid()
      reads this
    {
      Inv(View()) && Epochs(View())
    }

    /** What a caller may rely on between any two steps. */
    ghost predicate Orderly()
      reads this
    {
      && !(choosing && opening)
      && Ordered(log)
      && (pendingRelease.Some? ==> pendingRelease.value == sequence)
      && (forall k :: 1 <= k <= sequence && pendingRelease != Some(k) ==> Confirmed(k) in log)
    }

    constructor ()
      ensures Valid() && Orderly() && View() == New()
    {
      epoch, sequence, pendingRelease := 0, 0, None;
      choosing, opening, disposed := false, false, false;
      grant, projects, calls, next, log := None, map[], map[], 0, [];
    }

    method Suspend(call: Call)
      modifies this
      ensures View() == Start(old(View()), call)
    {
      calls, next := calls[next := call], next + 1;
    }

    method SendRelease()
      modifies this
      ensures View() == AskRelease(old(View()))
    {
      if pendingRelease.Some? {
        log := log + [Release(pendingRelease.value)];
      }
    }

    method ReleaseReply(waits: Option<nat>, reply: Reply) returns (confirmed: bool)
      modifies this
      ensures View() == TakeRelease(old(View()), waits, reply) && confirmed == Confirms(waits, reply)
    {
      confirmed := waits.None? || reply == Empty;
      if waits.Some? && confirmed {
        log := log + [Confirmed(waits.value)];
        if pendingRelease == waits {
          pendingRelease := None;
        }
      }
    }

    /** Refused while anything is active; otherwise every call before it is fenced. */
    method Choose() returns (busy: bool)
      requires Valid()
      modifies this
      ensures Valid() && Orderly() && View() == Step(old(View()), StartChoose)
      ensures busy == (old(choosing) || old(opening)) && (busy ==> View() == old(View()))
      ensures !busy ==> Fenced(View(), old(next)) && choosing == opening == false
    {
      hide Inv, Epochs, Fenced, Ordered;
      Stepped(View(), StartChoose);
      busy := choosing || opening;
      if !busy {
        epoch := epoch + 1;
        SendRelease();
        Suspend(ChooseRelease(epoch, pendingRelease));
      }
    }

    /** Refused while anything is active; otherwise it is the one open and every call before it is fenced. */
    method OpenProject(project: nat) returns (busy: bool)
      requires Valid()
      modifies this
      ensures Valid() && Orderly() && View() == Step(old(View()), StartOpen(project))
      ensures busy == (old(choosing) || old(opening)) && (busy ==> View() == old(View()))
      ensures !busy ==> Fenced(View(), old(next)) && opening && sequence == old(sequence)
    {
      hide Inv, Epochs, Fenced, Ordered;
      Stepped(View(), StartOpen(project));
      busy := opening || choosing;
      if !busy {
        opening := true;
        epoch := epoch + 1;
        if grant.None? || project !in projects || !projects[project] {
          Suspend(OpenLeave);
        } else {
          SendRelease();
          Suspend(OpenRelease(epoch, pendingRelease));
        }
      }
    }

    /** Every call before it is fenced; the transfer of a running open is left to that open. */
    method Cancel()
      requires Valid()
      modifies this
      ensures Valid() && Orderly() && View() == Step(old(View()), StartCancel)
      ensures Fenced(View(), old(next)) && (old(opening) ==> log == old(log))
    {
      hide Inv, Epochs, Fenced, Ordered;
      Stepped(View(), StartCancel);
      epoch := epoch + 1;
      if choosing {
        Suspend(CancelPick);
      } else if !opening {
        SendRelease();
        Suspend(CancelRelease(pendingRelease));
      }
    }

    method Discard()
      requires Valid()
      modifies this
      ensures Valid() && Orderly() && View() == Step(old(View()), Dispose)
      ensures Fenced(View(), old(next))
    {
      hide Inv, Epochs, Fenced, Ordered;
      Stepped(View(), Dispose);
      disposed, epoch := true, epoch + 1;
    }

    /** `finally`: the transfer is over, whichever way it went. */
    method Finally(id: nat, at: nat, transfer: nat, complete: bool)
      modifies this
      ensures View() == Retire(old(View()), id, at, transfer, complete)
    {
      log := log + [Settled(transfer)];
      SendRelease();
      calls := calls[id := OpenRetire(at, pendingRelease, complete)];
    }

    /** The head of the read loop. */
    method Loop(id: nat, at: nat, transfer: nat, size: nat, offset: nat)
      modifies this
      ensures View() == ReadOn(old(View()), id, at, transfer, size, offset)
    {
      if offset < size {
        log := log + [Read(transfer, offset)];
        calls := calls[id := OpenRead(at, transfer, size, offset)];
      } else {
        Finally(id, at, transfer, true);
      }
    }

    method Drop(id: nat)
      modifies this`calls
      ensures View() == Return(old(View()), id)
    {
      calls := calls - {id};
    }

    method Picked(id: nat, at: nat, offer: Reply, reply: Reply)
      modifies this
      ensures View() == AfterRecheck(old(View()), id, at, offer, reply)
    {
      var granted := !reply.Broken? && offer.Offer? && !offer.cancelled;
      if granted && (disposed || at != epoch) {
        calls := calls[id := ChooseRevoke];
      } else {
        if granted {
          grant, projects := Some(offer.grant), offer.projects;
        }
        choosing, calls := false, calls - {id};
      }
    }

    method ResumeChoose(id: nat, call: Call, reply: Reply)
      modifies this
      ensures View() == SettleChoose(old(View()), id, call, reply)
    {
      hide TakeRelease, AfterRecheck, Confirms, Continue, Return;
      match call {
        case ChooseRelease(at, waits) =>
          var confirmed := ReleaseReply(waits, reply);
          if confirmed {
            Proceed(id, ChooseCheck(at));
          } else {
            Drop(id);
          }
        case ChooseCheck(at) =>
          if reply.Broken? || disposed || at != epoch {
            Drop(id);
          } else {
            choosing := true;
            Proceed(id, ChoosePick(at));
          }
        case ChoosePick(at) =>
          if reply.Broken? {
            choosing := false;
            Drop(id);
          } else {
            Proceed(id, ChooseRecheck(at, reply));
          }
        case ChooseRecheck(at, offer) => Picked(id, at, offer, reply);
        case _ =>
          choosing := false;
          Drop(id);
      }
    }

    method Released(id: nat, at: nat, waits: Option<nat>, reply: Reply)
      modifies this
      ensures View() == AfterRelease(old(View()), id, at, waits, reply)
    {
      hide TakeRelease, Confirms;
      var confirmed := ReleaseReply(waits, reply);
      if !confirmed || disposed || at != epoch || sequence >= MAX_SEQUENCE {
        calls := calls[id := OpenLeave];
      } else {
        sequence := sequence + 1;
        pendingRelease := Some(sequence);
        log := log + [Open(sequence)];
        calls := calls[id := OpenSent(at, sequence)];
      }
    }

    method Opened(id: nat, at: nat, transfer: nat, reply: Reply)
      modifies this
      ensures View() == AfterOpen(old(View()), id, at, transfer, reply)
    {
      hide ReadOn, Retire;
      if reply.Descriptor? && !disposed && at == epoch && reply.sequence == transfer && reply.size <= MAX_MODEL {
        Loop(id, at, transfer, reply.size, 0);
      } else {
        Finally(id, at, transfer, false);
      }
    }

    method Received(id: nat, call: Call, reply: Reply)
      requires call.OpenRead?
      modifies this
      ensures View() == AfterRead(old(View()), id, call, reply)
    {
      hide ReadOn, Retire;
      if !disposed && call.epoch == epoch && call.offset < call.size && Fits(reply, call.sequence, call.size, call.offset) {
        Loop(id, call.epoch, call.sequence, call.size, call.offset + reply.size);
      } else {
        Finally(id, call.epoch, call.sequence, false);
      }
    }

    method Proceed(id: nat, call: Call)
      modifies this`calls
      ensures View() == Continue(old(View()), id, call)
    {
      calls := calls[id := call];
    }

    method Leave(id: nat)
      modifies this`calls, this`opening
      ensures View() == Return(old(View()).(opening := false), id)
    {
      opening, calls := false, calls - {id};
    }

    method ResumeOpen(id: nat, call: Call, reply: Reply)
      modifies this
      ensures View() == SettleOpen(old(View()), id, call, reply)
    {
      hide TakeRelease, Confirms, AfterRelease, AfterOpen, AfterRead, Continue, Return;
      match call {
        case OpenRelease(at, waits) => Released(id, at, waits, reply);
        case OpenSent(at, transfer) => Opened(id, at, transfer, reply);
        case OpenRead(_, _, _, _) => Received(id, call, reply);
        case OpenRetire(at, waits, complete) =>
          var confirmed := ReleaseReply(waits, reply);
          Proceed(id, if confirmed && complete && !disposed && at == epoch then OpenInspect(at) else OpenLeave);
        case OpenInspect(at) => Proceed(id, if !reply.Broken? && !disposed && at == epoch then OpenCheck(at) else OpenLeave);
        case OpenCheck(_) => Proceed(id, OpenLeave);
        case _ => Leave(id);
      }
    }

    /**
      An await settles. A transfer opens only with every earlier one released, the pending release is
      cleared only by its own confirmation, and a fenced call adopts, opens and returns nothing.
    */
    method Resume(id: nat, reply: Reply)
      requires Valid() && id in calls
      modifies this
      ensures Valid() && Orderly() && View() == Step(old(View()), Settle(id, reply))
      ensures sequence != old(sequence) ==> sequence == old(sequence) + 1 && pendingRelease == Some(sequence)
      ensures old(pendingRelease.Some?) && pendingRelease != old(pendingRelease) ==>
        Releases(old(calls)[id]) && old(calls)[id].waits == old(pendingRelease) && reply == Empty
      ensures CallEpoch(old(calls)[id]) < epoch ==> Barren(old(View()), id, View())
      ensures if old(NativeAnswers.Adopts(View(), Settle(id, reply)))
        then grant == Some(old(calls)[id].offer.grant) && projects == old(calls)[id].offer.projects
        else grant == old(grant) && projects == old(projects)
    {
      hide Inv, Epochs, Fenced, Ordered, SettleOpen, SettleChoose, SettleCancel, Barren;
      Stepped(View(), Settle(id, reply));
      Cleared(View(), id, reply);
      NativeAnswers.AdoptsExactly(View(), Settle(id, reply));
      var call := calls[id];
      match KindOf(call) {
        case Opening => ResumeOpen(id, call, reply);
        case Cancelling => ResumeCancel(id, call, reply);
        case _ => ResumeChoose(id, call, reply);
      }
    }

    method ResumeCancel(id: nat, call: Call, reply: Reply)
      requires KindOf(call) == Cancelling
      modifies this
      ensures View() == SettleCancel(old(View()), id, call, reply)
    {
      hide TakeRelease, Confirms, AskRelease;
      if call.CancelRelease? {
        var _ := ReleaseReply(call.waits, reply);
        calls := calls - {id};
      } else if reply.Broken? || opening {
        calls := calls - {id};
      } else {
        ghost var before := View();
        SendRelease();
        Asked(before);
        calls := calls[id := CancelRelease(pendingRelease)];
      }
    }
  }

  lemma Asked(c: Client)
    ensures AskRelease(c).pending == c.pending && AskRelease(c).calls == c.calls
  {
  }

  /** What a valid client is after a step. */
  lemma Stepped(c: Client, e: Event)
    requires Inv(c) && Epochs(c)
    ensures var d := Step(c, e);
      && Inv(d) && Epochs(d)
      && !(d.choosing && d.opening) && Ordered(d.log) && (d.pending.Some? ==> d.pending.value == d.sequence)
      && (forall k :: 1 <= k <= d.sequence && d.pending != Some(k) ==> Confirmed(k) in d.log)
    ensures e.StartCancel? || e.Dispose? || ((e.StartChoose? || e.StartOpen?) && !c.choosing && !c.opening) ==>
      Fenced(Step(c, e), c.next)
  {
    hide Inv, Epochs, Fenced, Step;
    StepKeeps(c, e);
    InvTable(c);
    FencesNothing(c);
    StepFenced(c, e, 0);
    Standing(Step(c, e));
    if e.StartCancel? || e.Dispose? || ((e.StartChoose? || e.StartOpen?) && !c.choosing && !c.opening) {
      BeginsFence(c, e);
    }
  }

  lemma Standing(d: Client)
    requires Inv(d)
    ensures !(d.choosing && d.opening) && Ordered(d.log) && (d.pending.Some? ==> d.pending.value == d.sequence)
    ensures forall k :: 1 <= k <= d.sequence && d.pending != Some(k) ==> Confirmed(k) in d.log
  {
    hide Ordered, AllPlaced, Idle;
  }

  /** What settling does to the pending release and to the sequence. */
  lemma Cleared(c: Client, id: nat, reply: Reply)
    requires Inv(c) && id in c.calls
    ensures var d := Step(c, Settle(id, reply));
      && (c.pending.Some? && d.pending != c.pending ==>
           Releases(c.calls[id]) && c.calls[id].waits == c.pending && reply == Empty)
      && (d.sequence != c.sequence ==> d.sequence == c.sequence + 1 && d.pending == Some(d.sequence))
      && (CallEpoch(c.calls[id]) < d.epoch ==> Barren(c, id, d))
  {
    hide Ledger, TableOf, Step, Barren;
    var d := Step(c, Settle(id, reply));
    if c.pending.Some? && d.pending != c.pending {
      ClearsOnlyOwn(c, Settle(id, reply));
    }
    SettleSequence(c, id, reply);
    SettleEpoch(c, id, reply);
    if CallEpoch(c.calls[id]) < c.epoch {
      FencedBarren(c, id, reply);
    }
  }

  lemma SettleSequence(c: Client, id: nat, reply: Reply)
    requires id in c.calls
    ensures var d := Step(c, Settle(id, reply));
      d.sequence != c.sequence ==> d.sequence == c.sequence + 1 && d.pending == Some(d.sequence)
  {
    hide SettleChoose, SettleOpen, SettleCancel;
    match KindOf(c.calls[id])
    case Opening => OpenSequence(c, id, reply);
    case Cancelling => CancelSequence(c, id, reply);
    case _ => ChooseSequence(c, id, reply);
  }

  lemma OpenSequence(c: Client, id: nat, reply: Reply)
    requires id in c.calls && KindOf(c.calls[id]) == Opening
    ensures var d := SettleOpen(c, id, c.calls[id], reply);
      d.sequence != c.sequence ==> d.sequence == c.sequence + 1 && d.pending == Some(d.sequence)
  {
    hide TakeRelease, Confirms, Current, ReadOn, Retire;
    match c.calls[id]
    case OpenRelease(_, waits) => TakeReleaseLeaves(c, waits, reply);
    case OpenRetire(_, waits, _) => TakeReleaseLeaves(c, waits, reply);
    case OpenSent(epoch, sequence) =>
      ReadOnSequence(c, id, epoch, sequence, if reply.Descriptor? then reply.size else 0, 0, false);
    case OpenRead(epoch, sequence, size, offset) =>
      ReadOnSequence(c, id, epoch, sequence, size, if reply.Chunk? then offset + reply.size else 0, false);
    case _ =>
  }

  lemma ReadOnSequence(c: Client, id: nat, epoch: nat, sequence: nat, size: nat, offset: nat, complete: bool)
    ensures ReadOn(c, id, epoch, sequence, size, offset).sequence == Retire(c, id, epoch, sequence, complete).sequence == c.sequence
  {
  }

  lemma ChooseSequence(c: Client, id: nat, reply: Reply)
    requires id in c.calls && KindOf(c.calls[id]) in {Waiting, Picking}
    ensures SettleChoose(c, id, c.calls[id], reply).sequence == c.sequence
  {
    hide TakeRelease, Confirms, Current;
    if c.calls[id].ChooseRelease? {
      TakeReleaseLeaves(c, c.calls[id].waits, reply);
    }
  }

  lemma CancelSequence(c: Client, id: nat, reply: Reply)
    requires id in c.calls && KindOf(c.calls[id]) == Cancelling
    ensures SettleCancel(c, id, c.calls[id], reply).sequence == c.sequence
  {
  }
}
