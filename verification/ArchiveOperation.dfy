/** The archive operation with its fields, its writer and its ready archive. */
module ArchiveOperation {
  import opened ArchiveLifecycle
  import opened ArchiveOutcomes
  import ArchiveWriter

  class ArchiveOperation {
    var state: State
    var delivery: Delivery
    var encoding: Encoding
    var snapshot: bool      // the snapshot still holds its entries
    var writer: ArchiveWriter.CheckedArchiveWriter?
    var held: bool          // the ready archive still holds its bytes
    var notice: bool
    var events: seq<Event>  // delivered so far

    ghost predicate Valid()
      reads this, writer, if writer == null then null else writer.backing
    {
      writer != null ==> writer.Valid()
    }

    ghost function View(): Operation
      reads this, writer
    {
      Operation(state, delivery, encoding, snapshot,
        if writer == null then NoWriter else if writer.state.Disposed? then DisposedWriter else LiveWriter,
        held, notice, events)
    }

    /** Between two steps, with no receiver running: every run keeps this. */
    ghost predicate Steady()
      reads this, writer, if writer == null then null else writer.backing
    {
      Valid() && Inv(View())
    }

    constructor ()
      ensures Steady() && View() == NEW && writer == null
    {
      state, delivery, encoding, snapshot, writer := Prepared, Unstarted, Unscheduled, true, null;
      held, notice, events := false, false, [];
    }

    method QueueNotice()
      modifies this`delivery, this`notice
      ensures View() == old(QueueRetirement(View()))
    {
      if delivery == Active {
        delivery, notice := RetirementQueued, true;
      }
    }

    method Finished()
      modifies this`delivery
      ensures View() == old(FinishDelivery(View()))
    {
      if delivery == Active {
        delivery := Closed;
      }
    }

    /** `requestDownload` of the ready archive: its bytes are consumed before anything can reenter. */
    method RequestDownload() returns (requested: bool)
      modifies this`held, this`delivery
      ensures View() == old(Download(View())) && requested == old(held) && !held
    {
      requested := held;
      if held {
        held := false;
        Finished();
      }
    }

    method Retire()
      requires Valid()
      modifies this, writer
      ensures Valid() && View() == old(ArchiveLifecycle.Retire(View())) && writer == old(writer)
      ensures old(Steady()) ==> Steady() && !held && events == old(events)
      ensures old(Steady()) ==> state in {Retiring, Retired} || (state.Failed? && state == old(state))
    {
      hide Inv, QueueRetirement;
      Stepped(View(), DoRetire);
      RetireLeaves(View());
      var previous := state;
      if !previous.Failed? {
        QueueNotice();
      }
      match previous {
        case Prepared | Scheduled =>
          snapshot := false;
          state := Retired;
        case Ready =>
          var requested := RequestDownload();
          state := Retired;
        case Building =>
          state := Retiring;
          if writer != null && !writer.state.Disposed? {
            writer.Retire();
          }
        case _ =>
      }
    }

    /** Starts once: a prepared operation schedules its encoding, one retired before only has its notice queued. */
    method Start()
      requires Valid()
      modifies this`state, this`delivery, this`encoding, this`notice
      ensures Valid() && View() == old(ArchiveLifecycle.Start(View())) && events == old(events)
      ensures old(Steady()) ==> Steady() && delivery != Unstarted
      ensures old(Steady() && delivery != Unstarted) ==> View() == old(View())
      ensures old(Steady() && delivery == Unstarted) ==> encoding == Waiting || (state == Retired && notice)
    {
      Stepped(View(), DoStart);
      if delivery != Unstarted {
        return;
      }
      if state == Retired {
        delivery := Active;
        QueueNotice();
        return;
      }
      if state != Prepared {
        return;
      }
      delivery, state, encoding := Active, Scheduled, Waiting;
    }

    method Notify(event: Event, reaction: Reaction)
      requires Valid()
      modifies this, writer
      ensures Valid() && View() == old(ArchiveLifecycle.Notify(View(), event, reaction)) && writer == old(writer)
    {
      hide ArchiveLifecycle.Retire, ArchiveLifecycle.Start, Download;
      events := events + [event];
      ghost var told := View();
      assert reaction.calls[0..] == reaction.calls;
      for i := 0 to |reaction.calls|
        invariant Valid() && writer == old(writer)
        invariant AnswerAll(told, reaction.calls) == AnswerAll(View(), reaction.calls[i..])
      {
        assert reaction.calls[i..][0] == reaction.calls[i] && reaction.calls[i..][1..] == reaction.calls[i + 1..];
        match reaction.calls[i] {
          case CallRetire => Retire();
          case CallDownload => var requested := RequestDownload();
          case CallStart => Start();
        }
      }
      if reaction.throws {
        Retire();
      }
    }

    method Begin(capacity: nat, granted: bool, reaction: Reaction)
      requires Valid() && writer == null
      modifies this
      ensures Valid() && View() == old(ArchiveLifecycle.Begin(View(), granted, reaction))
      ensures writer != null ==> fresh(writer) && fresh(writer.backing)
      ensures old(Steady()) ==> Steady() && events == old(events + Tells(View(), DoBegin(granted, reaction)))
      ensures old(Steady() && encoding == Waiting && state == Scheduled) ==>
        if granted then state == Building && writer != null && events == []
        else state == Failed(AllocationFailure) && events == [FailedEvent(AllocationFailure)]
    {
      hide ArchiveLifecycle.Notify, Inv;
      Stepped(View(), DoBegin(granted, reaction));
      if Inv(View()) {
        DoTells(View(), DoBegin(granted, reaction));
        Begins(View(), granted, reaction);
      }
      if encoding != Waiting {
        return;
      }
      if state != Scheduled {
        encoding := Settled;
        return;
      }
      if granted {
        writer := new ArchiveWriter.CheckedArchiveWriter(capacity);
        state, encoding := Building, Running;
        return;
      }
      snapshot := false;
      Finished();
      state := Failed(AllocationFailure);
      Notify(FailedEvent(AllocationFailure), reaction);
      encoding := Settled;
    }

    /** The library calls are over: whatever they met, snapshot and writer are given up. */
    method Finish(encoded: bool, reaction: Reaction)
      requires Valid() && (encoding == Running ==> writer != null)
      modifies this, writer
      ensures Valid() && View() == old(ArchiveLifecycle.Finish(View(), encoded, reaction))
      ensures old(encoding == Running) ==> !snapshot && writer != null && writer.state.Disposed? && encoding == Settled
      ensures old(Steady()) ==> Steady() && events == old(events + Tells(View(), DoFinish(encoded, reaction)))
      ensures old(Steady() && Encodes(View())) && encoded ==>
        ReadyEvent in events && (held <==> Keeps(reaction)) && state == if Retires(reaction) then Retired else Ready
      ensures old(Steady() && Encodes(View())) && !encoded ==>
        events == [FailedEvent(EncodingFailure)] && state == Failed(EncodingFailure) && !held
      ensures old(Steady() && state == Retiring) ==> state == Retired && events == old(events) && !held
    {
      hide ArchiveLifecycle.Notify, ArchiveLifecycle.Finish, Inv;
      Stepped(View(), DoFinish(encoded, reaction));
      if Inv(View()) {
        DoTells(View(), DoFinish(encoded, reaction));
        Finishes(View(), encoded, reaction);
      }
      NotRunning(View(), encoded, reaction);
      if encoding == Running {
        Encoded(encoded, reaction);
      }
    }

    method Encoded(encoded: bool, reaction: Reaction)
      requires Valid() && encoding == Running && writer != null
      modifies this, writer
      ensures Valid() && View() == old(ArchiveLifecycle.Finish(View(), encoded, reaction))
      ensures !snapshot && writer != null && writer.state.Disposed? && encoding == Settled
    {
      hide ArchiveLifecycle.Notify;
      if encoded && state == Building {
        state, held := Ready, true;
        Notify(ReadyEvent, reaction);
      } else if state == Retiring {
        state := Retired;
      } else {
        state := Failed(EncodingFailure);
        Finished();
        Notify(FailedEvent(EncodingFailure), reaction);
      }
      snapshot := false;
      writer.Dispose();
      encoding := Settled;
    }

    method SettledNotice(reaction: Reaction)
      requires Valid()
      modifies this, writer
      ensures Valid() && View() == old(Notice(View(), reaction))
      ensures old(Steady()) ==> Steady()
      ensures old(Steady() && notice && encoding in {Unscheduled, Settled}) ==> events == old(events) + [FailedEvent(RetiredFailure)]
    {
      hide ArchiveLifecycle.Notify, Inv;
      Stepped(View(), DoNotice(reaction));
      if Inv(View()) && notice && encoding in {Unscheduled, Settled} {
        QueuedNotice(View());
        NoticeTells(View(), reaction);
      }
      if notice && encoding != Waiting && encoding != Running {
        notice, delivery := false, Closed;
        Notify(FailedEvent(RetiredFailure), reaction);
      }
    }
  }

  lemma Stepped(o: Operation, step: Step)
    ensures Inv(o) ==> Inv(Do(o, step))
  {
    hide Inv, Do;
    if Inv(o) {
      DoKeeps(o, step);
    }
  }

  lemma RetireLeaves(o: Operation)
    ensures var r := Retire(o);
      Inv(o) ==> !r.held && r.events == o.events && (r.state in {Retiring, Retired} || (r.state.Failed? && r.state == o.state))
  {
  }

  lemma QueuedNotice(o: Operation)
    requires Inv(o) && o.notice
    ensures o.delivery == RetirementQueued
  {
  }

  lemma Begins(o: Operation, granted: bool, reaction: Reaction)
    requires Inv(o)
    ensures var r := Begin(o, granted, reaction);
      o.encoding == Waiting && o.state == Scheduled ==>
        if granted then r.state == Building && r.events == []
        else r.state == Failed(AllocationFailure) && r.events == [FailedEvent(AllocationFailure)]
  {
    hide Begin;
    if o.encoding == Waiting {
      EncodingBegins(o, granted, reaction);
    }
  }

  lemma Finishes(o: Operation, encoded: bool, reaction: Reaction)
    requires Inv(o)
    ensures var r := Finish(o, encoded, reaction);
      && (Encodes(o) && encoded ==>
        ReadyEvent in r.events && (r.held <==> Keeps(reaction)) && r.state == if Retires(reaction) then Retired else Ready)
      && (Encodes(o) && !encoded ==>
        r.events == [FailedEvent(EncodingFailure)] && r.state == Failed(EncodingFailure) && !r.held)
      && (o.state == Retiring ==> r.state == Retired && r.events == o.events && !r.held)
  {
    hide Finish, Keeps, Retires;
    if Encodes(o) {
      assert o.events == [];
      if encoded {
        CleanEncodingIsReady(o, reaction);
      } else {
        BadEncodingFails(o, reaction);
      }
    } else if o.state == Retiring {
      RetiredEncodingEnds(o, encoded, reaction);
    }
  }

  lemma NotRunning(o: Operation, encoded: bool, reaction: Reaction)
    ensures o.encoding != Running ==> Finish(o, encoded, reaction) == o
  {
  }
}
