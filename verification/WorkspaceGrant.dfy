/** One grant as the client keeps it: an object whose fields every step of a save updates. */
module WorkspaceGrant {
  import opened Text
  import opened WorkspaceFiles
  import Reconciliation

  /** Client and host agree: the revision, all that was committed, and the bytes that are there. */
  ghost predicate Agreement(s: System) {
    && s.grant.revision == Revision(s.host) && s.host.history == s.grant.resolved
    && Content(s.host) == LastResolved(s.grant, s.host.initial)
  }

  /** The host holds what was acknowledged, or one save more. */
  ghost predicate Near(s: System) {
    s.host.history == s.grant.resolved || s.host.history == s.grant.resolved + [s.grant.saving]
  }

  class GrantRecord {
    var revision: nat
    var sequence: nat
    var blocked: bool
    var pc: Pc
    var saving: Bytes
    var tail: seq<Bytes>
    ghost var resolved: seq<Bytes>
    /** The host and the network the grant talks to; nothing here but what the client was told. */
    ghost var system: System

    ghost function View(): Grant
      reads this
    {
      Grant(revision, sequence, blocked, pc, saving, tail, resolved)
    }

    /** The grant stands where the protocol with its host says. */
    ghost predicate Valid()
      reads this
    {
      system.grant == View() && Inv(system)
    }

    /** What the caller may rely on while no save runs and none failed. */
    ghost predicate Agrees()
      reads this
    {
      system.grant == View() && Agreement(system)
    }

    constructor (revision: nat, sequence: nat, ghost initial: Bytes)
      ensures Valid() && Agrees() && system == Chosen(revision, sequence, initial)
    {
      this.revision, this.sequence := revision, sequence;
      blocked, pc, saving, tail, resolved := false, Idle, [], [], [];
      system := Chosen(revision, sequence, initial);
    }

    /** The host and the network move without the client. */
    ghost method Elsewhere(e: Event)
      requires Valid() && (e.DoServe? || e.DoRefuse? || e.DoDrop?)
      modifies this`system
      ensures Valid() && system == Step(old(system), e)
      ensures pc.Idle? ==> Agrees()
    {
      StepKeeps(system, e);
      system := Step(system, e);
      IdleInStep(system);
    }

    /** A revoked grant is blocked for good; the save that runs goes on. */
    method Revoke()
      requires Valid()
      modifies this
      ensures Valid() && blocked && pc == old(pc) && system == Step(old(system), DoRevoke)
      ensures pc.Idle? ==> Agrees()
    {
      StepKeeps(system, DoRevoke);
      blocked := true;
      system := Step(system, DoRevoke);
      IdleInStep(system);
    }

    /** Captures the content behind the saves before it; the one that runs keeps its own. */
    method Submit(content: Bytes) returns (accepted: bool)
      requires Valid()
      modifies this
      ensures Valid() && system == Step(old(system), DoSave(content))
      ensures accepted <==> |content| <= TRANSFER_LIMIT
      ensures tail == (if accepted then old(tail) + [content] else old(tail)) && saving == old(saving) && pc == old(pc)
      ensures pc.Idle? ==> Agrees()
    {
      StepKeeps(system, DoSave(content));
      accepted := |content| <= TRANSFER_LIMIT;
      if accepted {
        tail := tail + [content];
      }
      system := Step(system, DoSave(content));
      IdleInStep(system);
    }

    /** Starts the oldest waiting save under a sequence never used, or drops it on a blocked or exhausted grant. */
    method Next() returns (send: Option<Op>)
      requires Valid()
      modifies this
      ensures Valid() && system == Step(old(system), DoStart)
      ensures old(blocked || pc.Stopped?) ==> send.None? && unchanged(this`pc, this`sequence, this`saving)
      ensures send.Some? ==> send == Some(Check) && sequence == old(sequence) + 1 && old(tail) == [saving] + tail
      ensures send.Some? ==> sequence !in system.host.committed && sequence !in system.commits
      ensures pc.Idle? ==> Agrees()
    {
      hide Inv, Agreement;
      StepKeeps(system, DoStart);
      ghost var before := system;
      StoppedBlocks(before);
      send := TakeNext();
      system := Sent(system, Out(View(), send));
      IdleInStep(system);
      NewSequence(before, system);
    }

    method TakeNext() returns (send: Option<Op>)
      modifies this`tail, this`sequence, this`saving, this`pc
      ensures Out(View(), send) == StartNext(old(View()))
    {
      if (pc != Idle && pc != Stopped) || tail == [] {
        return None;
      }
      var content := tail[0];
      tail := tail[1..];
      if blocked || sequence >= MAX_SEQUENCE {
        return None;
      }
      sequence := sequence + 1;
      saving, pc := content, AwaitCheck;
      return Some(Check);
    }

    method Advance(offset: nat) returns (send: Option<Op>)
      modifies this`pc
      ensures Out(View(), send) == Upload(old(View()), offset)
    {
      if offset < |saving| {
        var end := if offset + CHUNK <= |saving| then offset + CHUNK else |saving|;
        pc := AwaitWrite(offset);
        return Some(Write(sequence, offset, saving[offset..end]));
      }
      pc := AwaitCommit;
      return Some(Commit(sequence));
    }

    method Acknowledge(confirmed: nat) returns (send: Option<Op>)
      modifies this`blocked, this`pc, this`revision
      ensures Out(View(), send) == Confirm(old(View()), confirmed)
    {
      if confirmed != revision + 1 {
        blocked, pc := true, Stopped;
        return None;
      }
      revision, pc := confirmed, AwaitRelease;
      return Some(Release(sequence));
    }

    method Continue(reply: Option<WorkspaceFiles.Reply>) returns (send: Option<Op>)
      modifies this`revision, this`blocked, this`pc, this`resolved
      ensures Out(View(), send) == Resume(old(View()), reply)
    {
      var ok := reply.Some? && reply.value != Refused;
      send := None;
      if pc == AwaitRelease {
        resolved := resolved + [saving];
        pc := Idle;
      } else if ok && (pc == AwaitCommit || pc == AwaitStatus) && reply.value.Committed? {
        send := Acknowledge(reply.value.revision);
      } else if pc == AwaitCommit {
        pc := AwaitStatus;
        send := Some(Status(sequence));
      } else if ok && pc == AwaitCheck {
        pc := AwaitBegin;
        send := Some(BeginEdit(sequence, revision, |saving|));
      } else if ok && pc == AwaitBegin {
        send := Advance(0);
      } else if ok && pc.AwaitWrite? {
        send := Advance(pc.offset + CHUNK);
      } else if pc != Idle && pc != Stopped {
        blocked, pc := true, Stopped;
      }
    }

    /**
      The awaited reply, or none: a save that ends leaves the grant in step with the host, one that
      fails leaves it blocked with at most this save unacknowledged, and no sequence is committed twice.
    */
    method Reply(reply: Option<WorkspaceFiles.Reply>) returns (send: Option<Op>)
      requires Valid()
      requires reply.Some? ==> system.waiting in system.answers && reply == Some(system.answers[system.waiting])
      modifies this
      ensures Valid() && system == Sent(old(system), Resume(old(View()), reply))
      ensures pc.Idle? ==> Agrees()
      ensures pc.Idle? && !old(pc.Idle?) ==> resolved == old(resolved) + [saving]
      ensures pc.Stopped? ==> blocked && Near(system)
      ensures old(pc.Idle? || pc.Stopped?) ==> send.None?
      ensures send.Some? && send.value.Commit? ==> send.value.sequence == sequence && sequence !in old(system.commits)
      ensures Reconciles(old(View()), reply, View(), send) && (pc == AwaitRelease && old(pc) != AwaitRelease ==> revision == Revision(system.host))
    {
      hide Inv, Resume, Agreement, Near;
      ResumeKeeps(system, reply);
      ghost var before := system;
      send := Continue(reply);
      system := Sent(system, Out(View(), send));
      AfterReply(before, reply);
      Reconciled(before, reply);
    }
  }

  lemma IdleInStep(s: System)
    requires Inv(s)
    ensures s.grant.pc.Idle? ==> Agreement(s)
  {
  }

  lemma StoppedBlocks(s: System)
    requires Inv(s)
    ensures s.grant.pc.Stopped? ==> s.grant.blocked
  {
  }

  lemma NewSequence(before: System, after: System)
    requires Inv(before) && after == Step(before, DoStart)
    ensures after.grant.sequence > before.grant.sequence ==>
      after.grant.sequence !in after.host.committed && after.grant.sequence !in after.commits
  {
  }

  /** What a reply can lead to. */
  ghost predicate Led(before: System, out: Out, after: System) {
    && (out.send.Some? && out.send.value.Commit? ==>
      out.send.value.sequence == out.grant.sequence && out.grant.sequence !in before.commits)
    && (before.grant.pc.Idle? || before.grant.pc.Stopped? ==> out.send.None?)
    && (out.grant.pc.Idle? && !before.grant.pc.Idle? ==> out.grant.resolved == before.grant.resolved + [out.grant.saving])
    && (out.grant.pc.Stopped? ==> out.grant.blocked && Near(after))
    && (out.grant.pc.Idle? ==> Agreement(after))
  }

  /** A commit that was not acknowledged is asked for by its status, and the status alone decides the save. */
  ghost predicate Reconciles(g: Grant, reply: Option<WorkspaceFiles.Reply>, after: Grant, send: Option<Op>) {
    var committed := reply.Some? && reply.value.Committed?;
    && (g.pc.AwaitCommit? && !committed ==> after == g.(pc := AwaitStatus) && send == Some(Status(g.sequence)))
    && (g.pc.AwaitStatus? && !committed ==> after.pc.Stopped? && after.blocked && send.None?)
    && ((g.pc.AwaitCommit? || g.pc.AwaitStatus?) && committed ==>
      after.pc.AwaitRelease? && after.blocked == g.blocked && send == Some(Release(g.sequence)))
  }

  lemma Reconciled(before: System, reply: Option<WorkspaceFiles.Reply>)
    requires Inv(before) && (reply.Some? ==> before.waiting in before.answers && reply == Some(before.answers[before.waiting]))
    ensures var out := Resume(before.grant, reply);
      && Reconciles(before.grant, reply, out.grant, out.send)
      && (out.grant.pc == AwaitRelease && before.grant.pc != AwaitRelease ==> out.grant.revision == Revision(Sent(before, out).host))
  {
    if (before.grant.pc.AwaitCommit? || before.grant.pc.AwaitStatus?) && reply.Some? && reply.value.Committed? {
      Reconciliation.AcknowledgedCommit(before);
    }
    hide Inv;
  }

  lemma FreshCommit(before: System, out: Out)
    requires Inv(Sent(before, out)) && out.send.Some? && out.send.value.Commit?
    ensures out.send.value.sequence !in before.commits
  {
    hide Numbers, Commits, Traffic, Progress;
    var after := Sent(before, out);
    assert after.commits == before.commits + [out.send.value.sequence];
    forall i | 0 <= i < |before.commits|
      ensures before.commits[i] != out.send.value.sequence
    {
      assert after.commits[i] < after.commits[|before.commits|];
    }
  }

  lemma StoppedNear(s: System)
    requires Inv(s) && s.grant.pc.Stopped?
    ensures s.grant.blocked && Near(s)
  {
    hide Commits, Traffic, Rising;
  }

  lemma AfterReply(before: System, reply: Option<WorkspaceFiles.Reply>)
    requires Inv(before) && Inv(Sent(before, Resume(before.grant, reply)))
    ensures Led(before, Resume(before.grant, reply), Sent(before, Resume(before.grant, reply)))
  {
    hide Inv, Agreement, Near;
    var out := Resume(before.grant, reply);
    var after := Sent(before, out);
    IdleInStep(after);
    if after.grant.pc.Stopped? {
      StoppedNear(after);
    }
    if out.send.Some? && out.send.value.Commit? {
      FreshCommit(before, out);
    }
  }
}
