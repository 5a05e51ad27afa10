/** How saves end: exactly when one fails, and how a commit whose acknowledgement was lost is reconciled with the host. */
module Reconciliation {
  import opened Text
  import opened WorkspaceFiles

  /** The awaited answer arrives. */
  predicate Answered(s: System, e: Event) { e == DoReceive && s.waiting in s.answers }

  /** The awaited request came to nothing: its answer is given up, or the host refused it. */
  predicate Fails(s: System, e: Event) {
    e == DoGiveUp || (Answered(s, e) && s.answers[s.waiting] == Refused)
  }

  /** The host answers something else than a commit. */
  predicate Denied(s: System, e: Event) { Answered(s, e) && !s.answers[s.waiting].Committed? }

  predicate BeforeCommit(pc: Pc) { pc.AwaitCheck? || pc.AwaitBegin? || pc.AwaitWrite? }

  /** The host committed the running save. */
  predicate Landed(s: System) { s.grant.sequence in s.host.committed }

  // ---- One event.

  /**
    A save fails exactly when a request before the commit comes to nothing, or when the status after an
    unanswered commit does or denies it; only then, or by a revocation, the grant is blocked.
  */
  lemma StopsExactly(s: System, e: Event)
    requires Inv(s)
    ensures var t := Step(s, e);
      && (t.grant.pc.Stopped? <==>
          || s.grant.pc.Stopped?
          || (BeforeCommit(s.grant.pc) && Fails(s, e))
          || (s.grant.pc.AwaitStatus? && (Fails(s, e) || Denied(s, e))))
      && (t.grant.blocked <==> s.grant.blocked || t.grant.pc.Stopped? || e == DoRevoke)
  {
    hide Commits, Traffic, Rising;
  }

  /** A save is resolved exactly by the end of its release, whatever that brings. */
  lemma ResolvesExactly(s: System, e: Event)
    requires Inv(s)
    ensures var t := Step(s, e); var settles := s.grant.pc.AwaitRelease? && (e == DoGiveUp || Answered(s, e));
      && t.grant.resolved == (if settles then s.grant.resolved + [s.grant.saving] else s.grant.resolved)
      && (settles ==> t.grant.pc.Idle? && t.grant.revision == Revision(t.host) && t.host.history == t.grant.resolved)
  {
    hide Commits, Traffic, Rising;
  }

  /** The request a step sends, as the host will find it. */
  ghost predicate Asked(s: System, t: System, op: Op) {
    t.waiting == s.next && t.waiting in t.flight && t.flight[t.waiting] == op && t.next == s.next + 1
  }

  /** A commit without an acknowledgement is neither repeated nor given up: the host is asked for that very sequence. */
  lemma UnansweredCommitIsAsked(s: System, e: Event)
    requires Inv(s) && s.grant.pc.AwaitCommit? && (Fails(s, e) || Denied(s, e))
    ensures var t := Step(s, e);
      && Inv(t) && t.grant == s.grant.(pc := AwaitStatus) && Asked(s, t, Status(s.grant.sequence))
      && t.host == s.host && t.commits == s.commits
  {
    StepKeeps(s, e);
    hide Inv;
  }

  /** An acknowledged commit moves the revision, and its transfer is released. */
  lemma AcknowledgedCommit(s: System)
    requires Inv(s) && (s.grant.pc.AwaitCommit? || s.grant.pc.AwaitStatus?) && Answered(s, DoReceive)
    requires s.answers[s.waiting].Committed?
    ensures var t := Step(s, DoReceive);
      && Inv(t) && t.grant == s.grant.(revision := Revision(s.host), pc := AwaitRelease) && t.host == s.host
      && Asked(s, t, Release(s.grant.sequence))
  {
    StepKeeps(s, DoReceive);
    hide Commits, Traffic, Rising;
  }

  /** The next save in the queue starts, waits for the one that runs, or is refused on a blocked or exhausted grant. */
  lemma StartsExactly(s: System)
    requires Inv(s)
    ensures var t, g := Step(s, DoStart), s.grant;
      if g.queue == [] || !(g.pc.Idle? || g.pc.Stopped?) then t == s
      else
        && t.grant.queue == g.queue[1..] && t.host == s.host && t.grant.resolved == g.resolved && t.grant.blocked == g.blocked
        && if g.blocked || g.sequence >= MAX_SEQUENCE then t.grant.pc == g.pc && t.next == s.next && t.flight == s.flight
           else t.grant.pc.AwaitCheck? && t.grant.saving == g.queue[0] && t.grant.sequence == g.sequence + 1 && Asked(s, t, Check)
  {
    hide Inv;
  }

  // ---- The status of a commit that was not acknowledged.

  /** At the status, the host is ahead by this save exactly when it holds the commit. */
  lemma LandedIsAhead(s: System)
    requires Inv(s) && s.grant.pc.AwaitStatus?
    ensures Landed(s) <==> Ahead(s)
    ensures Landed(s) ==> Revision(s.host) == s.grant.revision + 1 && s.host.history == s.grant.resolved + [s.grant.saving]
    ensures !Landed(s) ==> s.host.history == s.grant.resolved
  {
    hide Numbers, Commits, Traffic, Rising;
  }

  /** Whatever happened before, a status that is served and received settles the save as the host has it. */
  lemma StatusTells(s: System)
    requires Undisturbed(s, AwaitStatus)
    ensures var t := Round(s);
      && t.host.history == s.host.history && t.grant.saving == s.grant.saving && t.grant.resolved == s.grant.resolved
      && t.grant.queue == s.grant.queue
      && if Landed(s)
         then Undisturbed(t, AwaitRelease) && t.grant.blocked == s.grant.blocked && t.grant.revision == Revision(t.host)
         else t.grant.pc.Stopped? && t.grant.blocked && t.grant.revision == s.grant.revision && t.next == s.next
  {
    var served := Step(s, DoServe(s.waiting));
    StepKeeps(s, DoServe(s.waiting));
    StepKeeps(served, DoReceive);
    LandedIsAhead(s);
    StatusServed(s);
    hide Inv, Undisturbed;
    if Landed(s) {
      AcknowledgedCommit(served);
    } else {
      StopsExactly(served, DoReceive);
    }
  }

  lemma StatusServed(s: System)
    requires Undisturbed(s, AwaitStatus)
    ensures var served := Step(s, DoServe(s.waiting));
      && served.host == s.host && served.grant == s.grant && Answered(served, DoReceive) && served.next == s.next
      && served.answers[s.waiting] == if Landed(s) then Committed(s.host.committed[s.grant.sequence]) else NotCommitted
  {
    hide Commits, Progress, Rising;
  }

  // ---- A commit whose acknowledgement is lost.

  /** The commit was served and its answer lost: the grant asks, with the host one save ahead. */
  lemma LostAnswer(s: System)
    requires Undisturbed(s, AwaitCommit)
    ensures var t := Step(Step(s, DoServe(s.waiting)), DoGiveUp);
      && Undisturbed(t, AwaitStatus) && Landed(t) && t.host.history == s.host.history + [s.grant.saving]
      && t.grant == s.grant.(pc := AwaitStatus)
  {
    var served := Step(s, DoServe(s.waiting));
    StepKeeps(s, DoServe(s.waiting));
    assert CommitReady(s, s.waiting);
    UnansweredCommitIsAsked(served, DoGiveUp);
  }

  /** The commit itself was lost: the grant asks, with the host where it was. */
  lemma LostCommit(s: System)
    requires Undisturbed(s, AwaitCommit)
    ensures var t := Step(Step(s, DoDrop(s.waiting)), DoGiveUp);
      && Undisturbed(t, AwaitStatus) && !Landed(t) && t.host == s.host && t.grant == s.grant.(pc := AwaitStatus)
  {
    StepKeeps(s, DoDrop(s.waiting));
    assert CommitReady(s, s.waiting);
    UnansweredCommitIsAsked(Step(s, DoDrop(s.waiting)), DoGiveUp);
  }

  /** The save is over, resolved, and the host holds it under the revision the grant has. */
  ghost predicate Reconciled(s: System, t: System) {
    && t.grant.pc.Idle? && t.grant.blocked == s.grant.blocked && t.grant.queue == s.grant.queue
    && t.grant.resolved == s.grant.resolved + [s.grant.saving] && t.host.history == s.host.history + [s.grant.saving]
    && t.grant.revision == Revision(t.host) && Content(t.host) == s.grant.saving
  }

  /**
    Main result: a commit that landed although its acknowledgement was lost is found by the status and resolves
    the save, also when the release is lost too.
  */
  lemma LostAnswerIsReconciled(s: System)
    requires Undisturbed(s, AwaitCommit)
    ensures var asked := Step(Step(s, DoServe(s.waiting)), DoGiveUp);
      Reconciled(s, Round(Round(asked))) && Reconciled(s, Step(Round(asked), DoGiveUp))
  {
    hide Undisturbed, Round, Landed;
    LostAnswer(s);
    var asked := Step(Step(s, DoServe(s.waiting)), DoGiveUp);
    StatusTells(asked);
    Releases(Round(asked));
  }

  lemma Releases(s: System)
    requires Undisturbed(s, AwaitRelease)
    ensures forall t <- [Round(s), Step(s, DoGiveUp)] ::
      && t.grant.pc.Idle? && t.grant.resolved == s.grant.resolved + [s.grant.saving] && t.grant.blocked == s.grant.blocked
      && t.host.history == s.host.history && t.grant.queue == s.grant.queue && t.grant.revision == Revision(t.host)
  {
    ReleaseRound(s);
    StepKeeps(s, DoServe(s.waiting));
    StepKeeps(Step(s, DoServe(s.waiting)), DoReceive);
    StepKeeps(s, DoGiveUp);
    ResolvesExactly(s, DoGiveUp);
    hide Commits, Traffic, Rising;
  }

  /** A commit that was lost itself is denied by the status: the save fails and the host is where it was. */
  lemma LostCommitFails(s: System)
    requires Undisturbed(s, AwaitCommit)
    ensures var asked := Step(Step(s, DoDrop(s.waiting)), DoGiveUp);
      var t := Round(asked);
      && t.grant.pc.Stopped? && t.grant.blocked && t.grant.resolved == s.grant.resolved
      && t.grant.revision == s.grant.revision && t.host.history == s.host.history
  {
    hide Undisturbed, Round, Landed;
    LostCommit(s);
    StatusTells(Step(Step(s, DoDrop(s.waiting)), DoGiveUp));
  }

  // ---- A whole save whose acknowledgement is lost.

  /** The rounds of the upload end with the commit on its way. */
  lemma {:induction false} UploadReachesCommit(s: System, offset: nat)
    requires Undisturbed(s, UploadPc(s.grant, offset))
    ensures var t := Rounds(s, WritesFrom(|s.grant.saving|, offset)); Undisturbed(t, AwaitCommit) && Same(s, t)
    decreases |s.grant.saving| - offset
  {
    hide Inv, Round;
    if offset < |s.grant.saving| {
      WriteRound(s, offset);
      UploadReachesCommit(Round(s), offset + CHUNK);
    }
  }

  /** The next queued save, undisturbed up to its commit, resolves although the acknowledgement of the commit is lost. */
  lemma SaveSurvivesLostAnswer(s: System)
    requires Inv(s) && s.grant.pc.Idle? && !s.grant.blocked && s.grant.queue != [] && s.grant.sequence < MAX_SEQUENCE
    ensures var content := s.grant.queue[0];
      var committing := Rounds(Step(s, DoStart), 2 + WritesFrom(|content|, 0));
      var t := Rounds(Step(Step(committing, DoServe(committing.waiting)), DoGiveUp), 2);
      && t.grant.pc.Idle? && !t.grant.blocked && t.grant.queue == s.grant.queue[1..]
      && t.grant.resolved == s.grant.resolved + [content] && Content(t.host) == content && t.grant.revision == Revision(t.host)
  {
    hide Inv, Round, Rounds;
    var started := Step(s, DoStart);
    StepKeeps(s, DoStart);
    BeginRounds(started);
    var writes := WritesFrom(|started.grant.saving|, 0);
    UploadReachesCommit(Rounds(started, 2), 0);
    RoundsCompose(started, 2, writes);
    var committing := Rounds(started, 2 + writes);
    LostAnswerIsReconciled(committing);
    TwoRounds(Step(Step(committing, DoServe(committing.waiting)), DoGiveUp));
  }
}
