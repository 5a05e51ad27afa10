/** The journal's credit over every interleaving of its operations. */
module JournalRuns {
  import opened Text
  import opened JsonText
  import opened ProductFacts
  import opened Mirror
  import opened JournalModel
  import opened ChannelModel
  import opened JournalSafety

  datatype Op =
    | DoReceive(fact: Fact) | DoEnd(observer: ObserverState) | DoPending
    | DoCopy(actual: bool, capacity: nat) | DoAdvance(actual: bool) | DoLose | DoClose

  /** `copied` says that the record handed out was copied since it became current. */
  datatype Held = Held(journal: Journal, copied: bool)

  function CurrentLength(j: Journal): nat
    requires Aimed(j)
  {
    if j.holding then |Frame(j.entries[j.cursor])| else 0
  }

  function Do(s: Held, op: Op): (r: Held)
    requires Aimed(s.journal)
    ensures Aimed(r.journal) && r.journal.limits == s.journal.limits
  {
    var j := s.journal;
    match op
    case DoReceive(fact) => Held(Receive(j, fact), s.copied)
    case DoEnd(observer) => Held(End(j, observer), s.copied)
    case DoPending => Held(Pending(j).1, j.holding && s.copied)
    case DoCopy(actual, capacity) =>
      var r := Copy(j, actual && j.holding, CurrentLength(j), capacity);
      Held(r.journal, s.copied || r.ok)
    case DoAdvance(actual) =>
      var r := Advance(j, actual);
      Held(r.journal, s.copied && !r.ok)
    case DoLose => Held(Lose(j), s.copied)
    case DoClose => Held(Close(j), s.copied)
  }

  function DoAll(s: Held, ops: seq<Op>): (r: Held)
    requires Aimed(s.journal)
    ensures Aimed(r.journal)
    decreases |ops|
  {
    if ops == [] then s else DoAll(Do(s, ops[0]), ops[1..])
  }

  /** The operation copies the record handed out once more; a foreign or too small attempt copies nothing. */
  predicate Recopies(s: Held, op: Op)
    requires Aimed(s.journal)
  {
    op.DoCopy? && op.actual && s.journal.holding && s.copied && CurrentLength(s.journal) <= op.capacity
  }

  /** No record is copied twice. */
  ghost predicate CopiesOnce(s: Held, ops: seq<Op>)
    requires Aimed(s.journal)
    decreases |ops|
  {
    ops == [] || (!Recopies(s, ops[0]) && CopiesOnce(Do(s, ops[0]), ops[1..]))
  }

  ghost predicate Oversized(op: Op, frameBytes: nat) {
    op.DoReceive? && Shaped(op.fact) && UnitCount(FactFields(op.fact)) > frameBytes
  }

  ghost predicate Fit(s: Held) {
    s.journal.first.None? ==> Numbered(s.journal) && Funded(s.journal, s.copied)
  }

  lemma DoFit(s: Held, op: Op)
    requires Aimed(s.journal) && Fit(s) && !Recopies(s, op)
    ensures Fit(Do(s, op))
    ensures Do(s, op).journal.first == Some(Funding) && s.journal.first != Some(Funding) ==>
      Oversized(op, s.journal.limits.frameBytes)
  {
    hide Frame, Flatten, Shaped, FactFields, Receive, End, Numbered, Funded, Placed;
    var j := s.journal;
    if j.first.Some? {
      Stuck(s, op);
    } else {
      match op
      case DoReceive(fact) => ReceiveSafe(j, fact, s.copied);
      case DoEnd(observer) => EndSafe(j, observer, s.copied);
      case DoPending => PendingSafe(j, s.copied);
      case DoCopy(actual, capacity) =>
        if actual && j.holding && CurrentLength(j) <= capacity {
          CopyUncopied(j);
          CopySafe(j);
          CopyBound(j);
        }
      case DoAdvance(actual) => if j.holding { AdvanceSafe(j, s.copied); AdvancedFunded(j, s.copied); }
      case _ =>
    }
  }

  lemma Stuck(s: Held, op: Op)
    requires Aimed(s.journal) && s.journal.first.Some?
    ensures Do(s, op).journal == s.journal
  {
    hide Frame;
  }

  lemma CopyUncopied(j: Journal)
    ensures Funded(j, false) ==> !j.credit.failed
  {
  }

  lemma CopyBound(j: Journal)
    requires Numbered(j) && j.holding
    ensures CurrentLength(j) <= j.limits.frameBytes
  {
    hide Frame, Flatten;
    assert Placed(j.entries[j.cursor], j.cursor, j.facts, j.limits.frameBytes);
  }

  lemma AdvancedFunded(j: Journal, copied: bool)
    requires Aimed(j) && j.first.None? && j.holding && Funded(Advance(j, true).journal, false)
    ensures Funded(Advance(j, true).journal, copied)
  {
  }

  /**
    Main result: with each record copied at most once, the operation that is refused credit is the
    receipt of an oversized fact.
  */
  lemma {:induction false} CreditSuffices(s: Held, ops: seq<Op>) returns (k: nat)
    requires Aimed(s.journal) && Fit(s) && s.journal.first != Some(Funding) && CopiesOnce(s, ops)
    ensures DoAll(s, ops).journal.first == Some(Funding) ==> RefusedAt(s, ops, k)
    decreases |ops|
  {
    hide Do, Oversized, Fit;
    k := 0;
    if ops != [] {
      DoFit(s, ops[0]);
      var next := Do(s, ops[0]);
      if next.journal.first == Some(Funding) {
        assert ops[..0] == [] && ops[..1] == [ops[0]];
        assert DoAll(s, [ops[0]]) == next;
      } else {
        var i := CreditSuffices(next, ops[1..]);
        if DoAll(s, ops).journal.first == Some(Funding) {
          k := i + 1;
          assert ops[..k][1..] == ops[1..][..i] && ops[..k + 1][1..] == ops[1..][..i + 1];
        }
      }
    }
  }

  /** Operation `k` receives an oversized fact and is the one that is refused credit. */
  ghost predicate RefusedAt(s: Held, ops: seq<Op>, k: nat)
    requires Aimed(s.journal)
  {
    && k < |ops| && Oversized(ops[k], s.journal.limits.frameBytes)
    && DoAll(s, ops[..k]).journal.first != Some(Funding) && DoAll(s, ops[..k + 1]).journal.first == Some(Funding)
  }

  /** The credit a bootstrap leaves the journal is where such runs start. */
  lemma FreshFit(l: Limits)
    requires 8 * l.records <= U32_MAX && l.journalBytes <= U32_MAX && 16 <= l.frameBytes <= U32_MAX && Safe(JournalCharge(l))
    ensures Aimed(Fresh(l).journal) && Fit(Held(Fresh(l).journal, false))
  {
  }

  // ---- The restriction to one copy is needed.

  function Copies(n: nat, capacity: nat): (ops: seq<Op>)
    ensures |ops| == n && forall op <- ops :: op.DoCopy?
  {
    seq(n, _ => DoCopy(true, capacity))
  }

  /** Copying one record `n` times succeeds exactly as long as the credit lasts; then it is a funding fault. */
  lemma {:induction false} CopiesAfford(s: Held, n: nat, capacity: nat)
    requires Aimed(s.journal) && s.journal.first.None? && s.journal.holding && CurrentLength(s.journal) <= capacity
    requires !s.journal.credit.failed && s.journal.credit.remaining.visits <= MAX_SAFE
    ensures DoAll(s, Copies(n, capacity)).journal.first ==
      if n * (2 * CurrentLength(s.journal)) <= s.journal.credit.remaining.visits then None else Some(Funding)
    decreases n
  {
    hide Frame;
    var ops, length := Copies(n, capacity), CurrentLength(s.journal);
    if n > 0 {
      assert ops[0] == DoCopy(true, capacity) && ops[1..] == Copies(n - 1, capacity);
      var next := Do(s, ops[0]);
      Less(n, 1, 2 * length);
      AtLeast(n - 1, 2 * length);
      if next.journal.first.None? {
        CopiesAfford(next, n - 1, capacity);
      } else {
        StuckAll(next, ops[1..]);
      }
    }
  }

  lemma {:induction false} StuckAll(s: Held, ops: seq<Op>)
    requires Aimed(s.journal) && s.journal.first.Some?
    ensures DoAll(s, ops).journal == s.journal
    decreases |ops|
  {
    hide Do;
    if ops != [] {
      Stuck(s, ops[0]);
      StuckAll(Do(s, ops[0]), ops[1..]);
    }
  }

  /** A fact whose frame is far below the bound. */
  const SMALL: Fact := Fact(ModelClosed, RInteger(1), RText([]), RInteger(0),
    ROther, ROther, ROther, ROther, ROther, ROther, ROther, ROther, ROther, UnknownOutcome)

  const SMALL_LIMITS: Limits := Limits(1, 1000, 1000)

  lemma SmallReceived() returns (j: Journal)
    ensures j == Receive(Fresh(SMALL_LIMITS).journal, SMALL)
    ensures j.first.None? && Numbered(j) && Funded(j, false) && j.cursor == 0 && |j.entries| == 1 && !j.holding
    ensures j.credit.remaining.visits <= 70226 && |Frame(j.entries[0])| >= 16
  {
    hide Frame, Flatten, EncodeObject, FactFields, UnitCount, Append, Receive;
    var begin, e := Fresh(SMALL_LIMITS).journal, Entry(FACT, 1, FactFields(SMALL));
    FreshFit(SMALL_LIMITS);
    SmallSize();
    FactSize(SMALL);
    FrameSize(e);
    SmallStored(begin, e);
    ReceiveSafe(begin, SMALL, false);
    j := Receive(begin, SMALL);
    assert j.entries == [e];
  }

  lemma SmallHeld() returns (s: Held)
    ensures s == DoAll(Held(Fresh(SMALL_LIMITS).journal, false), [DoReceive(SMALL), DoPending])
    ensures s.journal.first.None? && s.journal.holding && 16 <= CurrentLength(s.journal) <= 1000
    ensures !s.journal.credit.failed && s.journal.credit.remaining.visits <= 70226
  {
    hide Frame, Flatten, Receive, Numbered;
    var start := Held(Fresh(SMALL_LIMITS).journal, false);
    var j := SmallReceived();
    PendingSafe(j, false);
    s := Do(Held(j, false), DoPending);
    CopyBound(s.journal);
    var ops := [DoReceive(SMALL), DoPending];
    assert ops[1..] == [DoPending] && ops[1..][1..] == [];
    assert DoAll(Held(j, false), ops[1..]) == s;
  }

  lemma SmallSize()
    ensures Shaped(SMALL) && UnitCount(FactFields(SMALL)) == 12
  {
    var fields := FactFields(SMALL);
    var actual := OwnerFields(SMALL);
    assert |actual| == 2 && actual[1..][1..] == [];
    assert UnitCount(actual) == 0;
    assert |fields| == 3 && fields[1..][1..][1..] == [];
    assert fields[1..][0] == fields[1] && fields[1..][1..][0] == fields[2];
    assert ValueUnits(fields[0].value) == 12 && ValueUnits(fields[1].value) == 0 && ValueUnits(fields[2].value) == 0;
    assert UnitCount(fields[1..][1..]) == 0;
    assert UnitCount(fields[1..]) == 0;
  }

  lemma SmallStored(j: Journal, e: Entry)
    requires j == Fresh(SMALL_LIMITS).journal && e == Entry(FACT, 1, FactFields(SMALL))
    requires UnitCount(e.fields) == 12 && |EncodeObject(e.fields)| <= 584
    ensures Receive(j, SMALL).first.None? && Receive(j, SMALL).credit.remaining.visits <= 70226
  {
    hide EncodeObject, FactFields, UnitCount;
  }

  /** The concrete run: one small fact, handed out and copied 2500 times, ends in a funding fault. */
  lemma RepeatedCopiesRefused()
    ensures var ops := [DoReceive(SMALL), DoPending] + Copies(2500, 1000);
      && DoAll(Held(Fresh(SMALL_LIMITS).journal, false), ops).journal.first == Some(Funding)
      && forall op <- ops :: !Oversized(op, SMALL_LIMITS.frameBytes)
  {
    hide Do, CurrentLength, DoAll, Copies, FactFields, UnitCount;
    var s := SmallHeld();
    CopiesAfford(s, 2500, 1000);
    DoAllJoin(Held(Fresh(SMALL_LIMITS).journal, false), [DoReceive(SMALL), DoPending], Copies(2500, 1000));
    SmallSize();
  }

  lemma {:induction false} DoAllJoin(s: Held, a: seq<Op>, b: seq<Op>)
    requires Aimed(s.journal)
    ensures DoAll(s, a + b) == DoAll(DoAll(s, a), b)
    decreases |a|
  {
    hide Do;
    if a == [] {
      assert a + b == b;
    } else {
      DoAllJoin(Do(s, a[0]), a[1..], b);
      assert (a + b)[1..] == a[1..] + b;
    }
  }
}
