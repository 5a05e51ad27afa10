/** What every journal operation keeps: numbering, frame bounds, and a credit that always suffices. */
module JournalSafety {
  import opened Text
  import opened JsonText
  import opened ProductFacts
  import opened Mirror
  import opened JournalModel
  import opened ChannelModel

  // ---- Numbering.

  ghost predicate Placed(e: Entry, i: nat, facts: nat, frameBytes: nat) {
    && e.sequence == i + 1 <= MAX_SAFE
    && e.kind == (if i < facts then FACT else END)
    && (i >= facts ==> e.fields == EndFields(facts))
    && |Frame(e)| <= frameBytes
  }

  /** Records are facts 1..n, followed after the end by END n+1, and fit their bounds. */
  ghost predicate Numbered(j: Journal) {
    && |j.entries| == j.facts + (if j.ended then 1 else 0)
    && |j.entries| <= j.limits.records <= U32_MAX && 16 <= j.limits.frameBytes <= U32_MAX
    && Aimed(j)
    && |Flatten(j.entries)| <= j.limits.journalBytes
    && forall i :: 0 <= i < |j.entries| ==> Placed(j.entries[i], i, j.facts, j.limits.frameBytes)
  }

  // ---- Credit.

  function RecordVisits(l: Limits): nat { 4218 + 66 * l.frameBytes }

  /** Records whose handing out, and whose copy, is still to be charged. */
  function Unpended(j: Journal): int { |j.entries| - j.cursor - (if j.holding then 1 else 0) }

  function Uncopied(j: Journal, copied: bool): int { |j.entries| - j.cursor - (if j.holding && copied then 1 else 0) }

  function EndReserve(j: Journal): nat { if j.ended then 0 else 8 }

  function SlotsOwed(j: Journal): int {
    102 * (j.limits.records - |j.entries|) + 2 * Unpended(j) + EndReserve(j)
  }

  function VisitsOwed(j: Journal, copied: bool): int {
    (j.limits.records - |j.entries|) * RecordVisits(j.limits)
    + 2 * Unpended(j) + Uncopied(j, copied) * (2 * j.limits.frameBytes) + EndReserve(j)
  }

  /** The credit covers everything the retained and the still possible records may cost. */
  ghost predicate Funded(j: Journal, copied: bool) {
    && !j.credit.failed
    && j.credit.remaining.slots >= SlotsOwed(j)
    && MAX_SAFE >= j.credit.remaining.visits >= VisitsOwed(j, copied)
  }

  lemma Less(k: int, n: int, cost: int)
    ensures (k - n) * cost == k * cost - n * cost
  {
  }

  lemma AtLeast(k: int, cost: int)
    requires k >= 0 && cost >= 0
    ensures k * cost >= 0
  {
  }

  /** The reserve of one record covers receiving, appending, handing out and copying it. */
  lemma OneRecord(j: Journal, copied: bool)
    requires |j.entries| < j.limits.records && Aimed(j)
    ensures VisitsOwed(j, copied) >= RecordVisits(j.limits) + EndReserve(j)
    ensures SlotsOwed(j) >= 102 + EndReserve(j)
    ensures forall e, ended :: (j.ended ==> ended) ==>
      var r := j.(entries := j.entries + [e], ended := ended);
      && VisitsOwed(r, copied) == VisitsOwed(j, copied) - RecordVisits(j.limits) + 2 + 2 * j.limits.frameBytes
        - EndReserve(j) + EndReserve(r)
      && SlotsOwed(r) == SlotsOwed(j) - 100 - EndReserve(j) + EndReserve(r)
  {
    var free, cost := j.limits.records - |j.entries|, RecordVisits(j.limits);
    Less(free, 1, cost);
    AtLeast(free - 1, cost);
    AtLeast(Uncopied(j, copied), 2 * j.limits.frameBytes);
    forall e, ended | j.ended ==> ended
      ensures var r := j.(entries := j.entries + [e], ended := ended);
        && VisitsOwed(r, copied) == VisitsOwed(j, copied) - RecordVisits(j.limits) + 2 + 2 * j.limits.frameBytes
          - EndReserve(j) + EndReserve(r)
        && SlotsOwed(r) == SlotsOwed(j) - 100 - EndReserve(j) + EndReserve(r)
    {
      var r := j.(entries := j.entries + [e], ended := ended);
      assert j.limits.records - |r.entries| == free - 1;
      Less(Uncopied(r, copied), 1, 2 * j.limits.frameBytes);
    }
  }

  lemma PlacedSnoc(j: Journal, e: Entry, facts: nat)
    requires Numbered(j) && j.facts <= facts
    requires Placed(e, |j.entries|, facts, j.limits.frameBytes) && !j.ended
    ensures forall i :: 0 <= i < |j.entries + [e]| ==> Placed((j.entries + [e])[i], i, facts, j.limits.frameBytes)
  {
  }

  /** Appending a tree that fits its measure is refused for want of credit only if its text exceeds a frame. */
  lemma AppendSafe(j: Journal, e: Entry, visits: nat)
    requires Numbered(j) && j.first.None? && !j.ended && e.sequence == |j.entries| + 1 <= MAX_SAFE
    requires UnitCount(e.fields) <= |EncodeObject(e.fields)| <= Upper(UnitCount(e.fields))
    requires !j.credit.failed && j.credit.remaining.slots >= 4
    requires visits <= j.credit.remaining.visits <= MAX_SAFE
    requires visits >= 4120 + 64 * j.limits.frameBytes
    ensures var r := Append(j, e);
      && (r.Stored? ==>
        && UnitCount(e.fields) <= |Frame(e)| <= j.limits.frameBytes
        && |Flatten(j.entries + [e])| <= j.limits.journalBytes
        && r.journal == j.(entries := j.entries + [e], credit := Spend(j.credit, 0, 4, AppendVisits(UnitCount(e.fields))))
        && !r.journal.credit.failed)
      && (!r.Stored? ==> r.Thrown? || r.journal.first.Some?)
      && r.journal.first in {None, Some(Funding), Some(Capacity)}
      && (r.journal.first == Some(Funding) ==> UnitCount(e.fields) > j.limits.frameBytes)
      && (r.Thrown? ==> AppendVisits(UnitCount(e.fields)) > MAX_SAFE)
  {
    hide EncodeObject, Frame;
    FrameSize(e);
    FlattenSnoc(j.entries, e);
  }

  /** Recording `e` for `slots` and `visits` within the reserve of one record keeps the journal funded. */
  lemma RecordedSafe(j: Journal, r: Journal, e: Entry, slots: nat, visits: nat, copied: bool)
    requires Numbered(j) && Funded(j, copied) && !j.ended && |j.entries| < j.limits.records
    requires r.entries == j.entries + [e] && r.limits == j.limits && r.cursor == j.cursor && r.holding == j.holding
    requires if r.ended then r.facts == j.facts else r.facts == j.facts + 1
    requires Placed(e, |j.entries|, r.facts, j.limits.frameBytes)
    requires |Flatten(r.entries)| <= j.limits.journalBytes
    requires !r.credit.failed && r.credit.remaining.slots + slots == j.credit.remaining.slots
    requires r.credit.remaining.visits + visits == j.credit.remaining.visits
    requires slots + EndReserve(r) <= 100 + EndReserve(j)
    requires visits + EndReserve(r) <= 4216 + 64 * j.limits.frameBytes + EndReserve(j)
    ensures Numbered(r) && Funded(r, copied)
  {
    hide Flatten, Frame, Placed;
    OneRecord(j, copied);
    PlacedSnoc(j, e, r.facts);
    var bare := j.(entries := j.entries + [e], ended := r.ended);
    assert VisitsOwed(r, copied) == VisitsOwed(bare, copied) && SlotsOwed(r) == SlotsOwed(bare);
  }

  lemma ReceiveSafe(j: Journal, fact: Fact, copied: bool)
    requires Numbered(j) && Funded(j, copied) && j.first.None?
    ensures var r := Receive(j, fact);
      && (r.first.None? ==>
        && Shaped(fact) && Numbered(r) && Funded(r, copied) && !j.ended && !r.ended
        && r.entries == j.entries + [Entry(FACT, j.facts + 1, FactFields(fact))])
      && (r.first == Some(Funding) ==> Shaped(fact) && UnitCount(FactFields(fact)) > j.limits.frameBytes)
      && (r.first == Some(SizeOverflow) ==> Shaped(fact) && AppendVisits(UnitCount(FactFields(fact))) > MAX_SAFE)
      && (r.first == Some(OutOfSequence) ==> Shaped(fact) && fact.sequence.n != j.facts + 1)
      && (r.first == Some(Fault.Shape) ==> !Shaped(fact))
  {
    hide FactFields, EncodeObject, Flatten, Frame, Append, VisitsOwed, SlotsOwed, Placed;
    if !j.ended && |j.entries| < j.limits.records {
      OneRecord(j, copied);
      if Shaped(fact) && fact.sequence.n == j.facts + 1 {
        FactSize(fact);
        var paid, e := Pay(j, 96, 96).journal, Entry(FACT, j.facts + 1, FactFields(fact));
        AppendSafe(paid, e, VisitsOwed(j, copied) - 96);
        if Append(paid, e).Stored? {
          FactPlaced(j, e);
          RecordedSafe(j, Receive(j, fact), e, 100, 96 + AppendVisits(UnitCount(e.fields)), copied);
        }
      }
    }
  }

  lemma FactPlaced(j: Journal, e: Entry)
    requires Numbered(j) && !j.ended && |j.entries| < j.limits.records && e.kind == FACT && e.sequence == j.facts + 1
    requires |Frame(e)| <= j.limits.frameBytes
    ensures Placed(e, |j.entries|, j.facts + 1, j.limits.frameBytes)
  {
  }

  lemma EndSafe(j: Journal, actual: ObserverState, copied: bool)
    requires Numbered(j) && Funded(j, copied) && j.first.None?
    ensures var r := End(j, actual);
      && (r.first.None? ==>
        && Numbered(r) && Funded(r, copied) && !j.ended && r.ended && actual == ObserverClosed
        && r.entries == j.entries + [Entry(END, j.facts + 1, EndFields(j.facts))])
      && r.first in {None, Some(AfterEnd), Some(EndState), Some(Capacity)}
  {
    hide EndFields, EncodeObject, Flatten, Frame, Append, Placed;
    if !j.ended {
      AtLeast(j.limits.records - |j.entries|, RecordVisits(j.limits));
      AtLeast(Uncopied(j, copied), 2 * j.limits.frameBytes);
      var paid, e := Pay(j, 8, 8).journal, Entry(END, j.facts + 1, EndFields(j.facts));
      assert Pay(j, 8, 8).ok;
      if |j.entries| < j.limits.records {
        EndAppends(j, paid, e, copied);
      } else {
        FullAppend(paid, e);
      }
    }
  }

  lemma EndAppends(j: Journal, paid: Journal, e: Entry, copied: bool)
    requires Numbered(j) && Funded(j, copied) && j.first.None? && !j.ended && |j.entries| < j.limits.records
    requires paid == Pay(j, 8, 8).journal && Pay(j, 8, 8).ok && e == Entry(END, j.facts + 1, EndFields(j.facts))
    ensures var r := Append(paid, e);
      && (r.Stored? ==> Numbered(r.journal.(ended := true)) && Funded(r.journal.(ended := true), copied))
      && !r.Thrown? && r.journal.first in {None, Some(Capacity)}
      && (!r.Stored? ==> r.journal.first.Some?)
  {
    hide EndFields, EncodeObject, Flatten, Frame, Append, VisitsOwed, SlotsOwed;
    OneRecord(j, copied);
    EndSize(j.facts);
    AppendSafe(paid, e, VisitsOwed(j, copied) - 8);
    if Append(paid, e).Stored? {
      RecordedSafe(j, Append(paid, e).journal.(ended := true), e, 12, 8 + AppendVisits(UnitCount(e.fields)), copied);
    }
  }

  lemma FullAppend(j: Journal, e: Entry)
    requires j.first.None? && !j.ended && |j.entries| >= j.limits.records
    ensures Append(j, e) == Refused(Fail(j, Capacity))
  {
  }

  lemma PendingSafe(j: Journal, copied: bool)
    requires Numbered(j) && Funded(j, copied) && j.first.None?
    ensures var (next, r) := Pending(j);
      && r.first.None? && Numbered(r) && r.entries == j.entries
      && Funded(r, j.holding && copied)
      && (next == if j.cursor == |j.entries| then Empty else Record)
      && (r.holding == (j.cursor < |j.entries|))
  {
    hide Flatten, Frame;
    AtLeast(j.limits.records - |j.entries|, RecordVisits(j.limits));
    AtLeast(Uncopied(j, copied), 2 * j.limits.frameBytes);
  }

  /** The first copy of the record handed out is funded. */
  lemma CopySafe(j: Journal)
    requires Numbered(j) && Funded(j, false) && j.first.None? && j.holding
    ensures var length := |Frame(j.entries[j.cursor])|;
      var r := Copy(j, true, length, j.limits.frameBytes);
      r.ok && r.journal.first.None? && Numbered(r.journal) && Funded(r.journal, true) && r.journal.entries == j.entries
  {
    hide Flatten, Frame;
    assert Placed(j.entries[j.cursor], j.cursor, j.facts, j.limits.frameBytes);
    AtLeast(j.limits.records - |j.entries|, RecordVisits(j.limits));
    Less(Uncopied(j, false), 1, 2 * j.limits.frameBytes);
    AtLeast(Uncopied(j, false) - 1, 2 * j.limits.frameBytes);
  }

  lemma AdvanceSafe(j: Journal, copied: bool)
    requires Numbered(j) && Funded(j, copied) && j.first.None? && j.holding
    ensures var r := Advance(j, true);
      && r.ok && r.journal.first.None? && Numbered(r.journal) && r.journal.entries == j.entries
      && Funded(r.journal, false)
  {
    hide Flatten, Frame;
    Less(Uncopied(j, copied), 1, 2 * j.limits.frameBytes);
  }
}
