/** The prepaid credit of one owner. A refused request spends nothing and poisons the mirror. */
module Mirror {
  import opened Text

  datatype Charge = Charge(backing: nat, slots: nat, visits: nat)
  datatype Credit = Credit(remaining: Charge, failed: bool)

  predicate Covers(credit: Credit, backing: int, slots: int, visits: int) {
    && !credit.failed && Natural(backing) && Natural(slots) && Natural(visits)
    && backing <= credit.remaining.backing && slots <= credit.remaining.slots && visits <= credit.remaining.visits
  }

  function Spend(credit: Credit, backing: int, slots: int, visits: int): Credit {
    if Covers(credit, backing, slots, visits) then
      var r := credit.remaining;
      credit.(remaining := Charge(r.backing - backing, r.slots - slots, r.visits - visits))
    else credit.(failed := true)
  }

  class MirrorCell {
    var credit: Credit

    constructor (selected: Charge)
      ensures credit == Credit(selected, false)
    {
      credit := Credit(selected, false);
    }

    method Take(backing: int, slots: int, visits: int) returns (ok: bool)
      modifies this
      ensures ok == old(Covers(credit, backing, slots, visits))
      ensures credit == old(Spend(credit, backing, slots, visits))
    {
      if credit.failed {
        return false;
      }
      var remaining := credit.remaining;
      if !Natural(backing) || !Natural(slots) || !Natural(visits) || backing > remaining.backing ||
          slots > remaining.slots || visits > remaining.visits {
        credit := credit.(failed := true);
        return false;
      }
      credit := Credit(Charge(remaining.backing - backing, remaining.slots - slots, remaining.visits - visits), false);
      return true;
    }
  }
}
