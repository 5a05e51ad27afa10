/** The document's observation: finite owners and events, ownership chains, numbered facts. */
module ProductObserver {
  import opened Text
  import opened ProductFacts

  /** An ownership chain; a stage not yet reached keeps its blank. */
  datatype Chain = Chain(workspace: Text, opening: int, attempt: Text, openingOrdinal: nat,
    inventoryRevision: Text, operationOrdinal: nat, readyOrdinal: nat)

  datatype Selection = Selection(sessionId: Text, providerId: Text, locator: Text, projectId: Option<Text>)

  datatype Cause = SinkRaised | OwnerLimit | EventLimit | OwnerMismatch

  datatype State = Prepared | Attached | Active | Unobserved | Closed | Incomplete(cause: Cause)

  datatype AttachResult = JustAttached | ForeignDocument | AlreadyAttached | Late | BadLimits

  function MakeFact(kind: Kind, owner: Chain, selection: Selection, outcome: Outcome, sequence: nat): Fact {
    var level, selects := Level(kind), Selects(kind);
    Fact(kind, RInteger(sequence), RText(owner.workspace), RInteger(owner.opening),
      if level >= 1 then RText(owner.attempt) else ROther, if level >= 1 then RInteger(owner.openingOrdinal) else ROther,
      if level >= 2 then RText(owner.inventoryRevision) else ROther,
      if level >= 3 then RInteger(owner.operationOrdinal) else ROther,
      if level >= 4 then RInteger(owner.readyOrdinal) else ROther,
      if selects then RText(selection.sessionId) else ROther,
      if selects then RText(selection.providerId) else ROther,
      if selects then RText(selection.locator) else ROther,
      if selects && kind != SourceSelected && selection.projectId.Some? then RText(selection.projectId.value) else ROther,
      if kind == DownloadResult then outcome else UnknownOutcome)
  }

  /** The state behind one more publication. */
  function Published(full: bool, raises: bool): State {
    if full then Incomplete(EventLimit) else if raises then Incomplete(SinkRaised) else Active
  }

  const NO_SELECTION: Selection := Selection([], [], [], None)

  /** The two facts have the same owner up to `level`. */
  predicate Agrees(a: Fact, b: Fact, level: nat) {
    && a.workspace == b.workspace && a.opening == b.opening
    && (level >= 1 ==> a.attempt == b.attempt && a.openingOrdinal == b.openingOrdinal)
    && (level >= 2 ==> a.inventoryRevision == b.inventoryRevision)
    && (level >= 3 ==> a.operationOrdinal == b.operationOrdinal)
    && (level >= 4 ==> a.readyOrdinal == b.readyOrdinal)
  }

  /** The kind of fact that must have come before. */
  function Needs(kind: Kind): Option<Kind> {
    match kind
    case SourceSelected | ProjectSelected | TransferVerified | InventoryAdopted => Some(OpeningStored)
    case ArchiveStored => Some(InventoryAdopted)
    case ArchiveRetirementRequested | ArchiveSettledRetired | ArchiveReady => Some(ArchiveStored)
    case DownloadWillRequest | DownloadResult => Some(ArchiveReady)
    case _ => None
  }

  /** The kinds that introduce a fresh ordinal, and that ordinal. */
  function Introduces(f: Fact): Raw {
    match f.kind
    case OpeningStored => f.openingOrdinal
    case ArchiveStored => f.operationOrdinal
    case ArchiveReady => f.readyOrdinal
    case _ => ROther
  }

  /** A fact of `kind` was told about exactly this owner. */
  ghost predicate Told(facts: seq<Fact>, kind: Kind, owner: Chain) {
    exists j :: 0 <= j < |facts| && facts[j].kind == kind
      && Agrees(facts[j], MakeFact(kind, owner, NO_SELECTION, UnknownOutcome, 0), Level(kind))
  }

  /** All owners in the map were told about. */
  ghost predicate Known<K>(owners: map<K, Chain>, level: nat, kind: Kind, facts: seq<Fact>) {
    forall k <- owners :: OrdinalsSet(owners[k], level) && Told(facts, kind, owners[k])
  }

  lemma KnownGrows<K>(owners: map<K, Chain>, level: nat, kind: Kind, facts: seq<Fact>, f: Fact)
    requires Known(owners, level, kind, facts)
    ensures Known(owners, level, kind, facts + [f])
  {
    hide Told;
    forall k <- owners ensures Told(facts + [f], kind, owners[k]) { ToldGrows(facts, f, kind, owners[k]); }
  }

  lemma KnownWith<K>(owners: map<K, Chain>, level: nat, kind: Kind, facts: seq<Fact>, key: K, owner: Chain)
    requires Known(owners, level, kind, facts) && OrdinalsSet(owner, level) && Told(facts, kind, owner)
    ensures Known(owners[key := owner], level, kind, facts)
  {
    hide Told, OrdinalsSet;
  }

  lemma KnownNone<K>(level: nat, kind: Kind, facts: seq<Fact>)
    ensures Known<K>(map[], level, kind, facts)
  {
  }

  lemma KnownFact<K>(owners: map<K, Chain>, level: nat, kind: Kind, facts: seq<Fact>, key: K)
    requires Known(owners, level, kind, facts) && key in owners
    ensures OrdinalsSet(owners[key], level) && Told(facts, kind, owners[key])
  {
  }

  lemma KnownFewer<K>(owners: map<K, Chain>, fewer: map<K, Chain>, level: nat, kind: Kind, facts: seq<Fact>)
    requires Known(owners, level, kind, facts) && forall k <- fewer :: k in owners && fewer[k] == owners[k]
    ensures Known(fewer, level, kind, facts)
  {
    hide Told, OrdinalsSet;
  }

  /** Fact `i` is preceded by the fact that introduced its owner. */
  ghost predicate Founded(facts: seq<Fact>, i: nat)
    requires i < |facts|
  {
    Needs(facts[i].kind).Some? ==>
      var kind := Needs(facts[i].kind).value;
      exists j :: 0 <= j < i && facts[j].kind == kind && Agrees(facts[j], facts[i], Level(kind))
  }

  ghost predicate Chronicle(facts: seq<Fact>, owners: nat) {
    && (forall i :: 0 <= i < |facts| ==>
      && facts[i].sequence == RInteger(i + 1)
      && (Shaped(facts[i]) <==> IsNumber(facts[i].opening))
      && Founded(facts, i)
      && (Introduces(facts[i]).RInteger? ==> 1 <= Introduces(facts[i]).n <= owners))
    && forall i, j :: 0 <= i < j < |facts| && Introduces(facts[i]).RInteger? && Introduces(facts[j]).RInteger? ==>
      Introduces(facts[i]).n < Introduces(facts[j]).n
  }

  ghost predicate Newer(f: Fact, before: nat, owners: nat) {
    Introduces(f).RInteger? ==> before < Introduces(f).n <= owners
  }

  ghost predicate WellOutcome(kind: Kind, selection: Selection, outcome: Outcome) {
    && (kind == DownloadResult ==> outcome.Raised? || (outcome.Returned? && outcome.result != UnknownResult))
    && (kind == ProjectSelected || kind == TransferVerified ==> selection.projectId.Some?)
    && kind != UnknownKind
  }

  ghost predicate OrdinalsSet(owner: Chain, level: nat) {
    && (level >= 1 ==> 1 <= owner.openingOrdinal <= MAX_SAFE)
    && (level >= 3 ==> 1 <= owner.operationOrdinal <= MAX_SAFE)
    && (level >= 4 ==> 1 <= owner.readyOrdinal <= MAX_SAFE)
  }

  lemma {:induction false} ToldGrows(facts: seq<Fact>, f: Fact, kind: Kind, owner: Chain)
    requires Told(facts, kind, owner)
    ensures Told(facts + [f], kind, owner)
  {
    var j :| 0 <= j < |facts| && facts[j].kind == kind
      && Agrees(facts[j], MakeFact(kind, owner, NO_SELECTION, UnknownOutcome, 0), Level(kind));
    assert (facts + [f])[j] == facts[j];
  }

  lemma MadeShaped(kind: Kind, owner: Chain, selection: Selection, outcome: Outcome, sequence: nat)
    requires WellOutcome(kind, selection, outcome) && OrdinalsSet(owner, Level(kind)) && sequence <= MAX_SAFE
    ensures var f := MakeFact(kind, owner, selection, outcome, sequence);
      (Shaped(f) <==> IsNumber(f.opening)) && f.sequence == RInteger(sequence) && f.kind == kind
  {
  }

  lemma NewFounded(facts: seq<Fact>, kind: Kind, owner: Chain, selection: Selection, outcome: Outcome, sequence: nat)
    requires Needs(kind).Some? ==> Told(facts, Needs(kind).value, owner)
    ensures Founded(facts + [MakeFact(kind, owner, selection, outcome, sequence)], |facts|)
  {
    var all := facts + [MakeFact(kind, owner, selection, outcome, sequence)];
    if Needs(kind).Some? {
      var k := Needs(kind).value;
      var j :| 0 <= j < |facts| && facts[j].kind == k
        && Agrees(facts[j], MakeFact(k, owner, NO_SELECTION, UnknownOutcome, 0), Level(k));
      assert all[j] == facts[j] && Agrees(all[j], all[|facts|], Level(k));
    }
  }

  /** Telling one more well-founded fact keeps the chronicle. */
  lemma ChronicleGrows(facts: seq<Fact>, owners: nat, newOwners: nat, kind: Kind, owner: Chain, selection: Selection, outcome: Outcome)
    requires Chronicle(facts, owners) && owners <= newOwners && |facts| < MAX_SAFE
    requires WellOutcome(kind, selection, outcome) && OrdinalsSet(owner, Level(kind))
    requires Needs(kind).Some? ==> Told(facts, Needs(kind).value, owner)
    requires Newer(MakeFact(kind, owner, selection, outcome, |facts| + 1), owners, newOwners)
    ensures Chronicle(facts + [MakeFact(kind, owner, selection, outcome, |facts| + 1)], newOwners)
  {
    hide Shaped, Told, Founded, MakeFact, Introduces;
    var n, f := |facts|, MakeFact(kind, owner, selection, outcome, |facts| + 1);
    MadeShaped(kind, owner, selection, outcome, n + 1);
    NewFounded(facts, kind, owner, selection, outcome, n + 1);
    forall i | 0 <= i < n ensures Founded(facts + [f], i) {
      FoundedStays(facts, f, i);
    }
  }

  lemma FoundedStays(facts: seq<Fact>, f: Fact, i: nat)
    requires i < |facts| && Founded(facts, i)
    ensures Founded(facts + [f], i)
  {
    if Needs(facts[i].kind).Some? {
      var kind := Needs(facts[i].kind).value;
      var j :| 0 <= j < i && facts[j].kind == kind && Agrees(facts[j], facts[i], Level(kind));
      assert (facts + [f])[j] == facts[j];
    }
  }

  class ProductObservation {
    var state: State
    var ownerLimit: nat
    var eventLimit: nat
    var owners: nat
    var sequence: nat
    var openings: map<nat, Chain>
    var inventories: map<(Text, int, Text), Chain>
    var archives: map<nat, Chain>
    var readies: map<nat, Chain>
    var told: seq<Fact>   // every fact given to the sink, in order

    /** Every remembered owner was told about in one of `facts`. */
    ghost predicate OwnedIn(facts: seq<Fact>)
      reads this`openings, this`inventories, this`archives, this`readies
    {
      && Known(openings, 1, OpeningStored, facts) && Known(inventories, 2, InventoryAdopted, facts)
      && Known(archives, 3, ArchiveStored, facts) && Known(readies, 4, ArchiveReady, facts)
    }

    predicate Opened(owner: nat, workspace: Text, opening: int, attempt: Text)
      reads this`openings
    {
      && owner in openings && openings[owner].workspace == workspace
      && openings[owner].opening == opening && openings[owner].attempt == attempt
    }

    /** No fact can be told any more. */
    predicate Full()
      reads this`sequence, this`eventLimit
    {
      sequence >= eventLimit || sequence >= MAX_SAFE
    }

    /** No owner can be numbered any more. */
    predicate Spent()
      reads this`owners, this`ownerLimit
    {
      owners >= ownerLimit || owners >= MAX_SAFE
    }

    /** The ready archive belongs to the operation of `owner`. */
    predicate ReadyOf(owner: nat, ready: nat)
      reads this`archives, this`readies
    {
      ready in readies && owner in archives && readies[ready].operationOrdinal == archives[owner].operationOrdinal
    }

    ghost predicate Valid()
      reads this
    {
      && |told| == sequence <= MAX_SAFE && owners <= MAX_SAFE
      && Chronicle(told, owners)
      && OwnedIn(told)
      && (state != Active ==> openings == map[] == archives == readies && inventories == map[])
      && (state in {Prepared, Attached} ==> told == [])
    }

    constructor ()
      ensures Valid() && state == Prepared && told == []
    {
      state, ownerLimit, eventLimit, owners, sequence := Prepared, 0, 0, 0, 0;
      openings, inventories, archives, readies, told := map[], map[], map[], map[], [];
    }

    method Forget()
      modifies this`openings, this`inventories, this`archives, this`readies
      ensures openings == map[] == archives == readies && inventories == map[]
    {
      openings, inventories, archives, readies := map[], map[], map[], map[];
    }

    method Fail(cause: Cause)
      requires Valid()
      modifies this`state, this`openings, this`inventories, this`archives, this`readies
      ensures Valid() && state == Incomplete(cause)
    {
      state := Incomplete(cause);
      Forget();
    }

    method Attach(actual: bool, ownerLimit: int, eventLimit: int) returns (r: AttachResult)
      requires Valid()
      modifies this`state, this`ownerLimit, this`eventLimit
      ensures Valid() && (r == JustAttached <==> actual && old(state) == Prepared && Natural(ownerLimit) && Natural(eventLimit))
      ensures if r == JustAttached then state == Attached && this.ownerLimit == ownerLimit && this.eventLimit == eventLimit
        else unchanged(this)
    {
      if !actual {
        return ForeignDocument;
      }
      if state == Attached {
        return AlreadyAttached;
      }
      if state != Prepared {
        return Late;
      }
      if !Natural(ownerLimit) || !Natural(eventLimit) {
        return BadLimits;
      }
      state, this.ownerLimit, this.eventLimit := Attached, ownerLimit, eventLimit;
      return JustAttached;
    }

    method Start(actual: bool)
      requires Valid()
      modifies this`state
      ensures Valid()
      ensures state == if actual && old(state) == Attached then Active
        else if actual && old(state) == Prepared then Unobserved else old(state)
    {
      if actual && state == Attached {
        state := Active;
      } else if actual && state == Prepared {
        state := Unobserved;
      }
    }

    method Close()
      requires Valid()
      modifies this`state, this`openings, this`inventories, this`archives, this`readies
      ensures Valid() && state == if old(state.Incomplete?) then old(state) else Closed
    {
      if !state.Incomplete? {
        state := Closed;
      }
      Forget();
    }

    method Allocate() returns (ordinal: Option<nat>)
      requires Valid()
      modifies this
      ensures Valid() && told == old(told) && sequence == old(sequence)
      ensures ordinal.None? ==> state != Active && owners == old(owners) && (old(state) == Active ==> state == Incomplete(OwnerLimit))
      ensures old(state) == Active ==> (ordinal.None? <==> old(Spent())) && eventLimit == old(eventLimit)
      ensures ordinal.Some? ==> old(state) == state == Active && ordinal.value == owners == old(owners) + 1 <= MAX_SAFE
      ensures ordinal.Some? ==> Chronicle(told, old(owners)) && unchanged(this`openings, this`inventories, this`archives, this`readies)
    {
      if state != Active {
        return None;
      }
      if owners >= ownerLimit || owners >= MAX_SAFE {
        Fail(OwnerLimit);
        return None;
      }
      owners := owners + 1;
      return Some(owners);
    }

    /** Gives the sink one numbered fact; `raises` says that the sink throws. */
    method Publish(kind: Kind, owner: Chain, selection: Selection, outcome: Outcome, raises: bool, ghost before: nat)
      requires |told| == sequence <= MAX_SAFE && before <= owners <= MAX_SAFE && Chronicle(told, before) && state == Active
      requires OwnedIn(told + [MakeFact(kind, owner, selection, outcome, sequence + 1)])
      requires WellOutcome(kind, selection, outcome) && OrdinalsSet(owner, Level(kind))
      requires Needs(kind).Some? ==> Told(told, Needs(kind).value, owner)
      requires Newer(MakeFact(kind, owner, selection, outcome, sequence + 1), before, owners)
      modifies this
      ensures Valid() && owners == old(owners)
      ensures told == if old(Full()) then old(told) else old(told) + [MakeFact(kind, owner, selection, outcome, |old(told)| + 1)]
      ensures state == Published(old(Full()), raises)
      ensures state == Active ==> unchanged(this`openings, this`inventories, this`archives, this`readies)
    {
      hide Chronicle, Shaped, Told, MakeFact, Newer, Known;
      if sequence >= eventLimit || sequence >= MAX_SAFE {
        ChronicleMore(told, before, owners);
        KnownNone<nat>(1, OpeningStored, told);
        KnownNone<(Text, int, Text)>(2, InventoryAdopted, told);
        KnownNone<nat>(3, ArchiveStored, told);
        KnownNone<nat>(4, ArchiveReady, told);
        state := Incomplete(EventLimit);
        Forget();
        return;
      }
      ChronicleGrows(told, before, owners, kind, owner, selection, outcome);
      sequence := sequence + 1;
      told := told + [MakeFact(kind, owner, selection, outcome, sequence)];
      if raises {
        KnownNone<nat>(1, OpeningStored, told);
        KnownNone<(Text, int, Text)>(2, InventoryAdopted, told);
        KnownNone<nat>(3, ArchiveStored, told);
        KnownNone<nat>(4, ArchiveReady, told);
        state := Incomplete(SinkRaised);
        Forget();
      }
    }

    lemma OwnedGrows(f: Fact)
      requires OwnedIn(told)
      ensures OwnedIn(told + [f])
    {
      hide Told, Known;
      KnownGrows(openings, 1, OpeningStored, told, f);
      KnownGrows(inventories, 2, InventoryAdopted, told, f);
      KnownGrows(archives, 3, ArchiveStored, told, f);
      KnownGrows(readies, 4, ArchiveReady, told, f);
    }

    /** Publishing about an owner already known. */
    method Tell(kind: Kind, owner: Chain, selection: Selection, outcome: Outcome, raises: bool)
      requires Valid() && state == Active && Introduces(MakeFact(kind, owner, selection, outcome, 0)) == ROther
      requires WellOutcome(kind, selection, outcome) && OrdinalsSet(owner, Level(kind))
      requires Needs(kind).Some? ==> Told(told, Needs(kind).value, owner)
      modifies this
      ensures Valid() && owners == old(owners)
      ensures told == if old(Full()) then old(told) else old(told) + [MakeFact(kind, owner, selection, outcome, |old(told)| + 1)]
      ensures state == Published(old(Full()), raises)
      ensures state == Active ==> unchanged(this`openings, this`inventories, this`archives, this`readies)
    {
      hide Chronicle, Shaped, Told, Known;
      OwnedGrows(MakeFact(kind, owner, selection, outcome, sequence + 1));
      Publish(kind, owner, selection, outcome, raises, owners);
    }

    method OpeningWasStored(owner: nat, workspace: Text, opening: int, attempt: Text, raises: bool)
      requires Valid()
      modifies this
      ensures Valid()
      ensures old(state != Active || owner in openings) ==> told == old(told) && state == old(state) && openings == old(openings)
      ensures old(state == Active && owner !in openings && Spent()) ==> state == Incomplete(OwnerLimit) && told == old(told)
      ensures old(state == Active && owner !in openings && !Spent()) ==>
        var actual := Chain(workspace, opening, attempt, old(owners) + 1, [], 0, 0);
        && state == Published(old(Full()), raises)
        && told == (if old(Full()) then old(told)
          else old(told) + [MakeFact(OpeningStored, actual, NO_SELECTION, UnknownOutcome, |old(told)| + 1)])
        && (state == Active ==> openings == old(openings)[owner := actual] && unchanged(this`inventories, this`archives, this`readies))
    {
      hide Chronicle, Shaped, Told, MakeFact, Newer, Known, OrdinalsSet, WellOutcome, Level, Needs;
      if state != Active || owner in openings {
        return;
      }
      var ordinal := Allocate();
      if ordinal.None? {
        return;
      }
      var actual := Chain(workspace, opening, attempt, ordinal.value, [], 0, 0);
      ghost var f := MakeFact(OpeningStored, actual, NO_SELECTION, UnknownOutcome, sequence + 1);
      OwnedGrows(f);
      StageReady(told, OpeningStored, actual, actual, ordinal.value, sequence + 1);
      KnownWith(openings, 1, OpeningStored, told + [f], owner, actual);
      openings := openings[owner := actual];
      Publish(OpeningStored, actual, NO_SELECTION, UnknownOutcome, raises, owners - 1);
    }

    method Selected(owner: nat, kind: Kind, selection: Selection, raises: bool)
      requires Valid() && Selects(kind)
      modifies this
      ensures Valid()
      ensures old(state) != Active ==> unchanged(this)
      ensures old(state == Active && (owner !in openings || (kind != SourceSelected && selection.projectId.None?))) ==>
        state == Incomplete(OwnerMismatch) && told == old(told)
      ensures old(state == Active && owner in openings) && (kind == SourceSelected || selection.projectId.Some?) ==>
        && state == Published(old(Full()), raises)
        && told == (if old(Full()) then old(told)
          else old(told) + [MakeFact(kind, old(openings)[owner], selection, UnknownOutcome, |old(told)| + 1)])
    {
      hide Chronicle, Shaped, Told, Known;
      if state != Active {
        return;
      }
      if owner !in openings || (kind != SourceSelected && selection.projectId.None?) {
        Fail(OwnerMismatch);
        return;
      }
      KnownFact(openings, 1, OpeningStored, told, owner);
      Tell(kind, openings[owner], selection, UnknownOutcome, raises);
    }

    method InventoryWasAdopted(owner: nat, workspace: Text, opening: int, attempt: Text, revision: Text, raises: bool)
      requires Valid()
      modifies this
      ensures Valid()
      ensures old(state) != Active ==> told == old(told) && state == old(state)
      ensures old(state == Active && !Opened(owner, workspace, opening, attempt)) ==> state == Incomplete(OwnerMismatch) && told == old(told)
      ensures old(state == Active && Opened(owner, workspace, opening, attempt) && Spent()) ==> state == Incomplete(OwnerLimit) && told == old(told)
      ensures old(state == Active && Opened(owner, workspace, opening, attempt) && !Spent()) ==>
        var actual := old(openings)[owner].(inventoryRevision := revision);
        && state == Published(old(Full()), raises)
        && told == (if old(Full()) then old(told)
          else old(told) + [MakeFact(InventoryAdopted, actual, NO_SELECTION, UnknownOutcome, |old(told)| + 1)])
        && (state == Active ==>
          inventories == old(inventories)[(workspace, opening, revision) := actual] && unchanged(this`openings, this`archives, this`readies))
    {
      hide Chronicle, Shaped, Told, MakeFact, Newer, Known, OrdinalsSet, WellOutcome, Level, Needs;
      if state != Active {
        return;
      }
      if !Opened(owner, workspace, opening, attempt) {
        Fail(OwnerMismatch);
        return;
      }
      var previous := openings[owner];
      KnownFact(openings, 1, OpeningStored, told, owner);
      var ordinal := Allocate();
      if ordinal.None? {
        return;
      }
      var actual := previous.(inventoryRevision := revision);
      ghost var f := MakeFact(InventoryAdopted, actual, NO_SELECTION, UnknownOutcome, sequence + 1);
      OwnedGrows(f);
      StageReady(told, InventoryAdopted, previous, actual, ordinal.value, sequence + 1);
      KnownWith(inventories, 2, InventoryAdopted, told + [f], (workspace, opening, revision), actual);
      inventories := inventories[(workspace, opening, revision) := actual];
      Publish(InventoryAdopted, actual, NO_SELECTION, UnknownOutcome, raises, owners - 1);
    }

    method ArchiveWasStored(owner: nat, workspace: Text, opening: int, revision: Text, raises: bool)
      requires Valid()
      modifies this
      ensures Valid()
      ensures old(state != Active || owner in archives) ==> told == old(told) && state == old(state) && archives == old(archives)
      ensures old(state == Active && owner !in archives && (workspace, opening, revision) !in inventories) ==>
        state == Incomplete(OwnerMismatch) && told == old(told)
      ensures old(state == Active && owner !in archives && (workspace, opening, revision) in inventories && Spent()) ==>
        state == Incomplete(OwnerLimit) && told == old(told)
      ensures old(state == Active && owner !in archives && (workspace, opening, revision) in inventories && !Spent()) ==>
        var actual := old(inventories)[(workspace, opening, revision)].(operationOrdinal := old(owners) + 1);
        && state == Published(old(Full()), raises)
        && told == (if old(Full()) then old(told)
          else old(told) + [MakeFact(ArchiveStored, actual, NO_SELECTION, UnknownOutcome, |old(told)| + 1)])
        && (state == Active ==> archives == old(archives)[owner := actual] && unchanged(this`openings, this`inventories, this`readies))
    {
      hide Chronicle, Shaped, Told, MakeFact, Newer, Known, OrdinalsSet, WellOutcome, Level, Needs;
      if state != Active || owner in archives {
        return;
      }
      if (workspace, opening, revision) !in inventories {
        Fail(OwnerMismatch);
        return;
      }
      var inventory := inventories[(workspace, opening, revision)];
      KnownFact(inventories, 2, InventoryAdopted, told, (workspace, opening, revision));
      var ordinal := Allocate();
      if ordinal.None? {
        return;
      }
      var actual := inventory.(operationOrdinal := ordinal.value);
      ghost var f := MakeFact(ArchiveStored, actual, NO_SELECTION, UnknownOutcome, sequence + 1);
      OwnedGrows(f);
      StageReady(told, ArchiveStored, inventory, actual, ordinal.value, sequence + 1);
      KnownWith(archives, 3, ArchiveStored, told + [f], owner, actual);
      archives := archives[owner := actual];
      Publish(ArchiveStored, actual, NO_SELECTION, UnknownOutcome, raises, owners - 1);
    }

    method Archive(owner: nat, kind: Kind, raises: bool)
      requires Valid() && (kind == ArchiveRetirementRequested || kind == ArchiveSettledRetired)
      modifies this
      ensures Valid()
      ensures old(state) != Active ==> unchanged(this)
      ensures old(state == Active && owner !in archives) ==> state == Incomplete(OwnerMismatch) && told == old(told)
      ensures old(state == Active && owner in archives) ==>
        && state == Published(old(Full()), raises)
        && told == (if old(Full()) then old(told)
          else old(told) + [MakeFact(kind, old(archives)[owner], NO_SELECTION, UnknownOutcome, |old(told)| + 1)])
    {
      hide Chronicle, Shaped, Told, Known;
      if state != Active {
        return;
      }
      if owner !in archives {
        Fail(OwnerMismatch);
        return;
      }
      KnownFact(archives, 3, ArchiveStored, told, owner);
      Tell(kind, archives[owner], NO_SELECTION, UnknownOutcome, raises);
    }

    method Ready(owner: nat, ready: nat, raises: bool)
      requires Valid()
      modifies this
      ensures Valid()
      ensures old(state != Active || ready in readies) ==> told == old(told) && state == old(state) && readies == old(readies)
      ensures old(state == Active && ready !in readies && owner !in archives) ==> state == Incomplete(OwnerMismatch) && told == old(told)
      ensures old(state == Active && ready !in readies && owner in archives && Spent()) ==> state == Incomplete(OwnerLimit) && told == old(told)
      ensures old(state == Active && ready !in readies && owner in archives && !Spent()) ==>
        var actual := old(archives)[owner].(readyOrdinal := old(owners) + 1);
        && state == Published(old(Full()), raises)
        && told == (if old(Full()) then old(told)
          else old(told) + [MakeFact(ArchiveReady, actual, NO_SELECTION, UnknownOutcome, |old(told)| + 1)])
        && (state == Active ==> readies == old(readies)[ready := actual] && unchanged(this`openings, this`inventories, this`archives))
    {
      hide Chronicle, Shaped, Told, MakeFact, Newer, Known, OrdinalsSet, WellOutcome, Level, Needs;
      if state != Active || ready in readies {
        return;
      }
      if owner !in archives {
        Fail(OwnerMismatch);
        return;
      }
      var previous := archives[owner];
      KnownFact(archives, 3, ArchiveStored, told, owner);
      var ordinal := Allocate();
      if ordinal.None? {
        return;
      }
      var actual := previous.(readyOrdinal := ordinal.value);
      ghost var f := MakeFact(ArchiveReady, actual, NO_SELECTION, UnknownOutcome, sequence + 1);
      OwnedGrows(f);
      StageReady(told, ArchiveReady, previous, actual, ordinal.value, sequence + 1);
      KnownWith(readies, 4, ArchiveReady, told + [f], ready, actual);
      readies := readies[ready := actual];
      Publish(ArchiveReady, actual, NO_SELECTION, UnknownOutcome, raises, owners - 1);
    }

    /** `downloadWill` and `download`: both need the ready archive and its own operation. */
    method Download(owner: nat, ready: nat, kind: Kind, outcome: Outcome, raises: bool)
      requires Valid() && (kind == DownloadWillRequest || (kind == DownloadResult && WellOutcome(kind, NO_SELECTION, outcome)))
      modifies this
      ensures Valid()
      ensures old(state) != Active ==> unchanged(this)
      ensures old(state == Active && !ReadyOf(owner, ready)) ==> state == Incomplete(OwnerMismatch) && told == old(told)
      ensures old(state == Active && ReadyOf(owner, ready)) ==>
        && state == Published(old(Full()), raises)
        && told == (if old(Full()) then old(told)
          else old(told) + [MakeFact(kind, old(readies)[ready], NO_SELECTION, outcome, |old(told)| + 1)])
    {
      hide Chronicle, Shaped, Told, Known;
      if state != Active {
        return;
      }
      if ready !in readies || owner !in archives || readies[ready].operationOrdinal != archives[owner].operationOrdinal {
        Fail(OwnerMismatch);
        return;
      }
      KnownFact(readies, 4, ArchiveReady, told, ready);
      Tell(kind, readies[ready], NO_SELECTION, outcome, raises);
    }

    method WasClosed(workspace: Text, opening: int, kind: Kind, raises: bool)
      requires Valid() && (kind == ModelClosed || kind == WorkspaceClosed)
      modifies this
      ensures Valid()
      ensures old(state) != Active ==> told == old(told) && state == old(state)
      ensures old(state) == Active ==>
        && state == Published(old(Full()), raises)
        && told == (if old(Full()) then old(told)
          else old(told) + [MakeFact(kind, Chain(workspace, opening, [], 0, [], 0, 0), NO_SELECTION, UnknownOutcome, |old(told)| + 1)])
      ensures forall k <- inventories :: k in old(inventories) && inventories[k] == old(inventories)[k]
      ensures forall k <- inventories :: !(inventories[k].workspace == workspace && inventories[k].opening == opening)
      ensures state == Active ==> forall k <- old(inventories) ::
        k in inventories || (old(inventories)[k].workspace == workspace && old(inventories)[k].opening == opening)
    {
      hide Chronicle, Shaped, Told, Known;
      if state == Active {
        Tell(kind, Chain(workspace, opening, [], 0, [], 0, 0), NO_SELECTION, UnknownOutcome, raises);
      }
      ghost var all := inventories;
      inventories := map k | k in inventories && !(inventories[k].workspace == workspace && inventories[k].opening == opening) :: inventories[k];
      KnownFewer(all, inventories, 2, InventoryAdopted, told);
    }
  }

  /** A later stage leaves what was told about the earlier one. */
  lemma ToldStage(facts: seq<Fact>, kind: Kind, a: Chain, b: Chain)
    requires Told(facts, kind, a)
    requires
      || (kind == OpeningStored && b == a.(inventoryRevision := b.inventoryRevision))
      || (kind == InventoryAdopted && b == a.(operationOrdinal := b.operationOrdinal))
      || (kind == ArchiveStored && b == a.(readyOrdinal := b.readyOrdinal))
    ensures Told(facts, kind, b)
  {
    var j :| 0 <= j < |facts| && facts[j].kind == kind
      && Agrees(facts[j], MakeFact(kind, a, NO_SELECTION, UnknownOutcome, 0), Level(kind));
    assert Agrees(facts[j], MakeFact(kind, b, NO_SELECTION, UnknownOutcome, 0), Level(kind));
  }

  /** All a publication of the stage `kind` needs, from the stage before it. */
  lemma StageReady(facts: seq<Fact>, kind: Kind, previous: Chain, actual: Chain, ordinal: nat, sequence: nat)
    requires 1 <= ordinal <= MAX_SAFE
    requires
      || (kind == OpeningStored && actual.openingOrdinal == ordinal)
      || (kind == InventoryAdopted && actual == previous.(inventoryRevision := actual.inventoryRevision)
        && OrdinalsSet(previous, 1) && Told(facts, OpeningStored, previous))
      || (kind == ArchiveStored && actual == previous.(operationOrdinal := ordinal)
        && OrdinalsSet(previous, 2) && Told(facts, InventoryAdopted, previous))
      || (kind == ArchiveReady && actual == previous.(readyOrdinal := ordinal)
        && OrdinalsSet(previous, 3) && Told(facts, ArchiveStored, previous))
    ensures WellOutcome(kind, NO_SELECTION, UnknownOutcome) && OrdinalsSet(actual, Level(kind))
    ensures Needs(kind).Some? ==> Told(facts, Needs(kind).value, actual)
    ensures Newer(MakeFact(kind, actual, NO_SELECTION, UnknownOutcome, sequence), ordinal - 1, ordinal)
    ensures Told(facts + [MakeFact(kind, actual, NO_SELECTION, UnknownOutcome, sequence)], kind, actual)
    ensures Level(kind) == match kind case OpeningStored => 1 case InventoryAdopted => 2 case ArchiveStored => 3 case _ => 4
  {
    hide Told, MakeFact, Newer;
    FreshOf(kind, actual, sequence, ordinal - 1, ordinal);
    ToldNow(facts, kind, actual, sequence);
    match kind
    case InventoryAdopted => ToldStage(facts, OpeningStored, previous, actual);
    case ArchiveStored => ToldStage(facts, InventoryAdopted, previous, actual);
    case ArchiveReady => ToldStage(facts, ArchiveStored, previous, actual);
    case _ =>
  }

  lemma FreshOf(kind: Kind, owner: Chain, sequence: nat, before: nat, owners: nat)
    requires kind == OpeningStored ==> before < owner.openingOrdinal <= owners
    requires kind == ArchiveStored ==> before < owner.operationOrdinal <= owners
    requires kind == ArchiveReady ==> before < owner.readyOrdinal <= owners
    ensures Newer(MakeFact(kind, owner, NO_SELECTION, UnknownOutcome, sequence), before, owners)
  {
  }

  lemma ToldNow(facts: seq<Fact>, kind: Kind, owner: Chain, sequence: nat)
    ensures Told(facts + [MakeFact(kind, owner, NO_SELECTION, UnknownOutcome, sequence)], kind, owner)
  {
    var all := facts + [MakeFact(kind, owner, NO_SELECTION, UnknownOutcome, sequence)];
    assert all[|facts|].kind == kind
      && Agrees(all[|facts|], MakeFact(kind, owner, NO_SELECTION, UnknownOutcome, 0), Level(kind));
  }

  lemma ChronicleMore(facts: seq<Fact>, owners: nat, more: nat)
    requires Chronicle(facts, owners) && owners <= more
    ensures Chronicle(facts, more)
  {
  }
}
