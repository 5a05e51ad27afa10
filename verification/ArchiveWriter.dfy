/** The bounded writer: one owned backing, a first failure that sticks. */
module ArchiveWriter {
  import opened Text

  datatype Failure = CapacityFailure | RetiredFailure | SealedFailure | DisposedFailure

  datatype State = Open(offset: nat) | Sealed | Faulted(first: Failure) | Disposed(first: Failure)

  class CheckedArchiveWriter {
    var backing: array?<Byte>
    var state: State
    const capacity: nat
    ghost var written: Bytes   // the chunks accepted, joined

    ghost predicate Valid()
      reads this, backing
    {
      && (backing == null <==> state.Disposed?)
      && (backing != null ==> backing.Length == capacity && |written| <= capacity && backing[..|written|] == written)
      && (state.Open? ==> state.offset == |written|)
    }

    /** The failure a call now reports: the first one that ever happened. */
    ghost function FirstOr(kind: Failure): Failure
      reads this`state
    {
      if state.Faulted? || state.Disposed? then state.first else kind
    }

    constructor (capacity: nat)
      ensures Valid() && state == Open(0) && written == [] && this.capacity == capacity && fresh(backing)
    {
      this.capacity := capacity;
      backing := new Byte[capacity](_ => 0);
      state := Open(0);
      written := [];
    }

    method Fail(kind: Failure) returns (first: Failure)
      requires Valid()
      modifies this`state
      ensures Valid() && first == old(FirstOr(kind))
      ensures state == if old(state.Faulted? || state.Disposed?) then old(state) else Faulted(kind)
    {
      if state.Faulted? || state.Disposed? {
        return state.first;
      }
      state := Faulted(kind);
      return kind;
    }

    /** A chunk is stored whole behind the chunks before it, or not at all. */
    method Write(chunk: Bytes) returns (failure: Option<Failure>)
      requires Valid()
      modifies this`state, this`written, backing
      ensures Valid()
      ensures failure == None <==> old(state.Open? && |chunk| <= capacity - state.offset)
      ensures failure == None ==> written == old(written) + chunk && state == Open(|written|)
      ensures failure != None ==> written == old(written)
      ensures failure != None ==> failure == Some(old(FirstOr(if state.Open? then CapacityFailure else SealedFailure)))
      ensures failure != None ==> state.Faulted? || state.Disposed?
    {
      if !state.Open? {
        var first := Fail(SealedFailure);
        return Some(first);
      }
      var offset := state.offset;
      if |chunk| > backing.Length - offset {
        var first := Fail(CapacityFailure);
        return Some(first);
      }
      forall i | 0 <= i < |chunk| {
        backing[offset + i] := chunk[i];
      }
      assert backing[..offset] == old(backing[..offset]);
      assert backing[offset..offset + |chunk|] == chunk;
      written := written + chunk;
      state := Open(offset + |chunk|);
      return None;
    }

    /** The used part, once; asking again is a failure. */
    method GetData() returns (data: Option<Bytes>)
      requires Valid()
      modifies this`state
      ensures Valid() && data == if old(state.Open?) then Some(written) else None
      ensures state == if old(state.Open?) then Sealed else if old(state == Sealed) then Faulted(SealedFailure) else old(state)
    {
      if !state.Open? {
        var first := Fail(SealedFailure);
        return None;
      }
      data := Some(backing[..state.offset]);
      state := Sealed;
    }

    method Retire()
      requires Valid()
      modifies this`state
      ensures Valid() && state == if old(state.Faulted? || state.Disposed?) then old(state) else Faulted(RetiredFailure)
    {
      var first := Fail(RetiredFailure);
    }

    /** Drops the backing; the first failure stays the first one. */
    method Dispose()
      requires Valid()
      modifies this`state, this`backing
      ensures Valid() && backing == null && state == Disposed(old(FirstOr(DisposedFailure)))
    {
      var first := Fail(DisposedFailure);
      backing := null;
      state := Disposed(first);
    }
  }
}
