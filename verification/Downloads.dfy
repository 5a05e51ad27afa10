/** The two chunked reads: the model text joined from base64 chunks, and the inventory bytes copied chunk by chunk. */
module Downloads {
  import opened Text
  import opened Base64

  const CHUNK: nat := 196608
  const CHUNK_TEXT: nat := 262144

  /** A decoded read reply. */
  datatype Chunk = Chunk(offset: nat, content: Text, done: bool)

  function Expected(size: nat, offset: nat): nat
    requires offset <= size
  {
    if CHUNK <= size - offset then CHUNK else size - offset
  }

  /** What a chunk must satisfy at `offset` of `size` bytes. */
  predicate Accepted(c: Chunk, size: nat, offset: nat)
    requires offset <= size
  {
    && c.offset == offset && |c.content| <= CHUNK_TEXT && Padded(c.content)
    && |Decode(c.content)| == Expected(size, offset)
    && c.done == (offset + Expected(size, offset) == size)
  }

  /** `head` in front of a result, if there is one. */
  function Before<T>(head: seq<T>, rest: Option<seq<T>>): Option<seq<T>> {
    if rest.None? then None else Some(head + rest.value)
  }

  lemma BeforeJoins<T>(a: seq<T>, b: seq<T>, rest: Option<seq<T>>)
    ensures Before(a, Before(b, rest)) == Before(a + b, rest) && Before([], rest) == rest
  {
    if rest.Some? {
      assert a + (b + rest.value) == (a + b) + rest.value;
      assert [] + rest.value == rest.value;
    }
  }

  /** The joined text of the reads from `offset`; a reply that is missing or not accepted ends the transfer. */
  function Joined(size: nat, offset: nat, replies: seq<Option<Chunk>>): Option<Text>
    requires offset <= size
    decreases size - offset
  {
    if offset == size then Some([])
    else if replies == [] || replies[0].None? || !Accepted(replies[0].value, size, offset) then None
    else Before(replies[0].value.content, Joined(size, offset + Expected(size, offset), replies[1..]))
  }

  /** The bytes of the chunks a complete transfer accepted, one after the other. */
  function Received(size: nat, offset: nat, replies: seq<Option<Chunk>>): Bytes
    requires offset <= size && Joined(size, offset, replies).Some?
    decreases size - offset
  {
    if offset == size then []
    else Decode(replies[0].value.content) + Received(size, offset + Expected(size, offset), replies[1..])
  }

  lemma UnpaddedChunk(c: Chunk, size: nat, offset: nat)
    requires offset <= size && Accepted(c, size, offset)
    ensures offset + CHUNK <= size ==> Pads(c.content) == 0
  {
    DecodeLength(c.content);
  }

  /**
    Joining the accepted chunks as text is sound: only the last may be padded, so the joined text
    decodes to the chunk bytes in order, and to exactly as many as were announced.
  */
  lemma {:induction false} JoinedDecodes(size: nat, offset: nat, replies: seq<Option<Chunk>>)
    requires offset <= size && Joined(size, offset, replies).Some?
    ensures var t := Joined(size, offset, replies).value;
      Padded(t) && Decode(t) == Received(size, offset, replies) && |Decode(t)| == size - offset
    decreases size - offset
  {
    hide Decode, Pads;
    if offset < size {
      var c := replies[0].value;
      var next := offset + Expected(size, offset);
      JoinedDecodes(size, next, replies[1..]);
      if next < size {
        UnpaddedChunk(c, size, offset);
        DecodeJoins(c.content, Joined(size, next, replies[1..]).value);
      } else {
        assert Joined(size, next, replies[1..]) == Some([]);
        assert c.content + [] == c.content;
        assert Received(size, next, replies[1..]) == [];
        assert Decode(c.content) + [] == Decode(c.content);
      }
    } else {
      EmptyTrip();
    }
  }

  /** The replies of a host that serves `bytes` from `offset`. */
  function Served(bytes: Bytes, offset: nat): seq<Option<Chunk>>
    requires offset <= |bytes|
    decreases |bytes| - offset
  {
    if offset == |bytes| then []
    else
      var next := offset + Expected(|bytes|, offset);
      [Some(Chunk(offset, Encode(bytes[offset..next]), next == |bytes|))] + Served(bytes, next)
  }

  /** Such a host is read completely: the text is the base64 of the whole. */
  lemma {:induction false} ServedIsRead(bytes: Bytes, offset: nat)
    requires offset <= |bytes|
    ensures Joined(|bytes|, offset, Served(bytes, offset)) == Some(Encode(bytes[offset..]))
    decreases |bytes| - offset
  {
    hide Padded, Decode, Pads, Encode;
    assert offset == |bytes| ==> bytes[offset..] == [];
    if offset < |bytes| {
      var next := offset + Expected(|bytes|, offset);
      var head, tail := bytes[offset..next], bytes[next..];
      ServedIsRead(bytes, next);
      RoundTrip(head);
      assert bytes[offset..] == head + tail;
      var c := Chunk(offset, Encode(head), next == |bytes|);
      assert |Encode(head)| <= CHUNK_TEXT && Accepted(c, |bytes|, offset);
      assert Encode(head + tail) == Encode(head) + Encode(tail) by {
        if next < |bytes| {
          EncodeJoins(head, tail);
        } else {
          EncodeEmpty();
          assert tail == [] && head + tail == head && Encode(head) + [] == Encode(head);
        }
      }
      assert Served(bytes, offset) == [Some(c)] + Served(bytes, next);
      assert Served(bytes, offset)[1..] == Served(bytes, next);
    } else {
      EncodeEmpty();
      assert bytes[offset..] == [];
    }
  }

  lemma EncodeEmpty()
    ensures Encode([]) == []
  {
  }

  /** The read loop of a model transfer. */
  method ReadModel(size: nat, replies: seq<Option<Chunk>>) returns (content: Option<Text>)
    ensures content == Joined(size, 0, replies)
    ensures content.Some? ==> Padded(content.value) && Decode(content.value) == Received(size, 0, replies)
    ensures content.Some? ==> |Decode(content.value)| == size
  {
    hide Decode;
    var offset, k := 0, 0;
    var text: Text := [];
    assert replies[0..] == replies;
    BeforeJoins(text, text, Joined(size, 0, replies));
    while offset < size
      invariant offset <= size && k <= |replies|
      invariant Joined(size, 0, replies) == Before(text, Joined(size, offset, replies[k..]))
      decreases size - offset
    {
      if k == |replies| || replies[k].None? || !Accepted(replies[k].value, size, offset) {
        return None;
      }
      var chunk := replies[k].value;
      assert replies[k..][1..] == replies[k + 1..];
      BeforeJoins(text, chunk.content, Joined(size, offset + Expected(size, offset), replies[k + 1..]));
      text := text + chunk.content;
      offset := offset + |Decode(chunk.content)|;
      k := k + 1;
    }
    content := Some(text);
    assert text + [] == text;
    assert Joined(size, 0, replies) == Some(text);
    JoinedDecodes(size, 0, replies);
  }

  // ---- The inventory: raw chunks copied into one buffer.

  /** A read reply whose content `atob` took apart; `None` when it threw or the reply was no reply. */
  datatype RawChunk = RawChunk(raw: Bytes, done: bool)

  predicate Matches(c: RawChunk, size: nat, offset: nat)
    requires offset <= size
  {
    |c.raw| == Expected(size, offset) && c.done == (offset + |c.raw| == size)
  }

  function Assembled(size: nat, offset: nat, replies: seq<Option<RawChunk>>): Option<Bytes>
    requires offset <= size
    decreases size - offset
  {
    if offset == size then Some([])
    else if replies == [] || replies[0].None? || !Matches(replies[0].value, size, offset) then None
    else Before(replies[0].value.raw, Assembled(size, offset + |replies[0].value.raw|, replies[1..]))
  }

  /** A host that serves `bytes` in chunks. */
  function RawServed(bytes: Bytes, offset: nat): seq<Option<RawChunk>>
    requires offset <= |bytes|
    decreases |bytes| - offset
  {
    if offset == |bytes| then []
    else
      var next := offset + Expected(|bytes|, offset);
      [Some(RawChunk(bytes[offset..next], next == |bytes|))] + RawServed(bytes, next)
  }

  lemma {:induction false} AssembledSize(size: nat, offset: nat, replies: seq<Option<RawChunk>>)
    requires offset <= size && Assembled(size, offset, replies).Some?
    ensures |Assembled(size, offset, replies).value| == size - offset
    decreases size - offset
  {
    if offset < size {
      AssembledSize(size, offset + |replies[0].value.raw|, replies[1..]);
    }
  }

  lemma {:induction false} RawServedAssembles(bytes: Bytes, offset: nat)
    requires offset <= |bytes|
    ensures Assembled(|bytes|, offset, RawServed(bytes, offset)) == Some(bytes[offset..])
    decreases |bytes| - offset
  {
    if offset < |bytes| {
      var next := offset + Expected(|bytes|, offset);
      RawServedAssembles(bytes, next);
      var c := RawChunk(bytes[offset..next], next == |bytes|);
      assert Matches(c, |bytes|, offset) && offset + |c.raw| == next;
      assert RawServed(bytes, offset) == [Some(c)] + RawServed(bytes, next);
      assert RawServed(bytes, offset)[1..] == RawServed(bytes, next);
      assert bytes[offset..] == bytes[offset..next] + bytes[next..];
    } else {
      assert bytes[offset..] == [];
    }
  }

  method ReadInventory(size: nat, replies: seq<Option<RawChunk>>) returns (ok: bool, bytes: array<Byte>)
    ensures ok <==> Assembled(size, 0, replies).Some?
    ensures ok ==> bytes[..] == Assembled(size, 0, replies).value
    ensures fresh(bytes)
  {
    bytes := new Byte[size](_ => 0);
    var offset, k := 0, 0;
    assert replies[0..] == replies && bytes[..0] == [];
    BeforeJoins(bytes[..0], bytes[..0], Assembled(size, 0, replies));
    while offset < size
      invariant offset <= size && k <= |replies| && bytes.Length == size
      invariant Assembled(size, 0, replies) == Before(bytes[..offset], Assembled(size, offset, replies[k..]))
      decreases size - offset
    {
      if k == |replies| || replies[k].None? || !Matches(replies[k].value, size, offset) {
        return false, bytes;
      }
      var raw := replies[k].value.raw;
      assert replies[k..][1..] == replies[k + 1..];
      BeforeJoins(bytes[..offset], raw, Assembled(size, offset + |raw|, replies[k + 1..]));
      CopyIn(bytes, offset, raw);
      offset := offset + |raw|;
      k := k + 1;
    }
    assert bytes[..size] == bytes[..];
    ok := true;
  }

  /** The inner loop: one chunk goes behind the bytes before it. */
  method CopyIn(bytes: array<Byte>, offset: nat, raw: Bytes)
    requires offset + |raw| <= bytes.Length
    modifies bytes
    ensures bytes[..offset + |raw|] == old(bytes[..offset]) + raw
  {
    for i := 0 to |raw|
      invariant bytes[..offset] == old(bytes[..offset])
      invariant bytes[offset..offset + i] == raw[..i]
    {
      bytes[offset + i] := raw[i];
    }
    assert bytes[..offset + |raw|] == bytes[..offset] + bytes[offset..offset + |raw|];
  }
}
