/** The sink that takes the originals in: one buffer per file, filled chunk by chunk. */
module StagingSink {
  import opened Text

  datatype Entry = Directory(path: Text) | File(path: Text, byteLength: nat)

  datatype Kept = Kept(path: Text, bytes: Bytes)

  datatype Writing = Writing(path: Text, size: nat, written: Bytes)

  datatype Payload = Payload(files: seq<Kept>, directories: seq<Text>)

  datatype Sink = Sink(entries: seq<Entry>, files: seq<Kept>, directories: seq<Text>, writing: Option<Writing>)

  function Empty(): Sink { Sink([], [], [], None) }

  function Directories(entries: seq<Entry>): seq<Text> {
    if entries == [] then []
    else (if entries[0].Directory? then [entries[0].path] else []) + Directories(entries[1..])
  }

  function Inventory(s: Sink, entries: seq<Entry>): Sink { s.(entries := entries, directories := Directories(entries)) }

  /** `None` where the source throws. */
  function Begin(s: Sink, index: int): Option<Sink> {
    if s.writing.Some? || !(0 <= index < |s.entries|) || !s.entries[index].File? then None
    else Some(s.(writing := Some(Writing(s.entries[index].path, s.entries[index].byteLength, []))))
  }

  function Write(s: Sink, bytes: Bytes): Option<Sink> {
    if s.writing.None? || |bytes| > s.writing.value.size - |s.writing.value.written| then None
    else Some(s.(writing := Some(s.writing.value.(written := s.writing.value.written + bytes))))
  }

  function End(s: Sink): Option<Sink> {
    if s.writing.None? || |s.writing.value.written| != s.writing.value.size then None
    else Some(s.(files := s.files + [Kept(s.writing.value.path, s.writing.value.written)], writing := None))
  }

  function Finish(s: Sink, fileCount: nat, directoryCount: nat): Option<Payload> {
    if s.writing.Some? || |s.files| != fileCount || |s.directories| != directoryCount then None
    else Some(Payload(s.files, s.directories))
  }

  class Staging {
    var entries: seq<Entry>
    var files: seq<Kept>
    var directories: seq<Text>
    var path: Text
    /** The buffer of the file being written; `null` when none is. */
    var bytes: array?<Byte>
    var offset: nat

    ghost predicate Valid()
      reads this, bytes
    {
      bytes != null ==> offset <= bytes.Length
    }

    ghost function View(): Sink
      requires Valid()
      reads this, bytes
    {
      Sink(entries, files, directories, if bytes == null then None else Some(Writing(path, bytes.Length, bytes[..offset])))
    }

    constructor ()
      ensures Valid() && View() == Empty()
    {
      entries, files, directories, path, bytes, offset := [], [], [], [], null, 0;
    }

    method TakeInventory(listed: seq<Entry>)
      requires Valid()
      modifies this
      ensures Valid() && View() == Inventory(old(View()), listed)
      ensures bytes == old(bytes)
    {
      entries := listed;
      directories := [];
      for i := 0 to |listed|
        invariant entries == listed && bytes == old(bytes) && offset == old(offset) && path == old(path) && files == old(files)
        invariant directories + Directories(listed[i..]) == Directories(listed)
      {
        assert listed[i..][1..] == listed[i + 1..];
        ghost var rest := Directories(listed[i + 1..]);
        if listed[i].Directory? {
          assert Directories(listed[i..]) == [listed[i].path] + rest;
          assert directories + ([listed[i].path] + rest) == directories + [listed[i].path] + rest;
          directories := directories + [listed[i].path];
        } else {
          assert Directories(listed[i..]) == [] + rest == rest;
        }
      }
    }

    method BeginFile(index: int) returns (ok: bool)
      requires Valid()
      modifies this
      ensures Valid() && ok == Begin(old(View()), index).Some?
      ensures View() == if ok then Begin(old(View()), index).value else old(View())
      ensures bytes == old(bytes) || fresh(bytes)
      ensures ok <==> old(bytes == null && 0 <= index < |entries| && entries[index].File?)
      ensures ok ==> bytes != null && offset == 0 && bytes.Length == entries[index].byteLength && path == entries[index].path
    {
      ok := bytes == null && 0 <= index < |entries| && entries[index].File?;
      if ok {
        path := entries[index].path;
        bytes := new Byte[entries[index].byteLength](_ => 0);
        offset := 0;
      }
    }

    method WriteBytes(chunk: Bytes) returns (ok: bool)
      requires Valid()
      modifies this, bytes
      ensures Valid() && bytes == old(bytes) && ok == Write(old(View()), chunk).Some?
      ensures View() == if ok then Write(old(View()), chunk).value else old(View())
      ensures ok <==> old(bytes != null && |chunk| <= bytes.Length - offset)
      ensures ok ==> offset == old(offset) + |chunk| && bytes[..offset] == old(bytes[..offset]) + chunk
    {
      if bytes == null || |chunk| > bytes.Length - offset {
        return false;
      }
      ghost var before := bytes[..offset];
      for i := 0 to |chunk|
        invariant bytes == old(bytes) && bytes != null && offset == old(offset) && path == old(path)
        invariant entries == old(entries) && files == old(files) && directories == old(directories)
        invariant bytes[..offset] == before && bytes[offset..offset + i] == chunk[..i]
      {
        bytes[offset + i] := chunk[i];
      }
      assert bytes[..offset + |chunk|] == before + chunk;
      offset := offset + |chunk|;
      return true;
    }

    method EndFile() returns (ok: bool)
      requires Valid()
      modifies this
      ensures Valid() && ok == End(old(View())).Some?
      ensures View() == if ok then End(old(View())).value else old(View())
      ensures ok <==> old(bytes != null && offset == bytes.Length)
      ensures ok ==> bytes == null && files == old(files) + [Kept(path, old(bytes[..]))]
    {
      ok := bytes != null && offset == bytes.Length;
      if ok {
        assert bytes[..] == bytes[..offset];
        files := files + [Kept(path, bytes[..])];
        bytes := null;
      }
    }

    method Complete(fileCount: nat, directoryCount: nat) returns (payload: Option<Payload>)
      requires Valid()
      ensures payload == Finish(View(), fileCount, directoryCount)
      ensures payload.Some? <==> bytes == null && |files| == fileCount && |directories| == directoryCount
      ensures payload.Some? ==> payload.value.files == files && payload.value.directories == directories
    {
      if bytes != null || |files| != fileCount || |directories| != directoryCount {
        return None;
      }
      return Some(Payload(files, directories));
    }

    method Clear()
      modifies this
      ensures Valid() && View() == Empty()
    {
      entries, files, directories, bytes := [], [], [], null;
    }
  }

  // ---- What a whole transfer keeps.

  function Joined(chunks: seq<Bytes>): Bytes {
    if chunks == [] then [] else chunks[0] + Joined(chunks[1..])
  }

  function Filled(s: Sink, more: Bytes): Sink
    requires s.writing.Some?
  {
    s.(writing := Some(s.writing.value.(written := s.writing.value.written + more)))
  }

  function WriteAll(s: Sink, chunks: seq<Bytes>): Option<Sink>
    decreases |chunks|
  {
    if chunks == [] then Some(s)
    else
      var written := Write(s, chunks[0]);
      if written.None? then None else WriteAll(written.value, chunks[1..])
  }

  /** One file, however it is cut into chunks. */
  function TakeFile(s: Sink, index: int, chunks: seq<Bytes>): Option<Sink> {
    var begun := Begin(s, index);
    if begun.None? then None
    else
      var written := WriteAll(begun.value, chunks);
      if written.None? then None else End(written.value)
  }

  lemma {:induction false} WriteAllJoins(s: Sink, chunks: seq<Bytes>)
    requires s.writing.Some? && |s.writing.value.written| <= s.writing.value.size
    ensures WriteAll(s, chunks).Some? <==> |s.writing.value.written| + |Joined(chunks)| <= s.writing.value.size
    ensures WriteAll(s, chunks).Some? ==> WriteAll(s, chunks).value == Filled(s, Joined(chunks))
    decreases |chunks|
  {
    if chunks == [] {
      assert s.writing.value.written + [] == s.writing.value.written;
    } else if Write(s, chunks[0]).Some? {
      WriteAllJoins(Write(s, chunks[0]).value, chunks[1..]);
      assert s.writing.value.written + Joined(chunks) == s.writing.value.written + chunks[0] + Joined(chunks[1..]);
    }
  }

  /** A file is kept exactly when its chunks add up to the announced length, and then byte for byte. */
  lemma FileIsKept(s: Sink, index: int, chunks: seq<Bytes>)
    requires s.writing.None? && 0 <= index < |s.entries| && s.entries[index].File?
    ensures var r := TakeFile(s, index, chunks);
      && (r.Some? <==> |Joined(chunks)| == s.entries[index].byteLength)
      && (r.Some? ==> r.value == s.(files := s.files + [Kept(s.entries[index].path, Joined(chunks))]))
  {
    var begun := Begin(s, index).value;
    WriteAllJoins(begun, chunks);
    assert Filled(begun, Joined(chunks)).writing.value.written == Joined(chunks) by {
      assert [] + Joined(chunks) == Joined(chunks);
    }
  }

  /** All files of the inventory from `index` on; `chunks` answers for each entry. */
  function TakeFrom(s: Sink, index: nat, chunks: seq<seq<Bytes>>): Option<Sink>
    requires |chunks| == |s.entries|
    decreases |s.entries| - index
  {
    if index >= |s.entries| then Some(s)
    else if s.entries[index].Directory? then TakeFrom(s, index + 1, chunks)
    else
      var next := TakeFile(s, index, chunks[index]);
      if next.None? || next.value.entries != s.entries then None else TakeFrom(next.value, index + 1, chunks)
  }

  predicate Complete(entries: seq<Entry>, chunks: seq<seq<Bytes>>)
    requires |chunks| == |entries|
  {
    forall i :: 0 <= i < |entries| && entries[i].File? ==> |Joined(chunks[i])| == entries[i].byteLength
  }

  /** The files of the inventory with the bytes that were sent for them, in order. */
  function Contents(entries: seq<Entry>, index: nat, chunks: seq<seq<Bytes>>): seq<Kept>
    requires |chunks| == |entries|
    decreases |entries| - index
  {
    if index >= |entries| then []
    else (if entries[index].File? then [Kept(entries[index].path, Joined(chunks[index]))] else []) + Contents(entries, index + 1, chunks)
  }

  lemma {:induction false} InventoryIsKept(s: Sink, index: nat, chunks: seq<seq<Bytes>>)
    requires |chunks| == |s.entries| && s.writing.None? && index <= |s.entries|
    ensures TakeFrom(s, index, chunks).Some? <==> Complete(s.entries[index..], chunks[index..])
    ensures TakeFrom(s, index, chunks).Some? ==>
      TakeFrom(s, index, chunks).value == s.(files := s.files + Contents(s.entries, index, chunks))
    decreases |s.entries| - index
  {
    if index == |s.entries| {
      assert s.files + [] == s.files;
    } else {
      var rest, sent := s.entries[index..], chunks[index..];
      assert rest[1..] == s.entries[index + 1..] && sent[1..] == chunks[index + 1..];
      CompleteSplits(rest, sent);
      if s.entries[index].Directory? {
        InventoryIsKept(s, index + 1, chunks);
      } else {
        FileIsKept(s, index, chunks[index]);
        var next := TakeFile(s, index, chunks[index]);
        if next.Some? {
          InventoryIsKept(next.value, index + 1, chunks);
          assert s.files + Contents(s.entries, index, chunks) == next.value.files + Contents(s.entries, index + 1, chunks);
        }
      }
    }
  }

  lemma CompleteSplits(entries: seq<Entry>, chunks: seq<seq<Bytes>>)
    requires |chunks| == |entries| && entries != []
    ensures Complete(entries, chunks) <==>
      (entries[0].File? ==> |Joined(chunks[0])| == entries[0].byteLength) && Complete(entries[1..], chunks[1..])
  {
    assert forall i :: 0 <= i < |entries| - 1 ==> entries[1..][i] == entries[i + 1] && chunks[1..][i] == chunks[i + 1];
    if (entries[0].File? ==> |Joined(chunks[0])| == entries[0].byteLength) && Complete(entries[1..], chunks[1..]) {
      forall i | 0 <= i < |entries| && entries[i].File?
        ensures |Joined(chunks[i])| == entries[i].byteLength
      {
        assert i > 0 ==> entries[1..][i - 1].File?;
      }
    }
    if Complete(entries, chunks) {
      forall i | 0 <= i < |entries| - 1 && entries[1..][i].File?
        ensures |Joined(chunks[1..][i])| == entries[1..][i].byteLength
      {
        assert entries[i + 1].File?;
      }
    }
  }

  /**
    A transfer of the whole inventory completes exactly when every file arrived in full, and the payload
    is then every file with its bytes and every directory, in inventory order.
  */
  lemma PayloadIsInventory(entries: seq<Entry>, chunks: seq<seq<Bytes>>)
    requires |chunks| == |entries|
    ensures var taken, files, directories := TakeFrom(Inventory(Empty(), entries), 0, chunks),
        Contents(entries, 0, chunks), Directories(entries);
      && (taken.Some? <==> Complete(entries, chunks))
      && (taken.Some? ==> forall m: nat, n: nat ::
        Finish(taken.value, m, n) == if m == |files| && n == |directories| then Some(Payload(files, directories)) else None)
  {
    InventoryIsKept(Inventory(Empty(), entries), 0, chunks);
    assert entries[0..] == entries && chunks[0..] == chunks;
    assert [] + Contents(entries, 0, chunks) == Contents(entries, 0, chunks);
  }
}
