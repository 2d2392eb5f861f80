// The registry snapshot: records stored in chunks of 100 behind a metadata entry written last, in a store
// that keeps its 20 newest entries. A save can end, by an error or a crash, after any of its store writes.
module RegistrySnapshot {
  const CHUNK := 100
  const MAX_CHUNKS := 10
  const MAX_ENTRIES := 20

  // A record, by its broker reference.
  type Record = nat

  datatype Key = Meta | Chunk(index: nat)

  datatype Value = MetaValue(chunkCount: nat, recordCount: nat) | ChunkValue(records: seq<Record>)

  // NotRefreshed: no usable metadata. Invalid: a chunk is missing or the records do not add up.
  datatype Reading = Records(records: seq<Record>) | NotRefreshed | Invalid

  // ---- Specification

  // The slices records[0..100], records[100..200], ...
  function Chunks(records: seq<Record>): (r: seq<seq<Record>>)
    ensures |r| == (|records| + CHUNK - 1) / CHUNK
  {
    if records == [] then []
    else if |records| <= CHUNK then [records]
    else [records[..CHUNK]] + Chunks(records[CHUNK..])
  }

  function Concat(parts: seq<seq<Record>>): seq<Record> {
    if parts == [] then [] else Concat(parts[..|parts| - 1]) + parts[|parts| - 1]
  }

  lemma {:induction false} ConcatFirst(first: seq<Record>, parts: seq<seq<Record>>)
    ensures Concat([first] + parts) == first + Concat(parts)
  {
    if parts == [] {
      assert [first] + parts == [first];
      assert [first][..0] == [];
      assert Concat([first]) == Concat([]) + first;
    } else {
      var front := parts[..|parts| - 1];
      assert ([first] + parts)[..|parts|] == [first] + front;
      ConcatFirst(first, front);
      assert parts == front + [parts[|parts| - 1]];
    }
  }

  lemma {:induction false} ChunksConcat(records: seq<Record>)
    ensures Concat(Chunks(records)) == records
    decreases |records|
  {
    if records == [] {
    } else if |records| <= CHUNK {
      ConcatFirst(records, []);
      assert [records] + [] == [records];
    } else {
      ChunksConcat(records[CHUNK..]);
      ConcatFirst(records[..CHUNK], Chunks(records[CHUNK..]));
    }
  }

  lemma {:induction false} ChunkAt(records: seq<Record>, i: nat)
    requires i < |Chunks(records)|
    ensures i * CHUNK < |records|
    ensures Chunks(records)[i] == records[i * CHUNK..if (i + 1) * CHUNK < |records| then (i + 1) * CHUNK else |records|]
    decreases i
  {
    if i > 0 {
      ChunkAt(records[CHUNK..], i - 1);
    }
  }

  predicate Usable(entries: map<Key, Value>) {
    Meta in entries && entries[Meta].MetaValue? && 1 <= entries[Meta].chunkCount <= MAX_CHUNKS
  }

  predicate HasChunks(entries: map<Key, Value>, n: nat) {
    forall i: nat :: i < n ==> Chunk(i) in entries && entries[Chunk(i)].ChunkValue?
  }

  function StoredRecords(entries: map<Key, Value>, n: nat): seq<Record>
    requires HasChunks(entries, n)
  {
    if n == 0 then [] else StoredRecords(entries, n - 1) + entries[Chunk(n - 1)].records
  }

  // What registryRecords answers for a store.
  function Read(entries: map<Key, Value>): Reading {
    if !Usable(entries) then NotRefreshed
    else if !HasChunks(entries, entries[Meta].chunkCount) then Invalid
    else
      var all := StoredRecords(entries, entries[Meta].chunkCount);
      if |all| != entries[Meta].recordCount then Invalid else Records(all)
  }

  predicate HoldsChunks(entries: map<Key, Value>, chunks: seq<seq<Record>>, n: nat) {
    n <= |chunks| && forall i: nat :: i < n ==> Chunk(i) in entries && entries[Chunk(i)] == ChunkValue(chunks[i])
  }

  lemma {:induction false} StoredIsConcat(entries: map<Key, Value>, chunks: seq<seq<Record>>, n: nat)
    requires HoldsChunks(entries, chunks, n)
    ensures HasChunks(entries, n) && StoredRecords(entries, n) == Concat(chunks[..n])
  {
    if n > 0 {
      StoredIsConcat(entries, chunks, n - 1);
      assert chunks[..n][..n - 1] == chunks[..n - 1];
    }
  }

  // ---- The store and the two operations

  predicate Distinct(order: seq<Key>) { forall i, j :: 0 <= i < j < |order| ==> order[i] != order[j] }

  function Elements(order: seq<Key>): set<Key> { set k | k in order }

  lemma NewestJoins(order: seq<Key>, key: Key)
    requires Distinct(order) && key !in Elements(order)
    ensures Distinct(order + [key]) && Elements(order + [key]) == Elements(order) + {key}
  {
    assert forall i :: 0 <= i < |order| ==> order[i] in Elements(order);
  }

  function Without(order: seq<Key>, key: Key): seq<Key> {
    if order == [] then []
    else Without(order[..|order| - 1], key) + if order[|order| - 1] == key then [] else [order[|order| - 1]]
  }

  lemma {:induction false} WithoutKey(order: seq<Key>, key: Key)
    requires Distinct(order)
    ensures var r := Without(order, key);
      && Distinct(r) && Elements(r) == Elements(order) - {key}
      && |r| == |order| - if key in Elements(order) then 1 else 0
  {
    if order != [] {
      var front, last := order[..|order| - 1], order[|order| - 1];
      assert Distinct(front);
      WithoutKey(front, key);
      assert order == front + [last];
      LastIsNew(front, last);
      var r := Without(front, key);
      if last == key {
        assert Without(order, key) == r;
      } else {
        NewestJoins(r, last);
        assert Without(order, key) == r + [last];
      }
    }
  }

  lemma LastIsNew(front: seq<Key>, last: Key)
    requires Distinct(front + [last])
    ensures last !in Elements(front) && Elements(front + [last]) == Elements(front) + {last}
  {
    var all := front + [last];
    forall i | 0 <= i < |front| ensures front[i] != last {
      assert all[i] == front[i] && all[|front|] == last;
    }
  }

  lemma OldestLeaves(order: seq<Key>)
    requires Distinct(order) && order != []
    ensures Distinct(order[1..]) && Elements(order[1..]) == Elements(order) - {order[0]}
  {
    assert order == [order[0]] + order[1..];
  }

  // The keys in the store once n chunks have been written to an empty one, and their order.
  predicate HeldAfter(k: Key, n: nat) { k.Chunk? && k.index < n && n <= k.index + MAX_ENTRIES }

  predicate InOrder(order: seq<Key>, n: nat) {
    && |order| == (if n < MAX_ENTRIES then n else MAX_ENTRIES)
    && forall j :: 0 <= j < |order| ==> order[j] == Chunk(n - |order| + j)
  }

  ghost predicate OnlyChunks(entries: map<Key, Value>, chunks: seq<seq<Record>>, n: nat) {
    && n <= |chunks| && (forall k :: k in entries <==> HeldAfter(k, n))
    && forall i: nat :: i < n && Chunk(i) in entries ==> entries[Chunk(i)] == ChunkValue(chunks[i])
  }

  lemma OneMoreKey(before: seq<Key>, after: seq<Key>, i: nat)
    requires InOrder(before, i)
    requires after == (if i < MAX_ENTRIES then before else before[1..]) + [Chunk(i)]
    ensures InOrder(after, i + 1)
  {
  }

  lemma OneMoreChunk(before: map<Key, Value>, after: map<Key, Value>, chunks: seq<seq<Record>>, i: nat)
    requires i < |chunks| && OnlyChunks(before, chunks, i)
    requires after ==
      (if i < MAX_ENTRIES then before else before - {Chunk(i - MAX_ENTRIES)})[Chunk(i) := ChunkValue(chunks[i])]
    ensures OnlyChunks(after, chunks, i + 1)
  {
  }

  class RegistryStore {
    var entries: map<Key, Value>
    // The stored keys, oldest write first.
    var order: seq<Key>

    constructor ()
      ensures Valid() && entries == map[]
    {
      entries, order := map[], [];
    }

    ghost predicate Valid()
      reads this
    {
      Distinct(order) && Elements(order) == entries.Keys && |order| <= MAX_ENTRIES
    }

    method Clear()
      modifies this
      ensures Valid() && entries == map[] && order == []
    {
      entries, order := map[], [];
    }

    // A written key becomes the newest; a new key past the limit drops the oldest entry.
    method Register(key: Key, value: Value)
      requires Valid()
      modifies this
      ensures Valid()
      ensures key in old(entries) ==> entries == old(entries)[key := value] && order == Without(old(order), key) + [key]
      ensures key !in old(entries) && |old(order)| < 20 ==>
        entries == old(entries)[key := value] && order == old(order) + [key]
      ensures key !in old(entries) && |old(order)| >= 20 ==>
        entries == (old(entries) - {old(order)[0]})[key := value] && order == old(order)[1..] + [key]
    {
      if key in entries { Forget(key); } else if |order| == MAX_ENTRIES { DropOldest(); }
      NewestJoins(order, key);
      entries := entries[key := value];
      order := order + [key];
    }

    method Forget(key: Key)
      requires Valid() && key in entries
      modifies this
      ensures Valid() && entries == old(entries) - {key} && order == Without(old(order), key) && |order| < MAX_ENTRIES
    {
      WithoutKey(order, key);
      entries, order := entries - {key}, Without(order, key);
    }

    method DropOldest()
      requires Valid() && order != []
      modifies this
      ensures Valid() && entries == old(entries) - {old(order)[0]} && order == old(order)[1..]
    {
      OldestLeaves(order);
      entries, order := entries - {order[0]}, order[1..];
    }

    method Slices(records: seq<Record>) returns (chunks: seq<seq<Record>>)
      ensures chunks == Chunks(records)
    {
      chunks := [];
      var at := 0;
      while at < |records|
        invariant at == |chunks| * CHUNK
        invariant |chunks| <= |Chunks(records)| && chunks == Chunks(records)[..|chunks|]
        invariant at >= |records| ==> |chunks| == |Chunks(records)|
        decreases |records| - at
      {
        assert |chunks| < |Chunks(records)|;
        ChunkAt(records, |chunks|);
        chunks := chunks + [records[at..if at + CHUNK < |records| then at + CHUNK else |records|]];
        at := at + CHUNK;
      }
    }

    method WriteChunk(chunks: seq<seq<Record>>, i: nat)
      requires Valid() && i < |chunks| && InOrder(order, i) && OnlyChunks(entries, chunks, i)
      modifies this
      ensures Valid() && InOrder(order, i + 1) && OnlyChunks(entries, chunks, i + 1)
    {
      assert Chunk(i) !in entries;
      assert |order| == MAX_ENTRIES ==> order[0] == Chunk(i - MAX_ENTRIES);
      Register(Chunk(i), ChunkValue(chunks[i]));
      OneMoreKey(old(order), order, i);
      OneMoreChunk(old(entries), entries, chunks, i);
    }

    // Save the first `writes` of the store writes of a save: the clear, each chunk, the metadata. Stopped in
    // between, the store holds the chunks written so far (the newest of them, if they are too many) and no more.
    method Save(records: seq<Record>, recordCount: nat, writes: nat) returns (complete: bool)
      requires Valid()
      modifies this
      ensures Valid()
      ensures complete <==> writes >= |Chunks(records)| + 2
      ensures writes == 0 ==> entries == old(entries)
      ensures 0 < writes && !complete ==> OnlyChunks(entries, Chunks(records), writes - 1)
      ensures complete ==> Meta in entries && entries[Meta] == MetaValue(|Chunks(records)|, recordCount)
      ensures complete && |Chunks(records)| < MAX_ENTRIES ==> HoldsChunks(entries, Chunks(records), |Chunks(records)|)
    {
      var chunks := Slices(records);
      if writes == 0 { return false; }
      Clear();
      var i := 0;
      while i < |chunks|
        invariant Valid() && i <= |chunks| && i + 1 <= writes && InOrder(order, i) && OnlyChunks(entries, chunks, i)
      {
        if writes == i + 1 { return false; }
        WriteChunk(chunks, i);
        i := i + 1;
      }
      if writes == i + 1 { return false; }
      Register(Meta, MetaValue(|chunks|, recordCount));
      complete := true;
    }

    method RegistryRecords() returns (r: Reading)
      ensures r == Read(entries)
    {
      if Meta !in entries || !entries[Meta].MetaValue? || entries[Meta].chunkCount < 1
         || entries[Meta].chunkCount > MAX_CHUNKS
      {
        return NotRefreshed;
      }
      var records: seq<Record> := [];
      var i := 0;
      while i < entries[Meta].chunkCount
        invariant i <= entries[Meta].chunkCount && HasChunks(entries, i) && records == StoredRecords(entries, i)
      {
        if Chunk(i) !in entries || !entries[Chunk(i)].ChunkValue? { return Invalid; }
        records := records + entries[Chunk(i)].records;
        i := i + 1;
      }
      if |records| != entries[Meta].recordCount { return Invalid; }
      r := Records(records);
    }

    // A complete save of a snapshot is read back exactly when it has 1 to 1000 records and states that number.
    method SaveThenRead(records: seq<Record>, recordCount: nat) returns (r: Reading)
      requires Valid()
      modifies this
      ensures Valid()
      ensures r == Records(records) <==> 1 <= |records| <= 1000 && recordCount == |records|
      ensures r.NotRefreshed? <==> records == [] || |records| > 1000
      ensures r.Records? ==> r.records == records
    {
      var _ := Save(records, recordCount, |Chunks(records)| + 2);
      if |Chunks(records)| < MAX_ENTRIES {
        StoredIsConcat(entries, Chunks(records), |Chunks(records)|);
        assert Chunks(records)[..|Chunks(records)|] == Chunks(records);
        ChunksConcat(records);
      }
      r := RegistryRecords();
    }

    // Wherever a save stops, a reader afterwards sees the old snapshot, no snapshot, or all of the new one.
    method InterruptedSaveThenRead(records: seq<Record>, writes: nat) returns (r: Reading)
      requires Valid() && 1 <= |records| <= 1000
      modifies this
      ensures Valid()
      ensures writes == 0 ==> r == Read(old(entries))
      ensures 0 < writes < |Chunks(records)| + 2 ==> r == NotRefreshed
      ensures writes >= |Chunks(records)| + 2 ==> r == Records(records)
    {
      var _ := Save(records, |records|, writes);
      if writes >= |Chunks(records)| + 2 {
        StoredIsConcat(entries, Chunks(records), |Chunks(records)|);
        assert Chunks(records)[..|Chunks(records)|] == Chunks(records);
        ChunksConcat(records);
      }
      r := RegistryRecords();
    }
  }

  // Entries that expire one by one never make a partial answer: what is read is the whole snapshot or nothing.
  lemma LostEntriesNeverShowAPart(entries: map<Key, Value>, lost: set<Key>)
    ensures var r := Read(entries - lost); r.Records? ==> r == Read(entries)
  {
    var fewer := entries - lost;
    if Read(fewer).Records? {
      FewerHoldSame(entries, fewer, fewer[Meta].chunkCount);
    }
  }

  lemma {:induction false} FewerHoldSame(entries: map<Key, Value>, fewer: map<Key, Value>, n: nat)
    requires forall k :: k in fewer ==> k in entries && entries[k] == fewer[k]
    requires HasChunks(fewer, n)
    ensures HasChunks(entries, n) && StoredRecords(entries, n) == StoredRecords(fewer, n)
  {
    if n > 0 {
      FewerHoldSame(entries, fewer, n - 1);
    }
  }
}
