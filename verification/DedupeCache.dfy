/** The cache object: each method is what the source does while it holds the lock. */
module DedupeCacheObject {
  import opened Common
  import opened Dedupe

  class DedupeCache {
    var entries: Entries
    var sequence: nat
    var totalBytes: int

    ghost function Model(): Cache
      reads this
    {
      Cache(entries, sequence)
    }

    /** The running total is the bytes of the completed values. */
    ghost predicate Valid()
      reads this
    {
      totalBytes == Stored(entries) && CacheInv(Model())
    }

    constructor ()
      ensures Valid() && Model() == Cache(map[], 0)
    {
      entries, sequence, totalBytes := map[], 0, 0;
    }

    /** Removing keeps the total exact, so it never goes below zero. */
    method RemoveLocked(key: Bytes, entry: Entry)
      requires totalBytes == Stored(entries) && key in entries && entries[key] == entry
      modifies this`entries, this`totalBytes
      ensures entries == old(entries) - {key} && totalBytes == Stored(entries)
    {
      if key !in entries || entries[key] != entry { return; }
      StoredRemove(entries, key);
      entries := entries - {key};
      if entry.Complete? {
        var left := totalBytes - |entry.value|;
        totalBytes := if left < 0 then 0 else left;
      }
    }

    method ExpireLocked(now: int)
      requires totalBytes == Stored(entries)
      modifies this`entries, this`totalBytes
      ensures entries == Unexpired(old(entries), now) && totalBytes == Stored(entries)
    {
      var keys := entries.Keys;
      hide Stored;
      while keys != {}
        invariant keys <= old(entries).Keys && keys <= entries.Keys
        invariant totalBytes == Stored(entries)
        invariant entries == map k | k in old(entries) && (k in keys || !Expired(old(entries)[k], now)) ::
                  old(entries)[k]
        decreases |keys|
      {
        ghost var some := Pick(keys);
        var key :| key in keys;
        keys := keys - {key};
        if Expired(entries[key], now) { RemoveLocked(key, entries[key]); }
      }
    }

    /** The completed entry with the least sequence number, whatever order the map is walked in. */
    method OldestCompletedLocked() returns (selected: Option<Bytes>)
      requires Distinct(entries)
      ensures selected.Some? ==> IsOldest(entries, selected.value)
      ensures selected.None? ==> forall k | k in entries :: entries[k].InFlight?
    {
      selected := None;
      var keys := entries.Keys;
      while keys != {}
        invariant keys <= entries.Keys
        invariant selected.Some? ==> selected.value in entries && entries[selected.value].Complete?
        invariant forall k | k in entries && k !in keys && entries[k].Complete? ::
                    selected.Some? && entries[selected.value].sequence <= entries[k].sequence
        decreases |keys|
      {
        ghost var some := Pick(keys);
        var key :| key in keys;
        keys := keys - {key};
        var entry := entries[key];
        if entry.InFlight? || (selected.Some? && entry.sequence >= entries[selected.value].sequence) { continue; }
        selected := Some(key);
      }
    }

    method MakeRoomLocked()
      requires totalBytes == Stored(entries) && Distinct(entries)
      modifies this`entries, this`totalBytes
      ensures entries == Roomed(old(entries)) && totalBytes == Stored(entries)
    {
      hide Stored;
      while |entries| >= MAX_ENTRIES
        invariant totalBytes == Stored(entries) && Distinct(entries)
        invariant Roomed(entries) == Roomed(old(entries))
        decreases |entries|
      {
        var oldest := OldestCompletedLocked();
        if oldest.None? { return; }
        OldestUnique(entries, oldest.value);
        RemoveLocked(oldest.value, entries[oldest.value]);
      }
    }

    method EnforceByteBudgetLocked()
      requires totalBytes == Stored(entries) && Distinct(entries)
      modifies this`entries, this`totalBytes
      ensures entries == Budgeted(old(entries)) && totalBytes == Stored(entries)
    {
      hide Stored;
      while totalBytes > MAX_BYTES
        invariant totalBytes == Stored(entries) && Distinct(entries)
        invariant Budgeted(entries) == Budgeted(old(entries))
        decreases |entries|
      {
        var oldest := OldestCompletedLocked();
        if oldest.None? { return; }
        OldestUnique(entries, oldest.value);
        RemoveLocked(oldest.value, entries[oldest.value]);
      }
    }

    /** The first critical section of a call. */
    method EnterLocked(key: Bytes, now: int) returns (r: Entered)
      requires Valid()
      modifies this
      ensures Valid() && (Model(), r) == Enter(old(Model()), key, now)
    {
      hide Stored, Enter, Unexpired, Roomed, CacheInv, Shrunk, Distinct;
      ghost var before := Model();
      EnterInv(before, key, now);
      EnterSteps(before, key, now);
      UnexpiredShrinks(before, now);
      ExpireLocked(now);
      if key in entries { return Joined(entries[key].sequence); }
      r := AdmitLocked(key);
    }

    /** Room is made for a key without an entry, which gets one if there is any. */
    method AdmitLocked(key: Bytes) returns (r: Entered)
      requires totalBytes == Stored(entries) && Distinct(entries) && |entries| <= MAX_ENTRIES && key !in entries
      modifies this
      ensures var left := Roomed(old(entries));
              if |left| >= MAX_ENTRIES then Model() == Cache(left, old(sequence)) && r == Bypass
              else Model() == Cache(left[key := InFlight(old(sequence) + 1)], old(sequence) + 1)
                   && r == Own(old(sequence) + 1)
      ensures totalBytes == Stored(entries)
    {
      hide Stored, Roomed, Shrunk, Distinct;
      RoomedLess(entries, key);
      MakeRoomLocked();
      if |entries| >= MAX_ENTRIES { return Bypass; }
      StoredAdd(entries, key, InFlight(sequence + 1));
      sequence := sequence + 1;
      entries := entries[key := InFlight(sequence)];
      return Own(sequence);
    }

    /** The second critical section of the call that did the work. */
    method LeaveLocked(key: Bytes, outcome: Outcome, now: int)
      requires Valid() && key in entries && entries[key].InFlight?
      modifies this
      ensures Valid() && Model() == Leave(old(Model()), key, outcome, now)
    {
      LeaveKeeps(Model(), key, outcome, now);
      StoredRemove(entries, key);
      if outcome.Failed? || |outcome.bytes| > MAX_ITEM_BYTES {
        entries := entries - {key};
      } else {
        Store(key, outcome.bytes, now);
      }
      hide Stored, CacheInv, Budgeted;
    }

    method Store(key: Bytes, bytes: Bytes, now: int)
      requires totalBytes == Stored(entries) && CacheInv(Model()) && key in entries && entries[key].InFlight?
      modifies this`entries, this`totalBytes
      ensures entries == Budgeted(old(entries)[key := Complete(old(entries)[key].sequence, bytes, now + TTL)])
      ensures totalBytes == Stored(entries)
    {
      hide Stored, Budgeted;
      var entry := Complete(entries[key].sequence, bytes, now + TTL);
      DistinctSet(Model(), key, entry);
      StoredRemove(entries, key);
      StoredAdd(entries - {key}, key, entry);
      assert (entries - {key})[key := entry] == entries[key := entry];
      entries := entries[key := entry];
      totalBytes := totalBytes + |bytes|;
      EnforceByteBudgetLocked();
    }
  }

  lemma DistinctSet(c: Cache, key: Bytes, e: Entry)
    requires CacheInv(c) && key in c.entries && e.sequence == c.entries[key].sequence
    ensures Distinct(c.entries[key := e])
  {
    var m := c.entries[key := e];
    assert forall k | k in m :: k in c.entries && m[k].sequence == c.entries[k].sequence;
  }
}
