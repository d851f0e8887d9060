/** The bounded cache that coalesces equal in-flight work and keeps recent results. */
module Dedupe {
  import opened Common

  const TTL: int := 5 * 1_000_000_000
  const MAX_ENTRIES: nat := 64
  const MAX_BYTES: int := 0x80_0000
  const MAX_ITEM_BYTES: int := 0x10_0000

  /** What one execution of the work gave; a panic counts as a failure. */
  datatype Outcome = Value(bytes: Bytes) | Failed

  datatype Entry = InFlight(sequence: nat) | Complete(sequence: nat, value: Bytes, expiresAt: int)

  /** Entries by key; the key is the encoded request, whose hash is taken to be injective. */
  type Entries = map<Bytes, Entry>

  /* ---------- stored bytes ---------- */

  function Weight(e: Entry): nat { if e.Complete? then |e.value| else 0 }

  ghost function Stored(m: Entries): nat {
    if m.Keys == {} then 0
    else
      var k := Pick(m.Keys);
      Weight(m[k]) + Stored(m - {k})
  }

  lemma {:induction false} StoredRemove(m: Entries, k: Bytes)
    requires k in m
    ensures Stored(m) == Weight(m[k]) + Stored(m - {k})
    decreases |m|
  {
    var c := Pick(m.Keys);
    if c != k {
      StoredRemove(m - {c}, k);
      StoredRemove(m - {k}, c);
      assert m - {c} - {k} == m - {k} - {c};
    }
  }

  lemma StoredAdd(m: Entries, k: Bytes, e: Entry)
    requires k !in m
    ensures Stored(m[k := e]) == Stored(m) + Weight(e)
  {
    StoredRemove(m[k := e], k);
    assert m[k := e] - {k} == m;
  }

  lemma {:induction false} StoredMono(m: Entries, n: Entries)
    requires n.Keys <= m.Keys && forall k | k in n :: n[k] == m[k]
    ensures Stored(n) <= Stored(m)
    decreases |m|
  {
    assert m.Keys == n.Keys + (m.Keys - n.Keys);
    if m.Keys - n.Keys != {} {
      var k := Pick(m.Keys - n.Keys);
      StoredRemove(m, k);
      StoredMono(m - {k}, n);
    } else {
      assert m == n;
    }
  }

  lemma {:induction false} NoneComplete(m: Entries)
    requires forall k | k in m :: m[k].InFlight?
    ensures Stored(m) == 0
    decreases |m|
  {
    if m.Keys != {} {
      var k := Pick(m.Keys);
      NoneComplete(m - {k});
    }
  }

  /* ---------- eviction order ---------- */

  ghost predicate IsOldest(m: Entries, k: Bytes) {
    && k in m && m[k].Complete?
    && forall x | x in m && m[x].Complete? :: m[k].sequence <= m[x].sequence
  }

  lemma {:induction false} OldestExists(m: Entries, k: Bytes) returns (o: Bytes)
    requires k in m && m[k].Complete?
    ensures IsOldest(m, o)
    decreases |m|
  {
    if IsOldest(m, k) { return k; }
    var x :| x in m && m[x].Complete? && m[x].sequence < m[k].sequence;
    assert x in m - {k};
    o := OldestExists(m - {k}, x);
    forall y | y in m && m[y].Complete? ensures m[o].sequence <= m[y].sequence {
      if y != k { assert y in m - {k}; } else { assert (m - {k})[x] == m[x]; }
    }
  }

  ghost function Oldest(m: Entries): (o: Option<Bytes>)
    ensures o.Some? ==> IsOldest(m, o.value) && |m - {o.value}| < |m|
    ensures o.None? ==> forall k :: !IsOldest(m, k)
  {
    if k :| IsOldest(m, k) then Some(k) else None
  }

  /** The entries left after evicting completed ones, oldest first, down to the byte budget. */
  ghost function Budgeted(m: Entries): Entries
    decreases |m|
  {
    if Stored(m) <= MAX_BYTES || Oldest(m).None? then m else Budgeted(m - {Oldest(m).value})
  }

  ghost predicate Distinct(m: Entries) {
    forall k, x | k in m && x in m && m[k].sequence == m[x].sequence :: k == x
  }

  lemma OldestUnique(m: Entries, k: Bytes)
    requires Distinct(m) && IsOldest(m, k)
    ensures Oldest(m) == Some(k)
  {
    var x := Oldest(m).value;
    assert m[x].sequence == m[k].sequence;
  }

  /** m without its completed entries older than s. */
  ghost function From(m: Entries, s: nat): Entries {
    map k | k in m && (m[k].InFlight? || m[k].sequence >= s) :: m[k]
  }

  /** n is m after evicting a prefix of its completed entries, and no shorter one fits the budget. */
  ghost predicate Evicted(m: Entries, n: Entries) {
    && n.Keys <= m.Keys && (forall k | k in n :: n[k] == m[k]) && Stored(n) <= MAX_BYTES
    && (forall k | k in m && m[k].InFlight? :: k in n)
    && (forall k, x | k in m && k !in n && x in n && n[x].Complete? :: m[k].sequence < n[x].sequence)
    && (forall k | k in m && k !in n :: Stored(From(m, m[k].sequence)) > MAX_BYTES)
  }

  lemma EvictOne(m: Entries, k: Bytes, n: Entries)
    requires Distinct(m) && IsOldest(m, k) && Stored(m) > MAX_BYTES && Evicted(m - {k}, n)
    ensures Evicted(m, n)
  {
    hide Stored, From;
    assert forall x | x in m && x != k :: x in m - {k} && (m - {k})[x] == m[x];
    assert k !in n;
    forall x | x in m && x !in n ensures Stored(From(m, m[x].sequence)) > MAX_BYTES { EvictFrom(m, k, x); }
  }

  lemma EvictFrom(m: Entries, k: Bytes, x: Bytes)
    requires IsOldest(m, k) && x in m && Stored(m) > MAX_BYTES
    requires x != k ==> Stored(From(m - {k}, m[x].sequence)) > MAX_BYTES
    ensures Stored(From(m, m[x].sequence)) > MAX_BYTES
  {
    hide Stored;
    if x == k {
      assert From(m, m[k].sequence) == m;
    } else {
      StoredMono(From(m, m[x].sequence), From(m - {k}, m[x].sequence));
    }
  }

  /**
   Byte eviction removes a prefix of the completed entries by sequence number, and no shorter
   one: keeping the youngest removed entry as well would exceed the budget.
   */
  lemma {:induction false} BudgetedExact(m: Entries)
    requires Distinct(m)
    ensures Evicted(m, Budgeted(m))
    decreases |m|
  {
    hide Stored, IsOldest, Evicted;
    if Stored(m) > MAX_BYTES {
      if Oldest(m).Some? {
        DistinctLess(m, Oldest(m).value);
        BudgetedExact(m - {Oldest(m).value});
        EvictOne(m, Oldest(m).value, Budgeted(m));
      } else {
        AllInFlight(m);
      }
    } else {
      EvictNone(m);
    }
  }

  lemma DistinctLess(m: Entries, k: Bytes)
    requires Distinct(m)
    ensures Distinct(m - {k})
  {
  }

  lemma EvictNone(m: Entries)
    requires Stored(m) <= MAX_BYTES
    ensures Evicted(m, m)
  {
    hide Stored;
  }

  lemma AllInFlight(m: Entries)
    requires Oldest(m).None?
    ensures Stored(m) == 0
  {
    if k :| k in m && m[k].Complete? {
      var o := OldestExists(m, k);
    } else {
      NoneComplete(m);
    }
  }

  /* ---------- the two critical sections of a call ---------- */

  datatype Cache = Cache(entries: Entries, sequence: nat)

  /** What a caller is to do: wait for a ticket's result, do the work for a ticket, or work uncached. */
  datatype Entered = Joined(ticket: nat) | Own(ticket: nat) | Bypass

  predicate Expired(e: Entry, now: int) { e.Complete? && now >= e.expiresAt }

  function Unexpired(m: Entries, now: int): Entries {
    map k | k in m && !Expired(m[k], now) :: m[k]
  }

  /** The entries after evicting completed ones, oldest first, until one more fits. */
  ghost function Roomed(m: Entries): Entries
    decreases |m|
  {
    if |m| < MAX_ENTRIES || Oldest(m).None? then m else Roomed(m - {Oldest(m).value})
  }

  ghost function Enter(c: Cache, key: Bytes, now: int): (Cache, Entered) {
    var m := Unexpired(c.entries, now);
    if key in m then (Cache(m, c.sequence), Joined(m[key].sequence))
    else
      var r := Roomed(m);
      if |r| >= MAX_ENTRIES then (Cache(r, c.sequence), Bypass)
      else (Cache(r[key := InFlight(c.sequence + 1)], c.sequence + 1), Own(c.sequence + 1))
  }

  ghost function Leave(c: Cache, key: Bytes, outcome: Outcome, now: int): Cache
    requires key in c.entries
  {
    if outcome.Failed? || |outcome.bytes| > MAX_ITEM_BYTES then c.(entries := c.entries - {key})
    else c.(entries := Budgeted(c.entries[key := Complete(c.entries[key].sequence, outcome.bytes, now + TTL)]))
  }

  ghost predicate CacheInv(c: Cache) {
    && |c.entries| <= MAX_ENTRIES && Stored(c.entries) <= MAX_BYTES && Distinct(c.entries)
    && forall k | k in c.entries :: c.entries[k].sequence <= c.sequence
  }

  /** Making room in a full cache evicts one entry, the oldest completed one, or none. */
  lemma RoomedOne(m: Entries)
    requires |m| <= MAX_ENTRIES
    ensures Roomed(m) == m || exists k :: IsOldest(m, k) && Roomed(m) == m - {k}
    ensures Roomed(m) == m ==> |m| < MAX_ENTRIES || forall k | k in m :: m[k].InFlight?
    ensures Roomed(m) != m ==> |Roomed(m)| < MAX_ENTRIES
  {
    if |m| >= MAX_ENTRIES && Oldest(m).Some? {
      assert |m - {Oldest(m).value}| < MAX_ENTRIES;
    } else if |m| >= MAX_ENTRIES {
      forall k | k in m ensures m[k].InFlight? {
        if m[k].Complete? { var o := OldestExists(m, k); }
      }
    }
  }

  /** n is m without some completed entries. */
  ghost predicate Shrunk(m: Entries, n: Entries) {
    && n.Keys <= m.Keys && (forall k | k in n :: n[k] == m[k])
    && (forall k | k in m && m[k].InFlight? :: k in n)
  }

  lemma RoomedShrinks(m: Entries)
    requires |m| <= MAX_ENTRIES
    ensures Shrunk(m, Roomed(m))
  {
    RoomedOne(m);
  }

  lemma ShrunkInv(c: Cache, n: Entries)
    requires CacheInv(c) && Shrunk(c.entries, n)
    ensures CacheInv(c.(entries := n))
  {
    SubsetSize(n.Keys, c.entries.Keys);
    StoredMono(c.entries, n);
    hide Stored;
  }

  lemma AddInv(c: Cache, key: Bytes)
    requires CacheInv(c) && key !in c.entries && |c.entries| < MAX_ENTRIES
    ensures CacheInv(Cache(c.entries[key := InFlight(c.sequence + 1)], c.sequence + 1))
  {
    StoredAdd(c.entries, key, InFlight(c.sequence + 1));
    hide Stored;
  }

  /** The three ways in which a caller can enter. */
  lemma EnterSteps(c: Cache, key: Bytes, now: int)
    ensures var m := Unexpired(c.entries, now);
            var r := Roomed(m);
            && (key in m ==> Enter(c, key, now) == (Cache(m, c.sequence), Joined(m[key].sequence)))
            && (key !in m && |r| >= MAX_ENTRIES ==> Enter(c, key, now) == (Cache(r, c.sequence), Bypass))
            && (key !in m && |r| < MAX_ENTRIES ==>
                  Enter(c, key, now)
                      == (Cache(r[key := InFlight(c.sequence + 1)], c.sequence + 1), Own(c.sequence + 1)))
  {
    hide Roomed, Unexpired;
  }

  /** Entering keeps the bounds, and never drops an entry that is in flight. */
  lemma EnterKeeps(c: Cache, key: Bytes, now: int)
    requires CacheInv(c)
    ensures var (d, r) := Enter(c, key, now);
            && CacheInv(d)
            && (r.Joined? ==> Shrunk(c.entries, d.entries) && d.sequence == c.sequence && key in c.entries
                              && !Expired(c.entries[key], now) && r.ticket == c.entries[key].sequence)
            && (r.Bypass? ==> Shrunk(c.entries, d.entries) && d.sequence == c.sequence)
            && (r.Own? ==> r.ticket == c.sequence + 1 == d.sequence && key in d.entries
                           && d.entries[key] == InFlight(r.ticket)
                           && Shrunk(c.entries, d.entries - {key}) && (key in c.entries ==> c.entries[key].Complete?))
  {
    var m := Unexpired(c.entries, now);
    EnterSteps(c, key, now);
    UnexpiredShrinks(c, now);
    assert key in m ==> key in c.entries && m[key] == c.entries[key] && !Expired(c.entries[key], now);
    assert key !in m && key in c.entries ==> c.entries[key].Complete?;
    hide Enter, Unexpired, Expired;
    if key !in m { EnterRooms(c, m, key); }
    hide Roomed, CacheInv, Shrunk;
  }

  lemma EnterRooms(c: Cache, m: Entries, key: Bytes)
    requires CacheInv(c) && Shrunk(c.entries, m) && |m| <= MAX_ENTRIES && key !in m
    ensures var r := Roomed(m);
            && Shrunk(c.entries, r) && CacheInv(c.(entries := r))
            && (|r| < MAX_ENTRIES ==>
                  var d := Cache(r[key := InFlight(c.sequence + 1)], c.sequence + 1);
                  CacheInv(d) && d.entries - {key} == r)
  {
    hide *;
    var r := Roomed(m);
    RoomedLess(m, key);
    ShrunkTwice(c.entries, m, r);
    ShrunkInv(c, r);
    if |r| < MAX_ENTRIES {
      AddInv(Cache(r, c.sequence), key);
      assert r[key := InFlight(c.sequence + 1)] - {key} == r;
    }
  }

  lemma RoomedLess(m: Entries, key: Bytes)
    requires |m| <= MAX_ENTRIES && key !in m
    ensures key !in Roomed(m) && Shrunk(m, Roomed(m))
  {
    RoomedShrinks(m);
    hide Roomed;
  }

  lemma UnexpiredShrinks(c: Cache, now: int)
    requires CacheInv(c)
    ensures Shrunk(c.entries, Unexpired(c.entries, now)) && CacheInv(c.(entries := Unexpired(c.entries, now)))
    ensures |Unexpired(c.entries, now)| <= MAX_ENTRIES && Distinct(Unexpired(c.entries, now))
  {
    ShrunkInv(c, Unexpired(c.entries, now));
  }

  lemma ShrunkTwice(m: Entries, n: Entries, r: Entries)
    requires Shrunk(m, n) && Shrunk(n, r)
    ensures Shrunk(m, r)
  {
  }

  lemma EnterInv(c: Cache, key: Bytes, now: int)
    requires CacheInv(c)
    ensures CacheInv(Enter(c, key, now).0)
  {
    EnterKeeps(c, key, now);
    hide *;
  }

  /** Entering, seen from the tickets. */
  lemma EnterTickets(c: Cache, key: Bytes, now: int)
    requires CacheInv(c)
    ensures var (d, r) := Enter(c, key, now);
            && CacheInv(d) && c.sequence <= d.sequence && (r.Own? ==> r.ticket == c.sequence + 1 == d.sequence)
            && (r.Joined? ==> key in c.entries && r.ticket == c.entries[key].sequence && !Expired(c.entries[key], now))
  {
    EnterKeeps(c, key, now);
    hide Enter, CacheInv;
  }

  /** Entering, seen from one entry of the new cache. */
  lemma EnterEntry(c: Cache, key: Bytes, now: int, k: Bytes)
    requires CacheInv(c) && k in Enter(c, key, now).0.entries
    ensures var (d, r) := Enter(c, key, now);
            if r.Own? && k == key then d.entries[k] == InFlight(r.ticket)
            else k in c.entries && d.entries[k] == c.entries[k]
  {
    EnterKeeps(c, key, now);
    hide Enter, CacheInv;
    var (d, r) := Enter(c, key, now);
    if r.Own? && k != key { assert k in d.entries - {key}; }
  }

  /** Entering, seen from an entry that was in flight. */
  lemma EnterInFlight(c: Cache, key: Bytes, now: int, k: Bytes)
    requires CacheInv(c) && k in c.entries && c.entries[k].InFlight?
    ensures var d := Enter(c, key, now).0; k in d.entries && d.entries[k] == c.entries[k]
  {
    EnterKeeps(c, key, now);
    hide Enter, CacheInv;
    var (d, r) := Enter(c, key, now);
    if r.Own? { assert k in d.entries - {key}; }
  }

  /** Leaving keeps the bounds, and evicts no other entry that is in flight. */
  lemma LeaveKeeps(c: Cache, key: Bytes, outcome: Outcome, now: int)
    requires CacheInv(c) && key in c.entries && c.entries[key].InFlight?
    ensures var d := Leave(c, key, outcome, now);
            && CacheInv(d) && d.sequence == c.sequence
            && Shrunk(c.entries - {key}, d.entries - {key})
            && (key in d.entries ==>
                  outcome.Value? && d.entries[key] == Complete(c.entries[key].sequence, outcome.bytes, now + TTL))
  {
    if outcome.Failed? || |outcome.bytes| > MAX_ITEM_BYTES {
      StoredMono(c.entries, c.entries - {key});
      SubsetSize((c.entries - {key}).Keys, c.entries.Keys);
      hide Stored;
    } else {
      LeaveStores(c, key, outcome.bytes, now);
    }
  }

  /** Leaving, seen from one other entry. */
  lemma LeaveEntry(c: Cache, key: Bytes, outcome: Outcome, now: int, k: Bytes)
    requires CacheInv(c) && key in c.entries && c.entries[key].InFlight? && k != key
    ensures var d := Leave(c, key, outcome, now);
            && CacheInv(d) && d.sequence == c.sequence
            && (k in d.entries ==> k in c.entries && d.entries[k] == c.entries[k])
            && (k in c.entries && c.entries[k].InFlight? ==> k in d.entries)
  {
    LeaveKeeps(c, key, outcome, now);
    hide Leave, CacheInv;
    var d := Leave(c, key, outcome, now);
    assert k in d.entries ==> k in d.entries - {key};
    assert k in c.entries ==> k in c.entries - {key};
  }

  lemma LeaveStores(c: Cache, key: Bytes, bytes: Bytes, now: int)
    requires CacheInv(c) && key in c.entries && c.entries[key].InFlight?
    ensures var e := Complete(c.entries[key].sequence, bytes, now + TTL);
            var d := Budgeted(c.entries[key := e]);
            && CacheInv(c.(entries := d)) && Shrunk(c.entries - {key}, d - {key})
            && (key in d ==> d[key] == e)
  {
    var e := Complete(c.entries[key].sequence, bytes, now + TTL);
    var m := c.entries[key := e];
    assert m.Keys == c.entries.Keys;
    assert forall k | k in m :: m[k].sequence == c.entries[k].sequence;
    hide Stored, Budgeted, From, IsOldest;
    BudgetedExact(m);
    EvictedShrinks(c, key, e, Budgeted(m));
  }

  lemma EvictedShrinks(c: Cache, key: Bytes, e: Entry, n: Entries)
    requires CacheInv(c) && key in c.entries && e.Complete? && e.sequence == c.entries[key].sequence
    requires Evicted(c.entries[key := e], n)
    ensures CacheInv(c.(entries := n)) && Shrunk(c.entries - {key}, n - {key}) && (key in n ==> n[key] == e)
  {
    hide Stored, From, Distinct;
    SubsetSize(n.Keys, c.entries.Keys);
    EvictedDistinct(c, key, e, n);
    EvictedRest(c.entries, key, e, n);
  }

  lemma EvictedDistinct(c: Cache, key: Bytes, e: Entry, n: Entries)
    requires CacheInv(c) && key in c.entries && e.sequence == c.entries[key].sequence
    requires n.Keys <= c.entries.Keys && forall k | k in n :: n[k] == c.entries[key := e][k]
    ensures Distinct(n) && forall k | k in n :: n[k].sequence <= c.sequence
  {
    hide Stored;
    assert forall k | k in n :: n[k].sequence == c.entries[k].sequence;
  }

  lemma EvictedRest(m: Entries, key: Bytes, e: Entry, n: Entries)
    requires key in m && n.Keys <= m.Keys && forall k | k in n :: n[k] == m[key := e][k]
    requires forall k | k in m && m[key := e][k].InFlight? :: k in n
    ensures Shrunk(m - {key}, n - {key}) && (key in n ==> n[key] == e)
  {
    forall k | k in m - {key} ensures m[key := e][k] == m[k] {}
  }

  /* ---------- what arriving and leaving do, entry by entry ---------- */

  /** An entry that a caller can still join. */
  predicate Alive(e: Entry, now: int) { e.InFlight? || now < e.expiresAt }

  /** n is m, or m without its oldest completed entry where m holds 64 and has one. */
  ghost predicate MadeRoom(m: Entries, n: Entries) {
    if |m| < 64 || forall k | k in m :: m[k].InFlight? then n == m
    else exists k :: IsOldest(m, k) && n == m - {k}
  }

  ghost function Live(m: Entries, now: int): Entries { map k | k in m && Alive(m[k], now) :: m[k] }

  /**
   A caller joins the entry of its key exactly if that is in flight or less than five seconds old;
   otherwise it gets a ticket and an entry of its own, except where 64 others are all in flight.
   */
  lemma EnterExact(c: Cache, key: Bytes, now: int)
    requires CacheInv(c)
    ensures var (d, r) := Enter(c, key, now);
            var live := Live(c.entries, now);
            if key in c.entries && Alive(c.entries[key], now) then
              r == Joined(c.entries[key].sequence) && d == Cache(live, c.sequence)
            else if |live| == 64 && forall k | k in live :: live[k].InFlight? then
              r == Bypass && d == Cache(live, c.sequence)
            else
              && r == Own(c.sequence + 1) && d.sequence == c.sequence + 1
              && key in d.entries && d.entries[key] == InFlight(c.sequence + 1)
              && MadeRoom(live, d.entries - {key}) && key !in live
  {
    LiveIs(c.entries, now, key);
    UnexpiredShrinks(c, now);
    EnterSteps(c, key, now);
    hide *;
    var live := Live(c.entries, now);
    if key !in live {
      RoomedMakes(live);
      RoomedLess(live, key);
      WithoutNew(Roomed(live), key, InFlight(c.sequence + 1));
    }
  }

  lemma LiveIs(m: Entries, now: int, key: Bytes)
    ensures Live(m, now) == Unexpired(m, now)
    ensures key in Live(m, now) <==> key in m && Alive(m[key], now)
    ensures key in Live(m, now) ==> Live(m, now)[key] == m[key]
  {
  }

  lemma WithoutNew(m: Entries, key: Bytes, e: Entry)
    requires key !in m
    ensures key in m[key := e] && m[key := e][key] == e && m[key := e] - {key} == m
  {
  }

  lemma RoomedMakes(m: Entries)
    requires |m| <= 64
    ensures MadeRoom(m, Roomed(m))
    ensures |Roomed(m)| >= MAX_ENTRIES <==> |m| == 64 && forall k | k in m :: m[k].InFlight?
    ensures |Roomed(m)| >= MAX_ENTRIES ==> Roomed(m) == m
  {
    RoomedOne(m);
    hide Roomed;
    if |m| == 64 && Roomed(m) != m {
      var k :| IsOldest(m, k) && Roomed(m) == m - {k};
      assert !m[k].InFlight?;
    }
  }

  /**
   A result of up to 1 MiB is stored for five seconds, and only the byte budget evicts for it; a
   failure or a larger result leaves no entry.
   */
  lemma LeaveExact(c: Cache, key: Bytes, outcome: Outcome, now: int)
    requires CacheInv(c) && key in c.entries && c.entries[key].InFlight?
    ensures var d := Leave(c, key, outcome, now);
            && d.sequence == c.sequence
            && if outcome.Failed? || |outcome.bytes| > 1_048_576 then d.entries == c.entries - {key}
               else
                 var m := c.entries[key := Complete(c.entries[key].sequence, outcome.bytes, now + 5_000_000_000)];
                 Evicted(m, d.entries) && (Stored(m) <= 8_388_608 ==> d.entries == m)
  {
    if outcome.Value? && |outcome.bytes| <= 1_048_576 {
      var m := c.entries[key := Complete(c.entries[key].sequence, outcome.bytes, now + 5_000_000_000)];
      assert forall k | k in m :: m[k].sequence == c.entries[k].sequence;
      hide Stored, From, IsOldest, Evicted;
      BudgetedExact(m);
    }
  }
}
