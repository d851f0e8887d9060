/** Every interleaving of callers of the cache, one critical section at a time. */
module DedupeRuns {
  import opened Common
  import opened Dedupe

  /**
   A caller does the work for a ticket, or uncached; or waits for a ticket's worker (hit: the
   result was there on arrival, at time since); or has its result, from a worker.
   */
  datatype Caller =
    | Working(key: Bytes, ticket: nat)
    | Uncached(key: Bytes)
    | Waiting(key: Bytes, ticket: nat, since: int, hit: bool)
    | Done(key: Bytes, outcome: Outcome, worker: nat)

  /** owner: who works for a ticket; produced: what came of it, and when. */
  datatype System = System(
    cache: Cache, callers: map<nat, Caller>, owner: map<nat, nat>, produced: map<nat, (Outcome, int)>)

  datatype Action =
    | Arrive(id: nat, key: Bytes, now: int)
    | Finish(id: nat, outcome: Outcome, now: int)
    | Wake(id: nat)

  predicate CanHappen(s: System, a: Action) {
    match a
    case Arrive(id, _, _) => id !in s.callers
    case Finish(id, _, _) => id in s.callers && (s.callers[id].Working? || s.callers[id].Uncached?)
    case Wake(id) =>
      id in s.callers && s.callers[id].Waiting? && s.callers[id].ticket in s.produced && s.callers[id].ticket in s.owner
  }

  ghost function Arrived(s: System, id: nat, key: Bytes, now: int): System {
    var (cache, r) := Enter(s.cache, key, now);
    match r
    case Joined(t) => s.(cache := cache, callers := s.callers[id := Waiting(key, t, now, t in s.produced)])
    case Own(t) => s.(cache := cache, callers := s.callers[id := Working(key, t)], owner := s.owner[t := id])
    case Bypass => s.(cache := cache, callers := s.callers[id := Uncached(key)])
  }

  ghost function Finished(s: System, id: nat, outcome: Outcome, now: int): System
    requires CanHappen(s, Finish(id, outcome, now))
  {
    var w := s.callers[id];
    var callers := s.callers[id := Done(w.key, outcome, id)];
    if w.Uncached? then s.(callers := callers)
    else
      var cache := if w.key in s.cache.entries then Leave(s.cache, w.key, outcome, now) else s.cache;
      s.(cache := cache, callers := callers, produced := s.produced[w.ticket := (outcome, now)])
  }

  function Woken(s: System, id: nat): System
    requires CanHappen(s, Wake(id))
  {
    var w := s.callers[id];
    s.(callers := s.callers[id := Done(w.key, s.produced[w.ticket].0, s.owner[w.ticket])])
  }

  ghost function Act(s: System, a: Action): System
    requires CanHappen(s, a)
  {
    match a
    case Arrive(id, key, now) => Arrived(s, id, key, now)
    case Finish(id, outcome, now) => Finished(s, id, outcome, now)
    case Wake(id) => Woken(s, id)
  }

  const FRESH: System := System(Cache(map[], 0), map[], map[], map[])

  ghost function Run(actions: seq<Action>): Option<System> {
    if actions == [] then Some(FRESH)
    else
      var s, a := Run(actions[..|actions| - 1]), actions[|actions| - 1];
      if s.None? || !CanHappen(s.value, a) then None else Some(Act(s.value, a))
  }

  /** A ticket's worker is at work with its entry in flight, or done with the ticket's outcome. */
  ghost predicate TicketOk(s: System, key: Bytes, t: nat) {
    && t <= s.cache.sequence && t in s.owner && s.owner[t] in s.callers
    && s.callers[s.owner[t]] == if t in s.produced then Done(key, s.produced[t].0, s.owner[t]) else Working(key, t)
  }

  ghost predicate EntryOk(s: System, k: Bytes)
    requires k in s.cache.entries
  {
    match s.cache.entries[k]
    case InFlight(t) => TicketOk(s, k, t) && t !in s.produced
    case Complete(t, value, expiresAt) =>
      TicketOk(s, k, t) && t in s.produced && s.produced[t] == (Value(value), expiresAt - TTL)
  }

  ghost predicate CallerOk(s: System, id: nat)
    requires id in s.callers
  {
    match s.callers[id]
    case Uncached(_) => true
    case Working(key, t) =>
      TicketOk(s, key, t) && s.owner[t] == id && t !in s.produced
      && key in s.cache.entries && s.cache.entries[key] == InFlight(t)
    case Waiting(key, t, since, hit) =>
      TicketOk(s, key, t) && (hit ==> t in s.produced && since < s.produced[t].1 + TTL)
    case Done(key, outcome, worker) =>
      worker in s.callers && s.callers[worker] == Done(key, outcome, worker)
  }

  ghost predicate Bounded(s: System) {
    forall t | t in s.owner || t in s.produced :: t <= s.cache.sequence
  }

  ghost predicate Inv(s: System) {
    && CacheInv(s.cache)
    && (forall k | k in s.cache.entries :: EntryOk(s, k))
    && (forall id | id in s.callers :: CallerOk(s, id))
    && Bounded(s)
  }

  /** Nothing about the tickets of s changes, except that some callers wake up. */
  ghost predicate Extends(s: System, s': System) {
    && s.cache.sequence <= s'.cache.sequence
    && (forall t | t in s.owner :: t in s'.owner && s'.owner[t] == s.owner[t])
    && (forall t | t in s.owner :: (t in s'.produced <==> t in s.produced))
    && (forall t | t in s.produced :: t in s'.produced && s'.produced[t] == s.produced[t])
    && (forall id | id in s.callers && !s.callers[id].Waiting? :: id in s'.callers && s'.callers[id] == s.callers[id])
  }

  lemma TicketKept(s: System, s': System, key: Bytes, t: nat)
    requires TicketOk(s, key, t) && Extends(s, s')
    ensures TicketOk(s', key, t)
  {
  }

  lemma CallerKept(s: System, s': System, x: nat)
    requires x in s.callers && CallerOk(s, x) && Extends(s, s') && x in s'.callers && s'.callers[x] == s.callers[x]
    requires s.callers[x].Working? ==>
               var k := s.callers[x].key;
                   k in s.cache.entries && k in s'.cache.entries && s'.cache.entries[k] == s.cache.entries[k]
    ensures CallerOk(s', x)
  {
    var c := s.callers[x];
    if c.Working? || c.Waiting? { TicketKept(s, s', c.key, c.ticket); }
  }

  lemma EntryKept(s: System, s': System, k: Bytes)
    requires k in s.cache.entries && EntryOk(s, k) && Extends(s, s')
    requires k in s'.cache.entries && s'.cache.entries[k] == s.cache.entries[k]
    ensures EntryOk(s', k)
  {
    TicketKept(s, s', k, s.cache.entries[k].sequence);
  }

  lemma ArriveEntry(s: System, id: nat, key: Bytes, now: int, k: Bytes)
    requires Inv(s) && id !in s.callers && Extends(s, Arrived(s, id, key, now))
             && k in Arrived(s, id, key, now).cache.entries
    ensures EntryOk(Arrived(s, id, key, now), k)
  {
    EnterTickets(s.cache, key, now);
    EnterEntry(s.cache, key, now, k);
    assert (k in s.cache.entries ==> EntryOk(s, k)) && Bounded(s);
    hide Enter, CacheInv, Extends, Inv, Expired;
    if Enter(s.cache, key, now).1.Own? && k == key {
    } else {
      hide Arrived, EntryOk;
      ArrivedShape(s, id, key, now);
      EntryKept(s, Arrived(s, id, key, now), k);
    }
  }

  lemma ArriveCaller(s: System, id: nat, key: Bytes, now: int, x: nat)
    requires Inv(s) && id !in s.callers && Extends(s, Arrived(s, id, key, now)) && x in s.callers
    ensures CallerOk(Arrived(s, id, key, now), x)
  {
    if s.callers[x].Working? { EnterInFlight(s.cache, key, now, s.callers[x].key); }
    hide Enter, CacheInv, Extends, EntryOk, TicketOk;
    CallerKept(s, Arrived(s, id, key, now), x);
  }

  lemma ArriveNew(s: System, id: nat, key: Bytes, now: int)
    requires Inv(s) && id !in s.callers && Extends(s, Arrived(s, id, key, now))
    ensures CallerOk(Arrived(s, id, key, now), id)
  {
    EnterTickets(s.cache, key, now);
    var r := Enter(s.cache, key, now).1;
    if r.Joined? { ArriveJoined(s, id, key, now); } else { ArriveOwn(s, id, key, now); }
  }

  lemma ArriveJoined(s: System, id: nat, key: Bytes, now: int)
    requires Inv(s) && id !in s.callers && Extends(s, Arrived(s, id, key, now)) && Enter(s.cache, key, now).1.Joined?
    ensures CallerOk(Arrived(s, id, key, now), id)
  {
    EnterTickets(s.cache, key, now);
    assert EntryOk(s, key);
    hide CacheInv, Extends, Inv, Enter;
    TicketKept(s, Arrived(s, id, key, now), key, s.cache.entries[key].sequence);
    hide TicketOk;
  }

  lemma ArriveOwn(s: System, id: nat, key: Bytes, now: int)
    requires Inv(s) && id !in s.callers && !Enter(s.cache, key, now).1.Joined?
    ensures CallerOk(Arrived(s, id, key, now), id)
  {
    EnterKeeps(s.cache, key, now);
    assert Bounded(s);
    hide CacheInv, Inv, Enter, Shrunk, Expired;
  }

  lemma ArrivedShape(s: System, id: nat, key: Bytes, now: int)
    ensures var (cache, r) := Enter(s.cache, key, now);
            var s' := Arrived(s, id, key, now);
            && s'.cache == cache && s'.produced == s.produced
            && s'.owner == (if r.Own? then s.owner[r.ticket := id] else s.owner)
            && s'.callers.Keys == s.callers.Keys + {id}
            && forall x | x in s.callers && x != id :: s'.callers[x] == s.callers[x]
  {
    hide Enter;
  }

  lemma ExtendsBy(s: System, s': System, id: nat, issued: Option<nat>)
    requires id !in s.callers && Bounded(s) && s.cache.sequence <= s'.cache.sequence && s'.produced == s.produced
    requires s'.owner == if issued.Some? then s.owner[issued.value := id] else s.owner
    requires issued.Some? ==> issued.value == s.cache.sequence + 1 == s'.cache.sequence
    requires s'.callers.Keys == s.callers.Keys + {id}
    requires forall x | x in s.callers && x != id :: s'.callers[x] == s.callers[x]
    ensures Extends(s, s') && Bounded(s')
  {
  }

  lemma ArriveExtends(s: System, id: nat, key: Bytes, now: int)
    requires Inv(s) && id !in s.callers
    ensures var s' := Arrived(s, id, key, now);
            Extends(s, s') && CacheInv(s'.cache) && Bounded(s')
  {
    EnterTickets(s.cache, key, now);
    ArrivedShape(s, id, key, now);
    hide *;
    var r := Enter(s.cache, key, now).1;
    ExtendsBy(s, Arrived(s, id, key, now), id, if r.Own? then Some(r.ticket) else None);
  }

  lemma ArriveKeeps(s: System, id: nat, key: Bytes, now: int)
    requires Inv(s) && id !in s.callers
    ensures Inv(Arrived(s, id, key, now))
  {
    var s' := Arrived(s, id, key, now);
    ArrivedShape(s, id, key, now);
    ArriveExtends(s, id, key, now);
    hide Arrived, Extends, EntryOk, CallerOk, CacheInv;
    forall k | k in s'.cache.entries ensures EntryOk(s', k) { ArriveEntry(s, id, key, now, k); }
    forall x | x in s'.callers ensures CallerOk(s', x) {
      if x == id { ArriveNew(s, id, key, now); } else { ArriveCaller(s, id, key, now, x); }
    }
  }

  lemma WakeKeeps(s: System, id: nat)
    requires Inv(s) && CanHappen(s, Wake(id))
    ensures Inv(Woken(s, id))
  {
    var s' := Woken(s, id);
    hide CacheInv;
    assert Extends(s, s');
    assert CallerOk(s, id);
    forall k | k in s.cache.entries ensures EntryOk(s', k) { EntryKept(s, s', k); }
    forall x | x in s'.callers && x != id ensures CallerOk(s', x) { CallerKept(s, s', x); }
  }

  lemma UncachedKeeps(s: System, id: nat, outcome: Outcome, now: int)
    requires Inv(s) && CanHappen(s, Finish(id, outcome, now)) && s.callers[id].Uncached?
    ensures Inv(Finished(s, id, outcome, now))
  {
    var s' := Finished(s, id, outcome, now);
    hide CacheInv;
    forall k | k in s.cache.entries ensures EntryOk(s', k) { assert EntryOk(s, k); }
    forall x | x in s'.callers && x != id ensures CallerOk(s', x) { assert CallerOk(s, x); }
  }

  /** The one ticket that is produced, and the others, after a worker finishes. */
  lemma TicketFinished(s: System, id: nat, outcome: Outcome, now: int, key: Bytes, t: nat)
    requires CanHappen(s, Finish(id, outcome, now)) && s.callers[id].Working? && CallerOk(s, id) && TicketOk(s, key, t)
    requires Finished(s, id, outcome, now).cache.sequence == s.cache.sequence
    ensures TicketOk(Finished(s, id, outcome, now), key, t)
    ensures t == s.callers[id].ticket ==> key == s.callers[id].key
  {
  }

  lemma FinishOwn(s: System, id: nat, outcome: Outcome, now: int)
    requires Inv(s) && CanHappen(s, Finish(id, outcome, now)) && s.callers[id].Working?
    requires s.callers[id].key in Finished(s, id, outcome, now).cache.entries
    ensures EntryOk(Finished(s, id, outcome, now), s.callers[id].key)
  {
    var w := s.callers[id];
    assert CallerOk(s, id);
    LeaveKeeps(s.cache, w.key, outcome, now);
    hide CacheInv, Leave, Shrunk, Inv;
    TicketFinished(s, id, outcome, now, w.key, w.ticket);
    hide TicketOk;
  }

  lemma FinishEntry(s: System, id: nat, outcome: Outcome, now: int, k: Bytes)
    requires Inv(s) && CanHappen(s, Finish(id, outcome, now)) && s.callers[id].Working?
    requires k in Finished(s, id, outcome, now).cache.entries
    ensures EntryOk(Finished(s, id, outcome, now), k)
  {
    if k == s.callers[id].key { FinishOwn(s, id, outcome, now); } else { FinishOther(s, id, outcome, now, k); }
    hide *;
  }

  lemma FinishOther(s: System, id: nat, outcome: Outcome, now: int, k: Bytes)
    requires Inv(s) && CanHappen(s, Finish(id, outcome, now)) && s.callers[id].Working?
    requires k in Finished(s, id, outcome, now).cache.entries && k != s.callers[id].key
    ensures EntryOk(Finished(s, id, outcome, now), k)
  {
    var w := s.callers[id];
    assert CallerOk(s, id);
    LeaveEntry(s.cache, w.key, outcome, now, k);
    assert EntryOk(s, k);
    hide CacheInv, Leave, Inv;
    TicketFinished(s, id, outcome, now, k, s.cache.entries[k].sequence);
    hide TicketOk;
  }

  lemma FinishedShape(s: System, id: nat, outcome: Outcome, now: int)
    requires Inv(s) && CanHappen(s, Finish(id, outcome, now)) && s.callers[id].Working?
    ensures var s', w := Finished(s, id, outcome, now), s.callers[id];
            && s'.cache.sequence == s.cache.sequence && s'.owner == s.owner
            && s'.produced == s.produced[w.ticket := (outcome, now)]
            && s'.callers == s.callers[id := Done(w.key, outcome, id)]
  {
    assert CallerOk(s, id);
    LeaveKeeps(s.cache, s.callers[id].key, outcome, now);
    hide CacheInv, Leave, Shrunk, Inv, CallerOk;
  }

  lemma FinishWorking(s: System, id: nat, outcome: Outcome, now: int, x: nat)
    requires Inv(s) && CanHappen(s, Finish(id, outcome, now)) && s.callers[id].Working? && x in s.callers && x != id
    requires s.callers[x].Working?
    ensures CallerOk(Finished(s, id, outcome, now), x)
  {
    var w, c := s.callers[id], s.callers[x];
    assert CallerOk(s, id) && CallerOk(s, x);
    hide Inv, EntryOk;
    assert c.key != w.key;
    LeaveEntry(s.cache, w.key, outcome, now, c.key);
    TicketFinished(s, id, outcome, now, c.key, c.ticket);
    hide CacheInv, Leave, TicketOk;
  }

  lemma FinishResting(s: System, id: nat, outcome: Outcome, now: int, x: nat)
    requires Inv(s) && CanHappen(s, Finish(id, outcome, now)) && s.callers[id].Working? && x in s.callers && x != id
    requires !s.callers[x].Working?
    ensures CallerOk(Finished(s, id, outcome, now), x)
  {
    var c := s.callers[x];
    assert CallerOk(s, id) && CallerOk(s, x);
    FinishedShape(s, id, outcome, now);
    hide Inv, CanHappen;
    if c.Waiting? { TicketFinished(s, id, outcome, now, c.key, c.ticket); }
    hide Finished, TicketOk;
  }

  lemma FinishCaller(s: System, id: nat, outcome: Outcome, now: int, x: nat)
    requires Inv(s) && CanHappen(s, Finish(id, outcome, now)) && s.callers[id].Working? && x in s.callers && x != id
    ensures CallerOk(Finished(s, id, outcome, now), x)
  {
    if s.callers[x].Working? { FinishWorking(s, id, outcome, now, x); } else { FinishResting(s, id, outcome, now, x); }
    hide *;
  }

  lemma FinishBounded(s: System, id: nat, outcome: Outcome, now: int)
    requires Inv(s) && CanHappen(s, Finish(id, outcome, now)) && s.callers[id].Working?
    ensures var s' := Finished(s, id, outcome, now);
            && CacheInv(s'.cache) && Bounded(s') && s'.callers.Keys == s.callers.Keys
            && CallerOk(s', id)
  {
    hide CacheInv, Leave, EntryOk, Shrunk;
    assert CallerOk(s, id);
    LeaveKeeps(s.cache, s.callers[id].key, outcome, now);
    FinishedShape(s, id, outcome, now);
    hide Inv;
  }

  lemma FinishKeeps(s: System, id: nat, outcome: Outcome, now: int)
    requires Inv(s) && CanHappen(s, Finish(id, outcome, now)) && s.callers[id].Working?
    ensures Inv(Finished(s, id, outcome, now))
  {
    var s' := Finished(s, id, outcome, now);
    FinishBounded(s, id, outcome, now);
    forall k | k in s'.cache.entries ensures EntryOk(s', k) { hide *; FinishEntry(s, id, outcome, now, k); }
    forall x | x in s'.callers && x != id ensures CallerOk(s', x) { hide *; FinishCaller(s, id, outcome, now, x); }
    hide CacheInv, Leave, EntryOk, CallerOk, Finished, Bounded;
  }

  lemma {:induction false} RunInv(actions: seq<Action>)
    requires Run(actions).Some?
    ensures Inv(Run(actions).value)
  {
    if actions == [] {
      assert Stored(map[]) == 0;
    } else {
      RunInv(actions[..|actions| - 1]);
      var s, a := Run(actions[..|actions| - 1]).value, actions[|actions| - 1];
      hide Inv, Arrived, Finished, Woken, Stored;
      match a
      case Arrive(id, key, now) => ArriveKeeps(s, id, key, now);
      case Wake(id) => WakeKeeps(s, id);
      case Finish(id, outcome, now) =>
        if s.callers[id].Working? { FinishKeeps(s, id, outcome, now); } else { UncachedKeeps(s, id, outcome, now); }
    }
  }

  /**
   In every run: the bounds hold; the cached workers of a key are at most one, and its entry is
   in flight as long as it works; and every result is the outcome of one worker's own execution
   for that key, a hit being younger than the time to live.
   */
  lemma AgreesWithDirectWork(actions: seq<Action>)
    requires Run(actions).Some?
    ensures var s := Run(actions).value;
            && |s.cache.entries| <= MAX_ENTRIES && Stored(s.cache.entries) <= MAX_BYTES
            && (forall i, k | i in s.callers && k in s.callers && s.callers[i].Working? && s.callers[k].Working?
                              && s.callers[i].key == s.callers[k].key :: i == k)
            && (forall i | i in s.callers && s.callers[i].Working? ::
                  s.callers[i].key in s.cache.entries && s.cache.entries[s.callers[i].key].InFlight?)
            && (forall i | i in s.callers && s.callers[i].Done? ::
                  var w := s.callers[i].worker;
                  w in s.callers && s.callers[w] == Done(s.callers[i].key, s.callers[i].outcome, w))
            && (forall i | i in s.callers && s.callers[i].Waiting? ::
                  var c := s.callers[i];
                  && c.ticket in s.owner && s.owner[c.ticket] in s.callers
                  && s.callers[s.owner[c.ticket]].key == c.key
                  && (c.hit ==> c.ticket in s.produced && c.since - s.produced[c.ticket].1 < TTL))
  {
    RunInv(actions);
    var s := Run(actions).value;
    hide Run, Stored;
    forall i | i in s.callers ensures CallerOk(s, i) {}
  }

  /** A finishing worker always finds its own entry, so its result is never counted twice or lost. */
  lemma WorkerFindsEntry(actions: seq<Action>, id: nat)
    requires Run(actions).Some? && id in Run(actions).value.callers && Run(actions).value.callers[id].Working?
    ensures var s := Run(actions).value;
            var w := s.callers[id];
            w.key in s.cache.entries && s.cache.entries[w.key] == InFlight(w.ticket)
  {
    RunInv(actions);
    assert CallerOk(Run(actions).value, id);
  }

  /** Whoever waits is woken with the outcome its ticket's worker produced. */
  lemma WokenWithOwnersOutcome(actions: seq<Action>, id: nat)
    requires Run(actions).Some? && CanHappen(Run(actions).value, Wake(id))
    ensures var s := Run(actions).value;
            var w := s.owner[s.callers[id].ticket];
            w in s.callers && s.callers[w].Done? && s.callers[w].worker == w
            && Woken(s, id).callers[id] == s.callers[w]
  {
    RunInv(actions);
    assert CallerOk(Run(actions).value, id);
  }
}
