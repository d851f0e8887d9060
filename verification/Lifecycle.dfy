/** Configuration generations: who holds one, when its client is closed, and how a service shuts down. */
module Lifecycle {
  import opened Common

  /** One published configuration; hasCloser tells whether it came with a client to close. */
  datatype Gen = Gen(hasCloser: bool, inflight: nat, retired: bool, closed: bool)

  /** The generations in publishing order; the last one is the current one. */
  datatype State = State(gens: seq<Gen>, closed: bool)

  const START: State := State([Gen(false, 0, false, false)], false)

  predicate Closable(g: Gen) { g.retired && g.inflight == 0 && !g.closed && g.hasCloser }

  function Due(k: nat, g: Gen): Option<nat> { if Closable(g) then Some(k) else None }

  function Settled(g: Gen): Gen { if Closable(g) then g.(closed := true) else g }

  function Last(s: State): nat
    requires s.gens != []
  {
    |s.gens| - 1
  }

  function Acquired(s: State): State
    requires s.gens != []
  {
    var k := Last(s);
    s.(gens := s.gens[k := s.gens[k].(inflight := s.gens[k].inflight + 1)])
  }

  /** A generation let go: the state, and the closer the caller now has to run. */
  function Released(s: State, k: nat): (State, Option<nat>)
    requires k < |s.gens|
  {
    var g := s.gens[k];
    var h := if g.inflight > 0 then g.(inflight := g.inflight - 1) else g;
    (s.(gens := s.gens[k := Settled(h)]), Due(k, h))
  }

  function Retired(s: State): (State, Option<nat>)
    requires s.gens != []
  {
    var k := Last(s);
    var h := s.gens[k].(retired := true);
    (s.(gens := s.gens[k := Settled(h)]), Due(k, h))
  }

  function Published(s: State, hasCloser: bool): (State, Option<nat>)
    requires s.gens != []
  {
    var (r, closer) := Retired(s);
    (r.(gens := r.gens + [Gen(hasCloser, 0, false, false)]), closer)
  }

  function Closed(s: State): (State, Option<nat>)
    requires s.gens != []
  {
    var (r, closer) := Retired(s);
    (r.(closed := true), closer)
  }

  /* ---------- callers ---------- */

  /**
   What one caller is doing. In a call: nothing yet, holding a generation, with a built but
   unpublished client, or about to run a closer. Outside: not there, or shutting down.
   */
  datatype Thread =
    | Gone | Inside | Holding(gen: nat) | Built(hasCloser: bool) | Closing(gen: nat) | Dropping
    | Waiting | Drained | ShutClosing(gen: nat) | Returned

  datatype System = System(service: State, active: int, stopped: bool, threads: seq<Thread>, runs: map<nat, nat>)

  datatype Action =
    | Enter(t: nat) | Exit(t: nat) | Acquire(t: nat) | Release(t: nat)
    | Build(t: nat, hasCloser: bool) | Publish(t: nat) | RunCloser(t: nat)
    | Stop(t: nat) | Drain(t: nat) | CloseService(t: nat)

  predicate CanHappen(s: System, a: Action) {
    a.t < |s.threads| && s.service.gens != [] &&
    var u := s.threads[a.t];
    match a
    case Enter(_) => u.Gone? && !s.stopped
    case Exit(_) => u.Inside?
    case Acquire(_) => u.Inside?
    case Release(_) => u.Holding? && u.gen < |s.service.gens|
    case Build(_, _) => u.Inside?
    case Publish(_) => u.Built?
    case RunCloser(_) => u.Closing? || u.ShutClosing? || u.Dropping?
    case Stop(_) => u.Gone?
    case Drain(_) => u.Waiting? && s.active <= 0
    case CloseService(_) => u.Drained?
  }

  function Ran(runs: map<nat, nat>, k: nat): nat { if k in runs then runs[k] else 0 }

  function Act(s: System, a: Action): System
    requires CanHappen(s, a)
  {
    var t := a.t;
    match a
    case Enter(_) => s.(active := s.active + 1, threads := s.threads[t := Inside])
    case Exit(_) => s.(active := s.active - 1, threads := s.threads[t := Gone])
    case Acquire(_) =>
      if s.service.closed then s
      else s.(service := Acquired(s.service), threads := s.threads[t := Holding(Last(s.service))])
    case Release(_) =>
      var (service, closer) := Released(s.service, s.threads[t].gen);
      s.(service := service, threads := s.threads[t := if closer.Some? then Closing(closer.value) else Inside])
    case Build(_, hasCloser) => s.(threads := s.threads[t := Built(hasCloser)])
    case Publish(_) =>
      if s.service.closed then s.(threads := s.threads[t := if s.threads[t].hasCloser then Dropping else Inside])
      else
        var (service, closer) := Published(s.service, s.threads[t].hasCloser);
        s.(service := service, threads := s.threads[t := if closer.Some? then Closing(closer.value) else Inside])
    case RunCloser(_) =>
      var u := s.threads[t];
      if u.Dropping? then s.(threads := s.threads[t := Inside])
      else s.(runs := s.runs[u.gen := Ran(s.runs, u.gen) + 1],
              threads := s.threads[t := if u.Closing? then Inside else Returned])
    case Stop(_) => s.(stopped := true, threads := s.threads[t := Waiting])
    case Drain(_) => s.(threads := s.threads[t := Drained])
    case CloseService(_) =>
      var (service, closer) := Closed(s.service);
      s.(service := service, threads := s.threads[t := if closer.Some? then ShutClosing(closer.value) else Returned])
  }

  function Fresh(n: nat): System { System(START, 0, false, seq(n, _ => Gone), map[]) }

  /** The system after a run of n callers; None if some action could not happen. */
  function Run(n: nat, actions: seq<Action>): Option<System> {
    if actions == [] then Some(Fresh(n))
    else
      var s, a := Run(n, actions[..|actions| - 1]), actions[|actions| - 1];
      if s.None? || !CanHappen(s.value, a) then None else Some(Act(s.value, a))
  }

  /* ---------- counting callers ---------- */

  datatype Query = Active | Holds(gen: nat) | Pends(gen: nat)

  predicate Matches(q: Query, u: Thread) {
    match q
    case Active => u.Inside? || u.Holding? || u.Built? || u.Closing? || u.Dropping?
    case Holds(k) => u == Holding(k)
    case Pends(k) => u == Closing(k) || u == ShutClosing(k)
  }

  function One(q: Query, u: Thread): nat { if Matches(q, u) then 1 else 0 }

  function Tally(ts: seq<Thread>, q: Query): nat {
    if ts == [] then 0 else One(q, ts[0]) + Tally(ts[1..], q)
  }

  lemma {:induction false} TallySet(ts: seq<Thread>, t: nat, u: Thread, q: Query)
    requires t < |ts|
    ensures Tally(ts[t := u], q) == Tally(ts, q) - One(q, ts[t]) + One(q, u)
  {
    hide One;
    if t == 0 {
      assert ts[0 := u][1..] == ts[1..];
    } else {
      assert ts[t := u][1..] == ts[1..][t - 1 := u];
      TallySet(ts[1..], t - 1, u, q);
    }
  }

  lemma {:induction false} TallySome(ts: seq<Thread>, t: nat, q: Query)
    requires t < |ts| && Matches(q, ts[t])
    ensures Tally(ts, q) >= 1
  {
    hide Matches;
    if t > 0 { TallySome(ts[1..], t - 1, q); }
  }

  lemma {:induction false} TallyNone(ts: seq<Thread>, q: Query)
    requires forall t | 0 <= t < |ts| :: !Matches(q, ts[t])
    ensures Tally(ts, q) == 0
  {
    hide Matches;
    if ts != [] {
      assert forall t | 0 <= t < |ts[1..]| :: ts[1..][t] == ts[t + 1];
      TallyNone(ts[1..], q);
    }
  }

  /* ---------- the invariant ---------- */

  /** One generation: counted exactly, closed at most once, never while held, and never forgotten. */
  ghost predicate GenOk(s: System, k: nat)
    requires k < |s.service.gens|
  {
    var g := s.service.gens[k];
    && g.inflight == Tally(s.threads, Holds(k))
    && Ran(s.runs, k) + Tally(s.threads, Pends(k)) == (if g.closed then 1 else 0)
    && (g.closed ==> g.retired && g.inflight == 0 && g.hasCloser)
    && !Closable(g)
    && (g.retired <==> k < Last(s.service) || s.service.closed)
  }

  predicate ThreadOk(s: System, u: Thread) {
    match u
    case Holding(k) => k < |s.service.gens|
    case Closing(k) => k < |s.service.gens|
    case ShutClosing(k) => k < |s.service.gens| && s.service.closed
    case Returned => s.service.closed
    case Waiting => s.stopped
    case Drained => s.stopped && s.active == 0
    case Dropping => false
    case _ => true
  }

  ghost predicate Inv(s: System) {
    && s.service.gens != []
    && s.active == Tally(s.threads, Active)
    && (s.service.closed ==> s.stopped && s.active == 0)
    && (forall k | 0 <= k < |s.service.gens| :: GenOk(s, k))
    && (forall k | k in s.runs :: k < |s.service.gens|)
    && (forall t | 0 <= t < |s.threads| :: ThreadOk(s, s.threads[t]))
  }

  /* ---------- one step ---------- */

  /** One caller changes from one state to another; queries it matches in neither are as before. */
  lemma TalliesKept(ts: seq<Thread>, t: nat, u: Thread)
    requires t < |ts|
    ensures forall q :: Tally(ts[t := u], q) == Tally(ts, q) - One(q, ts[t]) + One(q, u)
  {
    hide *;
    forall q ensures Tally(ts[t := u], q) == Tally(ts, q) - One(q, ts[t]) + One(q, u) { TallySet(ts, t, u, q); }
  }

  /** A step that only moves one caller between states that hold and owe nothing. */
  lemma MoveKeeps(s: System, t: nat, u: Thread, active: int)
    requires Inv(s) && t < |s.threads|
    requires forall k: nat ::
               One(Holds(k), u) == One(Holds(k), s.threads[t]) && One(Pends(k), u) == One(Pends(k), s.threads[t])
    requires active == s.active - One(Active, s.threads[t]) + One(Active, u)
    requires active != s.active ==> !s.stopped || active == s.active - 1
    requires ThreadOk(s.(active := active), u)
    ensures Inv(s.(active := active, threads := s.threads[t := u]))
  {
    TalliesKept(s.threads, t, u);
    var s' := s.(active := active, threads := s.threads[t := u]);
    hide Tally, One, Closable;
    forall k | 0 <= k < |s'.service.gens| ensures GenOk(s', k) { assert GenOk(s, k); }
    hide GenOk;
    forall i | 0 <= i < |s'.threads| ensures ThreadOk(s', s'.threads[i]) {
      assert i != t ==> ThreadOk(s, s.threads[i]);
    }
  }

  lemma EnterKeeps(s: System, t: nat)
    requires Inv(s) && CanHappen(s, Enter(t))
    ensures Inv(Act(s, Enter(t)))
  {
    MoveKeeps(s, t, Inside, s.active + 1);
  }

  lemma ExitKeeps(s: System, t: nat)
    requires Inv(s) && CanHappen(s, Exit(t))
    ensures Inv(Act(s, Exit(t)))
  {
    MoveKeeps(s, t, Gone, s.active - 1);
  }

  lemma BuildKeeps(s: System, t: nat, hasCloser: bool)
    requires Inv(s) && CanHappen(s, Build(t, hasCloser))
    ensures Inv(Act(s, Build(t, hasCloser)))
  {
    MoveKeeps(s, t, Built(hasCloser), s.active);
  }

  lemma DrainKeeps(s: System, t: nat)
    requires Inv(s) && CanHappen(s, Drain(t))
    ensures Inv(Act(s, Drain(t)))
  {
    assert ThreadOk(s, s.threads[t]);
    MoveKeeps(s, t, Drained, s.active);
  }

  lemma StopKeeps(s: System, t: nat)
    requires Inv(s) && CanHappen(s, Stop(t))
    ensures Inv(Act(s, Stop(t)))
  {
    var r := s.(stopped := true);
    hide Tally, Closable;
    forall k | 0 <= k < |s.service.gens| ensures GenOk(r, k) { assert GenOk(s, k); }
    forall i | 0 <= i < |s.threads| ensures ThreadOk(r, r.threads[i]) { assert ThreadOk(s, s.threads[i]); }
    MoveKeeps(r, t, Waiting, s.active);
  }

  /** A caller in a call means the service is still open. */
  lemma CallMeansOpen(s: System, t: nat)
    requires Inv(s) && t < |s.threads| && Matches(Active, s.threads[t])
    ensures s.active > 0 && !s.service.closed
  {
    TallySome(s.threads, t, Active);
  }

  lemma AcquireKeeps(s: System, t: nat)
    requires Inv(s) && CanHappen(s, Acquire(t))
    ensures Inv(Act(s, Acquire(t)))
  {
    CallMeansOpen(s, t);
    var k := Last(s.service);
    TalliesKept(s.threads, t, Holding(k));
    var s' := Act(s, Acquire(t));
    hide Tally;
    forall i | 0 <= i < |s'.service.gens| ensures GenOk(s', i) { assert GenOk(s, i); }
    hide GenOk;
    forall i | 0 <= i < |s'.threads| ensures ThreadOk(s', s'.threads[i]) {
      assert i != t ==> ThreadOk(s, s.threads[i]);
    }
  }

  /** Whoever lets go of a generation finds it counted, and not closed. */
  lemma HeldIsOpen(s: System, t: nat)
    requires Inv(s) && t < |s.threads| && s.threads[t].Holding?
    ensures var k := s.threads[t].gen;
              k < |s.service.gens| && s.service.gens[k].inflight > 0 && !s.service.gens[k].closed
  {
    var k := s.threads[t].gen;
    assert ThreadOk(s, s.threads[t]);
    TallySome(s.threads, t, Holds(k));
    assert GenOk(s, k);
  }

  lemma ReleaseKeeps(s: System, t: nat)
    requires Inv(s) && CanHappen(s, Release(t))
    ensures Inv(Act(s, Release(t)))
  {
    CallMeansOpen(s, t);
    HeldIsOpen(s, t);
    var s' := Act(s, Release(t));
    TalliesKept(s.threads, t, s'.threads[t]);
    hide Tally;
    forall i | 0 <= i < |s'.service.gens| ensures GenOk(s', i) { assert GenOk(s, i); }
    hide GenOk;
    forall i | 0 <= i < |s'.threads| ensures ThreadOk(s', s'.threads[i]) {
      assert i != t ==> ThreadOk(s, s.threads[i]);
    }
  }

  lemma PublishKeeps(s: System, t: nat)
    requires Inv(s) && CanHappen(s, Publish(t))
    ensures Inv(Act(s, Publish(t)))
  {
    CallMeansOpen(s, t);
    var s' := Act(s, Publish(t));
    var n := |s.service.gens|;
    NobodyAt(s, n);
    TalliesKept(s.threads, t, s'.threads[t]);
    hide Tally;
    forall i | 0 <= i < |s'.service.gens| ensures GenOk(s', i) { assert i < n ==> GenOk(s, i); }
    hide GenOk;
    forall i | 0 <= i < |s'.threads| ensures ThreadOk(s', s'.threads[i]) {
      assert i != t ==> ThreadOk(s, s.threads[i]);
    }
  }

  /** A generation that is not published yet is held by nobody and owes nothing. */
  lemma NobodyAt(s: System, k: nat)
    requires Inv(s) && k >= |s.service.gens|
    ensures Tally(s.threads, Holds(k)) == 0 && Tally(s.threads, Pends(k)) == 0 && Ran(s.runs, k) == 0
  {
    forall t | 0 <= t < |s.threads| ensures !Matches(Holds(k), s.threads[t]) && !Matches(Pends(k), s.threads[t]) {
      assert ThreadOk(s, s.threads[t]);
    }
    TallyNone(s.threads, Holds(k));
    TallyNone(s.threads, Pends(k));
  }

  lemma RunCloserKeeps(s: System, t: nat)
    requires Inv(s) && CanHappen(s, RunCloser(t))
    ensures Inv(Act(s, RunCloser(t)))
  {
    var s' := Act(s, RunCloser(t));
    assert ThreadOk(s, s.threads[t]);
    TalliesKept(s.threads, t, s'.threads[t]);
    hide Tally, Closable;
    forall i | 0 <= i < |s'.service.gens| ensures GenOk(s', i) { assert GenOk(s, i); }
    hide GenOk;
    forall i | 0 <= i < |s'.threads| ensures ThreadOk(s', s'.threads[i]) {
      assert i != t ==> ThreadOk(s, s.threads[i]);
    }
  }

  lemma CloseKeeps(s: System, t: nat)
    requires Inv(s) && CanHappen(s, CloseService(t))
    ensures Inv(Act(s, CloseService(t)))
  {
    var s' := Act(s, CloseService(t));
    assert ThreadOk(s, s.threads[t]);
    TalliesKept(s.threads, t, s'.threads[t]);
    hide Tally;
    forall i | 0 <= i < |s'.service.gens| ensures GenOk(s', i) { assert GenOk(s, i); }
    hide GenOk;
    forall i | 0 <= i < |s'.threads| ensures ThreadOk(s', s'.threads[i]) {
      assert i != t ==> ThreadOk(s, s.threads[i]);
    }
  }

  lemma FreshInv(n: nat)
    ensures Inv(Fresh(n))
  {
    var s := Fresh(n);
    TallyNone(s.threads, Active);
    TallyNone(s.threads, Holds(0));
    TallyNone(s.threads, Pends(0));
    assert GenOk(s, 0);
  }

  lemma {:induction false} RunInv(n: nat, actions: seq<Action>)
    requires Run(n, actions).Some?
    ensures Inv(Run(n, actions).value)
    decreases |actions|
  {
    if actions == [] {
      FreshInv(n);
    } else {
      RunInv(n, actions[..|actions| - 1]);
      var s, a := Run(n, actions[..|actions| - 1]).value, actions[|actions| - 1];
      hide Inv, Act;
      match a
      case Enter(t) => EnterKeeps(s, t);
      case Exit(t) => ExitKeeps(s, t);
      case Acquire(t) => AcquireKeeps(s, t);
      case Release(t) => ReleaseKeeps(s, t);
      case Build(t, c) => BuildKeeps(s, t, c);
      case Publish(t) => PublishKeeps(s, t);
      case RunCloser(t) => RunCloserKeeps(s, t);
      case Stop(t) => StopKeeps(s, t);
      case Drain(t) => DrainKeeps(s, t);
      case CloseService(t) => CloseKeeps(s, t);
    }
  }

  /* ---------- whole runs ---------- */

  /**
   In every run, for every generation: the client is closed at most once, and from the moment
   someone owes or has made that call nobody holds the generation or ever will; a retired
   generation that nobody holds has been closed or is about to be.
   */
  lemma ClosedOnceAndUnheld(n: nat, actions: seq<Action>, k: nat)
    requires Run(n, actions).Some? && k < |Run(n, actions).value.service.gens|
    ensures var s := Run(n, actions).value;
            var g := s.service.gens[k];
            && g.inflight == Tally(s.threads, Holds(k))
            && Ran(s.runs, k) + Tally(s.threads, Pends(k)) <= 1
            && (Ran(s.runs, k) + Tally(s.threads, Pends(k)) == 1 ==>
                  g.hasCloser && forall t | 0 <= t < |s.threads| :: s.threads[t] != Holding(k))
            && (g.retired && g.hasCloser && g.inflight == 0 ==> Ran(s.runs, k) + Tally(s.threads, Pends(k)) == 1)
  {
    RunInv(n, actions);
    var s := Run(n, actions).value;
    hide Run;
    assert GenOk(s, k);
    forall t | 0 <= t < |s.threads| ensures s.threads[t] == Holding(k) ==> Tally(s.threads, Holds(k)) >= 1 {
      if s.threads[t] == Holding(k) { TallySome(s.threads, t, Holds(k)); }
    }
    hide Tally;
  }

  /** What is acquired is the newest generation, open, and stays the same while later ones appear. */
  lemma AcquiredIsOpen(n: nat, actions: seq<Action>, t: nat)
    requires Run(n, actions).Some? && CanHappen(Run(n, actions).value, Acquire(t))
    ensures var s := Run(n, actions).value;
            var k := Last(s.service);
            && Act(s, Acquire(t)).threads[t] == Holding(k)
            && !s.service.gens[k].retired && !s.service.gens[k].closed && Ran(s.runs, k) == 0
  {
    RunInv(n, actions);
    var s := Run(n, actions).value;
    hide Run;
    CallMeansOpen(s, t);
    assert GenOk(s, Last(s.service));
    hide Tally;
  }

  /** The guards against underflow, against a closed service and for dropped clients are never used. */
  lemma GuardsAreDead(n: nat, actions: seq<Action>, t: nat)
    requires Run(n, actions).Some? && t < |Run(n, actions).value.threads|
    ensures var s := Run(n, actions).value;
            && s.active >= 0
            && (s.threads[t].Holding?
                ==> s.threads[t].gen < |s.service.gens| && s.service.gens[s.threads[t].gen].inflight > 0)
            && (Matches(Active, s.threads[t]) ==> s.active > 0 && !s.service.closed)
            && !s.threads[t].Dropping?
  {
    RunInv(n, actions);
    var s := Run(n, actions).value;
    hide Run;
    if Matches(Active, s.threads[t]) { CallMeansOpen(s, t); }
    if s.threads[t].Holding? { HeldIsOpen(s, t); }
    assert ThreadOk(s, s.threads[t]);
  }

  /** Publishing adds one open generation with the built client, and retires all others, which stay held. */
  lemma PublishReplaces(n: nat, actions: seq<Action>, t: nat)
    requires Run(n, actions).Some? && CanHappen(Run(n, actions).value, Publish(t))
    ensures var s, s' := Run(n, actions).value, Act(Run(n, actions).value, Publish(t));
            var k := |s.service.gens|;
            && |s'.service.gens| == k + 1 && !s'.service.closed
            && s'.service.gens[k] == Gen(s.threads[t].hasCloser, 0, false, false)
            && forall i | 0 <= i < k ::
                 && s'.service.gens[i].retired && s'.service.gens[i].inflight == s.service.gens[i].inflight
                 && s'.service.gens[i].hasCloser == s.service.gens[i].hasCloser
  {
    RunInv(n, actions);
    var s := Run(n, actions).value;
    hide Run;
    CallMeansOpen(s, t);
    forall i | 0 <= i < |s.service.gens| ensures s.service.gens[i].retired <==> i < Last(s.service) {
      assert GenOk(s, i);
    }
    hide Tally, Inv;
  }

  predicate Closers(s: System) { exists t :: 0 <= t < |s.threads| && s.threads[t].ShutClosing? }

  /**
   Once one shutdown has returned no call is active, every generation is retired and unheld, and
   each client's closer has been called exactly once -- if and only if no other shutdown is still
   about to call one.
   */
  lemma AfterShutdown(n: nat, actions: seq<Action>, t: nat)
    requires Run(n, actions).Some? && t < |Run(n, actions).value.threads| && Run(n, actions).value.threads[t].Returned?
    ensures var s := Run(n, actions).value;
            && s.active == 0
            && (forall i | 0 <= i < |s.threads| :: !Matches(Active, s.threads[i]))
            && (forall k | 0 <= k < |s.service.gens| :: s.service.gens[k].retired && s.service.gens[k].inflight == 0)
            && ((forall k: nat | k < |s.service.gens| :: Ran(s.runs, k) == if s.service.gens[k].hasCloser then 1 else 0)
                <==> !Closers(s))
  {
    RunInv(n, actions);
    var s := Run(n, actions).value;
    hide Run, Inv;
    ShutIdle(s, t);
    if Closers(s) {
      var i :| 0 <= i < |s.threads| && s.threads[i].ShutClosing?;
      OwedCloser(s, i);
    } else {
      forall k: nat | k < |s.service.gens| ensures Ran(s.runs, k) == if s.service.gens[k].hasCloser then 1 else 0 {
        NothingOwed(s, k);
      }
    }
  }

  lemma ShutIdle(s: System, t: nat)
    requires Inv(s) && t < |s.threads| && s.threads[t].Returned?
    ensures s.service.closed && s.active == 0
    ensures forall i | 0 <= i < |s.threads| :: !Matches(Active, s.threads[i])
    ensures forall k | 0 <= k < |s.service.gens| :: s.service.gens[k].retired && s.service.gens[k].inflight == 0
  {
    assert ThreadOk(s, s.threads[t]);
    forall i | 0 <= i < |s.threads| ensures !Matches(Active, s.threads[i]) {
      if Matches(Active, s.threads[i]) { TallySome(s.threads, i, Active); }
    }
    forall k | 0 <= k < |s.service.gens| ensures s.service.gens[k].retired && s.service.gens[k].inflight == 0 {
      assert GenOk(s, k);
      forall i | 0 <= i < |s.threads| ensures !Matches(Holds(k), s.threads[i]) {
        assert !Matches(Active, s.threads[i]);
      }
      TallyNone(s.threads, Holds(k));
    }
  }

  lemma OwedCloser(s: System, i: nat)
    requires Inv(s) && i < |s.threads| && s.threads[i].ShutClosing?
    ensures var k := s.threads[i].gen; k < |s.service.gens| && s.service.gens[k].hasCloser && Ran(s.runs, k) == 0
  {
    var k := s.threads[i].gen;
    assert ThreadOk(s, s.threads[i]);
    TallySome(s.threads, i, Pends(k));
    assert GenOk(s, k);
  }

  lemma NothingOwed(s: System, k: nat)
    requires Inv(s) && k < |s.service.gens| && s.service.gens[k].retired && s.service.gens[k].inflight == 0
    requires !Closers(s) && forall i | 0 <= i < |s.threads| :: !Matches(Active, s.threads[i])
    ensures Ran(s.runs, k) == if s.service.gens[k].hasCloser then 1 else 0
  {
    assert GenOk(s, k);
    forall i | 0 <= i < |s.threads| ensures !Matches(Pends(k), s.threads[i]) { assert !Matches(Active, s.threads[i]); }
    TallyNone(s.threads, Pends(k));
  }

  lemma Then(n: nat, actions: seq<Action>, s: System, a: Action)
    requires Run(n, actions) == Some(s) && CanHappen(s, a)
    ensures Run(n, actions + [a]) == Some(Act(s, a))
  {
    assert (actions + [a])[..|actions|] == actions;
    hide Act, CanHappen;
  }

  function Publishing(): System {
    var retired := Gen(false, 0, true, false);
    System(State([retired, Gen(true, 0, false, false)], false), 0, false, [Gone, Gone], map[])
  }

  /** One caller configures a client. */
  lemma PublishOne() returns (actions: seq<Action>)
    ensures Run(2, actions) == Some(Publishing())
  {
    var s := Fresh(2);
    assert s.threads == [Gone, Gone];
    Then(2, [], s, Enter(0));
    var s1 := Act(s, Enter(0));
    assert s1.threads == [Inside, Gone];
    Then(2, [] + [Enter(0)], s1, Build(0, true));
    var s2 := Act(s1, Build(0, true));
    assert s2.threads == [Built(true), Gone];
    Then(2, [] + [Enter(0)] + [Build(0, true)], s2, Publish(0));
    var s3 := Act(s2, Publish(0));
    assert s3.threads == [Inside, Gone] && s3.service == Publishing().service;
    Then(2, [] + [Enter(0)] + [Build(0, true)] + [Publish(0)], s3, Exit(0));
    assert Act(s3, Exit(0)).threads == [Gone, Gone];
    actions := [] + [Enter(0)] + [Build(0, true)] + [Publish(0)] + [Exit(0)];
    hide Run;
  }

  /** Two shutdowns at once: the second returns while the first has yet to close the client. */
  lemma SecondShutdownReturnsEarly() returns (actions: seq<Action>)
    ensures Run(2, actions).Some?
    ensures var s := Run(2, actions).value;
            s.threads == [ShutClosing(1), Returned] && |s.service.gens| == 2 && s.service.gens[1].hasCloser
                && Ran(s.runs, 1) == 0
  {
    actions := PublishOne();
    var s := Publishing();
    hide Run;
    Then(2, actions, s, Stop(0));
    actions, s := actions + [Stop(0)], Act(s, Stop(0));
    Then(2, actions, s, Stop(1));
    actions, s := actions + [Stop(1)], Act(s, Stop(1));
    assert s.threads == [Waiting, Waiting];
    Then(2, actions, s, Drain(0));
    actions, s := actions + [Drain(0)], Act(s, Drain(0));
    Then(2, actions, s, Drain(1));
    actions, s := actions + [Drain(1)], Act(s, Drain(1));
    assert s.threads == [Drained, Drained] && s.service == Publishing().service;
    Then(2, actions, s, CloseService(0));
    actions, s := actions + [CloseService(0)], Act(s, CloseService(0));
    assert s.threads == [ShutClosing(1), Drained];
    Then(2, actions, s, CloseService(1));
    actions, s := actions + [CloseService(1)], Act(s, CloseService(1));
  }
}
