/** The service and runtime objects: each method is what the source does while it holds the lock. */
module ServiceObject {
  import opened Common
  import opened Lifecycle

  class Generation {
    const number: nat
    const hasCloser: bool
    var inflight: nat
    var retired: bool
    var closed: bool

    constructor (number: nat, hasCloser: bool)
      ensures this.number == number && View() == Gen(hasCloser, 0, false, false)
    {
      this.number, this.hasCloser := number, hasCloser;
      inflight, retired, closed := 0, false, false;
    }

    ghost function View(): Gen
      reads this
    {
      Gen(hasCloser, inflight, retired, closed)
    }

    /** Hands out the closer of a retired idle generation, the first time only. */
    method ClosableLocked() returns (closer: Option<nat>)
      modifies this
      ensures View() == Settled(old(View())) && closer == Due(number, old(View()))
    {
      if !retired || inflight != 0 || closed || !hasCloser { return None; }
      closed := true;
      return Some(number);
    }
  }

  /** What the client factory gave for a configuration. */
  datatype Factory = Disabled | Failed | NoRunner(closer: bool) | Runner(closer: bool)

  class Service {
    var closed: bool
    var current: Generation
    var next: nat
    ghost var all: seq<Generation>

    ghost predicate Valid()
      reads this
    {
      && all != [] && current == all[|all| - 1] && next == |all| - 1
      && (forall i | 0 <= i < |all| :: all[i].number == i)
    }

    ghost function Model(): State
      reads this, all
    {
      State(seq(|all|, i requires 0 <= i < |all| reads this, all => all[i].View()), closed)
    }

    constructor ()
      ensures Valid() && fresh(all) && Model() == START
    {
      var first := new Generation(0, false);
      closed, current, next, all := false, first, 0, [first];
    }

    /** A failed reconfiguration changes nothing; a successful one publishes and retires. */
    method Reconfigure(built: Factory) returns (ok: bool, closeBuilt: bool, closer: Option<nat>)
      requires Valid()
      modifies this, all
      ensures Valid()
      ensures ok <==> (built.Disabled? || built.Runner?) && !old(closed)
      ensures !ok ==> Model() == old(Model()) && all == old(all) && closer == None
                      && closeBuilt == ((built.NoRunner? || built.Runner?) && built.closer)
      ensures ok ==> (Model(), closer) == Published(old(Model()), built.Runner? && built.closer) && !closeBuilt
      ensures ok ==> |all| == |old(all)| + 1 && all[..|old(all)|] == old(all) && fresh(all[|old(all)|])
    {
      if built.Failed? { return false, false, None; }
      if built.NoRunner? { return false, built.closer, None; }
      var hasCloser := built.Runner? && built.closer;
      if closed { return false, hasCloser, None; }
      ghost var before := Model();
      next := next + 1;
      var state := new Generation(next, hasCloser);
      var previous := current;
      previous.retired := true;
      closer := previous.ClosableLocked();
      current, all := state, all + [state];
      assert all[|all| - 2] == previous;
      assert Model().gens == Published(before, hasCloser).0.gens;
      return true, false, closer;
    }

    /** The current generation, counted as held; null once the service is closed. */
    method Acquire() returns (state: Generation?)
      requires Valid()
      modifies this, all
      ensures Valid() && all == old(all)
      ensures state == null <==> closed
      ensures state != null ==> state == current && Model() == Acquired(old(Model()))
      ensures state == null ==> Model() == old(Model())
    {
      if closed { return null; }
      ghost var before := Model();
      current.inflight := current.inflight + 1;
      assert Model().gens == Acquired(before).gens;
      return current;
    }

    method Release(state: Generation) returns (closer: Option<nat>)
      requires Valid() && state in all
      modifies all
      ensures Valid() && (Model(), closer) == Released(old(Model()), state.number)
    {
      ghost var before := Model();
      if state.inflight > 0 { state.inflight := state.inflight - 1; }
      closer := state.ClosableLocked();
      assert Model().gens == Released(before, state.number).0.gens;
    }

    method Close() returns (closer: Option<nat>)
      requires Valid()
      modifies this, all
      ensures Valid() && all == old(all) && (Model(), closer) == Closed(old(Model()))
    {
      ghost var before := Model();
      closed := true;
      current.retired := true;
      closer := current.ClosableLocked();
      assert Model().gens == Closed(before).0.gens;
    }
  }

  class Runtime {
    var active: int
    var stopped: bool

    constructor ()
      ensures active == 0 && !stopped
    {
      active, stopped := 0, false;
    }

    method Acquire() returns (ok: bool)
      modifies this
      ensures ok == !old(stopped) && stopped == old(stopped) && active == old(active) + if ok then 1 else 0
    {
      if stopped { return false; }
      active := active + 1;
      return true;
    }

    /** wake: whether the waiting shutdowns are woken. */
    method Release() returns (wake: bool)
      modifies this
      ensures active == old(active) - 1 && stopped == old(stopped) && wake == (active == 0)
    {
      active := active - 1;
      return active == 0;
    }

    /** done: whether the shutdown need not wait. */
    method Stop() returns (done: bool)
      modifies this
      ensures stopped && active == old(active) && done == (active <= 0)
    {
      if !stopped { stopped := true; }
      return !(active > 0);
    }
  }
}
