/** The deployment reconciler, one file-system update at a time. */
module Reconciler {
  import opened Common

  /** A deployment directory; complete until its removal begins. */
  datatype Deployment = Deployment(generation: nat, fingerprint: string, complete: bool)

  /** The deployment root and the two links into it. */
  datatype Files = Files(deployments: map<string, Deployment>, active: Option<string>, previous: Option<string>)

  datatype Manifest = Manifest(valid: bool, generation: nat, fingerprint: string, cli: string, plugin: string,
                               panel: string)

  datatype Removal = Removed | Damaged | Untouched

  /**
   What the world does during one call: whether all downloads check out, whether the smoke check
   passes, the directories newest first, and how far each removal gets.
   */
  datatype World = World(downloads: bool, smoke: bool, newest: seq<string>, removal: map<string, Removal>)

  /* ---------- names ---------- */

  function Id(m: Manifest): string {
    "dep-cli-" + m.cli + "-plugin-" + m.plugin + "-" + m.panel + "-g" + Decimal(m.generation)
  }

  predicate Named(name: string, generation: nat) {
    var d := Decimal(generation);
    |d| + 2 <= |name| && name[|name| - |d|..] == d && name[|name| - |d| - 1] == 'g'
  }

  lemma DigitBefore(name: string, b: string, k: nat)
    requires Digits(b) && |b| <= |name| && name[|name| - |b|..] == b
    ensures k < |b| ==> '0' <= name[|name| - k - 1] <= '9'
  {
    assert k < |b| ==> name[|name| - k - 1] == name[|name| - |b|..][|b| - k - 1];
  }

  /** The name of a deployment tells its generation. */
  lemma NameTellsGeneration(name: string, g: nat, h: nat)
    requires Named(name, g) && Named(name, h)
    ensures g == h
  {
    DecimalDigits(g);
    DecimalDigits(h);
    DigitBefore(name, Decimal(g), |Decimal(h)|);
    DigitBefore(name, Decimal(h), |Decimal(g)|);
    DecimalUnique(g, h);
  }

  lemma IdNamed(m: Manifest)
    ensures Named(Id(m), m.generation)
  {
    DecimalDigits(m.generation);
    hide Decimal;
    var front := "dep-cli-" + m.cli + "-plugin-" + m.plugin + "-" + m.panel + "-g";
    assert Id(m) == front + Decimal(m.generation);
    assert front[|front| - 1] == 'g';
  }

  /* ---------- single updates ---------- */

  function Broken(f: Files, name: string): Files {
    if name in f.deployments
    then f.(deployments := f.deployments[name := f.deployments[name].(complete := false)]) else f
  }

  function Without(f: Files, name: string): Files { f.(deployments := f.deployments - {name}) }

  /** The states a removal passes through. */
  function RemovalTrace(f: Files, name: string, how: Removal): seq<Files> {
    match how
    case Untouched => []
    case Damaged => [Broken(f, name)]
    case Removed => [Broken(f, name), Without(f, name)]
  }

  function Placed(f: Files, name: string, d: Deployment): Files { f.(deployments := f.deployments[name := d]) }

  function LastOf(f: Files, trace: seq<Files>): Files { if trace == [] then f else trace[|trace| - 1] }

  /* ---------- one call ---------- */

  datatype Decision = Reject | Noop | Deploy

  function Current(f: Files): Option<Deployment> {
    if f.active.Some? && f.active.value in f.deployments && f.deployments[f.active.value].complete
    then Some(f.deployments[f.active.value]) else None
  }

  function Decide(f: Files, m: Manifest): Decision {
    if !m.valid then Reject
    else if Current(f).None? then Deploy
    else if Current(f).value.fingerprint != "" && Current(f).value.fingerprint == m.fingerprint then Noop
    else if m.generation <= Current(f).value.generation then Reject
    else Deploy
  }

  function Fresh(m: Manifest): Deployment { Deployment(m.generation, m.fingerprint, true) }

  function StageTrace(f: Files, m: Manifest): seq<Files> {
    var id := Id(m);
    var cleared := if id in f.deployments then RemovalTrace(f, id, Removed) else [];
    cleared + [Placed(LastOf(f, cleared), id, Fresh(m))]
  }

  /** The target the active link had, if it is still there. */
  function Initial(f: Files): Option<string> {
    if f.active.Some? && f.active.value in f.deployments then f.active else None
  }

  function SwitchTrace(f: Files, initial: Option<string>, id: string): seq<Files> {
    if initial.Some? then [f.(previous := initial), f.(previous := initial, active := Some(id))]
    else [f.(active := Some(id))]
  }

  function RollbackTrace(f: Files, initial: Option<string>): seq<Files> {
    if initial.Some? then [f.(active := initial)] else []
  }

  function CleanTrace(f: Files, protected: set<string>, names: seq<string>, retained: nat, keep: int,
                      removal: map<string, Removal>): seq<Files>
    decreases |names|
  {
    if names == [] then []
    else if names[0] in protected then CleanTrace(f, protected, names[1..], retained, keep, removal)
    else if retained + 1 <= keep then CleanTrace(f, protected, names[1..], retained + 1, keep, removal)
    else
      var here := RemovalTrace(f, names[0], How(removal, names[0]));
      here + CleanTrace(LastOf(f, here), protected, names[1..], retained + 1, keep, removal)
  }

  function How(removal: map<string, Removal>, name: string): Removal {
    if name in removal then removal[name] else Removed
  }

  function Protected(initial: Option<string>, id: string): set<string> {
    {id} + if initial.Some? then {initial.value} else {}
  }

  datatype Outcome = Rejected | UpToDate | NotStaged | RolledBack | Deployed

  /** Every state of the file system during a call, in order, and how the call ends. */
  function CallTrace(f: Files, m: Manifest, w: World, keep: int): (seq<Files>, Outcome) {
    match Decide(f, m)
    case Reject => ([], Rejected)
    case Noop => ([], UpToDate)
    case Deploy =>
      if !w.downloads then ([], NotStaged)
      else
        var staged := StageTrace(f, m);
        var switched := staged + SwitchTrace(LastOf(f, staged), Initial(f), Id(m));
        var g := LastOf(f, switched);
        if !w.smoke then (switched + RollbackTrace(g, Initial(f)), RolledBack)
        else (switched + CleanTrace(g, Protected(Initial(f), Id(m)), w.newest, 0, keep, w.removal), Deployed)
  }

  function After(f: Files, m: Manifest, w: World, keep: int): Files { LastOf(f, CallTrace(f, m, w, keep).0) }

  /* ---------- safety at every step ---------- */

  /** Both links name complete deployments, the previous one not newer, and names tell generations. */
  predicate Safe(f: Files) {
    && (forall n | n in f.deployments :: Named(n, f.deployments[n].generation))
    && (f.active.Some? ==> f.active.value in f.deployments && f.deployments[f.active.value].complete)
    && (f.previous.Some? ==>
          && f.active.Some? && f.previous.value in f.deployments && f.deployments[f.previous.value].complete
          && f.deployments[f.previous.value].generation <= f.deployments[f.active.value].generation)
  }

  predicate AllSafe(trace: seq<Files>) { forall i | 0 <= i < |trace| :: Safe(trace[i]) }

  lemma JoinSafe(a: seq<Files>, b: seq<Files>)
    requires AllSafe(a) && AllSafe(b)
    ensures AllSafe(a + b)
  {
    hide Safe;
  }

  /** Removing a directory that no link names is safe all the way. */
  lemma RemovalSafe(f: Files, name: string, how: Removal)
    requires Safe(f) && f.active != Some(name) && f.previous != Some(name)
    ensures AllSafe(RemovalTrace(f, name, how)) && Safe(LastOf(f, RemovalTrace(f, name, how)))
    ensures var g := LastOf(f, RemovalTrace(f, name, how));
            && g.active == f.active && g.previous == f.previous
            && (forall n | n in f.deployments && n != name ::
                  n in g.deployments && g.deployments[n] == f.deployments[n])
            && (forall n | n in g.deployments && n != name :: n in f.deployments)
            && (name in g.deployments ==> name in f.deployments && how != Removed)
  {
    hide Named;
  }

  /** A new generation is staged under a name that neither link uses. */
  lemma StageSafe(f: Files, m: Manifest)
    requires Safe(f) && Decide(f, m).Deploy?
    ensures f.active != Some(Id(m)) && f.previous != Some(Id(m))
    ensures AllSafe(StageTrace(f, m))
    ensures var g := LastOf(f, StageTrace(f, m));
            && Safe(g) && g.active == f.active && g.previous == f.previous
            && g.deployments == f.deployments[Id(m) := Fresh(m)]
  {
    var id := Id(m);
    IdNamed(m);
    if f.active.Some? && f.active.value == id { NameTellsGeneration(id, m.generation, f.deployments[id].generation); }
    if f.previous.Some? && f.previous.value == id {
      NameTellsGeneration(id, m.generation, f.deployments[id].generation);
    }
    hide Named, Id;
    if id in f.deployments {
      RemovalSafe(f, id, Removed);
      assert f.deployments - {id} == LastOf(f, RemovalTrace(f, id, Removed)).deployments;
      assert (f.deployments - {id})[id := Fresh(m)] == f.deployments[id := Fresh(m)];
    }
  }

  lemma SwitchSafe(f: Files, id: string, initial: Option<string>)
    requires Safe(f) && id in f.deployments && f.deployments[id].complete && initial == f.active
    requires initial.Some? ==> f.deployments[initial.value].generation <= f.deployments[id].generation
    ensures AllSafe(SwitchTrace(f, initial, id))
    ensures var g := LastOf(f, SwitchTrace(f, initial, id));
            && Safe(g) && g.deployments == f.deployments && g.active == Some(id)
            && g.previous == if initial.Some? then initial else f.previous
  {
    hide Named;
  }

  lemma {:induction false} CleanSafe(f: Files, protected: set<string>, names: seq<string>, retained: nat, keep: int,
                                     removal: map<string, Removal>)
    requires Safe(f) && (f.active.Some? ==> f.active.value in protected)
             && (f.previous.Some? ==> f.previous.value in protected)
    ensures AllSafe(CleanTrace(f, protected, names, retained, keep, removal))
    ensures var g := LastOf(f, CleanTrace(f, protected, names, retained, keep, removal));
            && Safe(g) && g.active == f.active && g.previous == f.previous
            && (forall n | n in f.deployments && n in protected ::
                  n in g.deployments && g.deployments[n] == f.deployments[n])
            && g.deployments.Keys <= f.deployments.Keys
    decreases |names|
  {
    hide Safe, AllSafe, RemovalTrace, How;
    if names == [] {
      NothingSafe();
    } else if names[0] in protected {
      CleanSafe(f, protected, names[1..], retained, keep, removal);
    } else if retained + 1 <= keep {
      CleanSafe(f, protected, names[1..], retained + 1, keep, removal);
    } else {
      var here := RemovalTrace(f, names[0], How(removal, names[0]));
      RemovalSafe(f, names[0], How(removal, names[0]));
      var rest := CleanTrace(LastOf(f, here), protected, names[1..], retained + 1, keep, removal);
      CleanSafe(LastOf(f, here), protected, names[1..], retained + 1, keep, removal);
      JoinSafe(here, rest);
      assert LastOf(f, here + rest) == LastOf(LastOf(f, here), rest);
    }
  }

  lemma NothingSafe()
    ensures AllSafe([])
  {
  }

  lemma CurrentIsActive(f: Files)
    requires Safe(f)
    ensures Initial(f) == f.active && Current(f) == if f.active.Some? then Some(f.deployments[f.active.value]) else None
  {
    hide Named;
  }

  /**
   From a safe state every intermediate state of a call is safe, whatever the world does, and:
   a call that is refused or not staged changes nothing; a failed smoke check leaves the initial
   target active if there was one; a successful call activates the new generation and keeps the
   old target as the previous one.
   */
  lemma CallSafe(f: Files, m: Manifest, w: World, keep: int)
    requires Safe(f)
    ensures var (trace, outcome) := CallTrace(f, m, w, keep);
            var g := After(f, m, w, keep);
            && AllSafe(trace) && Safe(g)
            && (outcome.Rejected? || outcome.UpToDate? || outcome.NotStaged? ==> g == f)
            && (outcome.RolledBack? && f.active.Some? ==>
                  g.active == f.active && g.previous == f.active
                  && g.deployments[f.active.value] == f.deployments[f.active.value])
            && (outcome.RolledBack? && f.active.None? ==> g.active == Some(Id(m)))
            && (outcome.Deployed? ==>
                  g.active == Some(Id(m)) && g.deployments[Id(m)] == Fresh(m)
                  && g.previous == if f.active.Some? then f.active else f.previous)
  {
    CurrentIsActive(f);
    NothingSafe();
    if Decide(f, m).Deploy? && w.downloads {
      hide Safe, AllSafe, Id, StageTrace, SwitchTrace, CleanTrace, RollbackTrace, Named;
      StageSafe(f, m);
      var staged := StageTrace(f, m);
      var f1 := LastOf(f, staged);
      InitialKept(f, m);
      var switch := SwitchTrace(f1, f.active, Id(m));
      SwitchSafe(f1, Id(m), f.active);
      JoinSafe(staged, switch);
      LastJoin(f, staged, switch);
      var g := LastOf(f1, switch);
      if w.smoke {
        SafeLinks(g);
        var clean := CleanTrace(g, Protected(f.active, Id(m)), w.newest, 0, keep, w.removal);
        SafeNoPrevious(f);
        CleanSafe(g, Protected(f.active, Id(m)), w.newest, 0, keep, w.removal);
        JoinSafe(staged + switch, clean);
        LastJoin(f, staged + switch, clean);
      } else {
        RollbackSafe(g, f.active);
        JoinSafe(staged + switch, RollbackTrace(g, f.active));
        LastJoin(f, staged + switch, RollbackTrace(g, f.active));
      }
    }
  }

  /** The active deployment's fingerprint, when it has one, is the manifest's. */
  predicate SameFingerprint(f: Files, m: Manifest)
    requires f.active.Some? ==> f.active.value in f.deployments
  {
    f.active.Some? && f.deployments[f.active.value].fingerprint == m.fingerprint != ""
  }

  /** The manifest is newer than what is active, if anything is. */
  predicate NewerThan(f: Files, m: Manifest)
    requires f.active.Some? ==> f.active.value in f.deployments
  {
    f.active.Some? ==> f.deployments[f.active.value].generation < m.generation
  }

  /**
   How a call ends and what it leaves, by what was active, the manifest and what the world did. A
   manifest is deployed if and only if it is valid, has another fingerprint and is newer, the
   downloads check out, and the smoke check passes; when only that fails the old target is back,
   unless there was none.
   */
  lemma CallExact(f: Files, m: Manifest, w: World, keep: int)
    requires Safe(f)
    ensures var (_, outcome) := CallTrace(f, m, w, keep);
            var g := After(f, m, w, keep);
            && (outcome == UpToDate <==> m.valid && SameFingerprint(f, m))
            && (outcome == Rejected <==> !m.valid || (!SameFingerprint(f, m) && !NewerThan(f, m)))
            && (outcome.Rejected? || outcome.UpToDate? ==> g == f)
            && (m.valid && !SameFingerprint(f, m) && NewerThan(f, m) ==>
                  && (!w.downloads ==> outcome == NotStaged && g == f)
                  && (w.downloads && !w.smoke ==>
                        && outcome == RolledBack
                        && g.active == (if f.active.Some? then f.active else Some(Id(m)))
                        && g.previous == f.active
                        && g.deployments == f.deployments[Id(m) := Deployment(m.generation, m.fingerprint, true)])
                  && (w.downloads && w.smoke ==>
                        && outcome == Deployed
                        && g.active == Some(Id(m)) && g.previous == f.active
                        && Id(m) in g.deployments
                        && g.deployments[Id(m)] == Deployment(m.generation, m.fingerprint, true)))
  {
    hide Safe, Decide, CallTrace, StageTrace, SwitchTrace, CleanTrace, RollbackTrace, Id, Named, AllSafe, After, LastOf;
    SafeLinks(f);
    SafeNoPrevious(f);
    CallSafe(f, m, w, keep);
    DecideExact(f, m);
    OutcomeOf(f, m, w, keep);
    SafeLinks(After(f, m, w, keep));
    if Decide(f, m).Deploy? && w.downloads && !w.smoke { CallDeployments(f, m, w, keep); }
  }

  lemma DecideExact(f: Files, m: Manifest)
    requires Safe(f) && (f.active.Some? ==> f.active.value in f.deployments)
    ensures Decide(f, m).Noop? <==> m.valid && SameFingerprint(f, m)
    ensures Decide(f, m).Deploy? <==> m.valid && !SameFingerprint(f, m) && NewerThan(f, m)
  {
    hide Safe;
    CurrentIsActive(f);
  }

  lemma OutcomeOf(f: Files, m: Manifest, w: World, keep: int)
    ensures var outcome := CallTrace(f, m, w, keep).1;
            && (outcome.Rejected? <==> Decide(f, m).Reject?) && (outcome.UpToDate? <==> Decide(f, m).Noop?)
            && (outcome.NotStaged? <==> Decide(f, m).Deploy? && !w.downloads)
            && (outcome.RolledBack? <==> Decide(f, m).Deploy? && w.downloads && !w.smoke)
            && (outcome.Deployed? <==> Decide(f, m).Deploy? && w.downloads && w.smoke)
  {
    hide Decide, StageTrace, SwitchTrace, CleanTrace, RollbackTrace, Id, LastOf;
  }

  lemma CallDeployments(f: Files, m: Manifest, w: World, keep: int)
    requires Safe(f) && Decide(f, m).Deploy? && w.downloads
    ensures var staged := f.deployments[Id(m) := Fresh(m)];
            var g := f.(deployments := staged, active := Some(Id(m)),
                        previous := if f.active.Some? then f.active else f.previous);
            After(f, m, w, keep)
            == if w.smoke then LastOf(g, CleanTrace(g, Protected(f.active, Id(m)), w.newest, 0, keep, w.removal))
               else if f.active.Some? then g.(active := f.active) else g
  {
    CurrentIsActive(f);
    hide Safe, AllSafe, Id, StageTrace, SwitchTrace, CleanTrace, RollbackTrace, Named, Protected;
    StageSafe(f, m);
    InitialKept(f, m);
    var staged := StageTrace(f, m);
    var f1 := LastOf(f, staged);
    var switch := SwitchTrace(f1, f.active, Id(m));
    SwitchSafe(f1, Id(m), f.active);
    LastJoin(f, staged, switch);
    var g := LastOf(f1, switch);
    if w.smoke {
      LastJoin(f, staged + switch, CleanTrace(g, Protected(f.active, Id(m)), w.newest, 0, keep, w.removal));
    } else {
      SafeLinks(g);
      RollbackSafe(g, f.active);
      LastJoin(f, staged + switch, RollbackTrace(g, f.active));
    }
  }

  /**
   What is on disk after a deployment whose removals succeed: the new one, and of the old ones the
   one that was active and the newest others, as many as configured.
   */
  lemma DeployedCleans(f: Files, m: Manifest, w: World, keep: int)
    requires Safe(f) && CallTrace(f, m, w, keep).1.Deployed? && forall n | n in w.removal :: w.removal[n] == Removed
    ensures var others := Unprotected(w.newest, {Id(m)} + if f.active.Some? then {f.active.value} else {});
            var room := if keep > 0 then keep else 0;
            After(f, m, w, keep).deployments
            == f.deployments[Id(m) := Deployment(m.generation, m.fingerprint, true)]
               - if room < |others| then Members(others[room..]) else {}
  {
    CurrentIsActive(f);
    OutcomeOf(f, m, w, keep);
    CallDeployments(f, m, w, keep);
    hide Safe, Id, StageTrace, SwitchTrace, CleanTrace, RollbackTrace, Named, CallTrace, After, LastOf, Members;
    var g := f.(deployments := f.deployments[Id(m) := Fresh(m)], active := Some(Id(m)),
                previous := if f.active.Some? then f.active else f.previous);
    CleanExact(g, Protected(f.active, Id(m)), w.newest, 0, keep, w.removal);
  }

  lemma LastJoin(f: Files, a: seq<Files>, b: seq<Files>)
    ensures LastOf(f, a + b) == LastOf(LastOf(f, a), b)
  {
  }

  lemma SafeLinks(f: Files)
    requires Safe(f)
    ensures f.active.Some? ==> f.active.value in f.deployments
    ensures f.previous.Some? ==> f.active.Some?
  {
    hide Named;
  }

  lemma SafeNoPrevious(f: Files)
    requires Safe(f)
    ensures f.active.None? ==> f.previous.None?
  {
  }

  /** The target that was active is still there after staging, and is older. */
  lemma InitialKept(f: Files, m: Manifest)
    requires Safe(f) && Decide(f, m).Deploy? && f.active != Some(Id(m))
    ensures var g := f.deployments[Id(m) := Fresh(m)];
            f.active.Some? ==> f.active.value in g && g[f.active.value] == f.deployments[f.active.value]
                               && g[f.active.value].generation < m.generation
  {
    hide Named, Id;
  }

  lemma RollbackSafe(g: Files, initial: Option<string>)
    requires Safe(g)
    requires initial.Some?
             ==> initial.value in g.deployments && g.deployments[initial.value].complete && g.previous == initial
    ensures AllSafe(RollbackTrace(g, initial))
    ensures LastOf(g, RollbackTrace(g, initial)) == if initial.Some? then g.(active := initial) else g
    ensures Safe(LastOf(g, RollbackTrace(g, initial)))
  {
    hide Named;
  }

  /** The generation of the active deployment, 0 when there is none. */
  function ActiveGeneration(f: Files): nat {
    if f.active.Some? && f.active.value in f.deployments then f.deployments[f.active.value].generation else 0
  }

  /** No call lowers the active generation, whatever happens during it. */
  lemma NeverLower(f: Files, m: Manifest, w: World, keep: int)
    requires Safe(f)
    ensures ActiveGeneration(f) <= ActiveGeneration(After(f, m, w, keep))
  {
    CallSafe(f, m, w, keep);
    hide Safe, CallTrace, After, Id;
    CurrentIsActive(f);
    if CallTrace(f, m, w, keep).1.Deployed? { DeployedIsNewer(f, m, w, keep); }
  }

  lemma DeployedIsNewer(f: Files, m: Manifest, w: World, keep: int)
    requires Safe(f) && CallTrace(f, m, w, keep).1.Deployed?
    ensures f.active.Some? ==> ActiveGeneration(f) < m.generation
  {
    CurrentIsActive(f);
    hide Named, StageTrace, SwitchTrace, CleanTrace;
  }

  /* ---------- what cleaning keeps ---------- */

  function Unprotected(names: seq<string>, protected: set<string>): seq<string> {
    if names == [] then []
    else (if names[0] in protected then [] else [names[0]]) + Unprotected(names[1..], protected)
  }

  function Members(s: seq<string>): set<string> { set x | x in s }

  /** When removals succeed, exactly the unprotected deployments beyond the newest few go. */
  lemma {:induction false} CleanExact(f: Files, protected: set<string>, names: seq<string>, retained: nat, keep: int,
                                      removal: map<string, Removal>)
    requires forall n | n in removal :: removal[n] == Removed
    ensures var g := LastOf(f, CleanTrace(f, protected, names, retained, keep, removal));
            var u := Unprotected(names, protected);
            var room := if retained <= keep then keep - retained else 0;
            g.deployments == f.deployments - if room < |u| then Members(u[room..]) else {}
    decreases |names|
  {
    hide RemovalTrace, How, Members, LastOf;
    NothingLast(f);
    var u, room := Unprotected(names, protected), if retained <= keep then keep - retained else 0;
    if names == [] {
      assert f.deployments - {} == f.deployments;
    } else if names[0] in protected {
      assert u == Unprotected(names[1..], protected);
      CleanExact(f, protected, names[1..], retained, keep, removal);
    } else {
      var v := Unprotected(names[1..], protected);
      assert u == [names[0]] + v;
      if retained + 1 <= keep {
        CleanExact(f, protected, names[1..], retained + 1, keep, removal);
        assert room < |u| ==> u[room..] == v[room - 1..];
      } else {
        var here := RemovalTrace(f, names[0], How(removal, names[0]));
        WholeRemoval(f, names[0], removal);
        CleanExact(LastOf(f, here), protected, names[1..], retained + 1, keep, removal);
        LastJoin(f, here, CleanTrace(LastOf(f, here), protected, names[1..], retained + 1, keep, removal));
        assert u[0..] == u && v[0..] == v;
        MembersStep(names[0], v);
        assert f.deployments - {names[0]} - Members(v) == f.deployments - Members(u);
      }
    }
  }

  lemma NothingLast(f: Files)
    ensures LastOf(f, []) == f
  {
  }

  lemma MembersStep(x: string, v: seq<string>)
    ensures Members([x] + v) == {x} + Members(v)
    ensures v == [] ==> Members(v) == {}
  {
  }

  lemma WholeRemoval(f: Files, name: string, removal: map<string, Removal>)
    requires forall n | n in removal :: removal[n] == Removed
    ensures LastOf(f, RemovalTrace(f, name, How(removal, name))).deployments == f.deployments - {name}
  {
    assert Broken(f, name).deployments - {name} == f.deployments - {name};
  }

  lemma {:induction false} UnprotectedMembers(names: seq<string>, protected: set<string>, x: string)
    ensures x in Unprotected(names, protected) <==> x in names && x !in protected
  {
    if names != [] { UnprotectedMembers(names[1..], protected, x); }
  }

  lemma {:induction false} MembersSize(s: seq<string>)
    ensures |Members(s)| <= |s|
  {
    if s != [] {
      MembersSize(s[1..]);
      assert s == [s[0]] + s[1..];
      MembersStep(s[0], s[1..]);
    } else {
      assert Members(s) == {};
    }
  }

  /** With every directory listed and every removal whole, at most keep others stay beside the protected ones. */
  lemma CleanBound(f: Files, protected: set<string>, names: seq<string>, keep: int, removal: map<string, Removal>)
    requires (forall n | n in removal :: removal[n] == Removed) && forall n | n in f.deployments :: n in names
    ensures var g := LastOf(f, CleanTrace(f, protected, names, 0, keep, removal));
            |g.deployments.Keys - protected| <= if keep > 0 then keep else 0
  {
    CleanExact(f, protected, names, 0, keep, removal);
    hide CleanTrace, LastOf;
    var g := LastOf(f, CleanTrace(f, protected, names, 0, keep, removal));
    var u, room := Unprotected(names, protected), if keep > 0 then keep else 0;
    var kept := if room < |u| then u[..room] else u;
    forall x | x in g.deployments.Keys - protected ensures x in Members(kept) {
      UnprotectedMembers(names, protected, x);
      if room < |u| { assert u == u[..room] + u[room..]; }
    }
    SubsetSize(g.deployments.Keys - protected, Members(kept));
    MembersSize(kept);
  }

  /* ---------- many calls, each of which may be killed at any step ---------- */

  /** In every state of the trace the active generation is at least n. */
  predicate AllAtLeast(trace: seq<Files>, n: nat) { forall i | 0 <= i < |trace| :: n <= ActiveGeneration(trace[i]) }

  lemma JoinAtLeast(a: seq<Files>, b: seq<Files>, n: nat)
    requires AllAtLeast(a, n) && AllAtLeast(b, n)
    ensures AllAtLeast(a + b, n)
  {
    hide ActiveGeneration;
  }

  lemma RemovalLevel(f: Files, name: string, how: Removal)
    requires f.active != Some(name)
    ensures AllAtLeast(RemovalTrace(f, name, how), ActiveGeneration(f))
    ensures var g := LastOf(f, RemovalTrace(f, name, how));
            g.active == f.active && ActiveGeneration(g) == ActiveGeneration(f)
  {
  }

  lemma StageLevel(f: Files, m: Manifest)
    requires Safe(f) && Decide(f, m).Deploy?
    ensures AllAtLeast(StageTrace(f, m), ActiveGeneration(f))
    ensures ActiveGeneration(LastOf(f, StageTrace(f, m))) == ActiveGeneration(f)
  {
    StageSafe(f, m);
    hide Safe, Id, Named;
    var id := Id(m);
    RemovalLevel(f, id, Removed);
    var cleared := if id in f.deployments then RemovalTrace(f, id, Removed) else [];
    var g := LastOf(f, cleared);
    hide RemovalTrace;
    assert StageTrace(f, m) == cleared + [Placed(g, id, Fresh(m))];
    JoinAtLeast(cleared, [Placed(g, id, Fresh(m))], ActiveGeneration(f));
  }

  lemma SwitchLevel(f: Files, initial: Option<string>, id: string, n: nat)
    requires n <= ActiveGeneration(f) && id in f.deployments && n <= f.deployments[id].generation
    ensures AllAtLeast(SwitchTrace(f, initial, id), n)
  {
  }

  lemma {:induction false} CleanLevel(f: Files, protected: set<string>, names: seq<string>, retained: nat, keep: int,
                                      removal: map<string, Removal>)
    requires f.active.Some? ==> f.active.value in protected
    ensures AllAtLeast(CleanTrace(f, protected, names, retained, keep, removal), ActiveGeneration(f))
    decreases |names|
  {
    hide AllAtLeast, RemovalTrace, How, ActiveGeneration;
    if names == [] {
      NothingAtLeast(ActiveGeneration(f));
    } else if names[0] in protected {
      CleanLevel(f, protected, names[1..], retained, keep, removal);
    } else if retained + 1 <= keep {
      CleanLevel(f, protected, names[1..], retained + 1, keep, removal);
    } else {
      var here := RemovalTrace(f, names[0], How(removal, names[0]));
      RemovalLevel(f, names[0], How(removal, names[0]));
      CleanLevel(LastOf(f, here), protected, names[1..], retained + 1, keep, removal);
      JoinAtLeast(here, CleanTrace(LastOf(f, here), protected, names[1..], retained + 1, keep, removal),
                  ActiveGeneration(f));
    }
  }

  lemma NothingAtLeast(n: nat)
    ensures AllAtLeast([], n)
  {
  }

  /** In no state of a call is the active generation lower than before it. */
  lemma NeverLowerBetween(f: Files, m: Manifest, w: World, keep: int)
    requires Safe(f)
    ensures AllAtLeast(CallTrace(f, m, w, keep).0, ActiveGeneration(f))
  {
    NothingAtLeast(ActiveGeneration(f));
    CurrentIsActive(f);
    if Decide(f, m).Deploy? && w.downloads {
      var n, id := ActiveGeneration(f), Id(m);
      StageSafe(f, m);
      NewerIsHigher(f, m);
      hide Safe, AllAtLeast, Id, StageTrace, CleanTrace, Named, ActiveGeneration;
      var staged := StageTrace(f, m);
      var f1 := LastOf(f, staged);
      StageLevel(f, m);
      SwitchLevel(f1, f.active, id, n);
      var switch := SwitchTrace(f1, f.active, id);
      JoinAtLeast(staged, switch, n);
      LastJoin(f, staged, switch);
      var g := LastOf(f1, switch);
      ActiveIs(g);
      ActiveIs(f1);
      if w.smoke {
        CleanLevel(g, Protected(f.active, id), w.newest, 0, keep, w.removal);
        var clean := CleanTrace(g, Protected(f.active, id), w.newest, 0, keep, w.removal);
        AtLeastLess(clean, ActiveGeneration(g), n);
        JoinAtLeast(staged + switch, clean, n);
      } else {
        ActiveIs(g.(active := f.active));
        RollbackLevel(g, f.active, n);
        JoinAtLeast(staged + switch, RollbackTrace(g, f.active), n);
      }
    }
  }

  lemma NewerIsHigher(f: Files, m: Manifest)
    requires Safe(f) && Decide(f, m).Deploy?
    ensures ActiveGeneration(f) <= m.generation
  {
    CurrentIsActive(f);
    hide Named;
  }

  lemma ActiveIs(f: Files)
    ensures f.active.Some? && f.active.value in f.deployments
            ==> ActiveGeneration(f) == f.deployments[f.active.value].generation
    ensures f.active.None? ==> ActiveGeneration(f) == 0
  {
  }

  lemma RollbackLevel(g: Files, initial: Option<string>, n: nat)
    requires initial.Some? ==> n <= ActiveGeneration(g.(active := initial))
    ensures AllAtLeast(RollbackTrace(g, initial), n)
  {
  }

  lemma AtLeastLess(trace: seq<Files>, k: nat, n: nat)
    requires AllAtLeast(trace, k) && n <= k
    ensures AllAtLeast(trace, n)
  {
    hide ActiveGeneration;
  }

  /** One call that is killed after this many file-system updates, or runs to its end. */
  datatype Attempt = Attempt(m: Manifest, w: World, updates: Option<nat>)

  function Attempted(f: Files, a: Attempt, keep: int): Files {
    var trace := CallTrace(f, a.m, a.w, keep).0;
    if a.updates.Some? && a.updates.value <= |trace| then LastOf(f, trace[..a.updates.value]) else LastOf(f, trace)
  }

  function Attempts(f: Files, calls: seq<Attempt>, keep: int): Files {
    if calls == [] then f else Attempted(Attempts(f, calls[..|calls| - 1], keep), calls[|calls| - 1], keep)
  }

  const EMPTY: Files := Files(map[], None, None)

  lemma AttemptSafe(f: Files, a: Attempt, keep: int)
    requires Safe(f)
    ensures Safe(Attempted(f, a, keep)) && ActiveGeneration(f) <= ActiveGeneration(Attempted(f, a, keep))
  {
    CallSafe(f, a.m, a.w, keep);
    NeverLowerBetween(f, a.m, a.w, keep);
    hide Safe, CallTrace, ActiveGeneration;
  }

  /**
   From nothing, after any calls, each killed at any step or not: both links name complete
   deployments, and no call has lowered the active generation.
   */
  lemma {:induction false} RunsSafe(calls: seq<Attempt>, keep: int)
    ensures Safe(Attempts(EMPTY, calls, keep))
    ensures forall k | 0 <= k <= |calls| ::
              ActiveGeneration(Attempts(EMPTY, calls[..k], keep)) <= ActiveGeneration(Attempts(EMPTY, calls, keep))
  {
    hide Safe, Attempted, ActiveGeneration, Named;
    EmptySafe();
    if calls == [] {
      assert forall k | 0 <= k <= |calls| :: calls[..k] == [];
    } else {
      var front := calls[..|calls| - 1];
      RunsSafe(front, keep);
      AttemptSafe(Attempts(EMPTY, front, keep), calls[|calls| - 1], keep);
      forall k | 0 <= k <= |calls|
        ensures ActiveGeneration(Attempts(EMPTY, calls[..k], keep)) <= ActiveGeneration(Attempts(EMPTY, calls, keep))
      {
        if k < |calls| { assert front[..k] == calls[..k]; } else { assert calls[..k] == calls; }
      }
    }
  }

  lemma EmptySafe()
    ensures Safe(EMPTY)
  {
  }
}
