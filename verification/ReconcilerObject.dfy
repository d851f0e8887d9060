/** The reconciler as it acts on the file system; the ghost trace holds every state it leaves behind. */
module ReconcilerObject {
  import opened Common
  import opened Reconciler

  class FileSystem {
    var files: Files
    ghost var trace: seq<Files>

    constructor (files: Files)
      ensures this.files == files && trace == []
    {
      this.files, trace := files, [];
    }

    method SetActive(target: string)
      modifies this
      ensures files == old(files).(active := Some(target)) && trace == old(trace) + [files]
    {
      files := files.(active := Some(target));
      trace := trace + [files];
    }

    method SetPrevious(target: string)
      modifies this
      ensures files == old(files).(previous := Some(target)) && trace == old(trace) + [files]
    {
      files := files.(previous := Some(target));
      trace := trace + [files];
    }

    method Place(name: string, d: Deployment)
      modifies this
      ensures files == Placed(old(files), name, d) && trace == old(trace) + [files]
    {
      files := files.(deployments := files.deployments[name := d]);
      trace := trace + [files];
    }

    /** A directory is first damaged and then gone; either step may fail. */
    method RemoveTree(name: string, how: Removal)
      modifies this
      ensures trace == old(trace) + RemovalTrace(old(files), name, how)
      ensures files == LastOf(old(files), RemovalTrace(old(files), name, how))
    {
      if how.Untouched? { return; }
      if name in files.deployments {
        files := files.(deployments := files.deployments[name := files.deployments[name].(complete := false)]);
      }
      trace := trace + [files];
      if how.Damaged? { return; }
      files := files.(deployments := files.deployments - {name});
      trace := trace + [files];
      assert Without(Broken(old(files), name), name) == Without(old(files), name);
    }

    method Cleanup(protected: set<string>, newest: seq<string>, keep: int, removal: map<string, Removal>)
      modifies this
      ensures trace == old(trace) + CleanTrace(old(files), protected, newest, 0, keep, removal)
      ensures files == LastOf(old(files), CleanTrace(old(files), protected, newest, 0, keep, removal))
    {
      var retained := 0;
      var i := 0;
      ghost var all := CleanTrace(files, protected, newest, 0, keep, removal);
      ghost var done: seq<Files> := [];
      assert newest[0..] == newest;
      hide RemovalTrace, How;
      while i < |newest|
        invariant i <= |newest|
        invariant trace == old(trace) + done && files == LastOf(old(files), done)
        invariant all == done + CleanTrace(files, protected, newest[i..], retained, keep, removal)
      {
        var name := newest[i];
        assert newest[i..][0] == name && newest[i..][1..] == newest[i + 1..];
        i := i + 1;
        if name in protected { continue; }
        retained := retained + 1;
        if retained > keep {
          ghost var here := RemovalTrace(files, name, How(removal, name));
          LastJoin(old(files), done, here);
          RemoveTree(name, if name in removal then removal[name] else Removed);
          assert How(removal, name) == if name in removal then removal[name] else Removed;
          done := done + here;
        }
      }
      assert newest[i..] == [];
    }
  }

  /** Puts the staged directory in place, replacing an old one of that name. */
  method Stage(fs: FileSystem, m: Manifest)
    modifies fs
    ensures fs.trace == old(fs.trace) + StageTrace(old(fs.files), m)
            && fs.files == LastOf(old(fs.files), StageTrace(old(fs.files), m))
  {
    hide Id, RemovalTrace;
    var id := Id(m);
    if id in fs.files.deployments { fs.RemoveTree(id, Removed); }
    fs.Place(id, Fresh(m));
  }

  method Switch(fs: FileSystem, initial: Option<string>, id: string)
    modifies fs
    ensures fs.trace == old(fs.trace) + SwitchTrace(old(fs.files), initial, id)
    ensures fs.files == LastOf(old(fs.files), SwitchTrace(old(fs.files), initial, id))
  {
    if initial.Some? { fs.SetPrevious(initial.value); }
    fs.SetActive(id);
  }

  method Rollback(fs: FileSystem, initial: Option<string>)
    modifies fs
    ensures fs.trace == old(fs.trace) + RollbackTrace(old(fs.files), initial)
    ensures fs.files == LastOf(old(fs.files), RollbackTrace(old(fs.files), initial))
  {
    if initial.Some? { fs.SetActive(initial.value); }
  }

  /** One call; the file system goes through exactly the states of the call's trace. */
  method Reconcile(fs: FileSystem, m: Manifest, w: World, keep: int) returns (outcome: Outcome)
    modifies fs
    ensures outcome == CallTrace(old(fs.files), m, w, keep).1
    ensures fs.trace == old(fs.trace) + CallTrace(old(fs.files), m, w, keep).0
    ensures fs.files == After(old(fs.files), m, w, keep)
  {
    hide Id, Decide, StageTrace, SwitchTrace, RollbackTrace, CleanTrace, Protected, Initial;
    ghost var f, t := fs.files, fs.trace;
    assert fs.trace == fs.trace + [];
    var decision := Decide(fs.files, m);
    if decision.Reject? { return Rejected; }
    if decision.Noop? { return UpToDate; }
    var initial := Initial(fs.files);
    if !w.downloads { return NotStaged; }
    var id := Id(m);
    Stage(fs, m);
    ghost var staged := StageTrace(f, m);
    Switch(fs, initial, id);
    ghost var switch := SwitchTrace(LastOf(f, staged), initial, id);
    LastJoin(f, staged, switch);
    assert fs.trace == t + (staged + switch);
    ghost var g := fs.files;
    if !w.smoke {
      Rollback(fs, initial);
      LastJoin(f, staged + switch, RollbackTrace(g, initial));
      assert fs.trace == t + (staged + switch + RollbackTrace(g, initial));
      return RolledBack;
    }
    fs.Cleanup(Protected(initial, id), w.newest, keep, w.removal);
    ghost var clean := CleanTrace(g, Protected(initial, id), w.newest, 0, keep, w.removal);
    LastJoin(f, staged + switch, clean);
    assert fs.trace == t + (staged + switch + clean);
    return Deployed;
  }
}
