/**
 Documents that differ in texts only: strings under the names that hold text. Nothing that is
 looked up to recognize a payload can tell them apart.
 */
module JsonAlike {
  import opened JsonText
  import opened JsonTree
  import opened JsonEdit
  import opened JsonQuery
  import opened JsonPaths

  /** The names under which texts are changed. */
  predicate TextName(name: string) {
    || name == "content" || name == "text" || name == "output" || name == "result"
    || name == "system" || name == "instructions"
  }

  /** An item whose own string may differ. */
  predicate FreeItem(j: Json, i: nat)
    requires i < |Items(j)|
  {
    j.Obj? && j.items[i].key.Named? && TextName(Decode(j.items[i].key.name))
  }

  /** The same but for strings under such names; free: b's own string may differ from a's. */
  predicate Alike(a: Json, b: Json, free: bool)
    decreases a
  {
    match a
    case Lit(_) => a == b
    case Str(_) => b.Str? && (free || a == b)
    case _ =>
      && a.Arr? == b.Arr? && a.Obj? == b.Obj? && |a.items| == |Items(b)|
      && forall i | 0 <= i < |a.items| ::
           a.items[i].key == b.items[i].key && Alike(a.items[i].value, b.items[i].value, FreeItem(a, i))
  }

  predicate FreeAt(j: Json, p: Path, free: bool)
    requires HasPath(j, p)
    decreases |p|
  {
    if p == [] then free else FreeAt(Items(j)[p[0]].value, p[1..], FreeItem(j, p[0]))
  }

  lemma {:induction false} AlikeSame(j: Json, free: bool)
    ensures Alike(j, j, free)
    decreases j
  {
    hide FreeItem;
    forall i | 0 <= i < |Items(j)| ensures Alike(Items(j)[i].value, Items(j)[i].value, FreeItem(j, i)) {
      AlikeSame(Items(j)[i].value, FreeItem(j, i));
    }
  }

  lemma {:induction false} AlikeTrans(a: Json, b: Json, c: Json, free: bool)
    requires Alike(a, b, free) && Alike(b, c, free)
    ensures Alike(a, c, free)
    decreases a
  {
    forall i | 0 <= i < |Items(a)| ensures Alike(Items(a)[i].value, Items(c)[i].value, FreeItem(a, i)) {
      assert FreeItem(a, i) == FreeItem(b, i);
      hide FreeItem;
      AlikeTrans(Items(a)[i].value, Items(b)[i].value, Items(c)[i].value, FreeItem(a, i));
    }
    hide FreeItem;
  }

  /** Another text in a place for text. */
  lemma {:induction false} PutAlike(j: Json, p: Path, r: string, free: bool)
    requires HasPath(j, p) && At(j, p).Str? && FreeAt(j, p, free)
    ensures Alike(j, Put(j, p, Str(r)), free)
    decreases |p|
  {
    hide FreeItem;
    if p != [] {
      var k := p[0];
      PutAlike(Items(j)[k].value, p[1..], r, FreeItem(j, k));
      forall i | 0 <= i < |Items(j)| && i != k ensures Alike(Items(j)[i].value, Items(j)[i].value, FreeItem(j, i)) {
        AlikeSame(Items(j)[i].value, FreeItem(j, i));
      }
    }
  }

  lemma {:induction false} AlikeAt(a: Json, b: Json, free: bool, p: Path)
    requires Alike(a, b, free) && HasPath(a, p)
    ensures HasPath(b, p) && Alike(At(a, p), At(b, p), FreeAt(a, p, free)) && FreeAt(b, p, free) == FreeAt(a, p, free)
    decreases |p|
  {
    if p != [] {
      assert FreeItem(a, p[0]) == FreeItem(b, p[0]);
      hide FreeItem;
      AlikeAt(Items(a)[p[0]].value, Items(b)[p[0]].value, FreeItem(a, p[0]), p[1..]);
    }
  }

  lemma {:induction false} PutAllAlike(j: Json, es: seq<Edit>)
    requires EditsFit(j, es)
    requires forall e | e in es :: e.value.Str? && At(j, e.path).Str? && FreeAt(j, e.path, false)
    ensures Alike(j, PutAll(j, es), false)
    decreases |es|
  {
    hide Alike, FreeAt, HasPath, At, Put, Lt;
    if es == [] {
      AlikeSame(j, false);
    } else {
      var e, front := es[|es| - 1], es[..|es| - 1];
      var k := Put(j, e.path, e.value);
      PutAlike(j, e.path, e.value.raw, false);
      EditsFitPut(j, es);
      forall f | f in front ensures At(k, f.path).Str? && FreeAt(k, f.path, false) {
        PutOther(j, f.path, e.path, e.value);
        AlikeAt(j, k, false, f.path);
      }
      PutAllAlike(k, front);
      AlikeTrans(j, k, PutAll(j, es), false);
    }
  }

  /* ---------- lookups ---------- */

  lemma {:induction false} AlikeLookup(a: Json, b: Json, free: bool, segs: Segs)
    requires Alike(a, b, free)
    ensures Lookup(a, segs) == Lookup(b, segs)
    decreases |segs|, 1, 0
  {
    hide FreeItem;
    if segs != [] { AlikeFrom(a, b, free, segs, 0); }
  }

  lemma {:induction false} AlikeFrom(a: Json, b: Json, free: bool, segs: Segs, i: nat)
    requires Alike(a, b, free) && segs != [] && i <= |Items(a)|
    ensures i <= |Items(b)| && LookupFrom(a, segs, i) == LookupFrom(b, segs, i)
    decreases |segs|, 0, |Items(a)| - i
  {
    hide FreeItem;
    if i < |Items(a)| {
      assert Step(a, segs[0], i) == Step(b, segs[0], i);
      AlikeLookup(Items(a)[i].value, Items(b)[i].value, FreeItem(a, i), segs[1..]);
      AlikeFrom(a, b, free, segs, i + 1);
    }
  }

  /** A looked-up place is one for text exactly if its last name is one. */
  lemma {:induction false} FollowsFree(j: Json, segs: Segs, p: Path, free: bool)
    requires Follows(j, segs, p) && segs != [] && segs[|segs| - 1].Name?
    ensures HasPath(j, p) && FreeAt(j, p, free) == TextName(segs[|segs| - 1].key)
    decreases |segs|
  {
    FollowsHas(j, segs, p);
    hide TextName;
    if |segs| > 1 {
      FollowsFree(Items(j)[p[0]].value, segs[1..], p[1..], FreeItem(j, p[0]));
    } else {
      assert p[1..] == [];
    }
  }

  lemma AlikeVal(a: Json, b: Json, segs: Segs)
    requires Alike(a, b, false)
    ensures Val(a, segs).Some? == Val(b, segs).Some?
    ensures StrVal(a, segs) == StrVal(b, segs) && ArrVal(a, segs) == ArrVal(b, segs)
            && ObjVal(a, segs) == ObjVal(b, segs)
    ensures |ItemsVal(a, segs)| == |ItemsVal(b, segs)|
    ensures forall i | 0 <= i < |ItemsVal(a, segs)| ::
              ItemsVal(a, segs)[i].value.Obj? == ItemsVal(b, segs)[i].value.Obj?
  {
    hide FreeItem, HasPath, At, Follows;
    AlikeLookup(a, b, false, segs);
    if Lookup(a, segs).Some? {
      var p := Lookup(a, segs).value;
      FollowsHas(a, segs, p);
      AlikeAt(a, b, false, p);
    }
  }

  lemma AlikeRead(v: Json, w: Json)
    requires Alike(v, w, false)
    ensures v.Str? == w.Str? && (v.Str? ==> v == w) && Truthy(v) == Truthy(w)
  {
    hide FreeItem, NonZero, Lower, Decode;
  }

  /** What is read under another name is the same. */
  lemma AlikeText(a: Json, b: Json, segs: Segs)
    requires Alike(a, b, false) && segs != [] && segs[|segs| - 1].Name? && !TextName(segs[|segs| - 1].key)
    ensures TextVal(a, segs) == TextVal(b, segs) && TruthyVal(a, segs) == TruthyVal(b, segs)
  {
    hide FreeItem, HasPath, At, Follows, TextName, Truthy, Decode, Alike, Lookup, FreeAt;
    AlikeLookup(a, b, false, segs);
    if Lookup(a, segs).Some? {
      var p := Lookup(a, segs).value;
      FollowsFree(a, segs, p, false);
      AlikeAt(a, b, false, p);
      AlikeRead(At(a, p), At(b, p));
    }
  }
}
