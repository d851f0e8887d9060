/**
 Looking up a value by a path of names and indexes from the root. Names may be repeated: the
 search goes on to a later member of the same name when an earlier one does not lead on, and
 the first match in the text is the one that counts.
 */
module JsonPaths {
  import opened Common
  import opened JsonText
  import opened JsonTree
  import opened JsonEdit
  import opened JsonQuery
  import opened JsonValue

  datatype Seg = Name(key: string) | Index(k: nat)
  type Segs = seq<Seg>

  /** The name a segment has in an object. */
  function Label(s: Seg): string { if s.Name? then s.key else Decimal(s.k) }

  /** The segment leads from j to its i-th item. */
  predicate Step(j: Json, s: Seg, i: nat) {
    i < |Items(j)| && if j.Arr? then s == Index(i) else NameIs(j.items[i], Label(s))
  }

  predicate Follows(j: Json, segs: Segs, p: Path)
    decreases |segs|
  {
    |p| == |segs| &&
    (segs == [] || (Step(j, segs[0], p[0]) && Follows(Items(j)[p[0]].value, segs[1..], p[1..])))
  }

  /** The first match. */
  function Lookup(j: Json, segs: Segs): (r: Option<Path>)
    ensures r.Some? ==> Follows(j, segs, r.value)
    decreases |segs|, 1, 0
  {
    if segs == [] then Some([]) else LookupFrom(j, segs, 0)
  }

  function LookupFrom(j: Json, segs: Segs, i: nat): (r: Option<Path>)
    requires segs != [] && i <= |Items(j)|
    ensures r.Some? ==> Follows(j, segs, r.value) && r.value[0] >= i
    decreases |segs|, 0, |Items(j)| - i
  {
    if i == |Items(j)| then None
    else if Step(j, segs[0], i) && Lookup(Items(j)[i].value, segs[1..]).Some? then
      var p := Lookup(Items(j)[i].value, segs[1..]).value;
      assert ([i] + p)[1..] == p;
      Some([i] + p)
    else LookupFrom(j, segs, i + 1)
  }

  lemma {:induction false} FollowsHas(j: Json, segs: Segs, p: Path)
    requires Follows(j, segs, p)
    ensures HasPath(j, p)
    decreases |segs|
  {
    if segs != [] { FollowsHas(Items(j)[p[0]].value, segs[1..], p[1..]); }
  }

  function Val(j: Json, segs: Segs): Option<Json> {
    match Lookup(j, segs)
    case None => None
    case Some(p) =>
      FollowsHas(j, segs, p);
      Some(At(j, p))
  }

  predicate StrVal(j: Json, segs: Segs) { Val(j, segs).Some? && Val(j, segs).value.Str? }
  predicate ArrVal(j: Json, segs: Segs) { Val(j, segs).Some? && Val(j, segs).value.Arr? }
  predicate ObjVal(j: Json, segs: Segs) { Val(j, segs).Some? && Val(j, segs).value.Obj? }

  /** The decoded text, or the empty one for a value that is no string. */
  function TextVal(j: Json, segs: Segs): string { if StrVal(j, segs) then TextOf(Val(j, segs).value) else "" }

  function ItemsVal(j: Json, segs: Segs): seq<Elem> { if ArrVal(j, segs) then Val(j, segs).value.items else [] }

  predicate TruthyVal(j: Json, segs: Segs) { Val(j, segs).Some? && Truthy(Val(j, segs).value) }

  /* ---------- different paths lead to different places ---------- */

  /** The segments part at an index, a's being the smaller. */
  predicate SegLt(a: Segs, b: Segs) {
    a != [] && b != [] &&
    ((a[0] == b[0] && SegLt(a[1..], b[1..])) || (a[0].Index? && b[0].Index? && a[0].k < b[0].k))
  }

  lemma {:induction false} FollowsApart(j: Json, a: Segs, b: Segs, p: Path, q: Path)
    requires SegLt(a, b) && Follows(j, a, p) && Follows(j, b, q)
    ensures Apart(p, q)
    decreases |a|
  {
    if p[0] == q[0] {
      if a[0] != b[0] {
        DecimalUnique(a[0].k, b[0].k);
      } else {
        FollowsApart(Items(j)[p[0]].value, a[1..], b[1..], p[1..], q[1..]);
      }
    }
  }

  lemma {:induction false} SharedStart(c: Segs, a: Segs, b: Segs)
    requires SegLt(a, b)
    ensures SegLt(c + a, c + b)
  {
    if c != [] {
      SharedStart(c[1..], a, b);
      assert (c + a)[1..] == c[1..] + a && (c + b)[1..] == c[1..] + b;
    } else {
      assert c + a == a && c + b == b;
    }
  }

  /* ---------- without repeated names ---------- */

  lemma OneStep(j: Json, s: Seg, i: nat, k: nat)
    requires UniqueNames(j) && Step(j, s, i) && Step(j, s, k)
    ensures i == k
  {
    hide Decode;
  }

  /** Then only one path follows. */
  lemma {:induction false} FollowsOne(j: Json, segs: Segs, p: Path, q: Path)
    requires UniqueNames(j) && Follows(j, segs, p) && Follows(j, segs, q)
    ensures p == q
    decreases |segs|
  {
    if segs != [] {
      OneStep(j, segs[0], p[0], q[0]);
      FollowsOne(Items(j)[p[0]].value, segs[1..], p[1..], q[1..]);
      assert p == [p[0]] + p[1..] && q == [q[0]] + q[1..];
    }
  }

  lemma {:induction false} FollowsPrefix(j: Json, a: Segs, b: Segs, p: Path)
    requires Follows(j, a + b, p)
    ensures |p| >= |a| && Follows(j, a, p[..|a|]) && HasPath(j, p[..|a|])
    ensures Follows(At(j, p[..|a|]), b, p[|a|..])
    decreases |a|
  {
    if a == [] {
      assert a + b == b && p[..0] == [] && p[0..] == p;
    } else {
      assert (a + b)[1..] == a[1..] + b;
      FollowsPrefix(Items(j)[p[0]].value, a[1..], b, p[1..]);
      assert p[1..][..|a| - 1] == p[..|a|][1..] && p[1..][|a| - 1..] == p[|a|..];
    }
  }

  /* ---------- where a search ends ---------- */

  lemma LookupHere(j: Json, segs: Segs, i: nat)
    requires segs != [] && i < |Items(j)| && Step(j, segs[0], i) && Lookup(Items(j)[i].value, segs[1..]).Some?
    requires forall k | 0 <= k < i :: Step(j, segs[0], k) ==> Lookup(Items(j)[k].value, segs[1..]).None?
    ensures Lookup(j, segs) == Some([i] + Lookup(Items(j)[i].value, segs[1..]).value)
  {
    LookupFromHere(j, segs, 0, i);
  }

  lemma {:induction false} LookupFromHere(j: Json, segs: Segs, at: nat, i: nat)
    requires segs != [] && at <= i < |Items(j)| && Step(j, segs[0], i) && Lookup(Items(j)[i].value, segs[1..]).Some?
    requires forall k | at <= k < i :: Step(j, segs[0], k) ==> Lookup(Items(j)[k].value, segs[1..]).None?
    ensures LookupFrom(j, segs, at) == Some([i] + Lookup(Items(j)[i].value, segs[1..]).value)
    decreases i - at
  {
    hide Lookup, Step;
    if at < i { LookupFromHere(j, segs, at + 1, i); }
  }

  lemma LookupNothing(j: Json)
    ensures Lookup(j, []) == Some([])
  {
  }

  /** One name: the first member that has it. */
  lemma LookupOne(j: Json, name: string, i: nat)
    requires j.Obj? && i < |j.items| && NameIs(j.items[i], name) && forall k | 0 <= k < i :: !NameIs(j.items[k], name)
    ensures Lookup(j, [Name(name)]) == Some([i])
  {
    hide NameIs, Lookup, Follows;
    var segs := [Name(name)];
    assert segs[1..] == [];
    LookupNothing(j.items[i].value);
    LookupHere(j, segs, i);
    assert [i] + [] == [i];
  }

  lemma LookupAll(j: Json, segs: Segs)
    requires segs != [] && forall k | 0 <= k < |Items(j)| && Step(j, segs[0], k) ::
                             Lookup(Items(j)[k].value, segs[1..]).None?
    ensures Lookup(j, segs).None?
  {
    NoneFrom(j, segs, 0);
  }

  lemma {:induction false} NoneFrom(j: Json, segs: Segs, at: nat)
    requires segs != [] && at <= |Items(j)|
    requires forall k | at <= k < |Items(j)| && Step(j, segs[0], k) :: Lookup(Items(j)[k].value, segs[1..]).None?
    ensures LookupFrom(j, segs, at) == None
    decreases |Items(j)| - at
  {
    hide Lookup, Step, Follows;
    if at < |Items(j)| { NoneFrom(j, segs, at + 1); }
  }
}
