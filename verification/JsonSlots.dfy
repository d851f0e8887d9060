/**
 Text slots: the string leaves a walk over a document finds, each with a mark of the walk's
 own. The lemmas on edits hold for every walk that finds no string twice, in whatever order.
 */
module JsonSlots {
  import opened JsonText
  import opened JsonTree
  import opened JsonEdit

  datatype Slot<M> = Slot(path: Path, text: string, mark: M)

  function Lift<M>(k: nat, ss: seq<Slot<M>>): (r: seq<Slot<M>>)
    ensures |r| == |ss|
  {
    seq(|ss|, i requires 0 <= i < |ss| => ss[i].(path := [k] + ss[i].path))
  }

  /** The slots are strings of the tree, none of them twice. */
  predicate SlotsOf<M>(j: Json, ss: seq<Slot<M>>) {
    && (forall i | 0 <= i < |ss| :: HasPath(j, ss[i].path) && At(j, ss[i].path).Str?
                                    && ss[i].text == Decode(At(j, ss[i].path).raw))
    && (forall i, k | 0 <= i < k < |ss| :: Apart(ss[i].path, ss[k].path))
  }

  /** The slots are strings of the tree, in strictly increasing document order. */
  predicate OrderedSlots<M>(j: Json, ss: seq<Slot<M>>) {
    && (forall i | 0 <= i < |ss| :: HasPath(j, ss[i].path) && At(j, ss[i].path).Str?
                                    && ss[i].text == Decode(At(j, ss[i].path).raw))
    && (forall i, k | 0 <= i < k < |ss| :: Lt(ss[i].path, ss[k].path))
  }

  lemma InOrderAreSlots<M>(j: Json, ss: seq<Slot<M>>)
    requires OrderedSlots(j, ss)
    ensures SlotsOf(j, ss)
  {
    hide Lt, HasPath, At, Decode;
  }

  lemma LiftSlots<M>(j: Json, k: nat, ss: seq<Slot<M>>)
    requires k < |Items(j)| && OrderedSlots(Items(j)[k].value, ss)
    ensures OrderedSlots(j, Lift(k, ss))
  {
    hide Decode;
    var ls := Lift(k, ss);
    forall i | 0 <= i < |ls| ensures HasPath(j, ls[i].path) && At(j, ls[i].path) == At(Items(j)[k].value, ss[i].path) {
      assert ls[i].path[1..] == ss[i].path;
    }
    forall a, b | 0 <= a < b < |ls| ensures Lt(ls[a].path, ls[b].path) {
      assert ls[a].path[1..] == ss[a].path && ls[b].path[1..] == ss[b].path;
    }
  }

  predicate HeadsBelow<M>(ss: seq<Slot<M>>, c: nat) {
    forall i | 0 <= i < |ss| :: ss[i].path != [] && ss[i].path[0] < c
  }

  lemma JoinSlots<M>(j: Json, a: seq<Slot<M>>, c: nat, ss: seq<Slot<M>>)
    requires OrderedSlots(j, a) && HeadsBelow(a, c) && OrderedSlots(j, Lift(c, ss))
    ensures OrderedSlots(j, a + Lift(c, ss)) && HeadsBelow(a + Lift(c, ss), c + 1)
  {
    hide Decode, HasPath, At;
    var b := Lift(c, ss);
    forall i | 0 <= i < |b| ensures b[i].path != [] && b[i].path[0] == c {}
  }

  function Retext<M>(ss: seq<Slot<M>>, k: nat, r: string): seq<Slot<M>>
    requires k < |ss|
  {
    ss[k := ss[k].(text := Decode(r))]
  }

  lemma RetextFront<M>(a: seq<Slot<M>>, b: seq<Slot<M>>, k: nat, r: string)
    requires k < |a|
    ensures Retext(a + b, k, r) == Retext(a, k, r) + b
  {
    hide Decode;
  }

  lemma RetextBack<M>(a: seq<Slot<M>>, c: nat, ss: seq<Slot<M>>, k: nat, r: string)
    requires k < |ss|
    ensures Retext(a + Lift(c, ss), |a| + k, r) == a + Lift(c, Retext(ss, k, r))
  {
    hide Decode;
  }

  function EditsTo<M>(ss: seq<Slot<M>>, reps: map<int, string>, c: nat): seq<Edit>
    requires c <= |ss|
  {
    if c == 0 then []
    else EditsTo(ss, reps, c - 1) + if c - 1 in reps then [Edit(ss[c - 1].path, Str(Encode(reps[c - 1])))] else []
  }

  lemma {:induction false} EditsToFit<M>(j: Json, ss: seq<Slot<M>>, reps: map<int, string>, c: nat)
    requires SlotsOf(j, ss) && c <= |ss|
    ensures EditsFit(j, EditsTo(ss, reps, c))
    ensures forall e, i | e in EditsTo(ss, reps, c) && c <= i < |ss| :: Apart(e.path, ss[i].path)
    ensures forall e | e in EditsTo(ss, reps, c) :: Wf(e.value)
  {
    hide HasPath, Lt, Decode, ValidRaw, Encode;
    if c > 0 {
      EditsToFit(j, ss, reps, c - 1);
      if c - 1 in reps { DecodeEncode(reps[c - 1]); }
    }
  }

  lemma {:induction false} EditsAtSlots<M>(ss: seq<Slot<M>>, reps: map<int, string>, c: nat)
    requires c <= |ss|
    ensures forall e | e in EditsTo(ss, reps, c) :: e.value.Str? && exists i :: 0 <= i < |ss| && ss[i].path == e.path
  {
    if c > 0 { EditsAtSlots(ss, reps, c - 1); }
  }

  function RetextTo<M>(ss: seq<Slot<M>>, reps: map<int, string>, c: nat): (r: seq<Slot<M>>)
    requires c <= |ss|
    ensures |r| == |ss|
  {
    seq(|ss|, i requires 0 <= i < |ss| => if i < c && i in reps then ss[i].(text := reps[i]) else ss[i])
  }

  lemma {:induction false} SameEdits<M>(ss: seq<Slot<M>>, ts: seq<Slot<M>>, reps: map<int, string>, c: nat)
    requires c <= |ss| && c <= |ts| && forall i | 0 <= i < c :: ss[i].path == ts[i].path
    ensures EditsTo(ss, reps, c) == EditsTo(ts, reps, c)
  {
    if c > 0 { SameEdits(ss, ts, reps, c - 1); }
  }

  lemma NoEdits<M>(j: Json, ss: seq<Slot<M>>, reps: map<int, string>)
    ensures EditsTo(ss, reps, 0) == [] && EditsFit(j, EditsTo(ss, reps, 0)) && PutAll(j, EditsTo(ss, reps, 0)) == j
    ensures RetextTo(ss, reps, 0) == ss
  {
  }

  lemma SlotIsStr<M>(j: Json, ss: seq<Slot<M>>, i: nat)
    requires SlotsOf(j, ss) && i < |ss|
    ensures HasPath(j, ss[i].path) && At(j, ss[i].path).Str? && ss[i].text == Decode(At(j, ss[i].path).raw)
  {
  }

  lemma EditsToSkip<M>(ss: seq<Slot<M>>, reps: map<int, string>, c: nat)
    requires 0 < c <= |ss| && c - 1 !in reps
    ensures EditsTo(ss, reps, c) == EditsTo(ss, reps, c - 1) && RetextTo(ss, reps, c) == RetextTo(ss, reps, c - 1)
  {
  }

  lemma EditsToTake<M>(j: Json, ss: seq<Slot<M>>, reps: map<int, string>, c: nat)
    requires 0 < c <= |ss| && c - 1 in reps && EditsFit(j, EditsTo(ss, reps, c)) && HasPath(j, ss[c - 1].path)
    ensures var v := Str(Encode(reps[c - 1]));
            var ts := ss[c - 1 := ss[c - 1].(text := reps[c - 1])];
            && EditsFit(Put(j, ss[c - 1].path, v), EditsTo(ts, reps, c - 1))
            && PutAll(j, EditsTo(ss, reps, c)) == PutAll(Put(j, ss[c - 1].path, v), EditsTo(ts, reps, c - 1))
            && RetextTo(ss, reps, c) == RetextTo(ts, reps, c - 1)
  {
    hide HasPath, Put, Encode, EditsFit;
    var es := EditsTo(ss, reps, c);
    EditsFitPut(j, es);
    assert es == EditsTo(ss, reps, c - 1) + [Edit(ss[c - 1].path, Str(Encode(reps[c - 1])))];
    assert es[..|es| - 1] == EditsTo(ss, reps, c - 1);
    SameEdits(ss, ss[c - 1 := ss[c - 1].(text := reps[c - 1])], reps, c - 1);
  }

  /** Where the edited tree has its replaced leaves. */
  lemma {:induction false} PutAllAt<M>(j: Json, ss: seq<Slot<M>>, reps: map<int, string>, c: nat, i: nat)
    requires SlotsOf(j, ss) && c <= |ss| && i < |ss|
    ensures EditsFit(j, EditsTo(ss, reps, c))
    ensures var j' := PutAll(j, EditsTo(ss, reps, c));
            && HasPath(j', ss[i].path)
            && At(j', ss[i].path) == if i < c && i in reps then Str(Encode(reps[i])) else At(j, ss[i].path)
    decreases c
  {
    hide Decode, Encode, Put, Lt, PutAll, EditsTo, EditsFit, HasPath, At, SlotsOf;
    EditsToFit(j, ss, reps, c);
    SlotIsStr(j, ss, i);
    if c == 0 {
      NoEdits(j, ss, reps);
    } else {
      if c - 1 !in reps {
        EditsToSkip(ss, reps, c);
        PutAllAt(j, ss, reps, c - 1, i);
      } else {
        SlotIsStr(j, ss, c - 1);
        EditsToTake(j, ss, reps, c);
        PutAllAtTake(j, ss, reps, c, i);
      }
    }
  }

  lemma PutSlotsOf<M>(j: Json, ss: seq<Slot<M>>, k: nat, text: string)
    requires SlotsOf(j, ss) && k < |ss|
    ensures SlotsOf(Put(j, ss[k].path, Str(Encode(text))), ss[k := ss[k].(text := text)])
    ensures forall i | 0 <= i < |ss| && i != k ::
              HasPath(Put(j, ss[k].path, Str(Encode(text))), ss[i].path)
              && At(Put(j, ss[k].path, Str(Encode(text))), ss[i].path) == At(j, ss[i].path)
    ensures HasPath(Put(j, ss[k].path, Str(Encode(text))), ss[k].path)
            && At(Put(j, ss[k].path, Str(Encode(text))), ss[k].path) == Str(Encode(text))
  {
    hide Decode, Encode, Put, HasPath, At;
    var v := Str(Encode(text));
    DecodeEncode(text);
    PutAt(j, ss[k].path, v);
    forall i | 0 <= i < |ss| && i != k
      ensures HasPath(Put(j, ss[k].path, v), ss[i].path) && At(Put(j, ss[k].path, v), ss[i].path) == At(j, ss[i].path)
    {
      PutOther(j, ss[i].path, ss[k].path, v);
    }
    hide Lt;
  }

  lemma {:induction false} PutAllAtTake<M>(j: Json, ss: seq<Slot<M>>, reps: map<int, string>, c: nat, i: nat)
    requires SlotsOf(j, ss) && 0 < c <= |ss| && i < |ss| && c - 1 in reps
    ensures var v := Str(Encode(reps[c - 1]));
            var ts := ss[c - 1 := ss[c - 1].(text := reps[c - 1])];
            var j' := Put(j, ss[c - 1].path, v);
            && SlotsOf(j', ts) && EditsFit(j', EditsTo(ts, reps, c - 1))
            && var j'' := PutAll(j', EditsTo(ts, reps, c - 1));
               && HasPath(j'', ss[i].path)
               && At(j'', ss[i].path) == if i < c && i in reps then Str(Encode(reps[i])) else At(j, ss[i].path)
    decreases c, 0
  {
    hide Decode, Encode, Put, SlotsOf, HasPath, At, EditsTo, EditsFit, PutAll;
    var ts := ss[c - 1 := ss[c - 1].(text := reps[c - 1])];
    SlotIsStr(j, ss, c - 1);
    PutSlotsOf(j, ss, c - 1, reps[c - 1]);
    PutAllAt(Put(j, ss[c - 1].path, Str(Encode(reps[c - 1]))), ts, reps, c - 1, i);
    assert ts[i].path == ss[i].path;
  }

  lemma PutChild(j: Json, k: nat, p: Path, v: Json)
    requires k < |Items(j)| && HasPath(Items(j)[k].value, p)
    ensures HasPath(j, [k] + p)
    ensures var w := Put(Items(j)[k].value, p, v);
            Put(j, [k] + p, v) == SetChild(j, k, w)
            && Items(Put(j, [k] + p, v)) == Items(j)[k := Items(j)[k].(value := w)]
  {
    assert ([k] + p)[1..] == p;
  }

  lemma {:induction false} PutSame(j: Json, p: Path)
    requires HasPath(j, p)
    ensures Put(j, p, At(j, p)) == j
    decreases |p|
  {
    if p != [] {
      PutSame(Items(j)[p[0]].value, p[1..]);
      var k := p[0];
      assert j.items[k := j.items[k].(value := j.items[k].value)] == j.items;
    }
  }
}
