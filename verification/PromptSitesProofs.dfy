/** The instruction texts of a payload after a block went in. */
module PromptSitesProofs {
  import opened JsonText
  import opened JsonTree
  import opened JsonEdit
  import opened JsonQuery
  import opened JsonSlots
  import opened JsonGrow
  import opened Protocol
  import opened PromptSites

  /* ---------- a block written into a text ---------- */

  /** Both strings or both arrays: what holds them cannot tell them apart. */
  predicate SameSort(v: Json, w: Json) { (v.Str? && w.Str?) || (v.Arr? && w.Arr?) }

  lemma SortHas(j: Json, p: Path, v: Json, name: string)
    requires HasPath(j, p) && SameSort(At(j, p), v)
    ensures Has(Put(j, p, v), name) == Has(j, name)
  {
    if p != [] {
      SetChildFind(j, p[0], Put(Items(j)[p[0]].value, p[1..], v), name);
    }
  }

  lemma MainKept(to: Target, j: Json, p: Path, v: Json)
    requires HasPath(j, p) && SameSort(At(j, p), v)
    ensures MainWalk(to, Put(j, p, v)) == MainWalk(to, j)
  {
    hide HasPath, At, Put, Has, SameSort, FindHolder;
    SortHas(j, p, v, "systemInstruction");
    HolderKept(j, p, v, "systemInstruction");
    HolderKept(j, p, v, "system_instruction");
  }

  lemma {:induction false} SameHolder(es: seq<Elem>, fs: seq<Elem>, key: string)
    requires |es| == |fs| && forall i | 0 <= i < |es| :: Holds(es[i], key) == Holds(fs[i], key)
    ensures FindHolder(es, key) == FindHolder(fs, key)
  {
    hide Holds;
    if es != [] { SameHolder(es[1..], fs[1..], key); }
  }

  lemma HolderKept(j: Json, p: Path, v: Json, key: string)
    requires HasPath(j, p) && SameSort(At(j, p), v)
    ensures HolderAt(Put(j, p, v), key) == HolderAt(j, key) && Held(Put(j, p, v), key) == Held(j, key)
  {
    hide Has, FindHolder, Decode;
    if p != [] {
      var k, child := p[0], Items(j)[p[0]].value;
      SortHas(child, p[1..], v, key);
      PutStep(j, p, v);
      assert Items(Put(j, p, v)) == Items(j)[k := Items(j)[k].(value := Put(child, p[1..], v))];
      SameHolder(Items(Put(j, p, v)), Items(j), key);
    }
  }

  lemma LeadSlot(j: Json)
    ensures OrderedSlots(j, Slots(LEAD_WALK, j))
    ensures Slots(LEAD_WALK, j)
            == if Has(j, "instructions") && Get(j, "instructions").Str?
               then [Slot([Find(j.items, "instructions")], Decode(Get(j, "instructions").raw), PROMPT)] else []
  {
    SlotsOrdered(LEAD_WALK, j);
    hide Decode, Find;
    if Has(j, "instructions") && Get(j, "instructions").Str? {
      assert Slots(Text(PROMPT), Get(j, "instructions")) == [Slot([], Decode(Get(j, "instructions").raw), PROMPT)];
      assert [Find(j.items, "instructions")] + [] == [Find(j.items, "instructions")];
    }
  }

  lemma MemberSlots(key: string, next: Walk, j: Json)
    requires j.Obj? && Has(j, key)
    ensures Slots(One(Member(key, next)), j) == Lift(Find(j.items, key), Slots(next, Get(j, key)))
  {
    hide Find, Lift;
  }

  lemma MemberHeads(key: string, next: Walk, j: Json, i: nat)
    requires i < |Slots(One(Member(key, next)), j)|
    ensures Has(j, key)
    ensures var p := Slots(One(Member(key, next)), j)[i].path; p != [] && p[0] == Find(j.items, key)
  {
    hide Find;
  }

  /** The texts are strings of the payload, and no two are at one place. */
  lemma TextsApart(to: Target, j: Json)
    ensures var ts := Texts(to, j);
            && (forall i | 0 <= i < |ts| :: HasPath(j, ts[i].path) && At(j, ts[i].path).Str?
                                            && ts[i].text == Decode(At(j, ts[i].path).raw))
            && (forall i, k | 0 <= i < |ts| && 0 <= k < |ts| && i != k :: Apart(ts[i].path, ts[k].path))
  {
    LeadSlot(j);
    SlotsOrdered(MainWalk(to, j), j);
    hide Slots, HasPath, At, Decode, MainWalk, Lt, Find;
    var ts := Texts(to, j);
    forall i, k | 0 <= i < |ts| && 0 <= k < |ts| && i != k ensures Apart(ts[i].path, ts[k].path) {
      if i < |Lead(to, j)| <= k {
        LeadApart(to, j, k - |Lead(to, j)|);
      } else if k < |Lead(to, j)| <= i {
        LeadApart(to, j, i - |Lead(to, j)|);
      }
    }
  }

  lemma LeadApart(to: Target, j: Json, k: nat)
    requires to.ResponsesTarget? && Lead(to, j) != [] && k < |Slots(MainWalk(to, j), j)|
    ensures Apart(Lead(to, j)[0].path, Slots(MainWalk(to, j), j)[k].path)
  {
    assert "input"[2] != "instructions"[2];
    MemberHeads("instructions", Text(PROMPT), j, 0);
    MemberHeads("input", EachOf(Instruction("input_text")), j, k);
    FindDiffers(j.items, "instructions", "input");
    hide Slots, Find;
  }

  lemma MemberNone(key: string, next: Walk, j: Json)
    requires !Has(j, key)
    ensures Slots(One(Member(key, next)), j) == []
  {
    hide Find, Lift;
  }

  lemma MemberSame(key: string, next: Walk, j: Json, k: Json)
    requires Has(j, key) == Has(k, key)
    requires Has(j, key) ==> Find(j.items, key) == Find(k.items, key) && Get(j, key) == Get(k, key)
    ensures Slots(One(Member(key, next)), j) == Slots(One(Member(key, next)), k)
  {
    if Has(j, key) {
      MemberSlots(key, next, j);
      MemberSlots(key, next, k);
    } else {
      MemberNone(key, next, j);
      MemberNone(key, next, k);
    }
    hide Slots, Find, Lift;
  }

  /** Filling one member leaves what a walk finds under another. */
  lemma OtherMember(key: string, next: Walk, j: Json, p: Path, v: Json)
    requires HasPath(j, p) && p != [] && (Has(j, key) ==> p[0] != Find(j.items, key))
    ensures Slots(One(Member(key, next)), Put(j, p, v)) == Slots(One(Member(key, next)), j)
  {
    SetChildFind(j, p[0], Put(Items(j)[p[0]].value, p[1..], v), key);
    assert Put(j, p, v) == SetChild(j, p[0], Put(Items(j)[p[0]].value, p[1..], v));
    hide Find, Slots, SetChild, Get;
    MemberSame(key, next, j, Put(j, p, v));
  }

  lemma TextsFilled(to: Target, j: Json, k: nat, r: string)
    requires k < |Texts(to, j)|
    ensures HasPath(j, Texts(to, j)[k].path)
    ensures Texts(to, Put(j, Texts(to, j)[k].path, Str(r))) == Retext(Texts(to, j), k, r)
  {
    hide Slots, HasPath, At, Decode, MainWalk, Put, Find;
    TextsApart(to, j);
    var p := Texts(to, j)[k].path;
    MainKept(to, j, p, Str(r));
    if !to.ResponsesTarget? {
      PutSlot(MainWalk(to, j), j, k, r);
    } else {
      ResponsesFilled(to, j, k, r);
    }
  }

  lemma ResponsesFilled(to: Target, j: Json, k: nat, r: string)
    requires k < |Texts(to, j)| && to.ResponsesTarget?
    requires var p := Texts(to, j)[k].path;
             HasPath(j, p) && At(j, p).Str? && MainWalk(to, Put(j, p, Str(r))) == MainWalk(to, j)
    ensures Texts(to, Put(j, Texts(to, j)[k].path, Str(r))) == Retext(Texts(to, j), k, r)
  {
    hide *;
    TextsAre(to, j);
    if k < |Lead(to, j)| { LeadFilled(to, j, k, r); } else { InputFilled(to, j, k - |Lead(to, j)|, r); }
  }

  lemma LeadFilled(to: Target, j: Json, k: nat, r: string)
    requires to.ResponsesTarget? && k < |Lead(to, j)|
    requires var p := Lead(to, j)[k].path;
             HasPath(j, p) && At(j, p).Str? && MainWalk(to, Put(j, p, Str(r))) == MainWalk(to, j)
    ensures Texts(to, Put(j, Lead(to, j)[k].path, Str(r))) == Retext(Texts(to, j), k, r)
  {
    assert "input"[2] != "instructions"[2];
    MemberHeads("instructions", Text(PROMPT), j, k);
    if Has(j, "input") { FindDiffers(j.items, "input", "instructions"); }
    OtherMember("input", EachOf(Instruction("input_text")), j, Lead(to, j)[k].path, Str(r));
    PutSlot(LEAD_WALK, j, k, r);
    assert MainWalk(to, j) == One(Member("input", EachOf(Instruction("input_text"))));
    hide Slots, Decode, Put, Find, HasPath, At, MainWalk, Retext, Has;
    RetextFront(Lead(to, j), Slots(MainWalk(to, j), j), k, r);
  }

  lemma ResponsesWalk(to: Target, j: Json)
    requires to.ResponsesTarget?
    ensures MainWalk(to, j) == One(Member("input", EachOf(Instruction("input_text"))))
  {
  }

  lemma LeadKept(to: Target, j: Json, k: nat, r: string)
    requires to.ResponsesTarget? && k < |Slots(MainWalk(to, j), j)|
    requires var p := Slots(MainWalk(to, j), j)[k].path; HasPath(j, p) && At(j, p).Str?
    ensures Lead(to, Put(j, Slots(MainWalk(to, j), j)[k].path, Str(r))) == Lead(to, j)
  {
    assert "input"[2] != "instructions"[2];
    ResponsesWalk(to, j);
    MemberHeads("input", EachOf(Instruction("input_text")), j, k);
    hide MainWalk, Slots, Put, Find, HasPath, At;
    if Has(j, "instructions") { FindDiffers(j.items, "instructions", "input"); }
    OtherMember("instructions", Text(PROMPT), j, Slots(MainWalk(to, j), j)[k].path, Str(r));
  }

  lemma InputFilled(to: Target, j: Json, k: nat, r: string)
    requires to.ResponsesTarget? && k < |Slots(MainWalk(to, j), j)|
    requires var p := Slots(MainWalk(to, j), j)[k].path;
             HasPath(j, p) && At(j, p).Str? && MainWalk(to, Put(j, p, Str(r))) == MainWalk(to, j)
    ensures Texts(to, Put(j, Slots(MainWalk(to, j), j)[k].path, Str(r)))
            == Retext(Texts(to, j), |Lead(to, j)| + k, r)
  {
    hide *;
    var w := MainWalk(to, j);
    PutSlot(w, j, k, r);
    LeadKept(to, j, k, r);
    var j' := Put(j, Slots(w, j)[k].path, Str(r));
    TextsAre(to, j);
    TextsAre(to, j');
    RetextTail(Lead(to, j), Slots(w, j), k, r);
  }

  lemma TextsAre(to: Target, j: Json)
    ensures Texts(to, j) == Lead(to, j) + Slots(MainWalk(to, j), j)
  {
    hide Lead, Slots, MainWalk;
  }

  lemma RetextTail<M>(a: seq<JsonSlots.Slot<M>>, b: seq<JsonSlots.Slot<M>>, k: nat, r: string)
    requires k < |b|
    ensures Retext(a + b, |a| + k, r) == a + Retext(b, k, r)
  {
    hide Decode;
  }
}
