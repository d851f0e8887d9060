/** The members that prompt injection descends to are those that its path lookups find. */
module PromptPaths {
  import opened Common
  import opened JsonTree
  import opened JsonQuery
  import opened JsonPaths
  import opened PromptSites

  /** One name: the first member of that name. */
  lemma MemberIsLookup(j: Json, key: string)
    ensures Lookup(j, [Name(key)]) == if Has(j, key) then Some([Find(j.items, key)]) else None
  {
    hide Lookup, NameIs;
    if Has(j, key) {
      LookupOne(j, key, Find(j.items, key));
    } else {
      var segs := [Name(key)];
      forall k | 0 <= k < |Items(j)| ensures !Step(j, segs[0], k) {}
      LookupAll(j, segs);
    }
  }

  /** Two names, the first of them request: the first request member that has the other. */
  lemma HolderIsLookup(j: Json, key: string)
    ensures Lookup(j, [Name("request"), Name(key)])
            == if Held(j, key) then Some([HolderAt(j, key), Find(Holder(j, key).items, key)]) else None
  {
    var segs := [Name("request"), Name(key)];
    assert segs[1..] == [Name(key)];
    hide Lookup, Has, Find, FindHolder;
    forall k | 0 <= k < |Items(j)|
      ensures Lookup(Items(j)[k].value, [Name(key)]).Some? <==> Has(Items(j)[k].value, key)
    {
      MemberIsLookup(Items(j)[k].value, key);
    }
    if Held(j, key) {
      MemberIsLookup(Holder(j, key), key);
      LookupHere(j, segs, HolderAt(j, key));
      var f := Find(Holder(j, key).items, key);
      assert [HolderAt(j, key)] + [f] == [HolderAt(j, key), f];
    } else {
      LookupAll(j, segs);
    }
  }

  /** And with a third name, once the first member found has it. */
  lemma PartsAreLookup(j: Json, key: string)
    requires Held(j, key) && SystemOk(Holder(j, key), key)
    ensures var g := Holder(j, key);
            Lookup(j, [Name("request"), Name(key), Name("parts")])
            == Some([HolderAt(j, key), Find(g.items, key), Find(Get(g, key).items, "parts")])
  {
    var g := Holder(j, key);
    var segs := [Name("request"), Name(key), Name("parts")];
    var rest := [Name(key), Name("parts")];
    assert segs[1..] == rest && rest == [Name(key)] + [Name("parts")];
    hide Lookup, Has, Find, FindHolder, NameIs;
    MemberIsLookup(Get(g, key), "parts");
    MemberThen(g, key, [Name("parts")]);
    forall k | 0 <= k < HolderAt(j, key) && Step(j, segs[0], k) ensures Lookup(j.items[k].value, rest).None? {
      NoMember(j.items[k].value, key, [Name("parts")]);
    }
    LookupHere(j, segs, HolderAt(j, key));
    var a, b := Find(g.items, key), Find(Get(g, key).items, "parts");
    assert [HolderAt(j, key)] + ([a] + [b]) == [HolderAt(j, key), a, b];
  }

  lemma MemberThen(j: Json, key: string, rest: Segs)
    requires Has(j, key) && Lookup(Get(j, key), rest).Some?
    ensures Lookup(j, [Name(key)] + rest) == Some([Find(j.items, key)] + Lookup(Get(j, key), rest).value)
  {
    var segs := [Name(key)] + rest;
    assert segs[1..] == rest;
    hide Lookup, NameIs;
    LookupHere(j, segs, Find(j.items, key));
  }

  lemma NoMember(j: Json, key: string, rest: Segs)
    requires !Has(j, key)
    ensures Lookup(j, [Name(key)] + rest).None?
  {
    var segs := [Name(key)] + rest;
    hide Lookup, NameIs;
    forall k | 0 <= k < |Items(j)| ensures !Step(j, segs[0], k) {}
    LookupAll(j, segs);
  }
}
