/** Documents that are written rather than read: members and items without white space. */
module JsonBuild {
  import opened JsonText
  import opened JsonTree
  import opened JsonEdit
  import opened JsonQuery

  const BLANK: Json := Str("")

  function Field(name: string, value: Json): Elem { Elem("", Named(Encode(name), "", ""), value, "") }
  function Item(value: Json): Elem { Elem("", NoKey, value, "") }

  /* ---------- what is written is well formed ---------- */

  lemma FieldWf(name: string, v: Json)
    requires Wf(v)
    ensures WfElem(Field(name, v), true)
  {
    DecodeEncode(name);
    hide ValidRaw, Encode;
  }

  lemma ItemWf(v: Json)
    requires Wf(v)
    ensures WfElem(Item(v), false)
  {
  }

  lemma StrWf(text: string)
    ensures Wf(Str(Encode(text)))
  {
    DecodeEncode(text);
    hide Encode;
  }

  lemma BlankWf()
    ensures Wf(BLANK)
  {
  }

  lemma ObjWf(es: seq<Elem>)
    requires forall i | 0 <= i < |es| :: WfElem(es[i], true)
    ensures Wf(Obj(es, ""))
  {
    hide WfElem;
  }

  lemma ArrWf(es: seq<Elem>)
    requires forall i | 0 <= i < |es| :: WfElem(es[i], false)
    ensures Wf(Arr(es, ""))
  {
    hide WfElem;
  }

  lemma OneField(name: string, v: Json)
    requires Wf(v)
    ensures Wf(Obj([Field(name, v)], ""))
  {
    FieldWf(name, v);
    hide Encode, WfElem, Field;
    ObjWf([Field(name, v)]);
  }

  lemma TwoFields(a: string, v: Json, b: string, w: Json)
    requires Wf(v) && Wf(w)
    ensures Wf(Obj([Field(a, v), Field(b, w)], ""))
  {
    FieldWf(a, v);
    FieldWf(b, w);
    hide Encode, WfElem, Field;
    ObjWf([Field(a, v), Field(b, w)]);
  }

  /* ---------- reading it ---------- */

  lemma FieldValue(name: string, v: Json)
    ensures Field(name, v).value == v && Field(name, v).before == Field(name, v).after == ""
  {
  }

  lemma FieldPut(name: string, v: Json, w: Json)
    ensures Field(name, v).(value := w) == Field(name, w)
  {
  }

  lemma FieldName(name: string, v: Json, key: string)
    ensures NameIs(Field(name, v), key) <==> name == key
  {
    hide Decode, Encode;
    DecodeEncode(name);
  }

  lemma FindField(es: seq<Elem>, key: string, i: nat)
    requires i < |es| && NameIs(es[i], key) && forall k | 0 <= k < i :: !NameIs(es[k], key)
    ensures Find(es, key) == i
  {
    hide NameIs;
  }

  lemma ChildAt(j: Json, k: nat, p: Path)
    requires k < |Items(j)| && HasPath(Items(j)[k].value, p)
    ensures HasPath(j, [k] + p) && At(j, [k] + p) == At(Items(j)[k].value, p)
  {
    assert ([k] + p)[1..] == p;
  }

  lemma MemberAt(j: Json, k: nat)
    requires k < |Items(j)|
    ensures HasPath(j, [k]) && At(j, [k]) == Items(j)[k].value
  {
    ChildAt(j, k, []);
    assert [k] + [] == [k];
  }
}
