/** Decoded JSON values, with objects as maps, and the rule that object names are unique. */
module JsonValue {
  import opened JsonText
  import opened JsonTree
  import opened JsonEdit
  import opened JsonQuery

  datatype JValue = VLit(text: string) | VStr(s: string) | VArr(items: seq<JValue>) | VObj(fields: map<string, JValue>)

  function Names(es: seq<Elem>): (ns: set<string>)
    ensures forall name :: name in ns <==> Find(es, name) < |es|
  {
    if es == [] then {}
    else (if es[0].key.Named? then {Decode(es[0].key.name)} else {}) + Names(es[1..])
  }

  /** The decoded value; by UniqueNames a name stands for one member. */
  function Value(j: Json): JValue
    decreases j
  {
    match j
    case Lit(text) => VLit(text)
    case Str(raw) => VStr(Decode(raw))
    case Arr(items, _) => VArr(seq(|items|, i requires 0 <= i < |items| => Value(items[i].value)))
    case Obj(items, _) => VObj(map name | name in Names(items) :: Value(Get(j, name)))
  }

  /** The decoded members of an object except one. */
  function Fields(j: Json, except: string): map<string, JValue>
    requires j.Obj?
  {
    map name | name in Names(j.items) && name != except :: Value(Get(j, name))
  }

  predicate UniqueNames(j: Json)
    decreases j
  {
    && (forall i | 0 <= i < |Items(j)| :: UniqueNames(Items(j)[i].value))
    && (forall i, k | 0 <= i < k < |Items(j)| && Items(j)[i].key.Named? && Items(j)[k].key.Named? ::
          Decode(Items(j)[i].key.name) != Decode(Items(j)[k].key.name))
  }

  lemma {:induction false} PutUnique(j: Json, p: Path, r: string)
    requires HasPath(j, p) && UniqueNames(j)
    ensures UniqueNames(Put(j, p, Str(r)))
    decreases |p|
  {
    if p != [] {
      PutUnique(Items(j)[p[0]].value, p[1..], r);
      var j' := Put(j, p, Str(r));
      assert forall i | 0 <= i < |Items(j)| :: Items(j')[i].key == Items(j)[i].key;
      assert forall i | 0 <= i < |Items(j)| && i != p[0] :: Items(j')[i] == Items(j)[i];
      hide Decode;
    }
  }
}
