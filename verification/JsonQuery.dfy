/**
 Reading fields of a document the way the path queries do: the first member whose decoded
 name matches, and a string's decoded text.
 */
module JsonQuery {
  import opened JsonText
  import opened JsonTree
  import opened JsonEdit

  predicate NameIs(e: Elem, key: string) {
    e.key.Named? && Decode(e.key.name) == key
  }

  /** Index of the first item with this name, or the number of items. */
  function Find(es: seq<Elem>, key: string): (k: nat)
    ensures k <= |es| && (k < |es| ==> NameIs(es[k], key))
    ensures forall i | 0 <= i < k :: !NameIs(es[i], key)
  {
    if es == [] then 0 else if NameIs(es[0], key) then 0 else 1 + Find(es[1..], key)
  }

  predicate Has(j: Json, key: string) {
    j.Obj? && Find(j.items, key) < |j.items|
  }

  function Get(j: Json, key: string): (v: Json)
    requires Has(j, key)
    ensures v < j
  {
    j.items[Find(j.items, key)].value
  }

  function TextOf(j: Json): string {
    if j.Str? then Decode(j.raw) else ""
  }

  function TextAt(j: Json, key: string): string {
    if Has(j, key) then TextOf(Get(j, key)) else ""
  }

  /** The numeral has a digit that makes it differ from zero. */
  predicate NonZero(s: string) {
    s != "" && s[0] != 'e' && s[0] != 'E' && ('1' <= s[0] <= '9' || NonZero(s[1..]))
  }

  function Lower(s: string): string {
    seq(|s|, i requires 0 <= i < |s| => if 'A' <= s[i] <= 'Z' then (s[i] as int + 32) as char else s[i])
  }

  /** The readers' conversion of any value to a boolean. */
  predicate Truthy(j: Json) {
    match j
    case Lit(text) => text == "true" || (text != "false" && text != "null" && NonZero(text))
    case Str(raw) => Lower(Decode(raw)) in {"1", "t", "true"}
    case _ => false
  }

  lemma {:induction false} SameNames(es: seq<Elem>, fs: seq<Elem>, key: string)
    requires |es| == |fs| && forall i | 0 <= i < |es| :: es[i].key == fs[i].key
    ensures Find(es, key) == Find(fs, key)
  {
    assert forall i | 0 <= i < |es| :: NameIs(es[i], key) == NameIs(fs[i], key);
    hide NameIs;
  }

  /** Replacing a member's value leaves all names where they are. */
  lemma SetChildFind(j: Json, k: nat, v: Json, key: string)
    requires k < |Items(j)|
    ensures Find(Items(SetChild(j, k, v)), key) == Find(Items(j), key)
    ensures Has(SetChild(j, k, v), key) == Has(j, key)
    ensures Has(j, key) && Find(Items(j), key) != k ==> Get(SetChild(j, k, v), key) == Get(j, key)
    ensures Has(j, key) && Find(Items(j), key) == k ==> Get(SetChild(j, k, v), key) == v
  {
    SameNames(Items(j), Items(SetChild(j, k, v)), key);
  }

  lemma FindDiffers(es: seq<Elem>, a: string, b: string)
    requires a != b && Find(es, a) < |es|
    ensures Find(es, a) != Find(es, b)
  {
  }
}
