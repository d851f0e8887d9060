/** The shapes of provider requests, and the changes that no shape can tell. */
module ProviderShapes {
  import opened Common
  import opened JsonText
  import opened JsonTree
  import opened JsonEdit
  import opened JsonQuery
  import opened JsonAlike
  import opened Payloads
  import opened PromptSites
  import opened PromptSitesProofs
  import Utf8

  const BYTES_MAX: nat := 10 * 0x10_0000

  predicate ItemOk(m: Json) { (Has(m, "role") && Get(m, "role").Str?) || TextAt(m, "type") != "" }

  predicate RoleOk(m: Json) { TextAt(m, "role") == "user" || TextAt(m, "role") == "assistant" }

  predicate TreeShape(to: Target, j: Json) {
    j.Obj? &&
    match to
    case ChatTarget => ListOf(j, "messages", ChatOk)
    case ResponsesTarget => ListOf(j, "input", ItemOk)
    case ClaudeTarget => ListOf(j, "messages", RoleOk)
    case GeminiTarget => ListOf(j, "contents", GeminiOk)
    case AntigravityTarget =>
      Has(j, "request") && Get(j, "request").Obj?
      && Held(j, "contents") && ListOf(Holder(j, "contents"), "contents", GeminiOk)
  }

  /** The body is a valid request of the provider it goes to. */
  ghost predicate ProviderShape(body: string, route: Route) {
    && body != "" && Utf8.Length(body) <= BYTES_MAX && route.Eligible() && TargetOf(route.to).Some?
    && Parse(body).Some? && TreeShape(TargetOf(route.to).value, Parse(body).value.root)
  }

  /* ---------- changes in places that no shape looks into ---------- */

  predicate Loose(name: string) { TextName(name) || name == "parts" }

  predicate LooseItem(j: Json, i: nat)
    requires i < |Items(j)|
  {
    j.Obj? && j.items[i].key.Named? && Loose(Decode(j.items[i].key.name))
  }

  /** The same but for strings and arrays under such names, which stay strings and arrays. */
  predicate Like(a: Json, b: Json, loose: bool)
    decreases a
  {
    match a
    case Lit(_) => a == b
    case Str(_) => b.Str? && (loose || a == b)
    case _ =>
      (loose && a.Arr? && b.Arr?)
      || (a.Arr? == b.Arr? && a.Obj? == b.Obj? && |a.items| == |Items(b)|
          && forall i | 0 <= i < |a.items| ::
               a.items[i].key == b.items[i].key && Like(a.items[i].value, b.items[i].value, LooseItem(a, i)))
  }

  predicate LooseAt(j: Json, p: Path, loose: bool)
    requires HasPath(j, p)
    decreases |p|
  {
    if p == [] then loose else LooseAt(Items(j)[p[0]].value, p[1..], LooseItem(j, p[0]))
  }

  lemma {:induction false} LikeSame(j: Json, loose: bool)
    ensures Like(j, j, loose)
    decreases j
  {
    hide LooseItem;
    forall i | 0 <= i < |Items(j)| ensures Like(Items(j)[i].value, Items(j)[i].value, LooseItem(j, i)) {
      LikeSame(Items(j)[i].value, LooseItem(j, i));
    }
  }

  lemma {:induction false} AlikeLike(a: Json, b: Json, free: bool, loose: bool)
    requires Alike(a, b, free) && (free ==> loose)
    ensures Like(a, b, loose)
    decreases a
  {
    forall i | 0 <= i < |Items(a)| ensures Like(Items(a)[i].value, Items(b)[i].value, LooseItem(a, i)) {
      assert FreeItem(a, i) ==> LooseItem(a, i);
      hide FreeItem, LooseItem;
      AlikeLike(Items(a)[i].value, Items(b)[i].value, FreeItem(a, i), LooseItem(a, i));
    }
    hide FreeItem, LooseItem;
  }

  lemma {:induction false} PutLike(j: Json, p: Path, v: Json, loose: bool)
    requires HasPath(j, p) && SameSort(At(j, p), v) && LooseAt(j, p, loose)
    ensures Like(j, Put(j, p, v), loose)
    decreases |p|
  {
    hide LooseItem;
    if p != [] {
      var k := p[0];
      PutLike(Items(j)[k].value, p[1..], v, LooseItem(j, k));
      forall i | 0 <= i < |Items(j)| && i != k ensures Like(Items(j)[i].value, Items(j)[i].value, LooseItem(j, i)) {
        LikeSame(Items(j)[i].value, LooseItem(j, i));
      }
    }
  }

  lemma LikeMember(a: Json, b: Json, key: string)
    requires Like(a, b, false)
    ensures a.Obj? == b.Obj? && Has(a, key) == Has(b, key)
    ensures Has(a, key) ==> Like(Get(a, key), Get(b, key), Loose(key))
  {
    hide Loose, Decode;
    if a.Obj? { SameNames(a.items, b.items, key); }
  }

  lemma LikeText(a: Json, b: Json, key: string)
    requires Like(a, b, false) && !Loose(key)
    ensures TextAt(a, key) == TextAt(b, key) && (Has(a, key) ==> Get(a, key).Str? == Get(b, key).Str?)
  {
    LikeMember(a, b, key);
    hide LooseItem, Find, Decode, Loose;
  }

  lemma NotLoose()
    ensures !Loose("role") && !Loose("type") && !Loose("messages") && !Loose("input") && !Loose("contents")
    ensures !Loose("request") && Loose("content") && Loose("parts") && Loose("system")
  {
  }

  /** No item of a list can be told from what is like it. */
  lemma LikeItem(m: Json, n: Json)
    requires Like(m, n, false)
    ensures m.Obj? == n.Obj? && ChatOk(m) == ChatOk(n) && ItemOk(m) == ItemOk(n) && RoleOk(m) == RoleOk(n)
    ensures GeminiOk(m) == GeminiOk(n)
  {
    NotLoose();
    hide Loose;
    LikeText(m, n, "role");
    LikeText(m, n, "type");
    LikeMember(m, n, "role");
    LikeMember(m, n, "parts");
    hide TextAt, LooseItem, Has, Get;
  }

  lemma LikeList(a: Json, b: Json, key: string, ok: Json -> bool)
    requires Like(a, b, false) && !Loose(key) && forall m, n | Like(m, n, false) && ok(m) :: ok(n)
    requires ListOf(a, key, ok)
    ensures ListOf(b, key, ok)
  {
    LikeMember(a, b, key);
    hide Loose, Has, Get;
    var x, y := Get(a, key), Get(b, key);
    assert y.Arr? && |x.items| == |y.items|;
    forall i | 0 <= i < |y.items| ensures y.items[i].value.Obj? && ok(y.items[i].value) {
      assert Like(x.items[i].value, y.items[i].value, false);
      LikeItem(x.items[i].value, y.items[i].value);
    }
  }

  lemma LikeHolder(a: Json, b: Json, key: string)
    requires Like(a, b, false)
    ensures HolderAt(a, key) == HolderAt(b, key) && Held(a, key) == Held(b, key)
    ensures Held(a, key) ==> Like(Holder(a, key), Holder(b, key), false)
  {
    NotLoose();
    if a.Obj? {
      forall i | 0 <= i < |a.items| ensures Holds(a.items[i], key) == Holds(b.items[i], key) {
        if NameIs(a.items[i], "request") { LikeMember(a.items[i].value, b.items[i].value, key); }
      }
      hide Loose, Has, Decode;
      SameHolder(a.items, b.items, key);
    }
  }

  lemma LikeItems()
    ensures forall m, n | Like(m, n, false) ::
              ChatOk(m) == ChatOk(n) && ItemOk(m) == ItemOk(n) && RoleOk(m) == RoleOk(n) && GeminiOk(m) == GeminiOk(n)
  {
    hide *;
    forall m, n | Like(m, n, false)
      ensures ChatOk(m) == ChatOk(n) && ItemOk(m) == ItemOk(n) && RoleOk(m) == RoleOk(n) && GeminiOk(m) == GeminiOk(n)
    {
      LikeItem(m, n);
    }
  }

  /** Nor can a whole request. */
  lemma LikeShape(to: Target, a: Json, b: Json)
    requires Like(a, b, false) && TreeShape(to, a)
    ensures TreeShape(to, b)
  {
    hide Loose, Like, ListOf, ChatOk, ItemOk, RoleOk, GeminiOk, Has, Get, HolderAt;
    NotLoose();
    LikeItems();
    LikeMember(a, b, "request");
    LikeKind(a, b, "request");
    match to
    case ChatTarget => LikeList(a, b, "messages", ChatOk);
    case ResponsesTarget => LikeList(a, b, "input", ItemOk);
    case ClaudeTarget => LikeList(a, b, "messages", RoleOk);
    case GeminiTarget => LikeList(a, b, "contents", GeminiOk);
    case AntigravityTarget =>
      LikeHolder(a, b, "contents");
      LikeList(Holder(a, "contents"), Holder(b, "contents"), "contents", GeminiOk);
  }

  lemma LikeKind(a: Json, b: Json, key: string)
    requires Like(a, b, false)
    ensures a.Obj? == b.Obj? && Has(a, key) == Has(b, key) && (Has(a, key) ==> Get(a, key).Obj? == Get(b, key).Obj?)
  {
    LikeMember(a, b, key);
    hide Loose, Has, Get;
  }

  /* ---------- which valid requests take a prompt ---------- */

  /** An item that is no message, or one with a role and a content. */
  predicate InputTakes(m: Json) {
    (TextAt(m, "type") != "" && TextAt(m, "type") != "message")
    || (Has(m, "content") && (TextAt(m, "role") == "system" || TextAt(m, "role") == "developer"
                              || TextAt(m, "role") == "user" || TextAt(m, "role") == "assistant"))
  }

  /** At most one of the two names for the system instruction, with parts. */
  predicate SystemTakes(camel: Option<Json>, snake: Option<Json>) {
    && (camel.None? || snake.None?)
    && (camel.Some? ==> camel.value.Obj? && Has(camel.value, "parts") && Get(camel.value, "parts").Arr?)
    && (snake.Some? ==> snake.value.Obj? && Has(snake.value, "parts") && Get(snake.value, "parts").Arr?)
  }

  function Member(j: Json, key: string): Option<Json> { if Has(j, key) then Some(Get(j, key)) else None }

  /** The same, from the first request member that has it. */
  function RequestMember(j: Json, key: string): Option<Json> {
    if Held(j, key) then Some(Get(Holder(j, key), key)) else None
  }

  predicate TakesPrompt(to: Target, j: Json) {
    match to
    case ChatTarget => true
    case ResponsesTarget =>
      && (Has(j, "instructions") ==> Get(j, "instructions").Str?)
      && Has(j, "input") && forall e | e in Items(Get(j, "input")) :: InputTakes(e.value)
    case ClaudeTarget =>
      && (Has(j, "system") ==> Get(j, "system").Str? || Get(j, "system").Arr?)
      && Has(j, "messages") && forall e | e in Items(Get(j, "messages")) :: Has(e.value, "content")
    case GeminiTarget => SystemTakes(Member(j, "systemInstruction"), Member(j, "system_instruction"))
    case AntigravityTarget => SystemTakes(RequestMember(j, "systemInstruction"), RequestMember(j, "system_instruction"))
  }

  /** Of the valid requests just these have a shape that the prompt stages take. */
  lemma SupportedExact(to: Target, j: Json)
    requires TreeShape(to, j)
    ensures SupportedShape(to, j) <==> TakesPrompt(to, j)
  {
    hide Find, TextAt, HolderAt;
    match to
    case ChatTarget =>
    case ResponsesTarget =>
      var items := Get(j, "input").items;
      InputsTake(items);
    case ClaudeTarget =>
      var items := Get(j, "messages").items;
      ContentsTake(items);
    case GeminiTarget =>
    case AntigravityTarget =>
  }

  lemma InputsTake(items: seq<Elem>)
    ensures (forall i | 0 <= i < |items| :: ResponsesOk(items[i].value)) <==> forall e | e in items ::
                                                                                InputTakes(e.value)
  {
    forall i | 0 <= i < |items| ensures ResponsesOk(items[i].value) <==> InputTakes(items[i].value) {
      hide Find, TextAt, Has;
    }
    hide ResponsesOk, InputTakes;
  }

  lemma ContentsTake(items: seq<Elem>)
    requires forall i | 0 <= i < |items| :: RoleOk(items[i].value)
    ensures (forall i | 0 <= i < |items| :: ClaudeOk(items[i].value)) <==> forall e | e in items ::
                                                                             Has(e.value, "content")
  {
    hide Find, TextAt;
    forall i | 0 <= i < |items| ensures ClaudeOk(items[i].value) <==> Has(items[i].value, "content") {}
    hide ClaudeOk, Has;
  }
}
