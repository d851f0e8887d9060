/**
 JSON documents as trees that keep every character: literals, key order and white space.
 Print gives the text back, and on well-formed documents it is unambiguous, so a valid body
 stands for exactly one tree.
 */
module JsonTree {
  import opened JsonText

  datatype Json =
    | Lit(text: string)                   // a number, true, false or null
    | Str(raw: string)                    // the characters between the quotes
    | Arr(items: seq<Elem>, gap: string)  // gap: the white space inside an empty pair
    | Obj(items: seq<Elem>, gap: string)

  datatype Elem = Elem(before: string, key: Key, value: Json, after: string)
  datatype Key = NoKey | Named(name: string, left: string, right: string)
  datatype Doc = Doc(lead: string, root: Json, trail: string)

  predicate IsWs(c: char) { c == ' ' || c == '\t' || c == '\r' || c == '\n' }
  predicate Ws(s: string) { forall i | 0 <= i < |s| :: IsWs(s[i]) }
  predicate LitChar(c: char) { '0' <= c <= '9' || 'a' <= c <= 'u' || c == 'E' || c == '+' || c == '-' || c == '.' }

  datatype NumState = Start | Minus | Zero | Int | Dot | Frac | Exp | ExpSign | ExpInt | Bad

  /** The number automaton of section 6 of RFC 8259. */
  function NumStep(q: NumState, c: char): NumState {
    var digit := '0' <= c <= '9';
    var e := c == 'e' || c == 'E';
    match q
    case Start => if c == '-' then Minus else if c == '0' then Zero else if digit then Int else Bad
    case Minus => if c == '0' then Zero else if digit then Int else Bad
    case Zero => if c == '.' then Dot else if e then Exp else Bad
    case Int => if digit then Int else if c == '.' then Dot else if e then Exp else Bad
    case Dot => if digit then Frac else Bad
    case Frac => if digit then Frac else if e then Exp else Bad
    case Exp => if c == '+' || c == '-' then ExpSign else if digit then ExpInt else Bad
    case ExpSign => if digit then ExpInt else Bad
    case ExpInt => if digit then ExpInt else Bad
    case Bad => Bad
  }

  predicate NumberFrom(q: NumState, s: string)
    decreases |s|
  {
    if s == "" then q in {Zero, Int, Frac, ExpInt} else NumberFrom(NumStep(q, s[0]), s[1..])
  }

  predicate Literal(s: string) {
    s == "true" || s == "false" || s == "null" || NumberFrom(Start, s)
  }

  function Items(j: Json): seq<Elem> {
    if j.Arr? || j.Obj? then j.items else []
  }

  predicate WfElem(e: Elem, named: bool)
    decreases e
  {
    && Ws(e.before) && Ws(e.after) && Wf(e.value)
    && e.key.Named? == named
    && (named ==> ValidRaw(e.key.name) && Ws(e.key.left) && Ws(e.key.right))
  }

  predicate WfItems(es: seq<Elem>, named: bool)
    decreases es
  {
    forall k | 0 <= k < |es| :: WfElem(es[k], named)
  }

  predicate Wf(j: Json)
    decreases j
  {
    match j
    case Lit(text) => Literal(text)
    case Str(raw) => ValidRaw(raw)
    case Arr(items, gap) => Ws(gap) && (items != [] ==> gap == "") && WfItems(items, false)
    case Obj(items, gap) => Ws(gap) && (items != [] ==> gap == "") && WfItems(items, true)
  }

  predicate WfDoc(d: Doc) {
    Ws(d.lead) && Wf(d.root) && Ws(d.trail)
  }

  /* ---------- printing ---------- */

  function KeyText(k: Key): string {
    if k.NoKey? then "" else "\"" + k.name + "\"" + k.left + ":" + k.right
  }

  function Head(e: Elem): string {
    e.before + KeyText(e.key)
  }

  function PrintElem(e: Elem): string
    decreases e
  {
    Head(e) + Print(e.value) + e.after
  }

  function PrintItems(es: seq<Elem>): string
    decreases es
  {
    if es == [] then "" else PrintElem(es[0]) + PrintMore(es[1..])
  }

  /** The items after the first one, each with the comma before it. */
  function PrintMore(es: seq<Elem>): string
    decreases es
  {
    if es == [] then "" else "," + PrintElem(es[0]) + PrintMore(es[1..])
  }

  function Open(j: Json): string { if j.Arr? then "[" else "{" }
  function Close(j: Json): string { if j.Arr? then "]" else "}" }

  function Print(j: Json): string
    decreases j
  {
    match j
    case Lit(text) => text
    case Str(raw) => "\"" + raw + "\""
    case Arr(items, gap) => "[" + (if items == [] then gap else PrintItems(items)) + "]"
    case Obj(items, gap) => "{" + (if items == [] then gap else PrintItems(items)) + "}"
  }

  function PrintDoc(d: Doc): string {
    d.lead + Print(d.root) + d.trail
  }

  /* ---------- a body stands for one tree ---------- */

  lemma {:induction false} NumberChars(q: NumState, s: string)
    requires NumberFrom(q, s)
    ensures q != Bad
    ensures forall i | 0 <= i < |s| :: LitChar(s[i])
    decreases |s|
  {
    if s != "" {
      NumberChars(NumStep(q, s[0]), s[1..]);
      assert LitChar(s[0]);
      forall i | 0 < i < |s| ensures LitChar(s[i]) { assert s[i] == s[1..][i - 1]; }
    }
  }

  lemma LiteralChars(s: string)
    requires Literal(s)
    ensures |s| > 0 && forall i | 0 <= i < |s| :: LitChar(s[i])
  {
    if NumberFrom(Start, s) { NumberChars(Start, s); }
  }

  lemma LitCharClass(c: char)
    requires LitChar(c)
    ensures c != '"' && c != '[' && c != '{' && !IsWs(c) && !Stops(c) && c != ':'
  {
  }

  /** The first character tells the kind of value; it is never white space, a comma or a closer. */
  lemma FirstChar(j: Json)
    requires Wf(j)
    ensures |Print(j)| > 0
    ensures var c := Print(j)[0];
            && (c == '"' <==> j.Str?) && (c == '[' <==> j.Arr?) && (c == '{' <==> j.Obj?)
            && (j.Lit? ==> LitChar(c)) && !IsWs(c) && !Stops(c) && c != ':'
  {
    hide PrintItems, PrintElem, WfItems, Literal, LitChar, ValidRaw;
    match j
    case Lit(text) =>
      LiteralChars(text);
      LitCharClass(text[0]);
    case Str(raw) => assert Print(j)[0] == '"';
    case Arr(_, _) => assert Print(j)[0] == '[';
    case Obj(_, _) => assert Print(j)[0] == '{';
  }

  predicate Stops(c: char) { c == ',' || c == ']' || c == '}' }

  predicate Ends(s: string) {
    s == "" || IsWs(s[0]) || Stops(s[0])
  }

  /** A maximal run of characters of one class is determined by the text. */
  lemma RunUnique(a: string, b: string, s: string, t: string, p: char -> bool)
    requires forall i | 0 <= i < |a| :: p(a[i])
    requires forall i | 0 <= i < |b| :: p(b[i])
    requires s == "" || !p(s[0])
    requires t == "" || !p(t[0])
    requires a + s == b + t
    ensures a == b && s == t
  {
    var u, v := a + s, b + t;
    assert forall i | 0 <= i < |a| :: u[i] == a[i];
    assert forall i | 0 <= i < |b| :: v[i] == b[i];
    assert s != "" ==> u[|a|] == s[0];
    assert t != "" ==> v[|b|] == t[0];
    assert |a| == |b|;
    assert a == u[..|a|] && s == u[|a|..] && b == v[..|b|] && t == v[|b|..];
  }

  lemma WsUnique(a: string, b: string, s: string, t: string)
    requires Ws(a) && Ws(b) && a + s == b + t
    requires s == "" || !IsWs(s[0])
    requires t == "" || !IsWs(t[0])
    ensures a == b && s == t
  {
    RunUnique(a, b, s, t, c => IsWs(c));
  }

  lemma LitUnique(a: string, b: string, s: string, t: string)
    requires Literal(a) && Literal(b) && Ends(s) && Ends(t) && a + s == b + t
    ensures a == b && s == t
  {
    hide Literal;
    LiteralChars(a);
    LiteralChars(b);
    RunUnique(a, b, s, t, c => LitChar(c));
  }

  /** What follows the opening bracket. */
  function Body(items: seq<Elem>, gap: string): string {
    if items == [] then gap else PrintItems(items)
  }

  lemma PrintPeel(j: Json, s: string)
    ensures j.Str? ==> Print(j) + s == ['"'] + (j.raw + "\"" + s)
    ensures j.Arr? ==> Print(j) + s == ['['] + (Body(j.items, j.gap) + ("]" + s))
    ensures j.Obj? ==> Print(j) + s == ['{'] + (Body(j.items, j.gap) + ("}" + s))
  {
    hide PrintItems;
  }

  lemma Tail(c: char, x: string, y: string)
    requires [c] + x == [c] + y
    ensures x == y
  {
    assert x == ([c] + x)[1..] && y == ([c] + y)[1..];
  }

  /** Two printed values with the same continuation boundary are the same value. */
  lemma {:induction false} Unique(a: Json, b: Json, s: string, t: string)
    requires Wf(a) && Wf(b) && Ends(s) && Ends(t) && Print(a) + s == Print(b) + t
    ensures a == b && s == t
    decreases a, 1
  {
    FirstChar(a);
    FirstChar(b);
    assert (Print(a) + s)[0] == Print(a)[0] && (Print(b) + t)[0] == Print(b)[0];
    PrintPeel(a, s);
    PrintPeel(b, t);
    if a.Lit? {
      LitUnique(a.text, b.text, s, t);
    } else if a.Str? {
      hide *;
      Tail('"', a.raw + "\"" + s, b.raw + "\"" + t);
      UniqueStr(a, b, s, t);
    } else {
      hide *;
      var c := if a.Arr? then ']' else '}';
      Tail(if a.Arr? then '[' else '{', Body(a.items, a.gap) + ([c] + s), Body(b.items, b.gap) + ([c] + t));
      UniqueBody(a, b, c, s, t);
    }
  }

  lemma UniqueStr(a: Json, b: Json, s: string, t: string)
    requires Wf(a) && Wf(b) && a.Str? && b.Str? && a.raw + "\"" + s == b.raw + "\"" + t
    ensures a == b && s == t
  {
    hide ValidRaw;
    RawUnique(a.raw, b.raw, s, t);
  }

  lemma {:induction false} UniqueBody(a: Json, b: Json, c: char, s: string, t: string)
    requires Wf(a) && Wf(b) && ((a.Arr? && b.Arr? && c == ']') || (a.Obj? && b.Obj? && c == '}'))
    requires Body(a.items, a.gap) + ([c] + s) == Body(b.items, b.gap) + ([c] + t)
    ensures a == b && s == t
    decreases a, 0
  {
    hide Body, WfItems, Ws;
    BodyUnique(a.items, a.gap, b.items, b.gap, a.Obj?, [c] + s, [c] + t);
    Tail(c, s, t);
  }

  predicate Closes(s: string) { s != "" && (s[0] == ']' || s[0] == '}') }

  lemma {:induction false} BodyUnique(xs: seq<Elem>, g: string, ys: seq<Elem>, h: string, named: bool,
                                      s: string, t: string)
    requires WfItems(xs, named) && Ws(g) && (xs != [] ==> g == "")
    requires WfItems(ys, named) && Ws(h) && (ys != [] ==> h == "")
    requires Closes(s) && Closes(t) && Body(xs, g) + s == Body(ys, h) + t
    ensures xs == ys && g == h && s == t
    decreases xs, 1
  {
    hide PrintItems, WfItems, Ws;
    if xs == [] && ys == [] {
      WsUnique(g, h, s, t);
    } else if xs == [] {
      var w, r := ItemsLead(ys, named, t);
      WsUnique(g, w, s, r);
      assert false;
    } else if ys == [] {
      var w, r := ItemsLead(xs, named, s);
      WsUnique(w, h, r, t);
      assert false;
    } else {
      ItemsUnique(xs, ys, named, s, t);
    }
  }

  /** An item opens with white space and then a character that is neither that nor a closer. */
  lemma ElemLead(e: Elem, named: bool, u: string) returns (r: string)
    requires WfElem(e, named)
    ensures r == KeyText(e.key) + (Print(e.value) + (e.after + u))
    ensures r != "" && !IsWs(r[0]) && !Closes(r) && PrintElem(e) + u == e.before + r
  {
    hide Print, Wf, ValidRaw, Ws;
    FirstChar(e.value);
    r := KeyText(e.key) + (Print(e.value) + (e.after + u));
    assert PrintElem(e) + u == e.before + r;
    assert r[0] == if named then '"' else Print(e.value)[0];
  }

  lemma ItemsLead(xs: seq<Elem>, named: bool, s: string) returns (w: string, r: string)
    requires WfItems(xs, named) && xs != []
    ensures Ws(w) && r != "" && !IsWs(r[0]) && !Closes(r) && PrintItems(xs) + s == w + r
  {
    hide Print, PrintElem, PrintMore, Wf, Ws;
    var e := xs[0];
    assert WfElem(e, named);
    w := e.before;
    r := ElemLead(e, named, PrintMore(xs[1..]) + s);
    assert PrintItems(xs) + s == PrintElem(e) + (PrintMore(xs[1..]) + s);
  }

  lemma KeyPeel(k: Key, s: string)
    requires k.Named?
    ensures KeyText(k) + s == ['"'] + (k.name + "\"" + (k.left + ([':'] + (k.right + s))))
  {
  }

  lemma KeyUnique(a: Key, b: Key, named: bool, s: string, t: string)
    requires a.Named? == b.Named? == named
    requires named ==> ValidRaw(a.name) && Ws(a.left) && Ws(a.right)
    requires named ==> ValidRaw(b.name) && Ws(b.left) && Ws(b.right)
    requires s != "" && !IsWs(s[0]) && t != "" && !IsWs(t[0])
    requires KeyText(a) + s == KeyText(b) + t
    ensures a == b && s == t
  {
    if named {
      hide ValidRaw, Ws, KeyText;
      var a2, b2 := a.right + s, b.right + t;
      var a1, b1 := a.left + ([':'] + a2), b.left + ([':'] + b2);
      KeyPeel(a, s);
      KeyPeel(b, t);
      Tail('"', a.name + "\"" + a1, b.name + "\"" + b1);
      RawUnique(a.name, b.name, a1, b1);
      WsUnique(a.left, b.left, [':'] + a2, [':'] + b2);
      Tail(':', a2, b2);
      WsUnique(a.right, b.right, s, t);
    } else {
      assert KeyText(a) + s == s && KeyText(b) + t == t;
    }
  }

  lemma {:induction false} ElemUnique(x: Elem, y: Elem, named: bool, u: string, v: string)
    requires WfElem(x, named) && WfElem(y, named)
    requires u != "" && Stops(u[0]) && v != "" && Stops(v[0])
    requires PrintElem(x) + u == PrintElem(y) + v
    ensures x == y && u == v
    decreases x
  {
    var r := ElemLead(x, named, u);
    var q := ElemLead(y, named, v);
    hide Print, PrintElem, Wf, ValidRaw, KeyText;
    WsUnique(x.before, y.before, r, q);
    var p1, p2 := Print(x.value) + (x.after + u), Print(y.value) + (y.after + v);
    FirstChar(x.value);
    FirstChar(y.value);
    KeyUnique(x.key, y.key, named, p1, p2);
    Unique(x.value, y.value, x.after + u, y.after + v);
    WsUnique(x.after, y.after, u, v);
  }

  lemma {:induction false} ItemsUnique(xs: seq<Elem>, ys: seq<Elem>, named: bool, s: string, t: string)
    requires WfItems(xs, named) && WfItems(ys, named) && xs != [] && ys != []
    requires Closes(s) && Closes(t) && PrintItems(xs) + s == PrintItems(ys) + t
    ensures xs == ys && s == t
    decreases xs, 0
  {
    hide PrintElem, WfElem;
    var u, v := PrintMore(xs[1..]) + s, PrintMore(ys[1..]) + t;
    assert PrintItems(xs) + s == PrintElem(xs[0]) + u && PrintItems(ys) + t == PrintElem(ys[0]) + v;
    assert WfElem(xs[0], named) && WfElem(ys[0], named);
    ElemUnique(xs[0], ys[0], named, u, v);
    MoreUnique(xs[1..], ys[1..], named, s, t);
    assert xs == [xs[0]] + xs[1..] && ys == [ys[0]] + ys[1..];
  }

  lemma {:induction false} MoreUnique(xs: seq<Elem>, ys: seq<Elem>, named: bool, s: string, t: string)
    requires WfItems(xs, named) && WfItems(ys, named)
    requires Closes(s) && Closes(t) && PrintMore(xs) + s == PrintMore(ys) + t
    ensures xs == ys && s == t
    decreases xs
  {
    hide PrintElem, WfElem;
    assert (PrintMore(xs) + s)[0] == if xs == [] then s[0] else ',';
    assert (PrintMore(ys) + t)[0] == if ys == [] then t[0] else ',';
    if xs != [] {
      var u, v := PrintMore(xs[1..]) + s, PrintMore(ys[1..]) + t;
      assert (PrintMore(xs) + s)[1..] == PrintElem(xs[0]) + u;
      assert (PrintMore(ys) + t)[1..] == PrintElem(ys[0]) + v;
      assert WfElem(xs[0], named) && WfElem(ys[0], named);
      ElemUnique(xs[0], ys[0], named, u, v);
      MoreUnique(xs[1..], ys[1..], named, s, t);
      assert xs == [xs[0]] + xs[1..] && ys == [ys[0]] + ys[1..];
    } else {
      assert PrintMore(xs) + s == s && PrintMore(ys) + t == t;
    }
  }

  /** A body is the text of at most one well-formed document. */
  lemma DocUnique(a: Doc, b: Doc)
    requires WfDoc(a) && WfDoc(b) && PrintDoc(a) == PrintDoc(b)
    ensures a == b
  {
    hide Print, Wf;
    FirstChar(a.root);
    FirstChar(b.root);
    assert PrintDoc(a) == a.lead + (Print(a.root) + a.trail);
    assert PrintDoc(b) == b.lead + (Print(b.root) + b.trail);
    WsUnique(a.lead, b.lead, Print(a.root) + a.trail, Print(b.root) + b.trail);
    Unique(a.root, b.root, a.trail, b.trail);
  }
}
