/** The one case in which a stage spoils a body: an empty first request member takes no field after a comma. */
module PromptEmpty {
  import opened JsonText
  import opened JsonTree
  import opened JsonEdit
  import opened JsonQuery
  import opened JsonGrow
  import opened JsonBuild
  import opened Markers
  import opened Payloads
  import opened PromptSites
  import opened Prompts
  import opened PromptInsertion

  /** Nothing printed goes on with a comma after a brace. */
  lemma NoCommaFirst(j: Json, s: string, gap: string, z: string)
    requires Wf(j) && Ws(gap)
    ensures Print(j) + s != ['{'] + (gap + ([','] + z))
  {
    FirstChar(j);
    PrintPeel(j, s);
    hide Print, PrintItems, WfItems, Ws;
    if Print(j) + s == ['{'] + (gap + ([','] + z)) {
      assert (Print(j) + s)[0] == Print(j)[0] == '{';
      Tail('{', Body(j.items, j.gap) + ("}" + s), gap + ([','] + z));
      if j.items == [] {
        WsUnique(j.gap, gap, "}" + s, [','] + z);
        assert false;
      } else {
        NoCommaLead(j.items, "}" + s, gap, z);
      }
    }
  }

  lemma NoCommaLead(es: seq<Elem>, s: string, gap: string, z: string)
    requires WfItems(es, true) && es != [] && Ws(gap)
    ensures PrintItems(es) + s != gap + ([','] + z)
  {
    hide Print, PrintElem, PrintMore, Wf, Ws, ValidRaw;
    var e := es[0];
    assert WfElem(e, true);
    var u := PrintMore(es[1..]) + s;
    var r := ElemLead(e, true, u);
    assert PrintItems(es) + s == PrintElem(e) + u == e.before + r;
    assert r[0] == '"';
    if e.before + r == gap + ([','] + z) {
      WsUnique(e.before, gap, r, [','] + z);
      assert false;
    }
  }

  /** No member reads like one whose value opens so. */
  lemma NoSuchMember(f: Elem, t: string, e: Elem, gap: string, z: string)
    requires WfElem(f, true) && WfElem(e, true) && Ws(gap)
    ensures PrintElem(f) + t != Head(e) + (['{'] + (gap + ([','] + z)))
  {
    var r := ElemLead(f, true, t);
    hide Print, PrintElem, Wf, ValidRaw, KeyText, Ws;
    var broken := ['{'] + (gap + ([','] + z));
    if PrintElem(f) + t == Head(e) + broken {
      assert Head(e) + broken == e.before + (KeyText(e.key) + broken);
      KeyFirst(e.key, broken);
      WsUnique(f.before, e.before, r, KeyText(e.key) + broken);
      FirstChar(f.value);
      KeyUnique(f.key, e.key, true, Print(f.value) + (f.after + t), broken);
      NoCommaFirst(f.value, f.after + t, gap, z);
    }
  }

  lemma KeyFirst(k: Key, s: string)
    requires k.Named?
    ensures (KeyText(k) + s)[0] == '"'
  {
    KeyPeel(k, s);
  }

  lemma ItemsPeel(es: seq<Elem>, s: string)
    requires es != []
    ensures PrintItems(es) + s == PrintElem(es[0]) + (PrintMore(es[1..]) + s)
  {
    hide PrintElem, PrintMore;
  }

  lemma MorePeel(es: seq<Elem>, s: string)
    ensures es == [] ==> PrintMore(es) + s == s
    ensures es != [] ==> PrintMore(es) + s == [','] + (PrintItems(es) + s)
  {
    hide PrintElem;
  }

  lemma BeforePeel(es: seq<Elem>, r: nat, s: string)
    requires 0 < r < |es|
    ensures Before(es, r) + s == PrintElem(es[0]) + ([','] + (Before(es[1..], r - 1) + s))
  {
    hide PrintElem;
  }

  lemma NoneBefore(es: seq<Elem>, s: string)
    requires es != []
    ensures Before(es, 0) + s == s
  {
  }

  lemma MemberWf(es: seq<Elem>, i: nat)
    requires WfItems(es, true) && i < |es|
    ensures WfElem(es[i], true) && WfItems(es[i + 1..], true)
  {
    hide WfElem;
  }

  lemma {:induction false} NoSuchItems(fs: seq<Elem>, s: string, es: seq<Elem>, r: nat, gap: string, z: string)
    requires WfItems(fs, true) && fs != [] && WfItems(es, true) && r < |es| && Ws(gap) && Closes(s)
    ensures PrintItems(fs) + s != Before(es, r) + (Head(es[r]) + (['{'] + (gap + ([','] + z))))
    decreases r
  {
    hide PrintElem, PrintItems, PrintMore, Before, WfElem, WfItems, Head, Ws, Print;
    var broken := Head(es[r]) + (['{'] + (gap + ([','] + z)));
    var u := PrintMore(fs[1..]) + s;
    MemberWf(fs, 0);
    MemberWf(es, 0);
    MemberWf(es, r);
    ItemsPeel(fs, s);
    MorePeel(fs[1..], s);
    if PrintItems(fs) + s == Before(es, r) + broken {
      if r == 0 {
        NoneBefore(es, broken);
        NoSuchMember(fs[0], u, es[0], gap, z);
      } else {
        var v := Before(es[1..], r - 1) + broken;
        BeforePeel(es, r, broken);
        ElemUnique(fs[0], es[0], true, u, [','] + v);
        Tail(',', PrintItems(fs[1..]) + s, v);
        NoSuchItems(fs[1..], s, es[1..], r - 1, gap, z);
      }
    }
  }

  /** The items before the k-th and its head open with white space and a quote. */
  lemma HeadLead(es: seq<Elem>, k: nat, x: string) returns (r: string)
    requires WfItems(es, true) && k < |es|
    ensures Ws(es[0].before) && r != "" && r[0] == '"' && Before(es, k) + (Head(es[k]) + x) == es[0].before + r
  {
    hide PrintElem, PrintItems, Before, WfItems, Head, Print, ValidRaw, KeyText, Ws;
    MemberWf(es, 0);
    if k == 0 {
      NoneBefore(es, Head(es[0]) + x);
      r := HeadFirst(es[0], x);
    } else {
      var more := [','] + (Before(es[1..], k - 1) + (Head(es[k]) + x));
      BeforePeel(es, k, Head(es[k]) + x);
      r := ElemLead(es[0], true, more);
      KeyFirst(es[0].key, Print(es[0].value) + (es[0].after + more));
    }
  }

  lemma HeadFirst(e: Elem, x: string) returns (r: string)
    requires WfElem(e, true)
    ensures Ws(e.before) && r != "" && r[0] == '"' && Head(e) + x == e.before + r
  {
    hide Ws, KeyText, ValidRaw, Wf;
    KeyPeel(e.key, x);
    r := KeyText(e.key) + x;
    assert Head(e) + x == e.before + r;
  }

  lemma NoSuchRoot(j: Json, t: string, es: seq<Elem>, k: nat, gap: string, z: string)
    requires Wf(j) && WfItems(es, true) && k < |es| && Ws(gap)
    ensures Print(j) + t != ['{'] + (Before(es, k) + (Head(es[k]) + (['{'] + (gap + ([','] + z)))))
  {
    FirstChar(j);
    PrintPeel(j, t);
    hide Print, PrintItems, PrintElem, Before, Head, WfItems, Ws;
    var x := ['{'] + (gap + ([','] + z));
    if Print(j) + t == ['{'] + (Before(es, k) + (Head(es[k]) + x)) {
      assert (Print(j) + t)[0] == Print(j)[0] == '{';
      Tail('{', Body(j.items, j.gap) + ("}" + t), Before(es, k) + (Head(es[k]) + x));
      if j.items == [] {
        var r := HeadLead(es, k, x);
        WsUnique(j.gap, es[0].before, "}" + t, r);
        assert false;
      } else {
        NoSuchItems(j.items, "}" + t, es, k, gap, z);
      }
    }
  }

  lemma MemberLeft(j: Json, k: nat)
    requires j.Obj? && k < |j.items|
    ensures HasPath(j, [k]) && At(j, [k]) == j.items[k].value
    ensures Left(j, [k]) == ['{'] + (Before(j.items, k) + Head(j.items[k]))
  {
    hide Before, Head;
    var p: Path := [k];
    assert p[1..] == [];
  }

  lemma Whole(lead: string, o: string, b: string, h: string, g: string, c: string, right: string, trail: string)
    ensures lead + ((o + (b + h)) + (g + c) + right) + trail == (lead + (o + (b + (h + g)))) + (c + (right + trail))
    ensures |lead + (o + (b + (h + g)))| == |lead| + |o + (b + h)| + |g|
  {
  }

  lemma Nested(lead: string, o: string, b: string, h: string, gap: string, y: string)
    ensures (lead + (o + (b + (h + (o + gap))))) + y == lead + (o + (b + (h + (o + (gap + y)))))
  {
  }

  lemma PrintedParts(d: Doc, left: string, v: string, right: string)
    requires Print(d.root) == left + v + right
    ensures PrintDoc(d) == d.lead + (left + v + right) + d.trail
  {
    hide Print;
  }

  lemma EmptyPrint(v: Json)
    requires v.Obj? && v.items == []
    ensures Print(v) == ['{'] + (v.gap + ['}']) && AddAt(v, false) == |v.gap| + 1
  {
  }

  lemma Braces(gap: string)
    ensures ['{'] + (gap + ['}']) == (['{'] + gap) + ['}'] && |['{'] + gap| == |['{'] + (gap + ['}'])| - 1
  {
  }

  lemma InsertAfter(a: string, b: string, x: string)
    ensures Insert(a + b, |a|, x) == a + (x + b)
  {
    assert (a + b)[..|a|] == a && (a + b)[|a|..] == b;
  }

  /** A document with text put into one of its empty objects. */
  lemma BrokenText(d: Doc, k: nat, x: string) returns (rest: string)
    requires d.root.Obj? && k < |d.root.items| && d.root.items[k].value.Obj? && d.root.items[k].value.items == []
    ensures HasPath(d.root, [k]) && At(d.root, [k]) == d.root.items[k].value
    ensures var v, es := d.root.items[k].value, d.root.items;
            var at := |d.lead| + |Left(d.root, [k])| + AddAt(v, false);
            && at <= |PrintDoc(d)|
            && Insert(PrintDoc(d), at, x)
               == d.lead + (['{'] + (Before(es, k) + (Head(es[k]) + (['{'] + (v.gap + (x + rest))))))
  {
    hide *;
    var v, es := d.root.items[k].value, d.root.items;
    MemberLeft(d.root, k);
    EmptyPrint(v);
    PrintAt(d.root, [k]);
    var b, h, g, right := Before(es, k), Head(es[k]), ['{'] + v.gap, Right(d.root, [k]);
    rest := ['}'] + (right + d.trail);
    var front := d.lead + (['{'] + (b + (h + g)));
    Whole(d.lead, ['{'], b, h, g, ['}'], right, d.trail);
    PrintedParts(d, Left(d.root, [k]), Print(v), right);
    Braces(v.gap);
    InsertAfter(front, rest, x);
    Whole(d.lead, ['{'], b, h, g, x, rest, "");
    Nested(d.lead, ['{'], b, h, v.gap, x + rest);
  }

  /**
   The field that the program appends to the first request member, when that is empty, comes after
   a comma: the result is the text of no document, whatever the field.
   */
  lemma EmptyRequestBreaks(d: Doc, x: string)
    requires WfDoc(d) && SupportedShape(AntigravityTarget, d.root) && EmptyRequest(AntigravityTarget, d.root)
    requires x != "" && x[0] == ','
    ensures d.root.Obj? && HasPath(d.root, [Find(d.root.items, "request")])
    ensures var v := At(d.root, [Find(d.root.items, "request")]);
            && v.Obj?
            && var at := |d.lead| + |Left(d.root, [Find(d.root.items, "request")])| + AddAt(v, false);
               at <= |PrintDoc(d)| && Parse(Insert(PrintDoc(d), at, x)).None?
  {
    hide Find, HolderAt, ListOf, Ws, WfElem, WfItems, Wf, Before, Head, Print, PrintDoc, Left, HasPath, At, Insert,
         Parse;
    hide SupportedShape, EmptyRequest, AddAt;
    RootIsObject(d.root);
    var k: nat := Find(d.root.items, "request");
    RequestEmpty(d, k);
    var v := d.root.items[k].value;
    var rest := BrokenText(d, k, x);
    NoSuchText(d.lead, d.root.items, k, v.gap, x, rest);
  }

  lemma RootIsObject(j: Json)
    requires SupportedShape(AntigravityTarget, j)
    ensures j.Obj?
  {
  }

  lemma NoSuchText(lead: string, es: seq<Elem>, k: nat, gap: string, x: string, rest: string)
    requires Ws(lead) && WfItems(es, true) && k < |es| && Ws(gap) && x != "" && x[0] == ','
    ensures Parse(lead + (['{'] + (Before(es, k) + (Head(es[k]) + (['{'] + (gap + (x + rest))))))).None?
  {
    hide Print, Wf, Ws, Before, Head, PrintItems, WfItems;
    var z := x[1..] + rest;
    assert x + rest == [','] + z;
    var broken := ['{'] + (Before(es, k) + (Head(es[k]) + (['{'] + (gap + ([','] + z)))));
    if Parse(lead + broken).Some? {
      var e := Parse(lead + broken).value;
      FirstChar(e.root);
      assert PrintDoc(e) == e.lead + (Print(e.root) + e.trail);
      WsUnique(e.lead, lead, Print(e.root) + e.trail, broken);
      NoSuchRoot(e.root, e.trail, es, k, gap, z);
    }
  }

  lemma ValueWf(e: Elem)
    requires WfElem(e, true)
    ensures Wf(e.value) && (e.value.Obj? ==> Ws(e.value.gap))
  {
    hide Ws, WfItems;
  }

  lemma RequestEmpty(d: Doc, k: nat)
    requires WfDoc(d) && SupportedShape(AntigravityTarget, d.root) && EmptyRequest(AntigravityTarget, d.root)
    requires k == Find(d.root.items, "request")
    ensures d.root.Obj? && k < |d.root.items| && WfItems(d.root.items, true) && Ws(d.lead)
    ensures var v := d.root.items[k].value; v.Obj? && v.items == [] && Ws(v.gap)
  {
    hide Find, HolderAt, ListOf, Ws, WfElem;
    assert Has(d.root, "request") && k < |d.root.items|;
    MemberWf(d.root.items, k);
    ValueWf(d.root.items[k]);
  }

  /* ---------- when a stage keeps JSON ---------- */

  lemma EmptyNotReady(to: Target, j: Json)
    requires EmptyRequest(to, j)
    ensures !Ready(to, j)
  {
    hide GeminiWalk;
    assert HolderAt(j, RequestKey(j)) == |j.items|;
  }

  /** What a stage writes there. */
  lemma StageWrites(d: Doc, to: Target, s: Stage)
    requires WfDoc(d) && SupportedShape(to, d.root) && EmptyRequest(to, d.root)
    requires !Contains(PrintDoc(d), s.start) && !Contains(PrintDoc(d), s.end)
    ensures Has(d.root, "request") && Get(d.root, "request").Obj?
    ensures 0 <= EmptyAt(d) <= |PrintDoc(d)| ==>
              InjectStage(PrintDoc(d), to, s) == Insert(PrintDoc(d), EmptyAt(d), EmptyText(d.root, s))
  {
    hide SupportedShape, EmptyRequest, Ready, PrintDoc, WfDoc, EmptyText, EmptyAt, Contains, Insert, Find, StageAt,
         StageText, Print;
    ParsePrint(d);
    EmptyNotReady(to, d.root);
    RequestThere(to, d.root);
  }

  lemma StageBreaks(d: Doc, to: Target, s: Stage)
    requires WfDoc(d) && SupportedShape(to, d.root) && EmptyRequest(to, d.root)
    requires !Contains(PrintDoc(d), s.start) && !Contains(PrintDoc(d), s.end)
    ensures Parse(InjectStage(PrintDoc(d), to, s)).None?
  {
    hide *;
    StageWrites(d, to, s);
    RequestThere(to, d.root);
    EmptyTextComma(d.root, s);
    EmptyPlace(d);
    EmptyRequestBreaks(d, EmptyText(d.root, s));
  }

  lemma EmptyPlace(d: Doc)
    requires Has(d.root, "request") && Get(d.root, "request").Obj?
    ensures d.root.Obj? && HasPath(d.root, [Find(d.root.items, "request")])
    ensures var v := At(d.root, [Find(d.root.items, "request")]);
            v.Obj? && EmptyAt(d) == |d.lead| + |Left(d.root, [Find(d.root.items, "request")])| + AddAt(v, false)
    ensures EmptyAt(d) >= 0
  {
    FindPath(d.root);
    MemberAt(d.root, Find(d.root.items, "request"));
    hide Find, Left, AddAt, HasPath, At;
  }

  lemma RequestThere(to: Target, j: Json)
    requires SupportedShape(to, j) && EmptyRequest(to, j)
    ensures to == AntigravityTarget && Has(j, "request") && Get(j, "request").Obj?
  {
    hide Find;
  }

  lemma EmptyTextComma(j: Json, s: Stage)
    requires Has(j, "request") && Get(j, "request").Obj?
    ensures EmptyText(j, s) != "" && EmptyText(j, s)[0] == ','
  {
    hide PrintElem, Encode, GeminiSystem;
  }

  /** A body into which a stage would write, but whose first request member is empty. */
  ghost predicate Broken(body: string, to: Target, s: Stage) {
    && Parse(body).Some? && EmptyRequest(to, Parse(body).value.root)
    && !Contains(body, s.start) && !Contains(body, s.end)
  }

  /** On a body of a supported shape a stage yields JSON if and only if it does not meet that case. */
  lemma StageKeepsJson(body: string, to: Target, s: Stage)
    requires Parse(body).Some? && SupportedShape(to, Parse(body).value.root) && Fenced(s)
    ensures Parse(InjectStage(body, to, s)).Some? <==> !Broken(body, to, s)
  {
    var d := Parse(body).value;
    hide SupportedShape, EmptyRequest, PrintDoc, WfDoc, Contains, InjectStage, StageDoc, Fenced, Texts, Wf;
    if EmptyRequest(to, d.root) {
      if Contains(body, s.start) || Contains(body, s.end) {
        StageIdle(body, to, s);
      } else {
        StageBreaks(d, to, s);
      }
    } else {
      StageOnBody(d, to, s);
      StageInserts(d, to, s);
      ParsePrint(StageDoc(d, to, s));
    }
  }

  lemma StageIdle(body: string, to: Target, s: Stage)
    requires Contains(body, s.start) || Contains(body, s.end) || Parse(body).None?
    ensures InjectStage(body, to, s) == body
  {
    hide Contains, Ready;
  }
}
