/** Where the blocks stand in instruction-text order: Caveman first, Ponytail last. */
module PromptBlocks {
  import opened Common
  import opened JsonText
  import opened JsonTree
  import opened JsonEdit
  import opened JsonGrow
  import opened Markers
  import opened Payloads
  import opened PromptSites
  import opened PromptSitesProofs
  import opened Prompts
  import opened PromptInsertion
  import opened PromptLaws
  import opened PromptOrder

  function CavemanLiteral(c: string): string { Encode(Block(CavemanStage(c))) }
  function PonytailLiteral(p: string): string { Encode(Block(PonytailStage(p))) }

  /** The Caveman block is at x, and no Ponytail block starts before it. */
  predicate Leads(raw: string, c: string, x: nat) {
    Occurs(raw, CavemanLiteral(c), x) && forall i: nat | i < x :: !Occurs(raw, PONYTAIL_START, i)
  }

  predicate EndsWith(s: string, t: string) { |t| <= |s| && s[|s| - |t|..] == t }

  /** A marker does not pass over a bracket. */
  lemma NoneOver(s: string, m: string, i: nat, x: nat)
    requires IsMarker(m) && Occurs(s, m, i) && i < x < |s| && s[x] == '['
    ensures i + |m| <= x
  {
    hide Occurs;
    if x < i + |m| { CharOf(s, m, i, x); }
  }

  lemma CharOf(s: string, m: string, i: nat, x: nat)
    requires Occurs(s, m, i) && i <= x < i + |m|
    ensures x < |s| && m[x - i] == s[x]
  {
  }

  lemma InFront(front: string, rest: string, m: string, i: nat)
    ensures i + |m| <= |front| ==> Occurs(front + rest, m, i) == Occurs(front, m, i)
  {
    assert i + |m| <= |front| ==> (front + rest)[i..i + |m|] == front[i..i + |m|];
  }

  lemma CavemanOpens(c: string)
    ensures CavemanLiteral(c) != "" && CavemanLiteral(c)[0] == '['
  {
    StagesFenced(c, "");
    BlockOpens(CavemanStage(c));
    hide Encode, Block, Bracketed;
    var e := CavemanLiteral(c);
    assert e[0] == e[0..|CAVEMAN_START|][0];
  }

  lemma LeadsAt(front: string, rest: string, c: string)
    requires !Contains(front, PONYTAIL_START)
    ensures Leads(front + (CavemanLiteral(c) + rest), c, |front|)
  {
    FourMarkers();
    TaggedMarker(PONYTAIL_START);
    CavemanOpens(c);
    hide CavemanLiteral, Bracketed, Tagged, IsMarker, Contains;
    var e, x := CavemanLiteral(c), |front|;
    var s := front + (e + rest);
    assert s[x..x + |e|] == e && s[x] == e[0];
    assert Occurs(s, e, x);
    hide Occurs;
    forall i: nat | i < x ensures !Occurs(s, PONYTAIL_START, i) {
      if Occurs(s, PONYTAIL_START, i) {
        NoneOver(s, PONYTAIL_START, i, x);
        InFront(front, e + rest, PONYTAIL_START, i);
        Occurring(front, PONYTAIL_START, i);
      }
    }
  }

  lemma TaggedMarker(m: string)
    requires Tagged(m)
    ensures IsMarker(m)
  {
  }

  /** Into whatever literal the Caveman block goes, it stands before every Ponytail block. */
  lemma CavemanLeads(raw: string, c: string) returns (x: nat)
    requires ValidRaw(raw)
    ensures Leads(FilledRaw(raw, CavemanStage(c)), c, x)
  {
    hide *;
    var k := IndexOf(raw, PONYTAIL_START);
    if k.Some? {
      BeforePonytail(raw, k.value, c);
      x := k.value;
    } else {
      AtTheEnd(raw, c);
      x := |raw + Break(raw)|;
    }
  }

  lemma BeforePonytail(raw: string, k: nat, c: string)
    requires IndexOf(raw, PONYTAIL_START) == Some(k)
    ensures k <= |raw| && Leads(FilledRaw(raw, CavemanStage(c)), c, k)
  {
    hide Encode, FilledRaw, Leads, Bracketed, Contains, IndexOf, Occurs, Block;
    FreeBefore(raw, k);
    var front, rest := raw[..k], raw[k..];
    assert raw == front + rest;
    BeforeMarker(front, rest, c);
    LeadsAt(front, Encode("\n\n") + rest, c);
    assert front + CavemanLiteral(c) + Encode("\n\n") + rest == front + (CavemanLiteral(c) + (Encode("\n\n") + rest));
  }

  lemma AtTheEnd(raw: string, c: string)
    requires ValidRaw(raw) && IndexOf(raw, PONYTAIL_START).None?
    ensures Leads(FilledRaw(raw, CavemanStage(c)), c, |raw + Break(raw)|)
  {
    CavemanFill(raw, c);
    BreakFree(raw);
    hide Encode, Block, FilledRaw, Leads, Bracketed, Break, Contains, IndexOf, Occurs;
    var front := raw + Break(raw);
    LeadsAt(front, "", c);
    assert front + (CavemanLiteral(c) + "") == front + CavemanLiteral(c);
  }

  lemma FreeBefore(raw: string, k: nat)
    requires IndexOf(raw, PONYTAIL_START) == Some(k)
    ensures k <= |raw| && !Contains(raw[..k], PONYTAIL_START)
  {
    hide Bracketed;
    FourMarkers();
    forall i: nat ensures !Occurs(raw[..k], PONYTAIL_START, i) {
      assert raw[..k] + raw[k..] == raw;
      InFront(raw[..k], raw[k..], PONYTAIL_START, i);
    }
  }

  /** A Ponytail block added at the end of the same literal comes after it. */
  lemma StillLeads(raw: string, c: string, p: string, x: nat)
    requires Leads(raw, c, x)
    ensures var next := FilledRaw(raw, PonytailStage(p));
            Leads(next, c, x) && x + |CavemanLiteral(c)| + |PonytailLiteral(p)| <= |next|
  {
    PonytailFill(raw, p);
    CavemanOpens(c);
    hide CavemanLiteral, Bracketed, FilledRaw, Break, Encode, Block;
    var more := Break(raw) + PonytailLiteral(p);
    assert FilledRaw(raw, PonytailStage(p)) == raw + more by {
      assert raw + Break(raw) + PonytailLiteral(p) == raw + more;
    }
    hide PonytailLiteral;
    LeadsLonger(raw, more, c, x);
  }

  lemma LeadsLonger(raw: string, more: string, c: string, x: nat)
    requires Leads(raw, c, x) && CavemanLiteral(c) != "" && CavemanLiteral(c)[0] == '['
    ensures Leads(raw + more, c, x) && x + |CavemanLiteral(c)| <= |raw|
  {
    FourMarkers();
    TaggedMarker(PONYTAIL_START);
    hide CavemanLiteral, Bracketed, Tagged, IsMarker;
    var e := CavemanLiteral(c);
    InFront(raw, more, e, x);
    assert (raw + more)[x] == raw[x..x + |e|][0];
    hide Occurs;
    forall i: nat | i < x ensures !Occurs(raw + more, PONYTAIL_START, i) {
      if Occurs(raw + more, PONYTAIL_START, i) {
        NoneOver(raw + more, PONYTAIL_START, i, x);
        InFront(raw, more, PONYTAIL_START, i);
      }
    }
  }

  lemma PonytailTrails(raw: string, p: string)
    ensures EndsWith(FilledRaw(raw, PonytailStage(p)), PonytailLiteral(p))
  {
    PonytailFill(raw, p);
    hide FilledRaw, Break, Encode, Block;
  }

  /* ---------- in the payload ---------- */

  ghost predicate RawAt(to: Target, j: Json, k: nat, raw: string) {
    && k < |Texts(to, j)| && HasPath(j, Texts(to, j)[k].path) && At(j, Texts(to, j)[k].path) == Str(raw)
  }

  /** The literal a stage leaves in the text it chose: the block put into what was there. */
  lemma StageRaw(to: Target, j: Json, s: Stage) returns (raw: string)
    requires Ready(to, j) && Wf(j) && Fenced(s)
    ensures var next := StageRoot(j, to, s);
            && Texts(to, next) != [] && ValidRaw(raw)
            && RawAt(to, next, ChosenText(to, next, s), FilledRaw(raw, s))
  {
    hide *;
    if Texts(to, j) == [] {
      raw := "";
      EmptyRaw();
      NewRaw(to, j, s);
    } else {
      raw := OldRaw(to, j, s);
    }
  }

  lemma EmptyRaw()
    ensures ValidRaw("")
  {
  }

  lemma OldRaw(to: Target, j: Json, s: Stage) returns (raw: string)
    requires Texts(to, j) != [] && Wf(j)
    ensures Ready(to, j)
    ensures var next := StageRoot(j, to, s);
            && Texts(to, next) != [] && ValidRaw(raw)
            && RawAt(to, next, ChosenText(to, next, s), FilledRaw(raw, s))
  {
    hide Texts, Supported, FilledRaw, HasPath, At, Put, StageRoot, Decode, Wf, ValidRaw, Print, Ready;
    FilledTexts(to, j, s);
    var p := Texts(to, j)[ChosenText(to, j, s)].path;
    raw := At(j, p).raw;
    AtWf(j, p);
    StrRaw(raw);
    PutAt(j, p, Str(FilledRaw(raw, s)));
  }

  lemma NewRaw(to: Target, j: Json, s: Stage)
    requires Ready(to, j) && Texts(to, j) == [] && Fenced(s)
    ensures var next := StageRoot(j, to, s);
            Texts(to, next) != [] && RawAt(to, next, ChosenText(to, next, s), FilledRaw("", s))
  {
    AddedTexts(to, j, s);
    var spot := SpotAt(to, j, s.first);
    hide Texts, Supported, HasPath, At, Put, SpotFits, Applied, NewPath, Encode, Block, SpotAt;
    AppliedTwice(j, spot, Encode(Block(s)), "");
    EmptyFill(s);
    hide FilledRaw;
  }

  lemma EmptyFill(s: Stage)
    requires Fenced(s)
    ensures FilledRaw("", s) == Encode(Block(s))
  {
    hide Encode, Block;
    assert "" + Encode(Block(s)) + "" == Encode(Block(s));
  }

  /** Another text keeps its literal when a stage writes into the last one. */
  lemma FirstKept(to: Target, j: Json, s: Stage, raw: string)
    requires !s.first && RawAt(to, j, 0, raw) && |Texts(to, j)| >= 2
    ensures Ready(to, j) && |Texts(to, StageRoot(j, to, s))| == |Texts(to, j)| && RawAt(to, StageRoot(j, to, s), 0, raw)
  {
    TextsApart(to, j);
    FilledTexts(to, j, s);
    var k := ChosenText(to, j, s);
    hide Texts, FilledRaw, HasPath, At, Put, StageRoot, Ready, Decode, Lt;
    var p, q := Texts(to, j)[0].path, Texts(to, j)[k].path;
    PutOther(j, p, q, Str(FilledRaw(At(j, q).raw, s)));
  }

  /** The only text is the one a stage writes into. */
  lemma SoleRaw(to: Target, j: Json, s: Stage, raw: string)
    requires RawAt(to, j, 0, raw) && |Texts(to, j)| == 1
    ensures Ready(to, j) && |Texts(to, StageRoot(j, to, s))| == 1
            && RawAt(to, StageRoot(j, to, s), 0, FilledRaw(raw, s))
  {
    hide Texts, FilledRaw, HasPath, At, Put, StageRoot, Ready, Decode;
    FilledTexts(to, j, s);
    PutAt(j, Texts(to, j)[0].path, Str(FilledRaw(raw, s)));
  }

  lemma StageWf(to: Target, j: Json, s: Stage)
    requires Ready(to, j) && Wf(j) && Fenced(s)
    ensures Wf(StageRoot(j, to, s))
  {
    hide Ready, Fenced, PrintDoc, Insert, StageAt, StageText, StageRoot;
    StageInserts(Doc("", j, ""), to, s);
  }

  /**
   The Caveman block is in the first instruction text, at x, and no Ponytail block starts before it
   there; a Ponytail block ends the last text; in a single text the one comes before the other.
   */
  ghost predicate OrderedBlocks(to: Target, k: Json, c: string, p: string, x: nat, first: string, last: string) {
    && Texts(to, k) != [] && RawAt(to, k, 0, first) && RawAt(to, k, |Texts(to, k)| - 1, last)
    && Leads(first, c, x) && EndsWith(last, PonytailLiteral(p))
    && (|Texts(to, k)| == 1 ==> x + |CavemanLiteral(c)| + |PonytailLiteral(p)| <= |last|)
  }

  /** So it is after both stages have run on a tree, whatever markers it had. */
  lemma BlocksInOrder(to: Target, j: Json, c: string, p: string) returns (x: nat, first: string, last: string)
    requires Ready(to, j) && Wf(j)
    ensures OrderedBlocks(to, Both(to, j, CavemanStage(c), PonytailStage(p)), c, p, x, first, last)
  {
    var a, b := CavemanStage(c), PonytailStage(p);
    StagesFenced(c, p);
    hide Ready, Wf, Texts, StageRoot, FilledRaw, Leads, EndsWith, CavemanLiteral, PonytailLiteral, Fenced, Tagged,
         ValidRaw, RawAt;
    var next := StageRoot(j, to, a);
    var raw := StageRaw(to, j, a);
    first := FilledRaw(raw, a);
    x := CavemanLeads(raw, c);
    TextsReady(to, next);
    StageWf(to, j, a);
    var r := StageRaw(to, next, b);
    last := FilledRaw(r, b);
    PonytailTrails(r, p);
    if |Texts(to, next)| >= 2 {
      FirstKept(to, next, b, first);
    } else {
      SoleRaw(to, next, b, first);
      StillLeads(first, c, p, x);
      RawSame(to, StageRoot(next, to, b), 0, last, FilledRaw(first, b));
      first := FilledRaw(first, b);
    }
  }

  lemma RawSame(to: Target, j: Json, k: nat, r: string, w: string)
    requires RawAt(to, j, k, r) && RawAt(to, j, k, w)
    ensures r == w
  {
    hide Texts, HasPath, At;
  }

  /**
   And so it is in the document that injecting both prompts into a body without markers gives, if
   the body is not one whose first request member is empty; then it gives none.
   */
  lemma InjectInOrder(body: string, route: Route, c: string, p: string)
    requires Injectable(body, route) && MarkerFree(body) && MarkerFree(c)
    ensures var result, to := Inject(body, route, Some(c), Some(p)), TargetOf(route.to).value;
            if EmptyRequest(to, Parse(body).value.root) then Parse(result).None?
            else Parse(result).Some?
                 && exists x, first, last :: OrderedBlocks(to, Parse(result).value.root, c, p, x, first, last)
  {
    hide MarkerFree, WfDoc, PrintDoc, Contains, InjectStage, Ready, Both, Fenced, Tagged, Texts, SupportedShape,
         EmptyRequest, OrderedBlocks, Wf;
    var to, d := TargetOf(route.to).value, Parse(body).value;
    var a, b := CavemanStage(c), PonytailStage(p);
    StagesFenced(c, p);
    FreeOf(body);
    FreeOf(c);
    if EmptyRequest(to, d.root) {
      InjectEmpty(body, route, Some(c), Some(p));
    } else {
      SupportedReady(to, d.root);
      BothOnBody(d, to, a, b);
      WfRoot(d);
      ParsePrint(d.(root := Both(to, d.root, a, b)));
      var x, first, last := BlocksInOrder(to, d.root, c, p);
    }
  }

  lemma WfRoot(d: Doc)
    requires WfDoc(d)
    ensures Wf(d.root)
  {
  }
}
