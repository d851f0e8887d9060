/** What an injection leaves: which instruction text holds the prompt, and what stands around it. */
module PromptExact {
  import opened Common
  import opened JsonText
  import opened JsonTree
  import opened JsonEdit
  import opened Markers
  import opened Payloads
  import opened PromptSites
  import opened PromptSitesProofs
  import opened Prompts
  import opened PromptInsertion
  import opened PromptLaws

  /**
   k is j with a prompt between its markers. Without instruction texts that is the only one there
   is afterwards. Otherwise the first or the last one gets it, all others being kept: where the other
   prompt's marker stands in the literal, before it and followed by a blank line; else at the end,
   after a blank line if there is any text.
   */
  ghost predicate Prompted(to: Target, j: Json, k: Json, start: string, prompt: string, end: string,
                           ahead: Option<string>, first: bool)
  {
    var ts, us := Texts(to, j), Texts(to, k);
    if ts == [] then |us| == 1 && us[0].text == start + "\n" + prompt + "\n" + end
    else
      var n := if first then 0 else |ts| - 1;
      && |us| == |ts|
      && (forall i | 0 <= i < |ts| && i != n :: us[i] == ts[i])
      && us[n].path == ts[n].path && HasPath(j, ts[n].path) && At(j, ts[n].path).Str?
      && var raw := At(j, ts[n].path).raw;
         if ahead.Some? && IndexOf(raw, ahead.value).Some? then
           var m := IndexOf(raw, ahead.value).value;
           && ts[n].text == Decode(raw[..m]) + Decode(raw[m..])
           && us[n].text == Decode(raw[..m]) + (start + "\n" + prompt + "\n" + end) + "\n\n" + Decode(raw[m..])
         else
           us[n].text == ts[n].text + (if ts[n].text == "" then "" else "\n\n") + (start + "\n" + prompt + "\n" + end)
  }

  lemma FilledExact(raw: string, s: Stage)
    requires Fenced(s) && ValidRaw(raw)
    ensures var block := s.start + "\n" + s.prompt + "\n" + s.end;
            if s.insertBefore.Some? && IndexOf(raw, s.insertBefore.value).Some? then
              var m := IndexOf(raw, s.insertBefore.value).value;
              && Decode(raw) == Decode(raw[..m]) + Decode(raw[m..])
              && Decode(FilledRaw(raw, s)) == Decode(raw[..m]) + block + "\n\n" + Decode(raw[m..])
            else Decode(FilledRaw(raw, s)) == Decode(raw) + (if Decode(raw) == "" then "" else "\n\n") + block
  {
    FilledText(raw, s);
    CutExact(raw, s);
    InsertionExact(raw, s);
    DecodeNothing();
    var block, k := s.start + "\n" + s.prompt + "\n" + s.end, Cut(raw, s);
    hide *;
    WholeAndNothing(raw);
    Assoc(Decode(raw[..k]), block, Decode(raw[k..]));
    Assoc(Decode(raw), block, "");
  }

  lemma CutExact(raw: string, s: Stage)
    ensures Cut(raw, s) == if s.insertBefore.Some? && IndexOf(raw, s.insertBefore.value).Some?
                           then IndexOf(raw, s.insertBefore.value).value else |raw|
  {
  }

  lemma InsertionExact(raw: string, s: Stage)
    ensures var block := s.start + "\n" + s.prompt + "\n" + s.end;
            Insertion(raw, s) == if s.insertBefore.Some? && IndexOf(raw, s.insertBefore.value).Some?
                                 then block + "\n\n" else (if Decode(raw) == "" then "" else "\n\n") + block
  {
    hide Decode, IndexOf;
  }

  lemma WholeAndNothing(raw: string)
    ensures raw[..|raw|] == raw && raw[|raw|..] == ""
  {
  }

  lemma Assoc(a: string, block: string, b: string)
    ensures a + (block + "\n\n") + b == a + block + "\n\n" + b
    ensures a + ("" + block) + "" == a + "" + block && a + ("\n\n" + block) + "" == a + "\n\n" + block
  {
  }

  lemma DecodeNothing()
    ensures Decode("") == ""
  {
  }

  lemma StageExact(to: Target, j: Json, s: Stage)
    requires Ready(to, j) && Fenced(s) && Wf(j)
    ensures Prompted(to, j, StageRoot(j, to, s), s.start, s.prompt, s.end, s.insertBefore, s.first)
  {
    hide Texts, HasPath, At, Decode, FilledRaw, StageRoot, Ready, ValidRaw, Fenced;
    if Texts(to, j) == [] {
      AloneExact(to, j, s);
    } else {
      var ts, n := Texts(to, j), ChosenText(to, j, s);
      FilledTexts(to, j, s);
      TextsApart(to, j);
      AtWf(j, ts[n].path);
      RawOf(At(j, ts[n].path));
      FilledExact(At(j, ts[n].path).raw, s);
    }
  }

  lemma RawOf(v: Json)
    requires v.Str? && Wf(v)
    ensures ValidRaw(v.raw)
  {
    hide ValidRaw;
  }

  lemma AloneExact(to: Target, j: Json, s: Stage)
    requires Ready(to, j) && Texts(to, j) == []
    ensures var us := Texts(to, StageRoot(j, to, s));
            |us| == 1 && us[0].text == s.start + "\n" + s.prompt + "\n" + s.end
  {
    AddedTexts(to, j, s);
    hide Texts, SpotFits, Applied, RawFor, NewPath;
  }

  /** One stage on a body: nothing if one of its markers is there, or else its prompt. */
  ghost predicate Turned(to: Target, body: string, j: Json, k: Json, prompt: Option<string>, start: string, end: string,
                         ahead: Option<string>, first: bool)
  {
    if prompt.None? || Contains(body, start) || Contains(body, end) then k == j
    else Prompted(to, j, k, start, prompt.value, end, ahead, first)
  }

  lemma TurnExact(d: Doc, to: Target, s: Stage) returns (next: Doc)
    requires WfDoc(d) && Ready(to, d.root) && Fenced(s)
    ensures WfDoc(next) && Ready(to, next.root) && InjectStage(PrintDoc(d), to, s) == PrintDoc(next)
    ensures Turned(to, PrintDoc(d), d.root, next.root, Some(s.prompt), s.start, s.end, s.insertBefore, s.first)
  {
    StageOnBody(d, to, s);
    next := d;
    if !Contains(PrintDoc(d), s.start) && !Contains(PrintDoc(d), s.end) {
      RootWf(d);
      StageInserts(d, to, s);
      StageExact(to, d.root, s);
      StageReady(to, d.root, s);
      TextsReady(to, StageRoot(d.root, to, s));
      next := StageDoc(d, to, s);
    }
    hide WfDoc, PrintDoc, Ready, Prompted, StageRoot, Contains, InjectStage, Fenced;
  }

  lemma RootWf(d: Doc)
    requires WfDoc(d)
    ensures Wf(d.root)
  {
  }

  /**
   Injecting into a body that takes prompts: first Caveman's, before a Ponytail marker if the first
   instruction text holds one, and then Ponytail's at the end of the last.
   */
  lemma InjectExact(body: string, route: Route, caveman: Option<string>, ponytail: Option<string>)
    requires Injectable(body, route) && !EmptyRequest(TargetOf(route.to).value, Parse(body).value.root)
    ensures var result, to := Inject(body, route, caveman, ponytail), TargetOf(route.to).value;
            && Parse(result).Some?
            && exists middle: Doc ::
              && Turned(to, body, Parse(body).value.root, middle.root, caveman, CAVEMAN_START, CAVEMAN_END,
                        Some(PONYTAIL_START), true)
              && Turned(to, PrintDoc(middle), middle.root, Parse(result).value.root, ponytail, PONYTAIL_START,
                        PONYTAIL_END, None, false)
  {
    var to, d := TargetOf(route.to).value, Parse(body).value;
    hide SupportedShape, EmptyRequest, WfDoc, PrintDoc, Ready, Turned, InjectStage, Fenced;
    SupportedReady(to, d.root);
    var c, p := if caveman.Some? then caveman.value else "", if ponytail.Some? then ponytail.value else "";
    StagesFenced(c, p);
    NotTurned(to, body, d.root, CAVEMAN_START, CAVEMAN_END, Some(PONYTAIL_START), true);
    var middle := d;
    if caveman.Some? { middle := TurnExact(d, to, CavemanStage(c)); }
    NotTurned(to, PrintDoc(middle), middle.root, PONYTAIL_START, PONYTAIL_END, None, false);
    var last := middle;
    if ponytail.Some? { last := TurnExact(middle, to, PonytailStage(p)); }
    ParsePrint(last);
  }

  lemma NotTurned(to: Target, body: string, j: Json, start: string, end: string, ahead: Option<string>, first: bool)
    ensures Turned(to, body, j, j, None, start, end, ahead, first)
  {
    hide Contains, Prompted;
  }
}
