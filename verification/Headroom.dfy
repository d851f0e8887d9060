/** What the adapter sends, the check on what comes back, and the rewriting of the payload. */
module Headroom {
  import opened Common
  import opened JsonText
  import opened JsonTree
  import opened JsonEdit
  import opened JsonQuery
  import opened JsonSlots
  import opened JsonSplice
  import opened JsonValue
  import opened Protocol
  import opened Projection
  import opened ProjectionProofs
  import opened Rewriting
  import Payloads

  const MASKED: string := "__CPA_HEADROOM_MUTABLE_TEXT__"

  /* ---------- messages from templates and texts ---------- */

  function Holes(t: Template): nat {
    match t.content
    case Fixed(_) => 0
    case TextHole => 1
    case BlockHoles(bs) => |bs|
  }

  function TotalHoles(ts: seq<Template>): nat {
    if ts == [] then 0 else Holes(ts[0]) + TotalHoles(ts[1..])
  }

  function Fill(t: Template, texts: seq<string>): JValue
    requires |texts| == Holes(t)
  {
    match t.content
    case Fixed(None) => VObj(t.members)
    case Fixed(Some(v)) => VObj(t.members["content" := v])
    case TextHole => VObj(t.members["content" := VStr(texts[0])])
    case BlockHoles(bs) => VObj(t.members["content" := BlockTexts(bs, texts)])
  }

  /** The messages of a projection, with these texts in its holes. */
  function FillAll(ts: seq<Template>, texts: seq<string>): (ms: seq<JValue>)
    requires |texts| == TotalHoles(ts)
    ensures |ms| == |ts|
  {
    if ts == [] then []
    else [Fill(ts[0], texts[..Holes(ts[0])])] + FillAll(ts[1..], texts[Holes(ts[0])..])
  }

  /** Where a hole is: the message, and the content block or -1. */
  datatype Target = Target(message: nat, block: int)

  function TargetsOf(t: Template, m: nat): (r: seq<Target>)
    ensures |r| == Holes(t)
  {
    match t.content
    case Fixed(_) => []
    case TextHole => [Target(m, -1)]
    case BlockHoles(bs) => seq(|bs|, i => Target(m, i))
  }

  function Targets(ts: seq<Template>, m: nat): (r: seq<Target>)
    ensures |r| == TotalHoles(ts)
  {
    if ts == [] then [] else TargetsOf(ts[0], m) + Targets(ts[1..], m + 1)
  }

  function TextIn(v: JValue, key: string): Option<string> {
    if v.VObj? && key in v.fields && v.fields[key].VStr? then Some(v.fields[key].s) else None
  }

  /** The text a message has at a target, if it has the projected shape there. */
  function Read(ms: seq<JValue>, t: Target): Option<string> {
    if t.message >= |ms| || !ms[t.message].VObj? then None
    else if t.block < 0 then TextIn(ms[t.message], "content")
    else
      var fs := ms[t.message].fields;
      if "content" !in fs || !fs["content"].VArr? || t.block >= |fs["content"].items| then None
      else TextIn(fs["content"].items[t.block], "text")
  }

  function SetText(v: JValue, key: string, s: string): JValue
    requires v.VObj?
  {
    VObj(v.fields[key := VStr(s)])
  }

  function Write(ms: seq<JValue>, t: Target, s: string): seq<JValue>
    requires Read(ms, t).Some?
  {
    var m := ms[t.message];
    if t.block < 0 then ms[t.message := SetText(m, "content", s)]
    else
      var blocks := m.fields["content"].items;
      ms[t.message := VObj(m.fields["content" := VArr(blocks[t.block := SetText(blocks[t.block], "text", s)])])]
  }

  /** Reading and masking every target, first to last. */
  function Mask(ms: seq<JValue>, targets: seq<Target>): Option<(seq<JValue>, seq<string>)>
    decreases |targets|
  {
    if targets == [] then Some((ms, []))
    else if Read(ms, targets[0]).None? then None
    else
      match Mask(Write(ms, targets[0], MASKED), targets[1..])
      case None => None
      case Some((masked, texts)) => Some((masked, [Read(ms, targets[0]).value] + texts))
  }

  predicate Emptied(originals: seq<string>, texts: seq<string>) {
    exists i | 0 <= i < |originals| && i < |texts| :: originals[i] != "" && texts[i] == ""
  }

  /** The replacement texts of a response, if it is acceptable. */
  function Validate(p: Projected, response: seq<JValue>): Option<seq<string>>
    requires |p.slots| == TotalHoles(p.templates)
  {
    var targets := Targets(p.templates, 0);
    var expected := Mask(FillAll(p.templates, Texts(p.slots)), targets);
    var actual := Mask(response, targets);
    if |response| != |p.templates| || actual.None? || Emptied(Texts(p.slots), actual.value.1) then None
    else if expected.None? || expected.value.0 != actual.value.0 then None
    else Some(actual.value.1)
  }

  /* ---------- masking loses no difference ---------- */

  lemma SetTextLaws(v: JValue, key: string, s: string, y: string)
    requires v.VObj?
    ensures TextIn(SetText(v, key, s), key) == Some(s)
    ensures SetText(SetText(v, key, s), key, y) == SetText(v, key, y)
    ensures TextIn(v, key) == Some(y) ==> SetText(v, key, y) == v
  {
    assert v.fields[key := VStr(s)][key := VStr(y)] == v.fields[key := VStr(y)];
    if TextIn(v, key) == Some(y) { assert v.fields[key := VStr(y)] == v.fields; }
  }

  /** The message with one block's text set. */
  function SetBlock(m: JValue, i: nat, s: string): JValue
    requires m.VObj? && "content" in m.fields && m.fields["content"].VArr?
    requires i < |m.fields["content"].items| && m.fields["content"].items[i].VObj?
  {
    var bs := m.fields["content"].items;
    VObj(m.fields["content" := VArr(bs[i := SetText(bs[i], "text", s)])])
  }

  lemma SetBlockLaws(m: JValue, i: nat, s: string, y: string)
    requires m.VObj? && "content" in m.fields && m.fields["content"].VArr?
    requires i < |m.fields["content"].items| && m.fields["content"].items[i].VObj?
    ensures var w := SetBlock(m, i, s);
            && w.fields["content"].items[i] == SetText(m.fields["content"].items[i], "text", s)
            && SetBlock(w, i, y) == SetBlock(m, i, y)
    ensures TextIn(m.fields["content"].items[i], "text") == Some(y) ==> SetBlock(m, i, y) == m
  {
    var bs := m.fields["content"].items;
    var w := SetBlock(m, i, s);
    var cs := bs[i := SetText(bs[i], "text", s)];
    assert w.fields["content"] == VArr(cs);
    SetTextLaws(bs[i], "text", s, y);
    hide SetText, TextIn;
    assert cs[i := SetText(cs[i], "text", y)] == bs[i := SetText(bs[i], "text", y)];
    assert w.fields["content" := VArr(bs[i := SetText(bs[i], "text", y)])]
        == m.fields["content" := VArr(bs[i := SetText(bs[i], "text", y)])];
    if TextIn(bs[i], "text") == Some(y) {
      assert bs[i := SetText(bs[i], "text", y)] == bs;
      assert m.fields["content" := VArr(bs)] == m.fields;
    }
  }

  lemma WriteBack(ms: seq<JValue>, t: Target, s: string, x: string)
    requires Read(ms, t) == Some(x)
    ensures Read(Write(ms, t, s), t) == Some(s)
    ensures Write(Write(ms, t, s), t, x) == ms
  {
    var m := ms[t.message];
    if t.block < 0 {
      SetTextLaws(m, "content", s, x);
      hide SetText;
      assert ms[t.message := SetText(m, "content", s)][t.message := m] == ms;
    } else {
      SetBlockLaws(m, t.block, s, x);
      SetTextLaws(m.fields["content"].items[t.block], "text", s, x);
      WriteIsSetBlock(ms, t, s);
      WriteIsSetBlock(Write(ms, t, s), t, x);
      hide SetText, SetBlock, Write;
      assert ms[t.message := SetBlock(m, t.block, s)][t.message := m] == ms;
    }
  }

  lemma WriteIsSetBlock(ms: seq<JValue>, t: Target, s: string)
    requires Read(ms, t).Some? && t.block >= 0
    ensures Write(ms, t, s) == ms[t.message := SetBlock(ms[t.message], t.block, s)]
  {
  }

  function Unmask(ms: seq<JValue>, targets: seq<Target>, texts: seq<string>): Option<seq<JValue>>
    requires |targets| == |texts|
  {
    if targets == [] then Some(ms)
    else
      var rest := Unmask(ms, targets[1..], texts[1..]);
      if rest.None? || Read(rest.value, targets[0]).None? then None
      else Some(Write(rest.value, targets[0], texts[0]))
  }

  lemma {:induction false} UnmaskMasked(ms: seq<JValue>, targets: seq<Target>)
    requires Mask(ms, targets).Some?
    ensures |Mask(ms, targets).value.1| == |targets|
    ensures Unmask(Mask(ms, targets).value.0, targets, Mask(ms, targets).value.1) == Some(ms)
    decreases |targets|
  {
    hide Read, Write;
    if targets != [] {
      UnmaskMasked(Write(ms, targets[0], MASKED), targets[1..]);
      WriteBack(ms, targets[0], MASKED, Read(ms, targets[0]).value);
      var texts := Mask(ms, targets).value.1;
      assert texts[1..] == Mask(Write(ms, targets[0], MASKED), targets[1..]).value.1;
    }
  }

  /** A hole of one template. */
  lemma FillOne(t: Template, m: nat, xs: seq<string>, k: nat, s: string)
    requires |xs| == Holes(t) && k < |xs|
    ensures var i, v := TargetsOf(t, m)[k].block, Fill(t, xs);
            && TargetsOf(t, m)[k].message == m && v.VObj?
            && (i < 0 ==> TextIn(v, "content") == Some(xs[k]) && SetText(v, "content", s) == Fill(t, xs[k := s]))
            && (i >= 0 ==> "content" in v.fields && v.fields["content"].VArr? && i < |v.fields["content"].items|
                           && TextIn(v.fields["content"].items[i], "text") == Some(xs[k])
                           && SetBlock(v, i, s) == Fill(t, xs[k := s]))
  {
    match t.content
    case TextHole =>
      assert t.members["content" := VStr(xs[0])]["content" := VStr(s)] == t.members["content" := VStr(s)];
    case BlockHoles(bs) =>
      var v := Fill(t, xs);
      var items := v.fields["content"].items;
      assert bs[k]["text" := VStr(xs[k])]["text" := VStr(s)] == bs[k]["text" := VStr(s)];
      assert SetText(items[k], "text", s) == BlockValue(bs[k], s);
      FillBlocks(bs, xs, k, s);
      assert v.fields["content" := BlockTexts(bs, xs[k := s])] == t.members["content" := BlockTexts(bs, xs[k := s])];
  }

  lemma FillBlocks(bs: seq<Members>, xs: seq<string>, k: nat, s: string)
    requires k < |bs| == |xs|
    ensures BlockTexts(bs, xs).items[k := BlockValue(bs[k], s)] == BlockTexts(bs, xs[k := s]).items
  {
    hide BlockValue;
  }

  lemma FillHead(before: seq<JValue>, t: Template, xs: seq<string>, rest: seq<JValue>, k: nat, s: string)
    requires |xs| == Holes(t) && k < |xs|
    ensures var ms, target := before + [Fill(t, xs)] + rest, TargetsOf(t, |before|)[k];
            && Read(ms, target) == Some(xs[k])
            && Write(ms, target, s) == before + [Fill(t, xs[k := s])] + rest
  {
    var ms, target := before + [Fill(t, xs)] + rest, TargetsOf(t, |before|)[k];
    FillOne(t, |before|, xs, k, s);
    hide Fill, SetText, TextIn, TargetsOf;
    assert ms[|before|] == Fill(t, xs);
    if target.block >= 0 { WriteIsSetBlock(ms, target, s); }
    hide SetBlock;
    assert ms[|before| := Fill(t, xs[k := s])] == before + [Fill(t, xs[k := s])] + rest;
  }

  /** Writing at a target of filled messages fills its hole. */
  lemma {:induction false} FillWrite(before: seq<JValue>, ts: seq<Template>, texts: seq<string>, k: nat, s: string)
    requires |texts| == TotalHoles(ts) && k < |texts|
    ensures var ms, t := before + FillAll(ts, texts), Targets(ts, |before|)[k];
            && Read(ms, t) == Some(texts[k])
            && Write(ms, t, s) == before + FillAll(ts, texts[k := s])
    decreases |ts|
  {
    var n := Holes(ts[0]);
    var head, rest := Fill(ts[0], texts[..n]), FillAll(ts[1..], texts[n..]);
    FillSplit(before, ts, texts);
    FillSplit(before, ts, texts[k := s]);
    assert Targets(ts, |before|)[k] == if k < n then TargetsOf(ts[0], |before|)[k]
                                         else Targets(ts[1..], |before| + 1)[k - n];
    assert TotalHoles(ts) == n + TotalHoles(ts[1..]);
    hide *;
    if k < n {
      assert texts[k := s][..n] == texts[..n][k := s] && texts[k := s][n..] == texts[n..];
      FillHead(before, ts[0], texts[..n], rest, k, s);
    } else {
      assert texts[k := s][..n] == texts[..n] && texts[k := s][n..] == texts[n..][k - n := s];
      FillWrite(before + [head], ts[1..], texts[n..], k - n, s);
    }
  }

  lemma FillSplit(before: seq<JValue>, ts: seq<Template>, texts: seq<string>)
    requires |texts| == TotalHoles(ts) && ts != []
    ensures var n := Holes(ts[0]);
            before + FillAll(ts, texts) == before + [Fill(ts[0], texts[..n])] + FillAll(ts[1..], texts[n..])
  {
    hide Fill;
  }

  /** The first i texts are masked. */
  function Masks(texts: seq<string>, i: nat): (r: seq<string>)
    requires i <= |texts|
    ensures |r| == |texts|
  {
    seq(|texts|, k requires 0 <= k < |texts| => if k < i then MASKED else texts[k])
  }

  lemma FillTarget(ts: seq<Template>, texts: seq<string>, k: nat, s: string)
    requires |texts| == TotalHoles(ts) && k < |texts|
    ensures Read(FillAll(ts, texts), Targets(ts, 0)[k]) == Some(texts[k])
    ensures Write(FillAll(ts, texts), Targets(ts, 0)[k], s) == FillAll(ts, texts[k := s])
  {
    hide FillAll, Read, Write, Targets;
    FillWrite([], ts, texts, k, s);
    assert [] + FillAll(ts, texts) == FillAll(ts, texts);
    assert [] + FillAll(ts, texts[k := s]) == FillAll(ts, texts[k := s]);
  }

  lemma {:induction false} MaskFilled(ts: seq<Template>, texts: seq<string>, i: nat)
    requires |texts| == TotalHoles(ts) && i <= |texts|
    ensures Mask(FillAll(ts, Masks(texts, i)), Targets(ts, 0)[i..])
            == Some((FillAll(ts, Masks(texts, |texts|)), texts[i..]))
    decreases |texts| - i
  {
    hide FillAll, Read, Write, Targets;
    if i == |texts| {
    } else {
      FillTarget(ts, Masks(texts, i), i, MASKED);
      assert Masks(texts, i)[i := MASKED] == Masks(texts, i + 1);
      MaskFilled(ts, texts, i + 1);
      var targets := Targets(ts, 0)[i..];
      assert targets[1..] == Targets(ts, 0)[i + 1..] && texts[i..] == [texts[i]] + texts[i + 1..];
    }
  }

  lemma {:induction false} UnmaskFilled(ts: seq<Template>, texts: seq<string>, i: nat)
    requires |texts| == TotalHoles(ts) && i <= |texts|
    ensures Unmask(FillAll(ts, Masks(texts, |texts|)), Targets(ts, 0)[i..], texts[i..])
            == Some(FillAll(ts, Masks(texts, i)))
    decreases |texts| - i
  {
    hide FillAll, Read, Write, Targets;
    if i < |texts| {
      UnmaskFilled(ts, texts, i + 1);
      var targets := Targets(ts, 0)[i..];
      assert targets[1..] == Targets(ts, 0)[i + 1..] && texts[i..][1..] == texts[i + 1..];
      FillTarget(ts, Masks(texts, i + 1), i, texts[i]);
      assert Masks(texts, i + 1)[i := texts[i]] == Masks(texts, i);
    }
  }

  /**
   A response is accepted exactly when it is the sent messages with other texts in the holes,
   none of them emptied; and then those texts are what is returned.
   */
  lemma ValidateExact(p: Projected, response: seq<JValue>, texts: seq<string>)
    requires |p.slots| == TotalHoles(p.templates)
    ensures Validate(p, response) == Some(texts)
            <==> && |texts| == |p.slots| && response == FillAll(p.templates, texts)
                 && forall i | 0 <= i < |texts| && p.slots[i].text != "" :: texts[i] != ""
  {
    var ts, originals := p.templates, Texts(p.slots);
    var targets := Targets(ts, 0);
    if |texts| == |p.slots| { EmptiedIs(p.slots, texts); }
    hide FillAll, Read, Write, Targets, Emptied, Texts;
    var all := FillAll(ts, Masks(originals, |originals|));
    MaskFilled(ts, originals, 0);
    assert Masks(originals, 0) == originals && targets[0..] == targets && originals[0..] == originals;
    assert Mask(FillAll(ts, originals), targets) == Some((all, originals));
    if |texts| == |p.slots| {
      assert Masks(texts, |texts|) == Masks(originals, |originals|);
      assert Masks(texts, 0) == texts && texts[0..] == texts;
      MaskFilled(ts, texts, 0);
      UnmaskFilled(ts, texts, 0);
      assert Mask(FillAll(ts, texts), targets) == Some((all, texts));
      assert Unmask(all, targets, texts) == Some(FillAll(ts, texts));
    }
    if Mask(response, targets).Some? { UnmaskMasked(response, targets); }
    hide Mask, Unmask;
  }

  lemma EmptiedIs(slots: seq<TextSlot>, texts: seq<string>)
    requires |texts| == |slots|
    ensures !Emptied(Texts(slots), texts)
            <==> forall i | 0 <= i < |texts| && slots[i].text != "" :: texts[i] != ""
  {
  }

  /* ---------- what a projection guarantees ---------- */

  predicate MutableRole(members: Members) {
    "role" in members && members["role"] != VStr("system") && members["role"] != VStr("developer")
  }

  /** System and developer messages have no holes. */
  predicate MutableHoles(ts: seq<Template>) {
    forall i | 0 <= i < |ts| && !ts[i].content.Fixed? :: MutableRole(ts[i].members)
  }

  predicate Sound(p: Projected) {
    TotalHoles(p.templates) == |p.slots| && MutableHoles(p.templates)
  }

  lemma {:induction false} HolesConcat(a: seq<Template>, b: seq<Template>)
    ensures TotalHoles(a + b) == TotalHoles(a) + TotalHoles(b)
  {
    if a == [] {
      assert a + b == b;
    } else {
      assert (a + b)[1..] == a[1..] + b;
      HolesConcat(a[1..], b);
    }
  }

  predicate NoHoles(ts: seq<Template>) {
    forall i | 0 <= i < |ts| :: ts[i].content.Fixed?
  }

  lemma {:induction false} NoHolesTotal(ts: seq<Template>)
    requires NoHoles(ts)
    ensures TotalHoles(ts) == 0 && MutableHoles(ts)
  {
    if ts != [] { NoHolesTotal(ts[1..]); }
  }

  lemma {:induction false} SystemPartsFixed(es: seq<Elem>)
    requires SystemParts(es).Some?
    ensures NoHoles(SystemParts(es).value)
  {
    if es != [] { SystemPartsFixed(es[1..]); }
  }

  lemma ChatInto(j: Json)
    requires j.Obj? && ChatStep(j).Into?
    ensures var step := ChatStep(j);
            && step.before == [] && (step.sub.Hole? || step.sub.Holes?) && step.sub.members == Fields(j, "content")
            && ValidRole(TextAt(j, "role")) && Mutable(TextAt(j, "role"))
  {
    hide Blocks, Find, ToolFieldsOk, Fields, TextAt, Value, Has, Get, PresentAt, ValidRole, Mutable;
  }

  lemma ChatRole(j: Json)
    requires j.Obj? && ChatStep(j).Into?
    ensures ChatStep(j).before == [] && (ChatStep(j).sub.Hole? || ChatStep(j).sub.Holes?)
            && MutableRole(ChatStep(j).sub.members)
  {
    ChatInto(j);
    hide ChatStep, TextAt, Fields;
    FieldsRole(j);
  }

  lemma FieldsRole(j: Json)
    requires j.Obj? && TextAt(j, "role") != ""
    ensures "role" in Fields(j, "content") && Fields(j, "content")["role"] == VStr(TextAt(j, "role"))
  {
    hide Find, Decode;
    assert "role" in Names(j.items);
  }

  predicate RoleOk(n: Level) {
    n.ClaudeContent? || n.GeminiPiece? ==> n.role == "user" || n.role == "assistant" || n.role == "model"
  }

  predicate SubOk(sub: Sub) {
    && (sub.Hole? || sub.Holes? || sub.Sole? ==> MutableRole(sub.members))
    && (sub.EachItem? || sub.Down? ==> RoleOk(sub.level))
  }

  predicate StepOk(step: Step) {
    && (step.Emit? ==> NoHoles(step.fixed))
    && (step.Into? ==> NoHoles(step.before) && SubOk(step.sub))
  }

  lemma ChatSound(j: Json)
    requires j.Obj?
    ensures StepOk(ChatStep(j))
  {
    hide ChatStep, MutableRole, RoleOk;
    if ChatStep(j).Into? { ChatRole(j); } else { ChatEmits(j); }
  }

  lemma ChatEmits(j: Json)
    requires j.Obj?
    ensures ChatStep(j).Emit? ==> |ChatStep(j).fixed| == 1 && ChatStep(j).fixed[0].content.Fixed?
  {
    hide Blocks, Find, TextAt, Fields, ToolFieldsOk, Value, Has, Get, PresentAt, ValidRole, Mutable;
  }

  lemma MessageSound(j: Json)
    requires j.Obj?
    ensures StepOk(MessageStep(j)) && StepOk(OutputStep(j))
  {
    hide Blocks, Find, TextAt, Has, Get;
  }

  lemma PartSound(j: Json, role: string, marshal: JValue -> string)
    requires j.Obj? && (role == "user" || role == "assistant" || role == "model")
    ensures StepOk(PartStep(j, role, marshal)) && StepOk(ClaudeBlockStep(j, role, marshal))
  {
    hide Find, TextAt, Has, Get, GeminiId, Value;
    assert VStr(role) != VStr("system") && VStr(role) != VStr("developer");
  }

  lemma GeminiSystemFixed(j: Json)
    requires GeminiSystem(j).Some?
    ensures NoHoles(GeminiSystem(j).value)
  {
    hide Find, SystemParts;
    var key := if Has(j, "systemInstruction") then "systemInstruction" else "system_instruction";
    if Has(j, key) { SystemPartsFixed(Get(Get(j, key), "parts").items); }
  }

  lemma ClaudeSystemFixed(j: Json)
    requires ClaudeSystem(j).Some?
    ensures NoHoles(ClaudeSystem(j).value)
  {
    hide Find, SystemParts, Blocks;
    if Has(j, "system") && Get(j, "system").Arr? { SystemPartsFixed(Get(j, "system").items); }
  }

  /** Every level descends below fixed templates only, with a role that may be changed. */
  lemma StepSound(n: Level, j: Json, marshal: JValue -> string)
    requires RoleOk(n)
    ensures StepOk(StepOf(n, j, marshal))
  {
    hide ChatStep, MessageStep, OutputStep, PartStep, ClaudeBlockStep, GeminiSystem, ClaudeSystem;
    hide Find, Has, Get, TextAt, AnyOutput, GeminiId, OutputType;
    if j.Obj? {
      match n
      case ChatItem => ChatSound(j);
      case MessageItem => MessageSound(j);
      case OutputItem => MessageSound(j);
      case ClaudeContent(role) => PartSound(j, role, marshal);
      case GeminiPiece(role) => PartSound(j, role, marshal);
      case GeminiRoot => if GeminiSystem(j).Some? { GeminiSystemFixed(j); }
      case ClaudeRoot => if ClaudeSystem(j).Some? { ClaudeSystemFixed(j); }
      case _ =>
    }
  }

  lemma {:induction false} LevelSound(n: Level, j: Json, marshal: JValue -> string)
    requires RoleOk(n) && ProjectLevel(n, j, marshal).Some?
    ensures Sound(ProjectLevel(n, j, marshal).value)
    decreases j, 0
  {
    hide StepOf, Lift, MutableRole, TotalHoles, MutableHoles, NoHoles, RoleOk;
    StepSound(n, j, marshal);
    match StepOf(n, j, marshal)
    case Emit(ts) => NoHolesTotal(ts);
    case Into(before, key, sub) =>
      SubSound(sub, Get(j, key), marshal);
      NoHolesTotal(before);
      JoinSound(before, ProjectSub(sub, Get(j, key), marshal).value.templates);
  }

  lemma JoinSound(a: seq<Template>, b: seq<Template>)
    requires MutableHoles(a) && MutableHoles(b)
    ensures MutableHoles(a + b) && TotalHoles(a + b) == TotalHoles(a) + TotalHoles(b)
  {
    hide TotalHoles;
    HolesConcat(a, b);
  }

  lemma {:induction false} SubSound(sub: Sub, v: Json, marshal: JValue -> string)
    requires ProjectSub(sub, v, marshal).Some?
    requires SubOk(sub)
    ensures Sound(ProjectSub(sub, v, marshal).value)
    decreases v, 1
  {
    hide Find, BlockMembers, Decode, Blocks, BlockSlot;
    match sub
    case Hole(members) => OneTemplate(Template(members, TextHole));
    case Sole(members, _) => OneTemplate(Template(members, TextHole));
    case Holes(members, kind) =>
      BlocksCount(kind, v.items, |v.items|);
      OneTemplate(Template(members, BlockHoles(Blocks(kind, v.items, |v.items|).value.0)));
    case EachItem(n) => ItemsSound(n, v.items, |v.items|, marshal);
    case Down(n) => LevelSound(n, v, marshal);
  }

  lemma OneTemplate(t: Template)
    requires MutableRole(t.members)
    ensures TotalHoles([t]) == Holes(t) && MutableHoles([t])
  {
    assert [t][1..] == [];
  }

  lemma {:induction false} ItemsSound(n: Level, es: seq<Elem>, c: nat, marshal: JValue -> string)
    requires RoleOk(n) && c <= |es| && ProjectItems(n, es, c, marshal).Some?
    ensures Sound(ProjectItems(n, es, c, marshal).value)
    decreases es, c
  {
    hide TotalHoles, MutableHoles, ProjectLevel, Lift;
    if c == 0 {
      NoHolesTotal([]);
    } else {
      ItemsSound(n, es, c - 1, marshal);
      LevelSound(n, es[c - 1].value, marshal);
      JoinSound(ProjectItems(n, es, c - 1, marshal).value.templates,
                ProjectLevel(n, es[c - 1].value, marshal).value.templates);
    }
  }

  /** A projection has one slot per hole, in order, and holes only where text may change. */
  lemma ProjectSound(to: string, root: Json, marshal: JValue -> string)
    requires Project(to, root, marshal).Some?
    ensures Sound(Project(to, root, marshal).value)
    ensures SlotsOf(root, Project(to, root, marshal).value.slots)
    ensures OrderedSlots(root, Project(to, root, marshal).value.slots)
  {
    LevelSound(RootLevel(to), root, marshal);
    LevelOrdered(RootLevel(to), root, marshal);
    InOrderAreSlots(root, Project(to, root, marshal).value.slots);
  }

  lemma ProjectPut(to: string, root: Json, k: nat, r: string, marshal: JValue -> string)
    requires Project(to, root, marshal).Some? && k < |Project(to, root, marshal).value.slots|
    ensures HasPath(root, Project(to, root, marshal).value.slots[k].path)
    ensures Project(to, Put(root, Project(to, root, marshal).value.slots[k].path, Str(r)), marshal)
            == Some(RetextOne(Project(to, root, marshal).value, k, r))
  {
    LevelPut(RootLevel(to), root, k, r, marshal);
    PutUnique(root, Project(to, root, marshal).value.slots[k].path, r);
  }

  /** Projection commutes with rewriting: only the replaced texts differ afterwards. */
  lemma {:induction false} ProjectPutAll(to: string, j: Json, reps: map<int, string>, c: nat, marshal: JValue -> string)
    requires Project(to, j, marshal).Some? && c <= |Project(to, j, marshal).value.slots|
    ensures var p := Project(to, j, marshal).value;
            && EditsFit(j, EditsTo(p.slots, reps, c))
            && Project(to, PutAll(j, EditsTo(p.slots, reps, c)), marshal)
               == Some(Projected(p.templates, RetextTo(p.slots, reps, c)))
    decreases c
  {
    hide Project, HasPath, At, Put, Decode, Encode, SlotsOf, EditsFit, EditsTo, PutAll, RetextTo, Sound;
    var p := Project(to, j, marshal).value;
    ProjectSound(to, j, marshal);
    EditsToFit(j, p.slots, reps, c);
    if c == 0 {
      NoEdits(j, p.slots, reps);
    } else if c - 1 !in reps {
      ProjectPutAll(to, j, reps, c - 1, marshal);
      EditsToSkip(p.slots, reps, c);
    } else {
      var r := Encode(reps[c - 1]);
      DecodeEncode(reps[c - 1]);
      ProjectPut(to, j, c - 1, r, marshal);
      ProjectPutAll(to, Put(j, p.slots[c - 1].path, Str(r)), reps, c - 1, marshal);
      EditsToTake(j, p.slots, reps, c);
    }
  }

  /* ---------- the check and the rewriting as the adapter runs them ---------- */

  function Prepend(texts: seq<string>, m: Option<(seq<JValue>, seq<string>)>): Option<(seq<JValue>, seq<string>)> {
    match m
    case None => None
    case Some((ms, more)) => Some((ms, texts + more))
  }

  lemma MaskStep(all: Option<(seq<JValue>, seq<string>)>, ms: seq<JValue>, targets: seq<Target>, i: nat,
                 texts: seq<string>)
    requires i < |targets| && Progress(all, ms, targets, i, texts)
    ensures Read(ms, targets[i]).None? ==> all.None?
    ensures Read(ms, targets[i]).Some? ==>
              Progress(all, Write(ms, targets[i], MASKED), targets, i + 1, texts + [Read(ms, targets[i]).value])
  {
    hide Read, Write;
    assert targets[i..][0] == targets[i] && targets[i..][1..] == targets[i + 1..];
    if Read(ms, targets[i]).Some? {
      var m := Mask(Write(ms, targets[i], MASKED), targets[i + 1..]);
      if m.Some? {
        var x := Read(ms, targets[i]).value;
        assert texts + ([x] + m.value.1) == texts + [x] + m.value.1;
      }
    }
  }

  predicate Decoded(raw: seq<Option<JValue>>) { forall i | 0 <= i < |raw| :: raw[i].Some? }

  function Values(raw: seq<Option<JValue>>): seq<JValue>
    requires Decoded(raw)
  {
    seq(|raw|, i requires 0 <= i < |raw| => raw[i].value)
  }

  /** raw: the response's messages, None for one that does not decode or repeats a name. */
  method CheckResponse(p: Projected, raw: seq<Option<JValue>>) returns (r: Option<seq<string>>)
    requires |p.slots| == TotalHoles(p.templates)
    ensures r == if Decoded(raw) then Validate(p, Values(raw)) else None
  {
    if |raw| != |p.templates| { return None; }
    var actual: seq<JValue> := [];
    for i := 0 to |raw|
      invariant forall k | 0 <= k < i :: raw[k].Some?
      invariant actual == seq(i, k requires 0 <= k < i => raw[k].value)
    {
      if raw[i].None? { return None; }
      actual := actual + [raw[i].value];
    }
    assert actual == Values(raw);
    r := CompareMasked(p, actual);
  }

  method CompareMasked(p: Projected, response: seq<JValue>) returns (r: Option<seq<string>>)
    requires |p.slots| == TotalHoles(p.templates) && |response| == |p.templates|
    ensures r == Validate(p, response)
  {
    var expected, actual := FillAll(p.templates, Texts(p.slots)), response;
    var originals, targets := Texts(p.slots), Targets(p.templates, 0);
    ghost var sent, got := Mask(expected, targets), Mask(response, targets);
    ghost var sentTexts: seq<string> := [];
    var replacements: seq<string> := [];
    ValidateCases(p, response);
    Begin(expected, targets);
    Begin(response, targets);
    NoneEmptied(originals);
    hide *;
    for i := 0 to |targets|
      invariant Progress(got, actual, targets, i, replacements)
      invariant Progress(sent, expected, targets, i, sentTexts)
      invariant |originals| == |targets| && NotEmptied(originals, i, replacements)
    {
      MaskStep(got, actual, targets, i, replacements);
      MaskStep(sent, expected, targets, i, sentTexts);
      var text := Read(actual, targets[i]);
      if text.None? { return None; }
      EmptiedStep(got, actual, targets, originals, replacements, i);
      replacements := replacements + [text.value];
      if originals[i] != "" && text.value == "" { return None; }
      actual := Write(actual, targets[i], MASKED);
      if Read(expected, targets[i]).None? { return None; }
      sentTexts := sentTexts + [Read(expected, targets[i]).value];
      expected := Write(expected, targets[i], MASKED);
    }
    MaskEnd(got, actual, targets, replacements);
    MaskEnd(sent, expected, targets, sentTexts);
    AllRead(originals, replacements);
    if expected != actual { return None; }
    return Some(replacements);
  }

  lemma ValidateCases(p: Projected, response: seq<JValue>)
    requires |p.slots| == TotalHoles(p.templates) && |response| == |p.templates|
    ensures var targets := Targets(p.templates, 0);
            var sent, got := Mask(FillAll(p.templates, Texts(p.slots)), targets), Mask(response, targets);
            && (got.None? || sent.None? ==> Validate(p, response) == None)
            && (got.Some? && Emptied(Texts(p.slots), got.value.1) ==> Validate(p, response) == None)
            && (got.Some? && sent.Some? && !Emptied(Texts(p.slots), got.value.1) ==>
                  Validate(p, response) == if got.value.0 == sent.value.0 then Some(got.value.1) else None)
  {
    hide Mask, FillAll, Targets, Texts, Emptied;
  }

  /** texts have been read, and ms is what is left to read from target i on. */
  predicate Progress(all: Option<(seq<JValue>, seq<string>)>, ms: seq<JValue>, targets: seq<Target>, i: nat,
                     texts: seq<string>) {
    i <= |targets| && |texts| == i && all == Prepend(texts, Mask(ms, targets[i..]))
  }

  predicate NotEmptied(originals: seq<string>, i: nat, texts: seq<string>) {
    i <= |originals| && |texts| == i && forall k | 0 <= k < i :: !(originals[k] != "" && texts[k] == "")
  }

  lemma Begin(ms: seq<JValue>, targets: seq<Target>)
    ensures Progress(Mask(ms, targets), ms, targets, 0, [])
  {
    assert targets[0..] == targets;
    var m := Mask(ms, targets);
    if m.Some? { assert [] + m.value.1 == m.value.1; }
  }

  lemma NoneEmptied(originals: seq<string>)
    ensures NotEmptied(originals, 0, [])
  {
  }

  lemma AllRead(originals: seq<string>, texts: seq<string>)
    requires NotEmptied(originals, |originals|, texts)
    ensures !Emptied(originals, texts)
  {
  }

  /** One more text read: either it is emptied, or nothing read so far is. */
  lemma EmptiedStep(all: Option<(seq<JValue>, seq<string>)>, ms: seq<JValue>, targets: seq<Target>,
                    originals: seq<string>, texts: seq<string>, i: nat)
    requires i < |targets| == |originals| && Progress(all, ms, targets, i, texts) && NotEmptied(originals, i, texts)
    requires Read(ms, targets[i]).Some?
    ensures var x := Read(ms, targets[i]).value;
            && (originals[i] != "" && x == "" && all.Some? ==> Emptied(originals, all.value.1))
            && (!(originals[i] != "" && x == "") ==> NotEmptied(originals, i + 1, texts + [x]))
  {
    MaskStep(all, ms, targets, i, texts);
    hide Read, Write, Mask;
    var x := Read(ms, targets[i]).value;
    if all.Some? { assert all.value.1[i] == x; }
  }

  lemma MaskEnd(all: Option<(seq<JValue>, seq<string>)>, ms: seq<JValue>, targets: seq<Target>, texts: seq<string>)
    requires Progress(all, ms, targets, |targets|, texts)
    ensures |texts| == |targets| && all == Some((ms, texts))
  {
    assert texts + [] == texts;
  }

  /** The texts a response changes. */
  function Diff(originals: seq<string>, texts: seq<string>): map<int, string>
    requires |originals| == |texts|
  {
    map i | 0 <= i < |originals| && texts[i] != originals[i] :: texts[i]
  }

  /** The adapter's rewriting: unchanged texts are left as they are spelled. */
  method RewriteTargets(p: Payloads.Payload<()>, texts: seq<string>) returns (out: string, changed: bool)
    requires Payloads.SlotsFit(p)
    ensures |texts| != |p.slots| ==> out == p.raw && !changed
    ensures |texts| == |p.slots| ==>
              var reps := Diff(seq(|p.slots|, i requires 0 <= i < |p.slots| => p.slots[i].text), texts);
              out == Payloads.Rewritten(p, reps) && (changed <==> reps != map[])
  {
    if |texts| != |p.slots| { return p.raw, false; }
    ghost var reps := Diff(seq(|p.slots|, i requires 0 <= i < |p.slots| => p.slots[i].text), texts);
    var edits := ChangedEdits(p, texts);
    Payloads.PiecesApart(p, reps, |p.slots|);
    if edits == [] {
      NoChange(p, reps);
      return p.raw, false;
    }
    EditsNeedReps(p, reps);
    out, changed := ApplyEdits(p.raw, edits);
  }

  /** Sorted edits that do not overlap are applied; any overlap leaves the body alone. */
  method ApplyEdits(raw: string, edits: seq<Piece>) returns (out: string, changed: bool)
    requires Disjoint(edits, |raw|)
    ensures InOrder(Sorted(edits), |raw|) && out == Splice(raw, Sorted(edits)) && changed
  {
    hide *;
    SortedInOrder(edits, |raw|);
    StartsDiffer(edits, |raw|);
    var sorted := SortByStart(set e | e in edits);
    SortedUnique(sorted, Sorted(edits));
    Neighbours(sorted, |raw|);
    var previousEnd := 0;
    for i := 0 to |sorted|
      invariant previousEnd == if i == 0 then 0 else sorted[i - 1].end
    {
      var current := sorted[i];
      if current.start < previousEnd || current.end < current.start || current.end > |raw| { return raw, false; }
      previousEnd := current.end;
    }
    var capacity;
    out, capacity := CopyEdits(raw, sorted);
    changed := true;
  }

  lemma StartsDiffer(ps: seq<Piece>, n: nat)
    requires Disjoint(ps, n)
    ensures forall e, f | e in ps && f in ps && e != f :: e.start != f.start
  {
    forall e, f | e in ps && f in ps && e != f ensures e.start != f.start {
      var i :| 0 <= i < |ps| && ps[i] == e;
      var k :| 0 <= k < |ps| && ps[k] == f;
    }
  }

  lemma Neighbours(ps: seq<Piece>, n: nat)
    requires InOrder(ps, n)
    ensures forall i | 0 <= i < |ps| :: ps[i].start <= ps[i].end <= n && (i > 0 ==> ps[i - 1].end <= ps[i].start)
  {
  }

  method ChangedEdits(p: Payloads.Payload<()>, texts: seq<string>) returns (edits: seq<Piece>)
    requires |texts| == |p.slots|
    ensures edits == Payloads.PiecesTo(p.slots,
                   Diff(seq(|p.slots|, i requires 0 <= i < |p.slots| => p.slots[i].text), texts), |p.slots|)
  {
    hide Payloads.Quoted;
    ghost var reps := Diff(seq(|p.slots|, i requires 0 <= i < |p.slots| => p.slots[i].text), texts);
    edits := [];
    for i := 0 to |p.slots|
      invariant edits == Payloads.PiecesTo(p.slots, reps, i)
    {
      if texts[i] == p.slots[i].text { continue; }
      edits := edits + [EditOf(p.slots[i], texts[i])];
    }
  }

  lemma NoChange(p: Payloads.Payload<()>, reps: map<int, string>)
    requires Payloads.SlotsFit(p) && Payloads.PiecesTo(p.slots, reps, |p.slots|) == []
    requires forall i | i in reps :: 0 <= i < |p.slots|
    ensures Payloads.Rewritten(p, reps) == p.raw && reps == map[]
  {
    hide Payloads.Quoted;
    forall i | i in reps ensures false {
      InPieces(p.slots, reps, |p.slots|, EditOf(p.slots[i], reps[i]));
    }
  }

  lemma EditsNeedReps(p: Payloads.Payload<()>, reps: map<int, string>)
    requires Payloads.PiecesTo(p.slots, reps, |p.slots|) != []
    ensures reps != map[]
  {
    Payloads.NoPieces(p.slots, |p.slots|);
  }

  /**
   An accepted response is installed exactly: projecting the rewritten payload sends the very
   messages that came back, and every byte outside changed literals is the input's.
   */
  lemma AppliedIsResponse(body: string, to: string, response: seq<JValue>, texts: seq<string>,
                          marshal: JValue -> string)
    requires Payloads.Parse(body).Some? && Project(to, Payloads.Parse(body).value.root, marshal).Some?
    requires var p := Project(to, Payloads.Parse(body).value.root, marshal).value;
             |p.slots| == TotalHoles(p.templates) && Validate(p, response) == Some(texts)
    ensures var d := Payloads.Parse(body).value;
            var p := Project(to, d.root, marshal).value;
            && SlotsOf(d.root, p.slots) && |texts| == |p.slots|
            && Payloads.SlotsFit(Payloads.Payload(body, Payloads.Spans(d, p.slots)))
            && var out := Payloads.Rewritten(Payloads.Payload(body, Payloads.Spans(d, p.slots)),
                                             Diff(Texts(p.slots), texts));
               && Payloads.Parse(out).Some?
               && Project(to, Payloads.Parse(out).value.root, marshal).Some?
               && var q := Project(to, Payloads.Parse(out).value.root, marshal).value;
                  |q.slots| == TotalHoles(q.templates) && FillAll(q.templates, Texts(q.slots)) == response
  {
    hide Project, SlotsOf, EditsFit, EditsTo, PutAll, Print, PrintDoc, Wf, Sound, Payloads.Rewritten, Payloads.SlotsFit;
    hide Validate, FillAll, TotalHoles;
    var d := Payloads.Parse(body).value;
    var p := Project(to, d.root, marshal).value;
    ProjectSound(to, d.root, marshal);
    ValidateExact(p, response, texts);
    var reps := Diff(Texts(p.slots), texts);
    Payloads.RewriteIsPutAll(d, p.slots, reps);
    EditsToFit(d.root, p.slots, reps, |p.slots|);
    PutAllWf(d.root, EditsTo(p.slots, reps, |p.slots|));
    Payloads.ParsePrint(d.(root := PutAll(d.root, EditsTo(p.slots, reps, |p.slots|))));
    ProjectPutAll(to, d.root, reps, |p.slots|, marshal);
    assert Texts(RetextTo(p.slots, reps, |p.slots|)) == texts;
  }
}
