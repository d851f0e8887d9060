/** The RTK stage and the check the pipeline puts on its result. */
module Rtk {
  import opened Common
  import opened JsonText
  import opened JsonTree
  import opened JsonEdit
  import opened JsonQuery
  import opened JsonSlots
  import opened Protocol
  import opened PayloadSlots
  import opened Payloads
  import Utf8

  const MIN_COMPRESS_BYTES: int := 500
  const MAX_RAW_BYTES: int := 10 * 1024 * 1024

  function AcceptReplacement(original: string, candidate: string): Option<string> {
    if candidate == "" || Utf8.Length(candidate) >= Utf8.Length(original) then None else Some(candidate)
  }

  /** filter: the detected filter's output on a text, None when no filter applies. */
  function CompressPlain(input: string, filter: string -> Option<string>): (r: Option<string>)
    ensures r.Some? ==> 0 < Utf8.Length(r.value) < Utf8.Length(input)
  {
    if Utf8.Length(input) < MIN_COMPRESS_BYTES || Utf8.Length(input) > MAX_RAW_BYTES then None
    else
      match filter(input)
      case None => None
      case Some(candidate) => AcceptReplacement(input, candidate)
  }

  /** Text that is itself a JSON object is compressed in its "output" string only. */
  ghost function CompressText(input: string, filter: string -> Option<string>): Option<string> {
    var d := Parse(input);
    if d.Some? && Has(d.value.root, "output") && Get(d.value.root, "output").Str? then
      var root := d.value.root;
      match CompressPlain(TextAt(root, "output"), filter)
      case None => None
      case Some(c) =>
        var p := [Find(root.items, "output")];
        var span := PieceOf(d.value, Edit(p, Str(Encode(c))));
        PrintPut(d.value, Edit(p, Str(Encode(c))));
        Some(input[..span.start] + Quoted(c) + input[span.end..])
    else CompressPlain(input, filter)
  }

  /** The replacements the stage asks for: never an error result, only shrunken texts. */
  ghost function Replacements(slots: seq<TextSlot<Mark>>, filter: string -> Option<string>): map<int, string> {
    map i | 0 <= i < |slots| && !slots[i].mark.error && CompressText(slots[i].text, filter).Some?
      :: CompressText(slots[i].text, filter).value
  }

  ghost function Apply(body: string, route: Route, filter: string -> Option<string>): string {
    match View(body, route)
    case None => body
    case Some(p) =>
      ViewOfRewritten(body, route, map[]);
      Rewritten(p, Replacements(p.slots, filter))
  }

  ghost function Changed<M>(before: seq<TextSlot<M>>, after: seq<TextSlot<M>>): map<int, string>
    requires |before| == |after|
  {
    map i | 0 <= i < |before| && before[i].text != after[i].text :: after[i].text
  }

  /** The pipeline's check of an RTK result against its input. */
  ghost predicate ValidTransition(before: string, after: string, route: Route) {
    before == after ||
    var b, a := View(before, route), View(after, route);
    && b.Some? && a.Some?
    && |b.value.slots| == |a.value.slots|
    && (forall i | 0 <= i < |b.value.slots| :: b.value.slots[i].mark == a.value.slots[i].mark)
    && SlotsFit(b.value)
    && Rewritten(b.value, Changed(b.value.slots, a.value.slots)) == after
  }

  /** What an accepted result can be: the same document but for string leaves at tool-result slots. */
  lemma TransitionSound(before: string, after: string, route: Route)
    requires ValidTransition(before, after, route) && before != after
    ensures Parse(before).Some? && Recognized(route.to, Parse(before).value.root)
    ensures var d := Parse(before).value;
            var ss := Found(route.to, d.root);
            exists reps: map<int, string> ::
              && EditsFit(d.root, EditsTo(ss, reps, |ss|))
              && Parse(after) == Some(d.(root := PutAll(d.root, EditsTo(ss, reps, |ss|))))
  {
    hide Found, Recognized, PutAll, PrintDoc, WfDoc, EditsFit, SlotsOf, Rewritten, SlotsFit;
    var d := Parse(before).value;
    var ss := Found(route.to, d.root);
    var b, a := View(before, route).value, View(after, route).value;
    var reps := Changed(b.slots, a.slots);
    var d' := RewrittenDoc(d, ss, reps);
    ParsePrint(d');
  }

  /** The literal a slot holds is not what the encoder would write for this text. */
  ghost predicate Respelled<M>(p: Payload<M>, reps: map<int, string>, i: nat)
    requires SlotsFit(p) && i < |p.slots|
  {
    i in reps && reps[i] == p.slots[i].text && p.raw[p.slots[i].start..p.slots[i].end] != Quoted(reps[i])
  }

  /** Leaving out edits that spell the text already there does not change the tree. */
  lemma {:induction false} SameTree<M>(j: Json, ss: seq<JsonSlots.Slot<M>>, reps: map<int, string>,
                                       diff: map<int, string>, c: nat)
    requires SlotsOf(j, ss) && c <= |ss|
    requires forall i | 0 <= i < c && i in diff :: i in reps && reps[i] == diff[i]
    requires forall i | 0 <= i < c && i in reps && i !in diff ::
               HasPath(j, ss[i].path) && At(j, ss[i].path) == Str(Encode(reps[i]))
    ensures EditsFit(j, EditsTo(ss, reps, c)) && EditsFit(j, EditsTo(ss, diff, c))
    ensures PutAll(j, EditsTo(ss, reps, c)) == PutAll(j, EditsTo(ss, diff, c))
    decreases c
  {
    hide HasPath, At, Put, Decode, Encode, Apart, SlotsOf, EditsFit, EditsTo, PutAll;
    EditsToFit(j, ss, reps, c);
    EditsToFit(j, ss, diff, c);
    if c == 0 {
      NoEdits(j, ss, reps);
      NoEdits(j, ss, diff);
    } else if c - 1 !in reps {
      EditsToSkip(ss, reps, c);
      EditsToSkip(ss, diff, c);
      SameTree(j, ss, reps, diff, c - 1);
    } else {
      SlotIsStr(j, ss, c - 1);
      EditsToTake(j, ss, reps, c);
      var ts := ss[c - 1 := ss[c - 1].(text := reps[c - 1])];
      var k := Put(j, ss[c - 1].path, Str(Encode(reps[c - 1])));
      PutSlotsOf(j, ss, c - 1, reps[c - 1]);
      SameTree(k, ts, reps, diff, c - 1);
      if c - 1 in diff {
        EditsToTake(j, ss, diff, c);
      } else {
        PutSame(j, ss[c - 1].path);
        EditsToSkip(ss, diff, c);
        SameEdits(ss, ts, diff, c - 1);
      }
    }
  }

  /** The literal of a slot, in the body and in the tree. */
  lemma LiteralIs(d: Doc, ss: seq<Protocol.Slot>, i: nat, text: string)
    requires SlotsOf(d.root, ss) && i < |ss|
    ensures HasPath(d.root, ss[i].path)
    ensures var s := Spans(d, ss)[i];
            && s.start <= s.end <= |PrintDoc(d)|
            && (PrintDoc(d)[s.start..s.end] == Quoted(text) <==> At(d.root, ss[i].path) == Str(Encode(text)))
  {
    hide HasPath, At, Left, Apart, Decode, Encode, PrintDoc;
    SlotIsStr(d.root, ss, i);
    var v := At(d.root, ss[i].path);
    PrintPut(d, Edit(ss[i].path, Str("")));
    PrintStr(v.raw);
    hide Print;
    if "\"" + v.raw + "\"" == Quoted(text) {
      assert v.raw == ("\"" + v.raw + "\"")[1..|v.raw| + 1] == Quoted(text)[1..|Quoted(text)| - 1] == Encode(text);
    }
  }

  /** A replaced slot's literal can be read off the result. */
  lemma LiteralDetermined(body: string, route: Route, reps: map<int, string>, diff: map<int, string>, i: nat)
    requires View(body, route).Some? && SlotsFit(View(body, route).value)
    requires var p := View(body, route).value;
             Rewritten(p, reps) == Rewritten(p, diff) && i < |p.slots| && i in reps && i !in diff
    ensures var p := View(body, route).value; p.raw[p.slots[i].start..p.slots[i].end] == Quoted(reps[i])
  {
    hide Found, Recognized, PutAll, WfDoc, EditsFit, Rewritten, SlotsFit, Splice, PrintDoc, Print, Left, At, HasPath;
    hide EditsTo, Quoted, SlotsOf, Encode;
    var d := Parse(body).value;
    var ss := Found(route.to, d.root);
    var d1 := RewrittenDoc(d, ss, reps);
    var d2 := RewrittenDoc(d, ss, diff);
    DocUnique(d1, d2);
    PutAllAt(d.root, ss, reps, |ss|, i);
    PutAllAt(d.root, ss, diff, |ss|, i);
    LiteralIs(d, ss, i, reps[i]);
  }

  lemma RewrittenNothing(body: string, route: Route)
    requires View(body, route).Some? && SlotsFit(View(body, route).value)
    ensures Rewritten(View(body, route).value, map[]) == body
  {
    hide Found, Recognized, SlotsFit;
    var p := View(body, route).value;
    NoPieces(p.slots, |p.slots|);
  }

  /**
   A rewriting is accepted exactly when it never spells an unchanged text differently: the
   check re-encodes only texts that differ, so a respelled literal looks like a foreign edit.
   */
  lemma TransitionExact(body: string, route: Route, reps: map<int, string>)
    requires View(body, route).Some?
    ensures var p := View(body, route).value;
            && SlotsFit(p)
            && (ValidTransition(body, Rewritten(p, reps), route)
                <==> forall i | 0 <= i < |p.slots| :: !Respelled(p, reps, i))
  {
    hide Found, Recognized, PutAll, PrintDoc, WfDoc, EditsFit, SlotsOf, Rewritten, SlotsFit, Spans, Quoted;
    var p := View(body, route).value;
    ViewOfRewritten(body, route, reps);
    var q := View(Rewritten(p, reps), route).value;
    var diff := Changed(p.slots, q.slots);
    if forall i | 0 <= i < |p.slots| :: !Respelled(p, reps, i) {
      SameAsChanged(body, route, reps);
    }
    forall i | 0 <= i < |p.slots| && ValidTransition(body, Rewritten(p, reps), route) ensures !Respelled(p, reps, i) {
      RewrittenNothing(body, route);
      if Respelled(p, reps, i) {
        LiteralDetermined(body, route, reps, if body == Rewritten(p, reps) then map[] else diff, i);
      }
    }
  }

  lemma SameAsChanged(body: string, route: Route, reps: map<int, string>)
    requires View(body, route).Some? && SlotsFit(View(body, route).value)
    requires var p := View(body, route).value;
             && View(Rewritten(p, reps), route).Some?
             && |View(Rewritten(p, reps), route).value.slots| == |p.slots|
             && forall i | 0 <= i < |p.slots| :: !Respelled(p, reps, i)
    ensures var p := View(body, route).value;
            Rewritten(p, Changed(p.slots, View(Rewritten(p, reps), route).value.slots)) == Rewritten(p, reps)
  {
    hide Found, Recognized, PutAll, PrintDoc, WfDoc, EditsFit, SlotsOf, Rewritten, SlotsFit, EditsTo, At, HasPath,
         Quoted;
    hide Encode, Decode;
    var p := View(body, route).value;
    ViewOfRewritten(body, route, reps);
    var q := View(Rewritten(p, reps), route).value;
    var diff := Changed(p.slots, q.slots);
    var d := Parse(body).value;
    var ss := Found(route.to, d.root);
    var d1 := RewrittenDoc(d, ss, reps);
    var d2 := RewrittenDoc(d, ss, diff);
    forall i | 0 <= i < |ss| && i in reps && i !in diff
      ensures HasPath(d.root, ss[i].path) && At(d.root, ss[i].path) == Str(Encode(reps[i]))
    {
      assert !Respelled(p, reps, i);
      LiteralIs(d, ss, i, reps[i]);
    }
    SameTree(d.root, ss, reps, diff, |ss|);
  }

  /* ---------- the stage never trips its own check ---------- */

  /** Compression always changes a text: what it returns is never its input. */
  lemma CompressChanges(input: string, filter: string -> Option<string>)
    requires CompressText(input, filter).Some?
    ensures CompressText(input, filter).value != input
  {
    hide CompressPlain, PrintDoc, Print, Left, At, Put;
    var d := Parse(input);
    if d.Some? && Has(d.value.root, "output") && Get(d.value.root, "output").Str? {
      var root := d.value.root;
      var c := CompressPlain(TextAt(root, "output"), filter).value;
      var k := Find(root.items, "output");
      var e := Edit([k], Str(Encode(c)));
      PrintPut(d.value, e);
      PrintStr(Encode(c));
      DecodeEncode(c);
      PutWf(root, [k], Str(Encode(c)));
      PutAt(root, [k], Str(Encode(c)));
      AtOne(root, k);
      if CompressText(input, filter).value == input {
        DocUnique(d.value, d.value.(root := Put(root, [k], Str(Encode(c)))));
        assert false;
      }
    }
  }

  lemma AtOne(j: Json, k: nat)
    requires k < |Items(j)|
    ensures HasPath(j, [k]) && At(j, [k]) == Items(j)[k].value
  {
    assert [k][1..] == [];
  }

  /** The default RTK stage is never rejected by the transition check, whatever the filters do. */
  lemma ApplyAccepted(body: string, route: Route, filter: string -> Option<string>)
    ensures ValidTransition(body, Apply(body, route, filter), route)
  {
    if View(body, route).Some? {
      hide View, Rewritten, CompressText, ValidTransition;
      var p := View(body, route).value;
      var reps := Replacements(p.slots, filter);
      TransitionExact(body, route, reps);
      forall i | 0 <= i < |p.slots| ensures !Respelled(p, reps, i) {
        if i in reps { CompressChanges(p.slots[i].text, filter); }
      }
    }
  }

  /* ---------- which texts are compressed, and to what ---------- */

  /** The filter makes a text of 500 bytes to 10 MiB shorter, and not empty. */
  predicate Shrinks(text: string, filter: string -> Option<string>) {
    && 500 <= Utf8.Length(text) <= 10_485_760
    && filter(text).Some? && 0 < Utf8.Length(filter(text).value) < Utf8.Length(text)
  }

  /** Of a text that is a JSON object with an output string that string counts, of any other all. */
  ghost predicate HasOutput(text: string) {
    && Parse(text).Some? && Has(Parse(text).value.root, "output") && Get(Parse(text).value.root, "output").Str?
  }

  /** What the stage makes of a text. */
  ghost predicate BecomesText(text: string, made: string, filter: string -> Option<string>) {
    if HasOutput(text) then
      var d := Parse(text).value;
      var output := TextOf(Get(d.root, "output"));
      if !Shrinks(output, filter) then made == text
      else
        var k := Find(d.root.items, "output");
        && HasPath(d.root, [k]) && At(d.root, [k]).Str?
        && Parse(made) == Some(d.(root := Put(d.root, [k], Str(Encode(filter(output).value)))))
    else made == if Shrinks(text, filter) then filter(text).value else text
  }

  lemma PlainExact(text: string, filter: string -> Option<string>)
    ensures CompressPlain(text, filter) == if Shrinks(text, filter) then filter(text) else None
  {
    hide Utf8.Encoded;
    assert filter(text).Some? && filter(text).value == "" ==> Utf8.Length(filter(text).value) == 0;
  }

  lemma CompressExact(text: string, filter: string -> Option<string>)
    ensures var r := CompressText(text, filter); BecomesText(text, if r.Some? then r.value else text, filter)
  {
    hide CompressPlain, Shrinks, PrintDoc, Print, Left, At, Put, Encode;
    if HasOutput(text) {
      var d := Parse(text).value;
      var output := TextAt(d.root, "output");
      PlainExact(output, filter);
      if Shrinks(output, filter) {
        SmallerSome(output, filter);
        OutputReplaced(d, text, CompressPlain(output, filter).value);
        AtOne(d.root, Find(d.root.items, "output"));
      }
    } else {
      PlainExact(text, filter);
      if Shrinks(text, filter) { SmallerSome(text, filter); }
    }
  }

  lemma SmallerSome(text: string, filter: string -> Option<string>)
    requires Shrinks(text, filter)
    ensures filter(text).Some?
  {
  }

  /** The span of the output string replaced, and the document that gives. */
  lemma OutputReplaced(d: Doc, text: string, c: string)
    requires WfDoc(d) && PrintDoc(d) == text && Has(d.root, "output") && Get(d.root, "output").Str?
    ensures var p := [Find(d.root.items, "output")];
            && HasPath(d.root, p)
            && var span := PieceOf(d, Edit(p, Str(Encode(c))));
               && 0 <= span.start <= span.end <= |text|
               && Parse(text[..span.start] + Quoted(c) + text[span.end..])
                  == Some(d.(root := Put(d.root, p, Str(Encode(c)))))
  {
    hide PrintDoc, Print, Left, At, Put, Encode, HasPath, Find, WfDoc, Wf;
    var k: nat := Find(d.root.items, "output");
    AtOne(d.root, k);
    var e := Edit([k], Str(Encode(c)));
    PrintPut(d, e);
    PrintStr(Encode(c));
    StrEncodedWf(c);
    PutDocWf(d, [k], Str(Encode(c)));
    ParsePrint(d.(root := Put(d.root, [k], Str(Encode(c)))));
  }

  lemma StrEncodedWf(c: string)
    ensures Wf(Str(Encode(c)))
  {
    DecodeEncode(c);
    hide Encode, Decode;
  }

  lemma PutDocWf(d: Doc, p: Path, v: Json)
    requires WfDoc(d) && HasPath(d.root, p) && Wf(v)
    ensures WfDoc(d.(root := Put(d.root, p, v)))
  {
    hide Put, HasPath, Wf;
    PutWf(d.root, p, v);
  }

  /**
   The view of the stage's result: error results keep their text, every other text is what the
   filter makes of it if that is a gain and is kept if not; nothing else in the view changes.
   */
  lemma ApplyExact(body: string, route: Route, filter: string -> Option<string>)
    ensures View(body, route).None? ==> Apply(body, route, filter) == body
    ensures View(body, route).Some? ==>
              && View(Apply(body, route, filter), route).Some?
              && var p, q := View(body, route).value, View(Apply(body, route, filter), route).value;
                 && |q.slots| == |p.slots|
                 && forall i | 0 <= i < |p.slots| ::
                      && q.slots[i].mark == p.slots[i].mark
                      && (if p.slots[i].mark.error then q.slots[i].text == p.slots[i].text
                          else BecomesText(p.slots[i].text, q.slots[i].text, filter))
  {
    if View(body, route).Some? {
      hide View, Rewritten, CompressText, BecomesText;
      var p := View(body, route).value;
      ViewOfRewritten(body, route, Replacements(p.slots, filter));
      forall i | 0 <= i < |p.slots|
        ensures var r := CompressText(p.slots[i].text, filter);
                BecomesText(p.slots[i].text, if r.Some? then r.value else p.slots[i].text, filter)
      {
        CompressExact(p.slots[i].text, filter);
      }
    }
  }

  /** When no text changes the stage returns the very bytes it was given. */
  lemma UnchangedBytes(body: string, route: Route, filter: string -> Option<string>)
    requires View(body, route).Some? && View(Apply(body, route, filter), route).Some?
    requires |View(Apply(body, route, filter), route).value.slots| == |View(body, route).value.slots|
    requires forall i | 0 <= i < |View(body, route).value.slots| ::
               View(Apply(body, route, filter), route).value.slots[i].text == View(body, route).value.slots[i].text
    ensures Apply(body, route, filter) == body
  {
    hide View, Rewritten, Apply, SlotsFit;
    ApplyAccepted(body, route, filter);
    if Apply(body, route, filter) != body {
      var p, q := View(body, route).value, View(Apply(body, route, filter), route).value;
      assert Changed(p.slots, q.slots) == map[];
      RewrittenNothing(body, route);
    }
  }
}
