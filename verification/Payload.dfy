/** Byte-level views: the slots of a payload, and rewriting them without touching any other byte. */
module Payloads {
  import opened Common
  import opened JsonText
  import opened JsonTree
  import opened JsonEdit
  import opened JsonSlots
  import opened JsonSplice
  import opened JsonPaths
  import opened JsonAlike
  import opened Protocol
  import opened PayloadSlots

  datatype Route = Route(from: string, to: string) {
    /** The host's built-in message translators. */
    predicate Eligible() {
      || (to == "openai" && from in {"openai", "claude", "gemini", "interactions", "openai-response"})
      || (to == "openai-response" && from == "interactions")
      || (to == "claude" && from in {"openai", "openai-response", "gemini", "interactions"})
      || (to == "codex" && from in {"openai", "openai-response", "claude", "gemini", "interactions"})
      || (to == "gemini" && from in {"openai", "openai-response", "claude", "gemini", "interactions"})
      || (to == "antigravity" && from == "openai-response")
    }
  }

  datatype TextSlot<M> = TextSlot(text: string, mark: M, start: nat, end: nat)
  datatype Payload<M> = Payload(raw: string, slots: seq<TextSlot<M>>)

  /** The document a body stands for; by DocUnique there is at most one. */
  ghost function Parse(body: string): (d: Option<Doc>)
    ensures d.Some? ==> WfDoc(d.value) && PrintDoc(d.value) == body
  {
    if d :| WfDoc(d) && PrintDoc(d) == body then Some(d) else None
  }

  lemma ParsePrint(d: Doc)
    requires WfDoc(d)
    ensures Parse(PrintDoc(d)) == Some(d)
  {
    hide WfDoc, PrintDoc;
    var e := Parse(PrintDoc(d)).value;
    DocUnique(d, e);
  }

  function Span<M>(d: Doc, s: JsonSlots.Slot<M>): TextSlot<M>
    requires HasPath(d.root, s.path)
  {
    var start := |d.lead| + |Left(d.root, s.path)|;
    TextSlot(s.text, s.mark, start, start + |Print(At(d.root, s.path))|)
  }

  function Spans<M>(d: Doc, ss: seq<JsonSlots.Slot<M>>): (ts: seq<TextSlot<M>>)
    requires SlotsOf(d.root, ss)
    ensures |ts| == |ss|
  {
    seq(|ss|, i requires 0 <= i < |ss| => Span(d, ss[i]))
  }

  /** The slots of a recognized payload, in the order in which they are found. */
  function Found(to: string, root: Json): (ss: seq<Protocol.Slot>)
    ensures SlotsOf(root, ss) && |ss| == |Targets(to, root)|
  {
    TargetsAreSlots(to, root);
    SlotsAt(root, Targets(to, root))
  }

  /** The view of one body; None when the route or the shape is not supported. */
  ghost function View(body: string, route: Route): Option<Payload<Mark>> {
    var d := Parse(body);
    if !route.Eligible() || d.None? || !Recognized(route.to, d.value.root) then None
    else
      Some(Payload(body, Spans(d.value, Found(route.to, d.value.root))))
  }

  /* ---------- rewriting ---------- */

  function Quoted(s: string): string { "\"" + Encode(s) + "\"" }

  function PieceFor<M>(slot: TextSlot, reps: map<int, string>, i: int): seq<Piece> {
    if i in reps then [Piece(slot.start, slot.end, Quoted(reps[i]))] else []
  }

  /** One piece per replaced slot among the first c, in slot order. */
  function PiecesTo<M>(slots: seq<TextSlot<M>>, reps: map<int, string>, c: nat): seq<Piece>
    requires c <= |slots|
  {
    if c == 0 then [] else PiecesTo(slots, reps, c - 1) + PieceFor(slots[c - 1], reps, c - 1)
  }

  lemma {:induction false} NoPieces<M>(slots: seq<TextSlot<M>>, c: nat)
    requires c <= |slots|
    ensures PiecesTo(slots, map[], c) == []
  {
    if c > 0 { NoPieces(slots, c - 1); }
  }

  /** The slots are not empty and do not overlap. */
  predicate SlotsFit<M>(p: Payload) {
    && (forall i | 0 <= i < |p.slots| :: p.slots[i].start < p.slots[i].end <= |p.raw|)
    && (forall i, k | 0 <= i < k < |p.slots| ::
          p.slots[i].end <= p.slots[k].start || p.slots[k].end <= p.slots[i].start)
  }

  lemma {:induction false} PiecesApart<M>(p: Payload<M>, reps: map<int, string>, c: nat)
    requires SlotsFit(p) && c <= |p.slots|
    ensures Disjoint(PiecesTo(p.slots, reps, c), |p.raw|)
    ensures forall q, i | q in PiecesTo(p.slots, reps, c) && c <= i < |p.slots| ::
              q.end <= p.slots[i].start || p.slots[i].end <= q.start
  {
    hide Quoted;
    if c > 0 { PiecesApart(p, reps, c - 1); }
  }

  /** The edits of a rewriting, sorted. */
  function Ordered<M>(p: Payload<M>, reps: map<int, string>): (ps: seq<Piece>)
    requires SlotsFit(p)
    ensures ByStart(ps) && InOrder(ps, |p.raw|)
  {
    PiecesApart(p, reps, |p.slots|);
    SortedInOrder(PiecesTo(p.slots, reps, |p.slots|), |p.raw|);
    Sorted(PiecesTo(p.slots, reps, |p.slots|))
  }

  function Rewritten<M>(p: Payload<M>, reps: map<int, string>): string
    requires SlotsFit(p)
  {
    Splice(p.raw, Ordered(p, reps))
  }

  lemma {:induction false} SamePiecesTo<M>(d: Doc, ss: seq<JsonSlots.Slot<M>>, reps: map<int, string>, c: nat)
    requires SlotsOf(d.root, ss) && c <= |ss| && EditsFit(d.root, EditsTo(ss, reps, c))
    ensures PiecesTo(Spans(d, ss), reps, c) == Pieces(d, EditsTo(ss, reps, c))
  {
    hide HasPath, Decode, Encode, Left, At, Print, EditsFit, SlotsOf;
    if c > 0 {
      EditsToFit(d.root, ss, reps, c - 1);
      SamePiecesTo(d, ss, reps, c - 1);
      SamePiece(d, ss, reps, c);
    }
  }

  lemma SamePiece<M>(d: Doc, ss: seq<JsonSlots.Slot<M>>, reps: map<int, string>, c: nat)
    requires SlotsOf(d.root, ss) && 0 < c <= |ss| && EditsFit(d.root, EditsTo(ss, reps, c))
    requires EditsFit(d.root, EditsTo(ss, reps, c - 1))
    ensures Pieces(d, EditsTo(ss, reps, c))
            == Pieces(d, EditsTo(ss, reps, c - 1)) + PieceFor(Spans(d, ss)[c - 1], reps, c - 1)
  {
    hide HasPath, Decode, Encode, Left, At, Print, Lt;
    if c - 1 in reps { PrintStr(Encode(reps[c - 1])); }
  }

  lemma PrintStr(raw: string)
    ensures Print(Str(raw)) == "\"" + raw + "\""
  {
  }

  lemma SpansFit<M>(d: Doc, ss: seq<JsonSlots.Slot<M>>)
    requires SlotsOf(d.root, ss)
    ensures SlotsFit(Payload(PrintDoc(d), Spans(d, ss)))
  {
    hide HasPath, Lt, Decode, Left, At, Right;
    forall i | 0 <= i < |ss| ensures Span(d, ss[i]).start < Span(d, ss[i]).end <= |PrintDoc(d)| {
      PrintAt(d.root, ss[i].path);
    }
    forall i, k | 0 <= i < k < |ss|
      ensures Span(d, ss[i]).end <= Span(d, ss[k]).start || Span(d, ss[k]).end <= Span(d, ss[i]).start
    {
      if Lt(ss[i].path, ss[k].path) {
        SpanOrder(d.root, ss[i].path, ss[k].path);
      } else {
        SpanOrder(d.root, ss[k].path, ss[i].path);
      }
    }
  }

  /** Splicing into the slots of a body prints its tree with those string leaves replaced. */
  lemma RewriteIsPutAll<M>(d: Doc, ss: seq<JsonSlots.Slot<M>>, reps: map<int, string>)
    requires SlotsOf(d.root, ss)
    ensures SlotsFit(Payload(PrintDoc(d), Spans(d, ss))) && EditsFit(d.root, EditsTo(ss, reps, |ss|))
    ensures Rewritten(Payload(PrintDoc(d), Spans(d, ss)), reps)
            == PrintDoc(d.(root := PutAll(d.root, EditsTo(ss, reps, |ss|))))
  {
    hide HasPath, Apart, Decode, Left, At, PrintDoc, Splice, EditsFit, InOrder, Sorted;
    SpansFit(d, ss);
    EditsToFit(d.root, ss, reps, |ss|);
    SamePiecesTo(d, ss, reps, |ss|);
    EditsOfStrings(d.root, ss, reps);
    SplicedInAnyOrder(d, EditsTo(ss, reps, |ss|));
  }

  lemma EditsOfStrings<M>(j: Json, ss: seq<JsonSlots.Slot<M>>, reps: map<int, string>)
    requires SlotsOf(j, ss)
    ensures OfStrings(j, EditsTo(ss, reps, |ss|))
  {
    hide HasPath, At, Decode, Apart, EditsTo;
    EditsAtSlots(ss, reps, |ss|);
  }

  /* ---------- viewing the result ---------- */

  /** The texts of the rewritten tree are found where the old ones were, with the same marks. */
  lemma FoundAgain(to: string, root: Json, reps: map<int, string>)
    requires Recognized(to, root)
    ensures var ss := Found(to, root);
            && EditsFit(root, EditsTo(ss, reps, |ss|))
            && Recognized(to, PutAll(root, EditsTo(ss, reps, |ss|)))
            && Found(to, PutAll(root, EditsTo(ss, reps, |ss|))) == RetextTo(ss, reps, |ss|)
  {
    hide Alike, Apart, Each, Decode, Encode, HasPath, At, PutAll, Lookup;
    var ss := Found(to, root);
    EditsToFit(root, ss, reps, |ss|);
    var after := PutAll(root, EditsTo(ss, reps, |ss|));
    EditsAlike(to, root, reps);
    TargetsKept(to, root, after);
    hide Found, SlotsOf, EditsFit, EditsTo, Recognized, Targets;
    FoundBoth(to, root, after);
    forall i | 0 <= i < |ss| ensures Found(to, after)[i] == RetextTo(ss, reps, |ss|)[i] {
      PutAllAt(root, ss, reps, |ss|, i);
      SlotIsStr(root, ss, i);
      if i in reps { DecodeEncode(reps[i]); }
    }
  }

  lemma FoundBoth(to: string, a: Json, b: Json)
    requires Alike(a, b, false)
    ensures |Found(to, a)| == |Found(to, b)|
    ensures forall i | 0 <= i < |Found(to, a)| ::
              && Found(to, b)[i].path == Found(to, a)[i].path && Found(to, b)[i].mark == Found(to, a)[i].mark
              && HasPath(b, Found(to, b)[i].path) && At(b, Found(to, b)[i].path).Str?
              && Found(to, b)[i].text == Decode(At(b, Found(to, b)[i].path).raw)
  {
    hide Alike, Apart, Each, Decode, HasPath, At, Lookup, Targets, SlotsOf;
    TargetsKept(to, a, b);
    TargetsAreSlots(to, a);
    TargetsAreSlots(to, b);
    forall i | 0 <= i < |Targets(to, a)|
      ensures SlotAt(b, Targets(to, a)[i]).path == SlotAt(a, Targets(to, a)[i]).path
    {
      SameSlot(a, b, Targets(to, a)[i]);
    }
    forall i | 0 <= i < |Found(to, b)|
      ensures HasPath(b, Found(to, b)[i].path) && At(b, Found(to, b)[i].path).Str?
              && Found(to, b)[i].text == Decode(At(b, Found(to, b)[i].path).raw)
    {
      SlotIsStr(b, Found(to, b), i);
    }
  }

  lemma EditsAlike(to: string, root: Json, reps: map<int, string>)
    ensures var ss := Found(to, root);
            EditsFit(root, EditsTo(ss, reps, |ss|)) && Alike(root, PutAll(root, EditsTo(ss, reps, |ss|)), false)
  {
    hide Alike, Apart, Each, Decode, HasPath, At, PutAll, Lookup, EditsTo, FreeAt;
    var ss := Found(to, root);
    TargetsAreSlots(to, root);
    EditsToFit(root, ss, reps, |ss|);
    EditsAtSlots(ss, reps, |ss|);
    var es := EditsTo(ss, reps, |ss|);
    forall e | e in es
      ensures HasPath(root, e.path) && e.value.Str? && At(root, e.path).Str? && FreeAt(root, e.path, false)
    {
      var i :| 0 <= i < |ss| && ss[i].path == e.path;
      TargetsFree(to, root, i);
    }
    PutAllAlike(root, es);
  }

  /** What Rewrite keeps: the view of the result is the old view with the replaced texts. */
  lemma ViewOfRewritten(body: string, route: Route, reps: map<int, string>)
    requires View(body, route).Some?
    ensures var p := View(body, route).value;
            && SlotsFit(p)
            && View(Rewritten(p, reps), route).Some?
            && var q := View(Rewritten(p, reps), route).value;
               && |q.slots| == |p.slots|
               && forall i | 0 <= i < |p.slots| ::
                    && q.slots[i].mark == p.slots[i].mark
                    && q.slots[i].text == if i in reps then reps[i] else p.slots[i].text
  {
    hide Recognized, Found, HasPath, At, PutAll, Decode, Left, PrintDoc, Print, Wf, Splice, Apart, EditsFit, Sorted;
    var d := Parse(body).value;
    var ss := Found(route.to, d.root);
    var d' := RewrittenDoc(d, ss, reps);
    ParsePrint(d');
    FoundAgain(route.to, d.root, reps);
  }

  /** The document of a rewritten body. */
  lemma RewrittenDoc<M>(d: Doc, ss: seq<JsonSlots.Slot<M>>, reps: map<int, string>) returns (d': Doc)
    requires WfDoc(d) && SlotsOf(d.root, ss)
    ensures && SlotsFit(Payload(PrintDoc(d), Spans(d, ss)))
            && EditsFit(d.root, EditsTo(ss, reps, |ss|))
            && d' == d.(root := PutAll(d.root, EditsTo(ss, reps, |ss|)))
            && WfDoc(d') && PrintDoc(d') == Rewritten(Payload(PrintDoc(d), Spans(d, ss)), reps)
  {
    hide HasPath, At, PutAll, Decode, Left, PrintDoc, Print, Wf, Splice, Apart, EditsFit, SlotsOf, Rewritten, SlotsFit;
    RewriteIsPutAll(d, ss, reps);
    EditsToFit(d.root, ss, reps, |ss|);
    PutAllWf(d.root, EditsTo(ss, reps, |ss|));
    d' := d.(root := PutAll(d.root, EditsTo(ss, reps, |ss|)));
  }
}
