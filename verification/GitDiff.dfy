/** The diff compressor: hunks are capped, and what is left out is counted. */
module GitDiffs {

  const HUNK_MAX: nat := 100
  const ENTRY_MAX: nat := 500

  /** One line of output. */
  datatype Entry =
    | FileName(name: string)
    | HunkHeader(line: string)
    | Change(line: string)
    | Context(line: string)
    | Skipped(lines: nat)
    | Counts(added: nat, removed: nat)
    | More
    | Footer

  predicate HasPrefix(s: string, p: string) { |p| <= |s| && s[..|p|] == p }

  predicate IsAdded(line: string) { HasPrefix(line, "+") && !HasPrefix(line, "+++") }
  predicate IsRemoved(line: string) { HasPrefix(line, "-") && !HasPrefix(line, "---") }
  predicate IsChanged(line: string) { IsAdded(line) || IsRemoved(line) }

  /** The file a header names: what follows its first " b/". */
  function NameAfter(line: string): string
    decreases |line|
  {
    if line == "" then "unknown" else if HasPrefix(line, " b/") then line[3..] else NameAfter(line[1..])
  }

  datatype Kind = Header | Hunk | Body

  function KindOf(line: string): Kind {
    if HasPrefix(line, "diff --git") then Header else if HasPrefix(line, "@@") then Hunk else Body
  }

  /* ---------- what the input says ---------- */

  /** Whether the lines end inside a hunk. */
  predicate InHunk(lines: seq<string>) {
    lines != [] &&
    var n := |lines| - 1;
    match KindOf(lines[n])
    case Header => false
    case Hunk => true
    case Body => InHunk(lines[..n])
  }

  function Bit(b: bool): (n: nat)
    ensures n <= 1
  {
    if b then 1 else 0
  }

  /** Changed lines inside hunks. */
  function Changed(lines: seq<string>): nat {
    if lines == [] then 0
    else
      var n := |lines| - 1;
      Changed(lines[..n]) + Bit(KindOf(lines[n]).Body? && InHunk(lines[..n]) && IsChanged(lines[n]))
  }

  datatype File = File(name: string, added: nat, removed: nat)

  function Count(files: seq<File>, line: string): seq<File> {
    if files == [] then []
    else
      var n := |files| - 1;
      var f := files[n];
      files[n := f.(added := f.added + Bit(IsAdded(line)), removed := f.removed + Bit(IsRemoved(line)))]
  }

  /** The files named in the lines, each with its added and removed lines. */
  function Files(lines: seq<string>): seq<File> {
    if lines == [] then []
    else
      var n := |lines| - 1;
      var files := Files(lines[..n]);
      match KindOf(lines[n])
      case Header => files + [File(NameAfter(lines[n]), 0, 0)]
      case Hunk => files
      case Body => if InHunk(lines[..n]) then Count(files, lines[n]) else files
  }

  /* ---------- what an output says ---------- */

  /** Shown changed lines and printed skipped counts. */
  function Accounted(es: seq<Entry>): nat {
    if es == [] then 0
    else
      var e := es[|es| - 1];
      Accounted(es[..|es| - 1]) + if e.Change? then 1 else if e.Skipped? then e.lines else 0
  }

  /** The files an output names, with the counts printed under them; a file whose name is empty gets none. */
  function Printed(es: seq<Entry>): seq<File> {
    if es == [] then []
    else
      var files, e := Printed(es[..|es| - 1]), es[|es| - 1];
      if e.FileName? then files + [File(e.name, 0, 0)]
      else if e.Counts? && files != [] then
        files[|files| - 1 := files[|files| - 1].(added := e.added, removed := e.removed)]
      else files
  }

  /** Lines shown since the last header. */
  function Shown(es: seq<Entry>): nat {
    if es == [] then 0
    else
      var e := es[|es| - 1];
      if e.FileName? || e.HunkHeader? then 0
      else Shown(es[..|es| - 1]) + Bit(e.Change? || e.Context?)
  }

  /** No hunk shows more than the cap. */
  predicate Capped(es: seq<Entry>) {
    es == [] || (Capped(es[..|es| - 1]) && Shown(es) <= HUNK_MAX)
  }

  /** Some line was left out. */
  predicate Shortened(es: seq<Entry>) {
    es != [] && (es[|es| - 1].Skipped? || es[|es| - 1].More? || Shortened(es[..|es| - 1]))
  }

  lemma Push(es: seq<Entry>, e: Entry)
    ensures Accounted(es + [e]) == Accounted(es) + if e.Change? then 1 else if e.Skipped? then e.lines else 0
    ensures Shown(es + [e]) == if e.FileName? || e.HunkHeader? then 0 else Shown(es) + Bit(e.Change? || e.Context?)
    ensures Capped(es + [e]) <==> Capped(es) && Shown(es + [e]) <= HUNK_MAX
    ensures Shortened(es + [e]) <==> Shortened(es) || e.Skipped? || e.More?
    ensures (More in es + [e] <==> More in es || e == More) && (Footer in es + [e] <==> Footer in es || e == Footer)
  {
    assert (es + [e])[..|es|] == es;
  }

  lemma PushFile(es: seq<Entry>, e: Entry)
    ensures e.FileName? ==> Printed(es + [e]) == Printed(es) + [File(e.name, 0, 0)]
    ensures e.Counts? && Printed(es) != [] ==>
              var fs := Printed(es);
              Printed(es + [e]) == fs[|fs| - 1 := fs[|fs| - 1].(added := e.added, removed := e.removed)]
    ensures !e.FileName? && !e.Counts? ==> Printed(es + [e]) == Printed(es)
  {
    assert (es + [e])[..|es|] == es;
  }

  /** A file as the output can show it: none is counted under an empty name. */
  function Visible(f: File): File { if f.name == "" then File("", 0, 0) else f }

  function VisibleAll(files: seq<File>): (r: seq<File>)
    ensures |r| == |files|
  {
    seq(|files|, i requires 0 <= i < |files| => Visible(files[i]))
  }

  /** The counts of the last file are still to be printed. */
  function Pending(files: seq<File>): seq<File> {
    if files == [] then []
    else
      var n := |files| - 1;
      VisibleAll(files[..n]) + [File(files[n].name, 0, 0)]
  }

  lemma PrefixesDiffer(line: string)
    ensures !(IsAdded(line) && IsRemoved(line))
  {
  }

  lemma LastLine(lines: seq<string>, line: string)
    ensures (lines + [line])[..|lines|] == lines && (lines + [line])[|lines|] == line
  {
  }

  lemma Seen(lines: seq<string>, line: string)
    ensures InHunk(lines + [line]) == (KindOf(line).Hunk? || (KindOf(line).Body? && InHunk(lines)))
    ensures Changed(lines + [line]) == Changed(lines) + Bit(KindOf(line).Body? && InHunk(lines) && IsChanged(line))
    ensures KindOf(line).Header? ==> Files(lines + [line]) == Files(lines) + [File(NameAfter(line), 0, 0)]
    ensures KindOf(line).Hunk? || (!InHunk(lines) && KindOf(line).Body?) ==> Files(lines + [line]) == Files(lines)
    ensures KindOf(line).Body? && InHunk(lines) ==> Files(lines + [line]) == Count(Files(lines), line)
  {
    LastLine(lines, line);
    hide KindOf, IsChanged, NameAfter, Count;
  }

  /* ---------- the output for an input ---------- */

  /** How a line of a hunk is shown; context only once the hunk has shown something. */
  function Line(started: bool, line: string): (r: seq<Entry>)
    ensures |r| <= 1
  {
    if IsChanged(line) then [Change(line)]
    else if started && !HasPrefix(line, "\\") then [Context(line)]
    else []
  }

  /** All that the last hunk has to show. */
  function Offered(lines: seq<string>): seq<Entry> {
    if lines == [] then []
    else
      var front, line := lines[..|lines| - 1], lines[|lines| - 1];
      if KindOf(line).Body? && InHunk(front) then Offered(front) + Line(Offered(front) != [], line) else []
  }

  /** What the cap lets through. */
  function Allowed(es: seq<Entry>): (r: seq<Entry>)
    ensures |r| <= HUNK_MAX
  {
    if |es| <= HUNK_MAX then es else es[..HUNK_MAX]
  }

  function Changes(es: seq<Entry>): nat {
    if es == [] then 0 else Changes(es[..|es| - 1]) + Bit(es[|es| - 1].Change?)
  }

  /** How many changed lines of the last hunk are beyond the cap. */
  function Missed(lines: seq<string>): nat { Changes(Offered(lines)[|Allowed(Offered(lines))|..]) }

  function Left(lines: seq<string>): (r: seq<Entry>)
    ensures |r| <= 1
  {
    if Missed(lines) > 0 then [Skipped(Missed(lines))] else []
  }

  /** The counts of the last file, unless it has none or no name. */
  function Tally(files: seq<File>): (r: seq<Entry>)
    ensures |r| <= 1
  {
    if files == [] then []
    else
      var f := files[|files| - 1];
      if f.name != "" && (f.added > 0 || f.removed > 0) then [Counts(f.added, f.removed)] else []
  }

  /** The output up to the last header of a file or a hunk. */
  function Done(lines: seq<string>): seq<Entry>
    decreases |lines|, 0
  {
    if lines == [] then []
    else
      var front, line := lines[..|lines| - 1], lines[|lines| - 1];
      match KindOf(line)
      case Header => Written(front) + Left(front) + Tally(Files(front)) + [FileName(NameAfter(line))]
      case Hunk => Written(front) + Left(front) + [HunkHeader(line)]
      case Body => Done(front)
  }

  function Written(lines: seq<string>): seq<Entry>
    decreases |lines|, 1
  {
    Done(lines) + Allowed(Offered(lines))
  }

  /** The output is cut after these lines. */
  predicate Full(lines: seq<string>) { |Written(lines)| >= ENTRY_MAX }

  function Ended(lines: seq<string>): seq<Entry> {
    (if Full(lines) then Written(lines) + [More] else Written(lines)) + Left(lines) + Tally(Files(lines))
  }

  function Output(lines: seq<string>): seq<Entry> {
    Ended(lines) + if Shortened(Ended(lines)) then [Footer] else []
  }

  /* ---------- one more line ---------- */

  lemma ChangesMore(es: seq<Entry>, e: Entry)
    ensures Changes(es + [e]) == Changes(es) + Bit(e.Change?)
  {
    assert (es + [e])[..|es|] == es;
  }

  lemma AllowedMore(es: seq<Entry>, e: Entry)
    ensures Allowed(es + [e]) == Allowed(es) + if |es| < HUNK_MAX then [e] else []
    ensures Changes((es + [e])[|Allowed(es + [e])|..])
            == Changes(es[|Allowed(es)|..]) + Bit(|es| >= HUNK_MAX && e.Change?)
  {
    var rest := es[|Allowed(es)|..];
    ChangesMore(rest, e);
    hide Changes;
    if |es| >= HUNK_MAX {
      assert (es + [e])[HUNK_MAX..] == rest + [e];
    } else {
      assert (es + [e])[|es| + 1..] == rest;
    }
  }

  lemma OfferedStep(lines: seq<string>, line: string)
    ensures Offered(lines + [line])
            == if KindOf(line).Body? && InHunk(lines) then Offered(lines) + Line(Offered(lines) != [], line) else []
    ensures Done(lines + [line])
            == match KindOf(line)
               case Header => Written(lines) + Left(lines) + Tally(Files(lines)) + [FileName(NameAfter(line))]
               case Hunk => Written(lines) + Left(lines) + [HunkHeader(line)]
               case Body => Done(lines)
  {
    hide KindOf, Line, Left, Tally, Files, NameAfter, Allowed, InHunk;
    LastLine(lines, line);
  }

  lemma {:induction false} NothingOffered(lines: seq<string>)
    ensures !InHunk(lines) ==> Offered(lines) == [] && Missed(lines) == 0
  {
    hide KindOf, Line;
  }

  /** The output with one more line read. */
  lemma WrittenStep(lines: seq<string>, line: string)
    ensures Written(lines + [line])
            == match KindOf(line)
               case Header => Written(lines) + Left(lines) + Tally(Files(lines)) + [FileName(NameAfter(line))]
               case Hunk => Written(lines) + Left(lines) + [HunkHeader(line)]
               case Body =>
                 Written(lines)
                 + if InHunk(lines) && |Offered(lines)| < HUNK_MAX then Line(Offered(lines) != [], line) else []
    ensures Missed(lines + [line])
            == if KindOf(line).Body? && InHunk(lines)
               then Missed(lines) + Bit(|Offered(lines)| >= HUNK_MAX && IsChanged(line)) else 0
  {
    hide KindOf, Left, Tally, Files, NameAfter, InHunk, Done, Offered, HasPrefix, IsChanged;
    OfferedStep(lines, line);
    if KindOf(line).Body? && InHunk(lines) {
      var more := Line(Offered(lines) != [], line);
      if more != [] {
        AllowedMore(Offered(lines), more[0]);
        assert more == [more[0]];
      } else {
        assert Offered(lines) + more == Offered(lines);
      }
    } else {
      NothingOffered(lines);
    }
  }

  /* ---------- what the output tells ---------- */

  /**
   Fewer changed lines are shown than accounted for, or the output is cut, exactly if something is
   marked as left out.
   */
  predicate Honest(es: seq<Entry>) {
    && Changes(es) <= Accounted(es) && Footer !in es
    && (Shortened(es) <==> More in es || Changes(es) < Accounted(es))
  }

  lemma PushHonest(es: seq<Entry>, e: Entry)
    requires Honest(es) && !e.Footer? && (e.Skipped? ==> e.lines > 0)
    ensures Honest(es + [e])
  {
    hide Changes, Accounted, Shortened;
    Push(es, e);
    ChangesMore(es, e);
  }

  /** The accounts of the output so far. */
  predicate Told(lines: seq<string>, es: seq<Entry>, owed: nat, files: seq<File>, cut: bool) {
    && Changed(lines) == Accounted(es) + owed && Honest(es) && (More in es <==> cut)
    && Printed(es) == files && Capped(es) && Shown(es) <= HUNK_MAX
  }

  lemma TellLeft(lines: seq<string>, es: seq<Entry>, files: seq<File>, cut: bool)
    requires Told(lines, es, Missed(lines), files, cut)
    ensures Told(lines, es + Left(lines), 0, files, cut) && Shown(es + Left(lines)) == Shown(es)
  {
    hide Missed, Changed, Accounted, Honest, Printed, Capped, Shown;
    if Missed(lines) > 0 {
      Push(es, Skipped(Missed(lines)));
      PushFile(es, Skipped(Missed(lines)));
      PushHonest(es, Skipped(Missed(lines)));
    } else {
      assert es + Left(lines) == es;
    }
  }

  lemma TellTally(lines: seq<string>, es: seq<Entry>, files: seq<File>, cut: bool)
    requires Told(lines, es, 0, Pending(files), cut)
    ensures Told(lines, es + Tally(files), 0, VisibleAll(files), cut) && Shown(es + Tally(files)) == Shown(es)
  {
    hide Changed, Accounted, Honest, Printed, Capped, Shown;
    if Tally(files) != [] {
      var e := Tally(files)[0];
      Push(es, e);
      PushFile(es, e);
      PushHonest(es, e);
    } else {
      assert es + Tally(files) == es;
    }
    if files != [] { assert files == files[..|files| - 1] + [files[|files| - 1]]; }
  }

  lemma CountedPending(files: seq<File>, line: string)
    ensures Pending(Count(files, line)) == Pending(files)
  {
    if files != [] { assert Count(files, line)[..|files| - 1] == files[..|files| - 1]; }
  }

  /** Every file and every changed line of the input is accounted for. */
  lemma {:induction false} Accounts(lines: seq<string>)
    ensures Told(lines, Written(lines), Missed(lines), Pending(Files(lines)), false)
    ensures Shown(Written(lines)) == |Allowed(Offered(lines))|
  {
    hide *;
    if lines == [] {
      NothingRead();
    } else {
      var front, line := lines[..|lines| - 1], lines[|lines| - 1];
      Accounts(front);
      assert lines == front + [line];
      match KindOf(line)
      case Header => HeaderAccounts(front, line);
      case Hunk => HunkAccounts(front, line);
      case Body => LineAccounts(front, line);
    }
  }

  lemma NothingRead()
    ensures Written([]) == [] && Missed([]) == 0 && Told([], [], 0, Pending(Files([])), false) && !InHunk([])
            && Offered([]) == []
    ensures Shown(Written([])) == |Allowed(Offered([]))|
  {
  }

  lemma HeaderAccounts(lines: seq<string>, line: string)
    requires Told(lines, Written(lines), Missed(lines), Pending(Files(lines)), false) && KindOf(line).Header?
    ensures Told(lines + [line], Written(lines + [line]), Missed(lines + [line]), Pending(Files(lines + [line])), false)
    ensures Shown(Written(lines + [line])) == |Allowed(Offered(lines + [line]))|
  {
    hide KindOf, Missed, Changed, Accounted, Printed, Capped, Shown, Written, Files, Honest, NameAfter, Left, Tally,
         Pending, VisibleAll, InHunk;
    var es := Written(lines) + Left(lines) + Tally(Files(lines));
    var e := FileName(NameAfter(line));
    WrittenStep(lines, line);
    OfferedStep(lines, line);
    Seen(lines, line);
    TellLeft(lines, Written(lines), Pending(Files(lines)), false);
    TellTally(lines, Written(lines) + Left(lines), Files(lines), false);
    Push(es, e);
    PushFile(es, e);
    PushHonest(es, e);
    NewFile(Files(lines), File(e.name, 0, 0));
  }

  lemma NewFile(files: seq<File>, f: File)
    ensures Pending(files + [f]) == VisibleAll(files) + [File(f.name, 0, 0)]
  {
    assert (files + [f])[..|files|] == files;
  }

  lemma HunkAccounts(lines: seq<string>, line: string)
    requires Told(lines, Written(lines), Missed(lines), Pending(Files(lines)), false) && KindOf(line).Hunk?
    ensures Told(lines + [line], Written(lines + [line]), Missed(lines + [line]), Pending(Files(lines + [line])), false)
    ensures Shown(Written(lines + [line])) == |Allowed(Offered(lines + [line]))|
  {
    hide KindOf, Missed, Changed, Accounted, Printed, Capped, Shown, Written, Files, Honest, NameAfter, Left, Tally,
         Pending, InHunk;
    var es := Written(lines) + Left(lines);
    WrittenStep(lines, line);
    OfferedStep(lines, line);
    Seen(lines, line);
    TellLeft(lines, Written(lines), Pending(Files(lines)), false);
    Push(es, HunkHeader(line));
    PushFile(es, HunkHeader(line));
    PushHonest(es, HunkHeader(line));
  }

  lemma LineAccounts(lines: seq<string>, line: string)
    requires Told(lines, Written(lines), Missed(lines), Pending(Files(lines)), false) && KindOf(line).Body?
    requires Shown(Written(lines)) == |Allowed(Offered(lines))|
    ensures Told(lines + [line], Written(lines + [line]), Missed(lines + [line]), Pending(Files(lines + [line])), false)
    ensures Shown(Written(lines + [line])) == |Allowed(Offered(lines + [line]))|
  {
    hide KindOf, Missed, Changed, Accounted, Printed, Capped, Shown, Written, Files, Honest, NameAfter, Left, Tally,
         Pending,
         InHunk, Count, IsChanged, HasPrefix, Offered;
    var es, started := Written(lines), Offered(lines) != [];
    WrittenStep(lines, line);
    OfferedStep(lines, line);
    Seen(lines, line);
    CountedPending(Files(lines), line);
    NothingOffered(lines);
    var more := Line(started, line);
    if InHunk(lines) && |Offered(lines)| < HUNK_MAX && more != [] {
      assert more == [more[0]];
      Push(es, more[0]);
      PushFile(es, more[0]);
      PushHonest(es, more[0]);
    } else {
      assert es + [] == es;
    }
  }

  /**
   What is shown and what is printed as skipped are together the changed lines of the hunks read;
   every file is named, in order, with its exact counts; no hunk shows more than its cap; and the
   footer stands exactly if the output is cut or shows fewer changed lines than there are.
   */
  lemma OutputTells(lines: seq<string>)
    ensures var out := Output(lines);
            && Accounted(out) == Changed(lines) && Printed(out) == VisibleAll(Files(lines)) && Capped(out)
            && (Footer in out <==> Full(lines) || Changes(out) < Changed(lines))
  {
    hide KindOf, Missed, Changed, Accounted, Printed, Capped, Shown, Written, Files, Honest, Left, Tally, Pending,
         VisibleAll,
         Changes, Shortened;
    Accounts(lines);
    var files, cut := Files(lines), Full(lines);
    var es := if cut then Written(lines) + [More] else Written(lines);
    CutTold(lines, Written(lines), Missed(lines), Pending(files));
    TellLeft(lines, es, Pending(files), cut);
    TellTally(lines, es + Left(lines), files, cut);
    assert es + Left(lines) + Tally(files) == Ended(lines);
    Footed(Ended(lines));
  }

  lemma CutTold(lines: seq<string>, es: seq<Entry>, owed: nat, files: seq<File>)
    requires Told(lines, es, owed, files, false)
    ensures Told(lines, es + [More], owed, files, true)
  {
    hide Changed, Accounted, Honest, Printed, Capped, Shown;
    Push(es, More);
    PushFile(es, More);
    PushHonest(es, More);
  }

  lemma Footed(es: seq<Entry>)
    requires Honest(es) && Shown(es) <= HUNK_MAX
    ensures var out := es + if Shortened(es) then [Footer] else [];
            && Accounted(out) == Accounted(es) && Printed(out) == Printed(es) && (Capped(out) <==> Capped(es))
            && Changes(out) == Changes(es) && (Footer in out <==> More in es || Changes(es) < Accounted(es))
  {
    hide Accounted, Printed, Capped, Changes, Shortened, Shown;
    if Shortened(es) {
      Push(es, Footer);
      PushFile(es, Footer);
      ChangesMore(es, Footer);
    } else {
      assert es + [] == es;
    }
  }

  /* ---------- what a hunk shows ---------- */

  /** The lines before the first change, which are not shown. */
  function FirstChange(body: seq<string>): (k: nat)
    ensures k <= |body|
  {
    if body == [] || IsChanged(body[0]) then 0 else 1 + FirstChange(body[1..])
  }

  /** Changes and context, without remarks on a missing end of line. */
  function AsShown(body: seq<string>): seq<Entry> {
    if body == [] then []
    else
      (if IsChanged(body[0]) then [Change(body[0])] else if HasPrefix(body[0], "\\") then [] else [Context(body[0])])
      + AsShown(body[1..])
  }

  lemma {:induction false} AsShownMore(body: seq<string>, line: string)
    ensures AsShown(body + [line]) == AsShown(body) + AsShown([line])
  {
    hide IsChanged, HasPrefix;
    if body == [] {
      assert body + [line] == [line] && AsShown(body) == [];
    } else {
      assert (body + [line])[1..] == body[1..] + [line] && (body + [line])[0] == body[0];
      AsShownMore(body[1..], line);
    }
  }

  lemma {:induction false} FirstMore(body: seq<string>, line: string)
    ensures FirstChange(body + [line])
            == if FirstChange(body) < |body| || IsChanged(line) then FirstChange(body) else |body| + 1
    ensures FirstChange(body) < |body| ==> IsChanged(body[FirstChange(body)])
  {
    hide IsChanged;
    if body == [] {
      assert body + [line] == [line] && [line][1..] == [];
    } else {
      assert (body + [line])[1..] == body[1..] + [line] && (body + [line])[0] == body[0];
      FirstMore(body[1..], line);
    }
  }

  lemma ShownSome(body: seq<string>)
    ensures AsShown(body[FirstChange(body)..]) != [] <==> FirstChange(body) < |body|
  {
    var rest := body[FirstChange(body)..];
    FirstMore(body, "");
    hide IsChanged, HasPrefix;
    assert FirstChange(body) < |body| ==> rest[0] == body[FirstChange(body)];
  }

  /** A hunk offers what comes from its first change on. */
  lemma {:induction false} HunkOffers(front: seq<string>, header: string, body: seq<string>)
    requires KindOf(header).Hunk? && forall i | 0 <= i < |body| :: KindOf(body[i]).Body?
    ensures InHunk(front + [header] + body)
    ensures Offered(front + [header] + body) == AsShown(body[FirstChange(body)..])
    decreases |body|
  {
    hide KindOf, IsChanged, HasPrefix, Offered, AsShown, FirstChange, Line;
    if body == [] {
      assert front + [header] + body == front + [header];
      OfferedStep(front, header);
      Seen(front, header);
      NothingShown();
    } else {
      var less, line := body[..|body| - 1], body[|body| - 1];
      assert body == less + [line] && front + [header] + body == front + [header] + less + [line];
      HunkOffers(front, header, less);
      OfferedStep(front + [header] + less, line);
      Seen(front + [header] + less, line);
      FirstMore(less, line);
      ShownSome(less);
      ShownOne(less, line);
    }
  }

  lemma NothingShown()
    ensures FirstChange([]) == 0 && AsShown([]) == []
  {
  }

  lemma ShownLine(line: string)
    ensures AsShown([line]) == Line(true, line) && (IsChanged(line) ==> Line(false, line) == Line(true, line))
    ensures !IsChanged(line) ==> Line(false, line) == []
  {
    hide IsChanged, HasPrefix;
    assert [line][1..] == [];
  }

  lemma RestMore(less: seq<string>, line: string, k: nat)
    requires k <= |less|
    ensures (less + [line])[k..] == less[k..] + [line] && less[|less|..] == [] && (less + [line])[|less| + 1..] == []
  {
  }

  lemma ShownOne(less: seq<string>, line: string)
    ensures var body := less + [line];
            AsShown(body[FirstChange(body)..])
            == AsShown(less[FirstChange(less)..]) + Line(FirstChange(less) < |less|, line)
  {
    hide *;
    var k := FirstChange(less);
    FirstMore(less, line);
    ShownLine(line);
    RestMore(less, line, k);
    RestMore(less, line, |less|);
    AsShownMore(less[k..], line);
    NothingShown();
    assert [] + [line] == [line];
  }

  /** The output for a hunk is its header and the first 100 lines of that. */
  lemma HunkExact(front: seq<string>, header: string, body: seq<string>)
    requires KindOf(header).Hunk? && forall i | 0 <= i < |body| :: KindOf(body[i]).Body?
    ensures var shown := AsShown(body[FirstChange(body)..]);
            Written(front + [header] + body)
            == Written(front) + Left(front) + [HunkHeader(header)] + if |shown| <= 100 then shown else shown[..100]
  {
    HunkOffers(front, header, body);
    HunkDone(front, header, body);
    hide KindOf, Offered, AsShown, FirstChange, Left, InHunk, Done;
  }

  lemma {:induction false} HunkDone(front: seq<string>, header: string, body: seq<string>)
    requires KindOf(header).Hunk? && forall i | 0 <= i < |body| :: KindOf(body[i]).Body?
    ensures Done(front + [header] + body) == Written(front) + Left(front) + [HunkHeader(header)]
    decreases |body|
  {
    hide KindOf, Offered, Written, Left, InHunk, Done;
    if body == [] {
      assert front + [header] + body == front + [header];
      OfferedStep(front, header);
    } else {
      var less, line := body[..|body| - 1], body[|body| - 1];
      assert front + [header] + body == front + [header] + less + [line];
      HunkDone(front, header, less);
      OfferedStep(front + [header] + less, line);
    }
  }

  /** No fewer than n lines cut the output. */
  predicate Uncut(lines: seq<string>, n: nat)
    requires n <= |lines|
  {
    forall k | 0 <= k < n :: !Full(lines[..k])
  }

  lemma UncutMore(lines: seq<string>, i: nat)
    requires i < |lines| && Uncut(lines, i) && !Full(lines[..i])
    ensures Uncut(lines, i + 1) && lines[..i + 1] == lines[..i] + [lines[i]]
  {
    hide Full;
  }

  /** An output has at most 504 lines. */
  lemma OutputShort(lines: seq<string>, n: nat)
    requires n <= |lines| && Uncut(lines, n)
    ensures |Output(lines[..n])| <= 504 && (n == |lines| ==> lines[..n] == lines)
    ensures Full(lines[..n]) ==> |Output(lines[..n])| > 500
  {
    hide KindOf, Missed, Written, Files, Offered, InHunk, Shortened, Line, NameAfter;
    if n == 0 {
      NothingRead();
    } else {
      UncutMore(lines, n - 1);
      WrittenStep(lines[..n - 1], lines[n - 1]);
      Seen(lines[..n - 1], lines[n - 1]);
    }
  }

  /* ---------- the loop ---------- */

  method FlushSkipped(es: seq<Entry>, skipped: nat, truncated: bool) returns (next: seq<Entry>, done: bool)
    requires truncated == Shortened(es)
    ensures next == es + (if skipped > 0 then [Skipped(skipped)] else []) && done == Shortened(next)
  {
    next, done := es, truncated;
    hide Shortened;
    if skipped > 0 {
      Push(es, Skipped(skipped));
      next, done := es + [Skipped(skipped)], true;
    } else {
      assert es + [] == es;
    }
  }

  method FlushCounts(es: seq<Entry>, name: string, added: nat, removed: nat) returns (next: seq<Entry>)
    ensures next == es + (if name != "" && (added > 0 || removed > 0) then [Counts(added, removed)] else [])
  {
    next := es;
    if name != "" && (added > 0 || removed > 0) { next := es + [Counts(added, removed)]; }
  }

  /** The running state after some lines. */
  ghost predicate Loop(lines: seq<string>, es: seq<Entry>, name: string, added: nat, removed: nat,
                       inHunk: bool, shown: nat, skipped: nat) {
    && es == Written(lines) && inHunk == InHunk(lines)
    && shown == |Allowed(Offered(lines))| && skipped == Missed(lines)
    && (if Files(lines) == [] then name == "" else Files(lines)[|Files(lines)| - 1] == File(name, added, removed))
  }

  function Total(files: seq<File>): nat {
    if files == [] then 0 else Total(files[..|files| - 1]) + files[|files| - 1].added + files[|files| - 1].removed
  }

  /** Changed lines of hunks that no header precedes. */
  function Orphans(lines: seq<string>): nat {
    if lines == [] then 0
    else
      var n := |lines| - 1;
      Orphans(lines[..n])
      + Bit(KindOf(lines[n]).Body? && InHunk(lines[..n]) && IsChanged(lines[n]) && Files(lines[..n]) == [])
  }

  lemma TotalCount(files: seq<File>, line: string)
    ensures Total(Count(files, line)) == Total(files) + Bit(IsChanged(line) && files != [])
  {
    PrefixesDiffer(line);
    hide IsAdded, IsRemoved;
    if files != [] { assert Count(files, line)[..|files| - 1] == files[..|files| - 1]; }
  }

  lemma TotalPush(files: seq<File>, f: File)
    ensures Total(files + [f]) == Total(files) + f.added + f.removed
  {
    assert (files + [f])[..|files|] == files;
  }

  /** The printed +N -M of all files are the changed lines of the diff, apart from those before any header. */
  lemma {:induction false} FilesCoverChanges(lines: seq<string>)
    ensures Total(Files(lines)) + Orphans(lines) == Changed(lines)
  {
    if lines != [] {
      var n := |lines| - 1;
      FilesCoverChanges(lines[..n]);
      var files := Files(lines[..n]);
      hide KindOf, IsChanged, NameAfter, Total, InHunk, Count;
      TotalPush(files, File(NameAfter(lines[n]), 0, 0));
      TotalCount(files, lines[n]);
    }
  }

  method OnHeader(ghost lines: seq<string>, line: string, es: seq<Entry>, name: string, added: nat, removed: nat,
                  ghost inHunk: bool, ghost shown: nat, skipped: nat, truncated: bool)
    returns (next: seq<Entry>, nextName: string, done: bool)
    requires Loop(lines, es, name, added, removed, inHunk, shown, skipped) && KindOf(line).Header?
             && truncated == Shortened(es)
    ensures Loop(lines + [line], next, nextName, 0, 0, false, 0, 0) && done == Shortened(next)
  {
    hide *;
    Owing(lines, es, name, added, removed, inHunk, shown, skipped);
    next, done := FlushSkipped(es, skipped, truncated);
    next := FlushCounts(next, name, added, removed);
    nextName := NameAfter(line);
    TallyKeeps(es + Left(lines), Files(lines));
    Push(next, FileName(nextName));
    HeaderLoop(lines, line);
    next := next + [FileName(nextName)];
  }

  /** What is to be printed before a header, by the counters. */
  lemma Owing(lines: seq<string>, es: seq<Entry>, name: string, added: nat, removed: nat, inHunk: bool, shown: nat,
              skipped: nat)
    requires Loop(lines, es, name, added, removed, inHunk, shown, skipped)
    ensures es == Written(lines)
    ensures Left(lines) == if skipped > 0 then [Skipped(skipped)] else []
    ensures Tally(Files(lines))
            == if name != "" && (added > 0 || removed > 0) then [Counts(added, removed)] else []
  {
    hide Missed, Offered, Files, InHunk, Written;
  }

  lemma HeaderLoop(lines: seq<string>, line: string)
    requires KindOf(line).Header?
    ensures Loop(lines + [line], Written(lines) + Left(lines) + Tally(Files(lines)) + [FileName(NameAfter(line))],
                 NameAfter(line), 0, 0, false, 0, 0)
  {
    hide KindOf, NameAfter, Missed, Offered, Files, InHunk, Written, Left, Tally;
    Seen(lines, line);
    OfferedStep(lines, line);
    WrittenStep(lines, line);
  }

  lemma TallyKeeps(es: seq<Entry>, files: seq<File>)
    ensures Shortened(es + Tally(files)) == Shortened(es)
  {
    hide Shortened;
    if Tally(files) != [] {
      Push(es, Tally(files)[0]);
    } else {
      assert es + Tally(files) == es;
    }
  }

  method OnHunk(ghost lines: seq<string>, line: string, es: seq<Entry>, ghost name: string, ghost added: nat,
                ghost removed: nat,
                ghost inHunk: bool, ghost shown: nat, skipped: nat, truncated: bool)
    returns (next: seq<Entry>, done: bool)
    requires Loop(lines, es, name, added, removed, inHunk, shown, skipped) && KindOf(line).Hunk?
             && truncated == Shortened(es)
    ensures Loop(lines + [line], next, name, added, removed, true, 0, 0) && done == Shortened(next)
  {
    hide KindOf, Missed, Offered, Files, InHunk, Shortened, Written;
    Seen(lines, line);
    OfferedStep(lines, line);
    WrittenStep(lines, line);
    next, done := FlushSkipped(es, skipped, truncated);
    Push(next, HunkHeader(line));
    next := next + [HunkHeader(line)];
  }

  /** The output and its counters after a line of a hunk. */
  lemma LineShown(lines: seq<string>, line: string)
    requires InHunk(lines) && KindOf(line).Body?
    ensures var more, shown := Line(Offered(lines) != [], line), |Allowed(Offered(lines))|;
            && Written(lines + [line]) == Written(lines) + (if shown < HUNK_MAX then more else [])
            && |Allowed(Offered(lines + [line]))| == shown + (if shown < HUNK_MAX then |more| else 0)
            && Missed(lines + [line]) == Missed(lines) + (if shown < HUNK_MAX then 0 else Bit(IsChanged(line)))
            && (Offered(lines) != [] <==> shown > 0)
  {
    hide KindOf, InHunk, Missed, Offered, Files, Written, Line, IsChanged;
    OfferedStep(lines, line);
    WrittenStep(lines, line);
  }

  lemma LineCounted(lines: seq<string>, line: string, name: string, added: nat, removed: nat)
    requires InHunk(lines) && KindOf(line).Body?
    requires if Files(lines) == [] then name == "" else Files(lines)[|Files(lines)| - 1] == File(name, added, removed)
    ensures var files := Files(lines + [line]);
            if files == [] then name == ""
            else files[|files| - 1] == File(name, added + Bit(IsAdded(line)), removed + Bit(IsRemoved(line)))
  {
    hide KindOf, InHunk, Files, IsAdded, IsRemoved;
    Seen(lines, line);
  }

  method OnBody(ghost lines: seq<string>, line: string, es: seq<Entry>, ghost name: string, added: nat, removed: nat,
                shown: nat, skipped: nat, ghost truncated: bool)
    returns (next: seq<Entry>, moreAdded: nat, moreRemoved: nat, nowShown: nat, nowSkipped: nat)
    requires Loop(lines, es, name, added, removed, true, shown, skipped) && KindOf(line).Body?
             && truncated == Shortened(es)
    ensures Loop(lines + [line], next, name, moreAdded, moreRemoved, true, nowShown, nowSkipped)
            && truncated == Shortened(next)
  {
    hide KindOf, Missed, Offered, Files, InHunk, Shortened, Written, HasPrefix, IsAdded, IsRemoved, Allowed;
    Seen(lines, line);
    LineShown(lines, line);
    LineCounted(lines, line, name, added, removed);
    PrefixesDiffer(line);
    next, moreAdded, moreRemoved, nowShown, nowSkipped := es, added, removed, shown, skipped;
    if IsAdded(line) { moreAdded := added + 1; } else if IsRemoved(line) { moreRemoved := removed + 1; }
    assert es + [] == es;
    if IsChanged(line) {
      Push(es, Change(line));
      if shown < HUNK_MAX {
        next, nowShown := es + [Change(line)], shown + 1;
      } else {
        nowSkipped := skipped + 1;
      }
    } else if 0 < shown < HUNK_MAX && !HasPrefix(line, "\\") {
      Push(es, Context(line));
      next, nowShown := es + [Context(line)], shown + 1;
    }
  }

  /** A line before any hunk of its file. */
  lemma Outside(lines: seq<string>, line: string, es: seq<Entry>, name: string, added: nat, removed: nat, shown: nat,
                skipped: nat)
    requires Loop(lines, es, name, added, removed, false, shown, skipped) && KindOf(line).Body?
    ensures Loop(lines + [line], es, name, added, removed, false, shown, skipped)
  {
    hide KindOf, Missed, Offered, Files, InHunk, Written;
    Seen(lines, line);
    OfferedStep(lines, line);
    WrittenStep(lines, line);
    NothingOffered(lines);
    assert es + [] == es;
  }

  lemma StartLoop(lines: seq<string>)
    ensures Loop(lines[..0], [], "", 0, 0, false, 0, 0) && Written(lines[..0]) == [] && !Shortened([])
    ensures Uncut(lines, 0) && !Full(lines[..0])
  {
    NothingRead();
    assert lines[..0] == [];
  }

  lemma FullIs(lines: seq<string>, es: seq<Entry>, name: string, added: nat, removed: nat, inHunk: bool, shown: nat,
               skipped: nat)
    requires Loop(lines, es, name, added, removed, inHunk, shown, skipped)
    ensures es == Written(lines) && (Full(lines) <==> |es| >= ENTRY_MAX)
  {
  }

  lemma MoreShortens(es: seq<Entry>)
    ensures Shortened(es + [More])
  {
  }

  /** What comes after the loop: the last skipped count, the last file's counts, and the footer. */
  method Finish(ghost lines: seq<string>, es: seq<Entry>, name: string, added: nat, removed: nat,
                ghost inHunk: bool, ghost shown: nat, skipped: nat, truncated: bool) returns (result: seq<Entry>)
    requires Loop(lines, Written(lines), name, added, removed, inHunk, shown, skipped)
    requires es == (if Full(lines) then Written(lines) + [More] else Written(lines)) && truncated == Shortened(es)
    ensures result == Output(lines)
  {
    hide Missed, Offered, Files, InHunk, Written, Full, Shortened;
    var done;
    result, done := FlushSkipped(es, skipped, truncated);
    result := FlushCounts(result, name, added, removed);
    TallyKeeps(es + Left(lines), Files(lines));
    assert result == Ended(lines);
    if done { result := result + [Footer]; }
  }

  /** One line, by its kind. */
  method Read(ghost lines: seq<string>, line: string, es: seq<Entry>, name: string, added: nat, removed: nat,
              inHunk: bool, shown: nat, skipped: nat, truncated: bool)
    returns (es': seq<Entry>, name': string, added': nat, removed': nat, inHunk': bool, shown': nat, skipped': nat,
             truncated': bool)
    requires Loop(lines, es, name, added, removed, inHunk, shown, skipped) && truncated == Shortened(es)
    ensures Loop(lines + [line], es', name', added', removed', inHunk', shown', skipped')
            && truncated' == Shortened(es')
  {
    hide *;
    es', name', added', removed', inHunk', shown', skipped', truncated' :=
      es, name, added, removed, inHunk, shown, skipped, truncated;
    match KindOf(line) {
      case Header =>
        es', name', truncated' := OnHeader(lines, line, es, name, added, removed, inHunk, shown, skipped, truncated);
        added', removed', shown', skipped', inHunk' := 0, 0, 0, 0, false;
      case Hunk =>
        es', truncated' := OnHunk(lines, line, es, name, added, removed, inHunk, shown, skipped, truncated);
        inHunk', shown', skipped' := true, 0, 0;
      case Body =>
        if inHunk {
          es', added', removed', shown', skipped' :=
            OnBody(lines, line, es, name, added, removed, shown, skipped, truncated);
        } else {
          Outside(lines, line, es, name, added, removed, shown, skipped);
        }
    }
  }

  /**
   used lines are read: all of them, unless the output is cut, which happens at the first line
   that fills it. The output is the one for those lines, at most 504 lines long.
   */
  method GitDiff(lines: seq<string>) returns (result: seq<Entry>, ghost used: nat)
    ensures used <= |lines| && result == Output(lines[..used])
    ensures (used < |lines| ==> Full(lines[..used])) && Uncut(lines, used)
    ensures |result| <= 504 && (used < |lines| ==> |result| > 500)
  {
    result := [];
    var name, added, removed := "", 0, 0;
    var inHunk, shown, skipped, truncated := false, 0, 0, false;
    var i := 0;
    hide *;
    StartLoop(lines);
    while i < |lines|
      invariant i <= |lines| && Loop(lines[..i], result, name, added, removed, inHunk, shown, skipped)
      invariant truncated == Shortened(result) && result == Written(lines[..i])
      invariant Uncut(lines, i) && !Full(lines[..i])
    {
      var line := lines[i];
      UncutMore(lines, i);
      result, name, added, removed, inHunk, shown, skipped, truncated :=
        Read(lines[..i], line, result, name, added, removed, inHunk, shown, skipped, truncated);
      i := i + 1;
      FullIs(lines[..i], result, name, added, removed, inHunk, shown, skipped);
      if |result| >= ENTRY_MAX {
        MoreShortens(result);
        result, truncated := result + [More], true;
        break;
      }
    }
    used := i;
    OutputShort(lines, i);
    result := Finish(lines[..i], result, name, added, removed, inHunk, shown, skipped, truncated);
  }
}
