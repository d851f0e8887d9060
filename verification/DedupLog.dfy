/** The log compressor: runs of one line and runs of blank lines are shortened, and counted. */
module DedupLogs {

  const LINE_MAX: nat := 2000

  /** White space as Unicode defines it. */
  predicate IsSpace(c: char) {
    c == '\t' || c == '\n' || c == '\U{B}' || c == '\U{C}' || c == '\r' || c == ' ' || c == '\U{85}' || c == '\U{A0}'
    || c == '\U{1680}' || '\U{2000}' <= c <= '\U{200A}' || c == '\U{2028}' || c == '\U{2029}' || c == '\U{202F}'
    || c == '\U{205F}' || c == '\U{3000}'
  }

  predicate Blank(line: string) { forall i | 0 <= i < |line| :: IsSpace(line[i]) }

  /** One line of output: a kept line, a count of dropped copies of the last kept line that is not blank, or the cut. */
  datatype Entry = Kept(line: string) | Copies(dropped: nat) | Cut

  /* ---------- what an output stands for ---------- */

  function NonBlank(lines: seq<string>): seq<string> {
    if lines == [] then []
    else
      var n := |lines| - 1;
      NonBlank(lines[..n]) + if Blank(lines[n]) then [] else [lines[n]]
  }

  function Repeat(line: string, n: nat): (r: seq<string>)
    ensures |r| == n
  {
    seq(n, _ => line)
  }

  /** The last kept line that is not blank. */
  function Current(es: seq<Entry>): string {
    if es == [] then ""
    else
      var e := es[|es| - 1];
      if e.Kept? && !Blank(e.line) then e.line else Current(es[..|es| - 1])
  }

  /** The lines that are not blank, with the counted copies put back. */
  function Expand(es: seq<Entry>): seq<string> {
    if es == [] then []
    else
      var front, e := es[..|es| - 1], es[|es| - 1];
      match e
      case Kept(line) => Expand(front) + if Blank(line) then [] else [line]
      case Copies(n) => Expand(front) + Repeat(Current(front), n)
      case Cut => Expand(front)
  }

  function KeptLines(es: seq<Entry>): seq<string> {
    if es == [] then []
    else
      var front, e := es[..|es| - 1], es[|es| - 1];
      KeptLines(front) + if e.Kept? then [e.line] else []
  }

  /** a is b with some elements left out. */
  predicate Subsequence(a: seq<string>, b: seq<string>)
    decreases |b|
  {
    a == [] || (b != [] && (Subsequence(a, b[..|b| - 1])
                           || (a[|a| - 1] == b[|b| - 1] && Subsequence(a[..|a| - 1], b[..|b| - 1]))))
  }

  function Dropped(es: seq<Entry>): nat {
    if es == [] then 0
    else Dropped(es[..|es| - 1]) + if es[|es| - 1].Copies? then es[|es| - 1].dropped else 0
  }

  function KeptFull(es: seq<Entry>): nat {
    if es == [] then 0
    else
      var e := es[|es| - 1];
      KeptFull(es[..|es| - 1]) + if e.Kept? && !Blank(e.line) then 1 else 0
  }

  /** The printed counts and the kept lines add up. */
  lemma {:induction false} ExpandSize(es: seq<Entry>)
    ensures |Expand(es)| == KeptFull(es) + Dropped(es)
  {
    hide Blank;
    if es != [] { ExpandSize(es[..|es| - 1]); }
  }

  lemma Push(es: seq<Entry>, e: Entry)
    ensures e.Kept? ==> Expand(es + [e]) == Expand(es) + if Blank(e.line) then [] else [e.line]
    ensures e.Copies? ==> Expand(es + [e]) == Expand(es) + Repeat(Current(es), e.dropped)
    ensures e.Cut? ==> Expand(es + [e]) == Expand(es)
    ensures Current(es + [e]) == if e.Kept? && !Blank(e.line) then e.line else Current(es)
    ensures e.Kept? ==> KeptLines(es + [e]) == KeptLines(es) + [e.line]
    ensures !e.Kept? ==> KeptLines(es + [e]) == KeptLines(es)
  {
    hide Blank;
    assert (es + [e])[..|es|] == es;
  }

  lemma SubsequenceMore(a: seq<string>, b: seq<string>, line: string)
    requires Subsequence(a, b)
    ensures Subsequence(a, b + [line]) && Subsequence(a + [line], b + [line])
  {
    assert (b + [line])[..|b|] == b && (a + [line])[..|a|] == a;
  }

  lemma RepeatMore(front: seq<string>, line: string, n: nat)
    ensures front + Repeat(line, n) + [line] == front + Repeat(line, n + 1)
  {
  }

  /* ---------- the output for an input ---------- */

  /** How many times the last line stands at the end; none when it is blank. */
  function Run(lines: seq<string>): nat {
    if lines == [] then 0
    else
      var n := |lines| - 1;
      if Blank(lines[n]) then 0
      else if n > 0 && lines[n - 1] == lines[n] then Run(lines[..n]) + 1 else 1
  }

  /** The count of the copies at the end, which is printed once their run is over. */
  function Owed(lines: seq<string>): seq<Entry> {
    if Run(lines) > 1 then [Copies(Run(lines) - 1)] else []
  }

  predicate EndsBlank(lines: seq<string>) { lines != [] && Blank(lines[|lines| - 1]) }

  /** What is printed by the end of these lines; a blank line comes before the count of the run it ends. */
  function Printed(lines: seq<string>): seq<Entry> {
    if lines == [] then []
    else
      var front, line := lines[..|lines| - 1], lines[|lines| - 1];
      if Blank(line) then
        if EndsBlank(front) then Printed(front) else Printed(front) + [Kept(line)] + Owed(front)
      else if Run(lines) > 1 then Printed(front)
      else Printed(front) + Owed(front) + [Kept(line)]
  }

  /** The output is cut after these lines. */
  predicate Full(lines: seq<string>) { Run(lines) == 1 && |Printed(lines)| >= LINE_MAX }

  function Output(lines: seq<string>): seq<Entry> {
    Printed(lines) + if Full(lines) then [Cut] else Owed(lines)
  }

  lemma Step(lines: seq<string>, line: string)
    ensures EndsBlank(lines + [line]) == Blank(line)
    ensures Run(lines + [line])
            == if Blank(line) then 0 else if lines != [] && lines[|lines| - 1] == line then Run(lines) + 1 else 1
    ensures Printed(lines + [line])
            == if Blank(line) then
                 if EndsBlank(lines) then Printed(lines) else Printed(lines) + [Kept(line)] + Owed(lines)
               else if Run(lines + [line]) > 1 then Printed(lines)
               else Printed(lines) + Owed(lines) + [Kept(line)]
  {
    hide Blank;
    assert (lines + [line])[..|lines|] == lines;
  }

  /* ---------- what the output tells ---------- */

  lemma EmptyStart()
    ensures Expand([]) == [] && NonBlank([]) == [] && KeptLines([]) == [] && Subsequence([], [])
  {
  }

  lemma NonBlankMore(lines: seq<string>, line: string)
    ensures NonBlank(lines + [line]) == NonBlank(lines) + if Blank(line) then [] else [line]
  {
    hide Blank;
    assert (lines + [line])[..|lines|] == lines;
  }

  /** Putting back the copies owed so far. */
  lemma OwedExpands(es: seq<Entry>, lines: seq<string>)
    ensures Expand(es + Owed(lines)) == Expand(es) + Repeat(Current(es), if Run(lines) > 1 then Run(lines) - 1 else 0)
    ensures KeptLines(es + Owed(lines)) == KeptLines(es) && Current(es + Owed(lines)) == Current(es)
  {
    hide Blank, Expand, KeptLines, Current, Run;
    if Run(lines) > 1 {
      Push(es, Copies(Run(lines) - 1));
    } else {
      assert es + Owed(lines) == es;
      assert Repeat(Current(es), 0) == [];
    }
  }

  /** A run is a run of the last kept line. */
  lemma {:induction false} RunIsCurrent(lines: seq<string>)
    ensures Run(lines) > 0 <==> lines != [] && !EndsBlank(lines)
    ensures Run(lines) > 0 ==> Current(Printed(lines)) == lines[|lines| - 1]
  {
    hide Blank, Expand, KeptLines;
    if lines != [] {
      var front, line := lines[..|lines| - 1], lines[|lines| - 1];
      RunIsCurrent(front);
      assert lines == front + [line];
      Step(front, line);
      if !Blank(line) && Run(lines) <= 1 { Push(Printed(front) + Owed(front), Kept(line)); }
    }
  }

  /** With the copies put back, the output holds exactly the lines that are not blank. */
  lemma {:induction false} PrintedExpands(lines: seq<string>)
    ensures Expand(Printed(lines) + Owed(lines)) == NonBlank(lines)
  {
    hide Blank, Current, Run, Owed, Printed, Expand, NonBlank;
    EmptyStart();
    NothingYet();
    if lines != [] {
      var front, line := lines[..|lines| - 1], lines[|lines| - 1];
      PrintedExpands(front);
      assert lines == front + [line];
      NonBlankMore(front, line);
      Step(front, line);
      RunIsCurrent(front);
      RunIsCurrent(lines);
      OwedExpands(Printed(front), front);
      OwedExpands(Printed(lines), lines);
      StepExpands(front, line);
    }
  }

  /** What one more line adds to what the output stands for. */
  lemma StepExpands(front: seq<string>, line: string)
    ensures Expand(Printed(front + [line]) + Owed(front + [line]))
            == Expand(Printed(front) + Owed(front)) + if Blank(line) then [] else [line]
  {
    hide Blank, Current, Run, Owed, Printed, Expand, NonBlank, Repeat;
    var lines := front + [line];
    var es := Printed(front);
    Step(front, line);
    RunIsCurrent(front);
    RunIsCurrent(lines);
    OwedExpands(es, front);
    OwedExpands(Printed(lines), lines);
    assert lines[|lines| - 1] == line;
    NoCopies(Current(es));
    NoCopies(line);
    if Blank(line) {
      Push(es, Kept(line));
      OwedExpands(es + [Kept(line)], front);
    } else if Run(lines) > 1 {
      RepeatMore(Expand(es), line, Run(front) - 1);
    } else {
      Push(es + Owed(front), Kept(line));
    }
  }

  lemma NoCopies(line: string)
    ensures Repeat(line, 0) == []
  {
  }

  lemma NothingYet()
    ensures Printed([]) == [] && Owed([]) == [] && Run([]) == 0 && Printed([]) + Owed([]) == []
  {
  }

  /** What is kept is a selection of the lines, in order. */
  lemma {:induction false} KeptAreLines(lines: seq<string>)
    ensures Subsequence(KeptLines(Printed(lines)), lines)
  {
    hide Blank, Current, Run, Owed, Printed, Expand, NonBlank, KeptLines, Subsequence;
    EmptyStart();
    NothingYet();
    if lines != [] {
      var front, line := lines[..|lines| - 1], lines[|lines| - 1];
      KeptAreLines(front);
      assert lines == front + [line];
      Step(front, line);
      SubsequenceMore(KeptLines(Printed(front)), front, line);
      KeptStep(front, line);
      assert KeptLines(Printed(front)) + [] == KeptLines(Printed(front));
    }
  }

  /** A line is kept unless it repeats the last one or another blank line. */
  lemma KeptStep(front: seq<string>, line: string)
    ensures KeptLines(Printed(front + [line])) == KeptLines(Printed(front))
              + if (if Blank(line) then EndsBlank(front) else front != [] && front[|front| - 1] == line)
                then [] else [line]
  {
    hide Blank, Current, Owed, Printed, Expand, NonBlank, KeptLines;
    var es := Printed(front);
    Step(front, line);
    RunIsCurrent(front);
    OwedExpands(es, front);
    Push(es, Kept(line));
    OwedExpands(es + [Kept(line)], front);
    Push(es + Owed(front), Kept(line));
  }

  /** Side by side no two lines are equal, and no two are blank. */
  predicate Squeezed(lines: seq<string>) {
    forall i | 0 < i < |lines| :: lines[i - 1] != lines[i] && !(Blank(lines[i - 1]) && Blank(lines[i]))
  }

  /** The kept lines cannot be squeezed further. */
  lemma {:induction false} KeptAreSqueezed(lines: seq<string>)
    ensures Squeezed(KeptLines(Printed(lines)))
    ensures lines != [] ==>
              var kept := KeptLines(Printed(lines));
              kept != [] && if EndsBlank(lines) then Blank(kept[|kept| - 1]) else kept[|kept| - 1] == lines[|lines| - 1]
  {
    hide Blank, Current, Run, Owed, Printed, Expand, NonBlank, KeptLines;
    EmptyStart();
    NothingYet();
    if lines != [] {
      var front, line := lines[..|lines| - 1], lines[|lines| - 1];
      KeptAreSqueezed(front);
      assert lines == front + [line];
      KeptStep(front, line);
    }
  }

  /** The lines without those that repeat the line before them, or a blank line before them. */
  function Squeeze(lines: seq<string>): seq<string> {
    if lines == [] then []
    else
      var n := |lines| - 1;
      Squeeze(lines[..n])
      + if n > 0 && (lines[n] == lines[n - 1] || (Blank(lines[n]) && Blank(lines[n - 1]))) then [] else [lines[n]]
  }

  /** Just these lines are kept. */
  lemma {:induction false} KeptExact(lines: seq<string>)
    ensures KeptLines(Output(lines)) == Squeeze(lines)
  {
    OwedExpands(Printed(lines), lines);
    Push(Printed(lines), Cut);
    hide Current, Run, Owed, Printed, Expand, NonBlank, KeptLines, Blank;
    PrintedKeeps(lines);
  }

  lemma {:induction false} PrintedKeeps(lines: seq<string>)
    ensures KeptLines(Printed(lines)) == Squeeze(lines)
  {
    hide Blank, Current, Run, Owed, Printed, Expand, NonBlank, KeptLines;
    EmptyStart();
    NothingYet();
    if lines != [] {
      var front, line := lines[..|lines| - 1], lines[|lines| - 1];
      PrintedKeeps(front);
      assert lines == front + [line];
      KeptStep(front, line);
      assert KeptLines(Printed(front)) + [] == KeptLines(Printed(front));
    }
  }

  /** Where a count stands: after the line it counts, or after the blank line that ended its run. */
  lemma {:induction false} CountsStand(lines: seq<string>, i: nat)
    requires i < |Output(lines)| && Output(lines)[i].Copies?
    ensures var out := Output(lines);
            && i > 0 && out[i - 1].Kept?
            && (!Blank(out[i - 1].line) || (i > 1 && out[i - 2].Kept? && !Blank(out[i - 2].line)))
  {
    hide Blank, Current, Run, Printed, Expand, NonBlank, KeptLines;
    LastPrinted(lines);
    if i < |Printed(lines)| { PrintedCounts(lines, i); }
  }

  /** The output so far ends with its last line, if that is not blank. */
  lemma {:induction false} LastPrinted(lines: seq<string>)
    ensures Run(lines) > 0 ==>
              && Printed(lines) != [] && Printed(lines)[|Printed(lines)| - 1] == Kept(lines[|lines| - 1])
              && !Blank(lines[|lines| - 1])
  {
    hide Blank, Current, Printed, Expand, NonBlank, KeptLines, Owed;
    NothingYet();
    if lines != [] {
      var front, line := lines[..|lines| - 1], lines[|lines| - 1];
      LastPrinted(front);
      assert lines == front + [line];
      Step(front, line);
    }
  }

  lemma {:induction false} PrintedCounts(lines: seq<string>, i: nat)
    requires i < |Printed(lines)| && Printed(lines)[i].Copies?
    ensures var out := Printed(lines);
            && i > 0 && out[i - 1].Kept?
            && (!Blank(out[i - 1].line) || (i > 1 && out[i - 2].Kept? && !Blank(out[i - 2].line)))
  {
    hide Blank, Current, Printed, Run, Expand, NonBlank, KeptLines;
    NothingYet();
    var front, line := lines[..|lines| - 1], lines[|lines| - 1];
    assert lines == front + [line];
    Step(front, line);
    LastPrinted(front);
    if i < |Printed(front)| { PrintedCounts(front, i); }
  }

  /** Uncut, the lines that are not blank are the kept ones plus all the printed counts. */
  lemma CountsAddUp(lines: seq<string>)
    ensures !Full(lines) ==> |NonBlank(lines)| == KeptFull(Output(lines)) + Dropped(Output(lines))
    ensures Expand(Output(lines)) == NonBlank(lines) && Subsequence(KeptLines(Output(lines)), lines)
    ensures Squeezed(KeptLines(Output(lines)))
  {
    hide Blank, Expand, NonBlank, KeptFull, Dropped, Run, Printed, KeptLines, Current, Subsequence, Squeezed, Owed;
    PrintedExpands(lines);
    KeptAreLines(lines);
    KeptAreSqueezed(lines);
    OwedExpands(Printed(lines), lines);
    Push(Printed(lines), Cut);
    ExpandSize(Output(lines));
    if Full(lines) { OneOwes(lines); }
  }

  lemma OneOwes(lines: seq<string>)
    requires Run(lines) == 1
    ensures Printed(lines) + Owed(lines) == Printed(lines)
  {
  }

  /* ---------- the loop ---------- */

  method Flush(out: seq<Entry>, have: bool, run: nat) returns (next: seq<Entry>)
    ensures next == out + if have && run > 1 then [Copies(run - 1)] else []
  {
    next := out;
    if have && run > 1 { next := out + [Copies(run - 1)]; }
  }

  /**
   used lines are read: all of them, unless the output is cut, which happens at the first line
   that fills it. The output is the one for those lines, at most 2003 lines long.
   */
  method DedupLog(lines: seq<string>) returns (out: seq<Entry>, ghost used: nat)
    ensures used <= |lines| && out == Output(lines[..used])
    ensures (used < |lines| ==> Full(lines[..used])) && forall k | 0 <= k < used :: !Full(lines[..k])
    ensures |out| <= 2003 && (used < |lines| ==> |out| > 2000)
  {
    hide Blank, Run, Printed;
    out := [];
    var previous := "";
    var havePrevious, run, blankStreak := false, 0, 0;
    var i := 0;
    NothingYet();
    assert lines[..0] == [];
    while i < |lines|
      invariant i <= |lines| && out == Printed(lines[..i])
      invariant forall k | 0 <= k <= i :: !Full(lines[..k])
      invariant run == Run(lines[..i]) && (havePrevious <==> run > 0)
      invariant blankStreak > 0 <==> EndsBlank(lines[..i])
      invariant havePrevious ==> previous == lines[i - 1]
      invariant |out| < LINE_MAX || (|out| <= LINE_MAX + 1 && blankStreak > 0)
    {
      var line := lines[i];
      assert lines[..i + 1] == lines[..i] + [line];
      Step(lines[..i], line);
      RunIsCurrent(lines[..i]);
      i := i + 1;
      if Blank(line) {
        if blankStreak == 0 { out := out + [Kept(line)]; }
        blankStreak := blankStreak + 1;
        out := Flush(out, havePrevious, run);
        havePrevious, run := false, 0;
        continue;
      }
      blankStreak := 0;
      if havePrevious && line == previous {
        run := run + 1;
        continue;
      }
      out := Flush(out, havePrevious, run);
      out := out + [Kept(line)];
      previous, havePrevious, run := line, true, 1;
      if |out| >= LINE_MAX {
        out, used := out + [Cut], i;
        return;
      }
    }
    out := Flush(out, havePrevious, run);
    used := |lines|;
    assert lines[..|lines|] == lines;
  }
}
