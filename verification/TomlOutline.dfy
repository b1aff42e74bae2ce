/**
 The index read line by line: how one more line changes projects, platforms and options sections, and the outline of a
 file, which does not depend on blank lines and trailing blanks (config/config.go, buildRawProjectSpans).
 */
module TomlOutline {
  import opened Wrappers
  import opened Strings
  import opened TomlIndex
  import opened TomlSpans
  import opened TomlConfig
  import opened FormatToml

  // ----- The index of a file with one more line -----

  lemma {:induction false} FirstOfPrefix(marks: seq<Mark>, m: Mark, p: Pattern, lo: nat, stop: nat)
    requires lo <= stop <= |marks|
    ensures First(marks + [m], p, lo, stop) == First(marks, p, lo, stop)
    decreases stop - lo
  {
    if lo < stop { FirstOfPrefix(marks, m, p, lo + 1, stop); }
  }

  lemma {:induction false} FirstGrows(marks: seq<Mark>, p: Pattern, lo: nat, stop: nat)
    requires lo <= stop < |marks|
    ensures First(marks, p, lo, stop + 1) ==
            if First(marks, p, lo, stop) < stop then First(marks, p, lo, stop)
            else if Matches(marks[stop], p) then stop else stop + 1
    decreases stop - lo
  {
    if lo < stop && !Matches(marks[lo], p) { FirstGrows(marks, p, lo + 1, stop); }
  }

  lemma {:induction false} BlocksFromOfPrefix(marks: seq<Mark>, m: Mark, t: Table, s: nat, stop: nat)
    requires s < stop <= |marks| && marks[s].table == t
    ensures BlocksFrom(marks + [m], t, s, stop) == BlocksFrom(marks, t, s, stop)
    decreases stop - s
  {
    FirstOfPrefix(marks, m, Header(t), s + 1, stop);
    var next := First(marks, Header(t), s + 1, stop);
    if next < stop { BlocksFromOfPrefix(marks, m, t, next, stop); }
  }

  lemma BlocksOfPrefix(marks: seq<Mark>, m: Mark, t: Table, lo: nat, stop: nat)
    requires lo <= stop <= |marks|
    ensures Blocks(marks + [m], t, lo, stop) == Blocks(marks, t, lo, stop)
  {
    FirstOfPrefix(marks, m, Header(t), lo, stop);
    var s := First(marks, Header(t), lo, stop);
    if s < stop { BlocksFromOfPrefix(marks, m, t, s, stop); }
  }

  /** The last block goes on to `stop`. */
  function Extended(blocks: seq<Block>, stop: nat): (r: seq<Block>)
    ensures |r| == |blocks|
  {
    if blocks == [] then [] else blocks[|blocks| - 1 := Block(blocks[|blocks| - 1].start, stop)]
  }

  function Grown(blocks: seq<Block>, m: Mark, t: Table, stop: nat): seq<Block> {
    if m.table == t then blocks + [Block(stop, stop + 1)] else Extended(blocks, stop + 1)
  }

  lemma BlocksFromIs(marks: seq<Mark>, t: Table, s: nat, stop: nat)
    requires s < stop <= |marks| && marks[s].table == t
    ensures var next := First(marks, Header(t), s + 1, stop);
            BlocksFrom(marks, t, s, stop) ==
            if next == stop then [Block(s, stop)] else [Block(s, next)] + BlocksFrom(marks, t, next, stop)
  {
  }

  lemma {:induction false} BlocksFromGrow(marks: seq<Mark>, t: Table, s: nat, stop: nat)
    requires s < stop < |marks| && marks[s].table == t
    ensures BlocksFrom(marks, t, s, stop + 1) == Grown(BlocksFrom(marks, t, s, stop), marks[stop], t, stop)
    decreases stop - s
  {
    hide First, BlocksFrom, BlocksIn;
    FirstGrows(marks, Header(t), s + 1, stop);
    BlocksFromIs(marks, t, s, stop);
    BlocksFromIs(marks, t, s, stop + 1);
    var next := First(marks, Header(t), s + 1, stop);
    if next < stop {
      BlocksFromGrow(marks, t, next, stop);
      var rest := BlocksFrom(marks, t, next, stop);
      assert Grown([Block(s, next)] + rest, marks[stop], t, stop) == [Block(s, next)] + Grown(rest, marks[stop], t, stop);
    } else if marks[stop].table == t {
      BlocksFromIs(marks, t, stop, stop + 1);
    }
  }

  lemma BlocksGrow(marks: seq<Mark>, t: Table, lo: nat, stop: nat)
    requires lo <= stop < |marks|
    ensures Blocks(marks, t, lo, stop + 1) == Grown(Blocks(marks, t, lo, stop), marks[stop], t, stop)
  {
    FirstGrows(marks, Header(t), lo, stop);
    var s := First(marks, Header(t), lo, stop);
    if s < stop { BlocksFromGrow(marks, t, s, stop); }
  }

  lemma BlocksSnoc(marks: seq<Mark>, m: Mark, t: Table, lo: nat)
    requires lo <= |marks|
    ensures Blocks(marks + [m], t, lo, |marks| + 1) == Grown(Blocks(marks, t, lo, |marks|), m, t, |marks|)
  {
    BlocksGrow(marks + [m], t, lo, |marks|);
    BlocksOfPrefix(marks, m, t, lo, |marks|);
  }

  lemma ProjectsSnoc(marks: seq<Mark>, m: Mark)
    ensures ProjectBlocks(marks + [m]) == Grown(ProjectBlocks(marks), m, Projects, |marks|)
  {
    BlocksSnoc(marks, m, Projects, 0);
  }

  lemma LastProjectStop(marks: seq<Mark>)
    requires ProjectBlocks(marks) != []
    ensures var b := ProjectBlocks(marks)[|ProjectBlocks(marks)| - 1]; b.start < b.stop == |marks|
  {
    BlocksTile(marks, Projects, 0, |marks|, |ProjectBlocks(marks)| - 1);
  }

  /** A project that is not the last one, or that a new project header closes, keeps its platforms. */
  lemma PlatformsOfEarlier(marks: seq<Mark>, m: Mark, i: nat)
    requires i < |ProjectBlocks(marks)| && (i < |ProjectBlocks(marks)| - 1 || m.table == Projects)
    ensures i < |ProjectBlocks(marks + [m])| && PlatformBlocks(marks + [m], i) == PlatformBlocks(marks, i)
  {
    hide Blocks;
    ProjectsSnoc(marks, m);
    var b := ProjectBlocks(marks)[i];
    BlocksOfPrefix(marks, m, Platforms, b.start + 1, b.stop);
  }

  lemma PlatformsOfLast(marks: seq<Mark>, m: Mark)
    requires ProjectBlocks(marks) != [] && m.table != Projects
    ensures var i := |ProjectBlocks(marks)| - 1;
            && |ProjectBlocks(marks + [m])| == i + 1
            && PlatformBlocks(marks + [m], i) == Grown(PlatformBlocks(marks, i), m, Platforms, |marks|)
  {
    hide Blocks;
    ProjectsSnoc(marks, m);
    LastProjectStop(marks);
    BlocksSnoc(marks, m, Platforms, ProjectBlocks(marks)[|ProjectBlocks(marks)| - 1].start + 1);
  }

  lemma PlatformsOfNew(marks: seq<Mark>, m: Mark)
    requires m.table == Projects
    ensures var i := |ProjectBlocks(marks)|;
            |ProjectBlocks(marks + [m])| == i + 1 && PlatformBlocks(marks + [m], i) == []
  {
    ProjectsSnoc(marks, m);
  }

  lemma PlatformOfPrefix(marks: seq<Mark>, m: Mark, start: nat, stop: nat)
    requires start < stop <= |marks|
    ensures PlatformOf(marks + [m], start, stop) == PlatformOf(marks, start, stop)
  {
    hide First;
    FirstOfPrefix(marks, m, Header(Options), start + 1, stop);
    FirstOfPrefix(marks, m, AnyHeader, start + 1, stop);
    FirstOfPrefix(marks, m, TypeKey, start + 1, SectionStop(marks, start, stop));
    var options := First(marks, Header(Options), start + 1, stop);
    if options < stop { FirstOfPrefix(marks, m, AnyHeader, options + 1, stop); }
  }

  /** The platform at the end of the file: an options section starts, goes on, or stays as it was. */
  lemma PlatformGrows(marks: seq<Mark>, m: Mark, start: nat)
    requires start < |marks|
    ensures var p, r := PlatformOf(marks, start, |marks|), PlatformOf(marks + [m], start, |marks| + 1);
            if p.optionsStart < 0 && m.table == Options then r.optionsStart == r.optionsEnd == |marks|
            else r.optionsStart == p.optionsStart &&
                 r.optionsEnd == if p.optionsStart >= 0 && p.optionsEnd == |marks| - 1 && m.table == NoTable then |marks|
                                 else p.optionsEnd
  {
    hide First;
    var n, longer := |marks|, marks + [m];
    FirstOfPrefix(marks, m, Header(Options), start + 1, n);
    FirstGrows(longer, Header(Options), start + 1, n);
    var options := First(marks, Header(Options), start + 1, n);
    if options < n {
      FirstOfPrefix(marks, m, AnyHeader, options + 1, n);
      FirstGrows(longer, AnyHeader, options + 1, n);
    }
  }

  predicate OpensBlock(t: Table) {
    t.Projects? || t.Platforms?
  }

  predicate LastPlatform(marks: seq<Mark>, i: nat, q: nat)
    requires HasPlatform(marks, i, q)
  {
    i == |ProjectBlocks(marks)| - 1 && q == |PlatformBlocks(marks, i)| - 1
  }

  lemma LastPlatformStop(marks: seq<Mark>, i: nat, q: nat)
    requires HasPlatform(marks, i, q) && LastPlatform(marks, i, q)
    ensures PlatformBlocks(marks, i)[q].stop == |marks|
  {
    hide Blocks, First;
    LastProjectStop(marks);
    var b := ProjectBlocks(marks)[i];
    BlocksTile(marks, Platforms, b.start + 1, b.stop, q);
  }

  lemma PlatformsSnoc(marks: seq<Mark>, m: Mark, i: nat)
    requires i < |ProjectBlocks(marks)| || (i == |ProjectBlocks(marks)| && m.table == Projects)
    ensures i < |ProjectBlocks(marks + [m])|
    ensures PlatformBlocks(marks + [m], i) ==
            if i == |ProjectBlocks(marks)| then []
            else if i < |ProjectBlocks(marks)| - 1 || m.table == Projects then PlatformBlocks(marks, i)
            else Grown(PlatformBlocks(marks, i), m, Platforms, |marks|)
  {
    hide PlatformBlocks, Blocks;
    ProjectsSnoc(marks, m);
    if i == |ProjectBlocks(marks)| { PlatformsOfNew(marks, m); }
    else if i < |ProjectBlocks(marks)| - 1 || m.table == Projects { PlatformsOfEarlier(marks, m, i); }
    else { PlatformsOfLast(marks, m); }
  }

  /** Only the last platform can change, and only by a line that opens no new block. */
  lemma PlatformAtSnoc(marks: seq<Mark>, m: Mark, i: nat, q: nat)
    requires HasPlatform(marks, i, q)
    ensures HasPlatform(marks + [m], i, q)
    ensures var p, r := PlatformAt(marks, i, q), PlatformAt(marks + [m], i, q);
            if !LastPlatform(marks, i, q) || OpensBlock(m.table) then r == p
            else if p.optionsStart < 0 && m.table == Options then r.optionsStart == r.optionsEnd == |marks|
            else r.optionsStart == p.optionsStart &&
                 r.optionsEnd == if p.optionsStart >= 0 && p.optionsEnd == |marks| - 1 && m.table == NoTable then |marks|
                                 else p.optionsEnd
  {
    hide PlatformBlocks, Blocks, PlatformOf, ProjectBlocks;
    ProjectsKept(marks, m);
    PlatformsSnoc(marks, m, i);
    var b := PlatformBlocks(marks, i)[q];
    if LastPlatform(marks, i, q) { LastPlatformStop(marks, i, q); PlatformGrows(marks, m, b.start); }
    PlatformOfPrefix(marks, m, b.start, b.stop);
  }

  lemma ProjectsKept(marks: seq<Mark>, m: Mark)
    ensures |ProjectBlocks(marks + [m])| == |ProjectBlocks(marks)| + if m.table == Projects then 1 else 0
  {
    ProjectsSnoc(marks, m);
  }

  // ----- The outline -----

  /** The lines that are not blank, without trailing blanks. */
  function Content(lines: seq<string>): seq<string> {
    if lines == [] then []
    else
      var front, line := Content(lines[..|lines| - 1]), lines[|lines| - 1];
      if IsBlank(line) then front else front + [Stripped(line)]
  }

  /** Per project and platform the content of the options section, if there is one; `open` while the last one goes on. */
  datatype Outline = Outline(projects: seq<seq<Option<seq<string>>>>, open: bool)

  predicate InPlatform(o: Outline) {
    o.projects != [] && o.projects[|o.projects| - 1] != []
  }

  function LastOptions(o: Outline): Option<seq<string>>
    requires InPlatform(o)
  {
    var platforms := o.projects[|o.projects| - 1];
    platforms[|platforms| - 1]
  }

  function WithLast(o: Outline, options: Option<seq<string>>, open: bool): Outline
    requires InPlatform(o)
  {
    var n, platforms := |o.projects|, o.projects[|o.projects| - 1];
    Outline(o.projects[n - 1 := platforms[|platforms| - 1 := options]], open)
  }

  function StepOutline(o: Outline, line: string): Outline {
    match TableOf(line)
    case Projects => Outline(o.projects + [[]], false)
    case Platforms =>
      if o.projects == [] then o.(open := false)
      else Outline(o.projects[|o.projects| - 1 := o.projects[|o.projects| - 1] + [None]], false)
    case Options => if InPlatform(o) && LastOptions(o).None? then WithLast(o, Some([]), true) else o.(open := false)
    case NoTable =>
      if !IsBlank(line) && o.open && InPlatform(o) && LastOptions(o).Some?
      then WithLast(o, Some(LastOptions(o).value + [Stripped(line)]), true) else o
    case _ => o.(open := false)
  }

  function OutlineOf(lines: seq<string>): Outline {
    if lines == [] then Outline([], false) else StepOutline(OutlineOf(lines[..|lines| - 1]), lines[|lines| - 1])
  }

  // ----- The outline says what the index says -----

  function OptionsAt(lines: seq<string>, p: PlatformSpan): Option<seq<string>> {
    if !(0 <= p.optionsStart <= p.optionsEnd < |lines|) then None
    else Some(Content(lines[p.optionsStart + 1..p.optionsEnd + 1]))
  }

  predicate RunsOn(lines: seq<string>, p: PlatformSpan) {
    p.optionsStart >= 0 && p.optionsEnd == |lines| - 1
  }

  ghost predicate SameShape(marks: seq<Mark>, o: Outline) {
    && |o.projects| == |ProjectBlocks(marks)|
    && forall i :: 0 <= i < |o.projects| ==> |o.projects[i]| == |PlatformBlocks(marks, i)|
  }

  ghost predicate Reads(lines: seq<string>, o: Outline) {
    && SameShape(Marks(lines), o)
    && (forall i: nat, q: nat :: HasPlatform(Marks(lines), i, q) ==>
          i < |o.projects| && q < |o.projects[i]| && o.projects[i][q] == OptionsAt(lines, PlatformAt(Marks(lines), i, q)))
    && (o.open ==> InPlatform(o) && LastOptions(o).Some?)
    && (forall i: nat, q: nat :: HasPlatform(Marks(lines), i, q) && LastPlatform(Marks(lines), i, q) ==>
          (o.open <==> RunsOn(lines, PlatformAt(Marks(lines), i, q))))
  }

  lemma ContentSnoc(lines: seq<string>, line: string)
    ensures Content(lines + [line]) == if IsBlank(line) then Content(lines) else Content(lines) + [Stripped(line)]
  {
    assert (lines + [line])[..|lines|] == lines;
  }

  lemma HeaderIsNotBlank(line: string)
    ensures TableOf(line) != NoTable ==> !IsBlank(line)
  {
    TableOfAny(line);
  }

  lemma OptionsSpan(marks: seq<Mark>, i: nat, q: nat)
    requires HasPlatform(marks, i, q)
    ensures var p := PlatformAt(marks, i, q); p.optionsStart == -1 || 0 <= p.optionsStart <= p.optionsEnd < |marks|
  {
  }

  lemma ShapeSnoc(marks: seq<Mark>, m: Mark, o: Outline, line: string)
    requires SameShape(marks, o) && m.table == TableOf(line)
    ensures SameShape(marks + [m], StepOutline(o, line))
  {
    hide PlatformBlocks, Blocks, ProjectBlocks, TableOf;
    ProjectsKept(marks, m);
    forall i: nat | i < |ProjectBlocks(marks + [m])|
      ensures |PlatformBlocks(marks + [m], i)| ==
              if i == |ProjectBlocks(marks)| then 0
              else |PlatformBlocks(marks, i)| + if i == |ProjectBlocks(marks)| - 1 && m.table == Platforms then 1 else 0
    {
      PlatformsSnoc(marks, m, i);
    }
  }

  lemma OptionsAtSnoc(lines: seq<string>, line: string, i: nat, q: nat)
    requires HasPlatform(Marks(lines), i, q)
    ensures Marks(lines + [line]) == Marks(lines) + [MarkOf(line)] && HasPlatform(Marks(lines + [line]), i, q)
    ensures var marks := Marks(lines);
            var p, r, t := PlatformAt(marks, i, q), PlatformAt(Marks(lines + [line]), i, q), TableOf(line);
            if !LastPlatform(marks, i, q) || OpensBlock(t) then
              OptionsAt(lines + [line], r) == OptionsAt(lines, p)
            else
              && OptionsAt(lines + [line], r) ==
                 (if OptionsAt(lines, p).None? && t == Options then Some([])
                  else if RunsOn(lines, p) && t == NoTable && !IsBlank(line)
                  then Some(Content(lines[p.optionsStart + 1..p.optionsEnd + 1]) + [Stripped(line)])
                  else OptionsAt(lines, p))
              && (RunsOn(lines + [line], r) <==>
                  if p.optionsStart < 0 then t == Options else RunsOn(lines, p) && t == NoTable)
  {
    hide PlatformBlocks, Blocks, PlatformOf, ProjectBlocks, TableOf, IsBlank, Stripped, LastPlatform;
    MarksConcat(lines, [line]);
    MarksOfOne(line);
    PlatformAtSnoc(Marks(lines), MarkOf(line), i, q);
    OptionsSpan(Marks(lines), i, q);
    var p, r := PlatformAt(Marks(lines), i, q), PlatformAt(Marks(lines + [line]), i, q);
    if 0 <= p.optionsStart {
      var body := lines[p.optionsStart + 1..p.optionsEnd + 1];
      assert (lines + [line])[p.optionsStart + 1..p.optionsEnd + 1] == body;
      if r.optionsEnd > p.optionsEnd {
        assert (lines + [line])[p.optionsStart + 1..r.optionsEnd + 1] == body + [line];
        ContentSnoc(body, line);
      }
    }
  }

  lemma MarksOfOne(line: string)
    ensures Marks([line]) == [MarkOf(line)]
  {
    MarksAt([line], 0);
  }

  lemma NewPlatform(marks: seq<Mark>, m: Mark, i: nat, q: nat)
    requires HasPlatform(marks + [m], i, q) && !HasPlatform(marks, i, q)
    ensures m.table == Platforms && i == |ProjectBlocks(marks)| - 1 && q == |PlatformBlocks(marks, i)|
    ensures PlatformAt(marks + [m], i, q).optionsStart == -1
  {
    hide PlatformBlocks, Blocks, ProjectBlocks;
    ProjectsKept(marks, m);
    PlatformsSnoc(marks, m, i);
  }

  lemma LastStays(marks: seq<Mark>, m: Mark, i: nat, q: nat)
    requires HasPlatform(marks + [m], i, q) && LastPlatform(marks + [m], i, q)
    ensures HasPlatform(marks, i, q) ==> LastPlatform(marks, i, q) && !OpensBlock(m.table)
  {
    hide PlatformBlocks, Blocks, ProjectBlocks;
    ProjectsKept(marks, m);
    if HasPlatform(marks, i, q) { PlatformsSnoc(marks, m, i); }
  }

  lemma {:induction false} OutlineReads(lines: seq<string>)
    ensures Reads(lines, OutlineOf(lines))
  {
    hide StepOutline, PlatformAt, OptionsAt, Marks, PlatformBlocks;
    if lines == [] {
      NoLines();
    } else {
      var init, line := lines[..|lines| - 1], lines[|lines| - 1];
      OutlineReads(init);
      ReadsSnoc(init, line, OutlineOf(init));
      assert init + [line] == lines;
    }
  }

  lemma NoLines()
    ensures Reads([], OutlineOf([]))
  {
  }

  lemma OpenSnoc(lines: seq<string>, line: string, o: Outline, i: nat, q: nat)
    requires Reads(lines, o)
    requires HasPlatform(Marks(lines + [line]), i, q) && LastPlatform(Marks(lines + [line]), i, q)
    ensures StepOutline(o, line).open <==> RunsOn(lines + [line], PlatformAt(Marks(lines + [line]), i, q))
  {
    hide PlatformBlocks, Blocks, PlatformOf, PlatformAt, ProjectBlocks, TableOf, IsBlank, Stripped, Marks, Content;
    MarksConcat(lines, [line]);
    MarksOfOne(line);
    var marks, m := Marks(lines), MarkOf(line);
    LastStays(marks, m, i, q);
    if HasPlatform(marks, i, q) {
      OptionsAtSnoc(lines, line, i, q);
      OptionsSpan(marks, i, q);
      assert i == |o.projects| - 1 && q == |o.projects[i]| - 1;
      assert LastOptions(o) == OptionsAt(lines, PlatformAt(marks, i, q));
    } else {
      NewPlatform(marks, m, i, q);
    }
  }

  lemma ReadsSnoc(lines: seq<string>, line: string, o: Outline)
    requires Reads(lines, o)
    ensures Reads(lines + [line], StepOutline(o, line))
  {
    hide PlatformBlocks, Blocks, PlatformOf, PlatformAt, ProjectBlocks, TableOf, IsBlank, Stripped, Marks, Content;
    MarksConcat(lines, [line]);
    MarksOfOne(line);
    var marks, m, r := Marks(lines), MarkOf(line), StepOutline(o, line);
    ShapeSnoc(marks, m, o, line);
    forall i: nat, q: nat | HasPlatform(marks + [m], i, q)
      ensures i < |r.projects| && q < |r.projects[i]| &&
              r.projects[i][q] == OptionsAt(lines + [line], PlatformAt(marks + [m], i, q))
    {
      if HasPlatform(marks, i, q) { OptionsAtSnoc(lines, line, i, q); } else { NewPlatform(marks, m, i, q); }
    }
    forall i: nat, q: nat | HasPlatform(marks + [m], i, q) && LastPlatform(marks + [m], i, q)
      ensures r.open <==> RunsOn(lines + [line], PlatformAt(marks + [m], i, q))
    {
      OpenSnoc(lines, line, o, i, q);
    }
  }
}
