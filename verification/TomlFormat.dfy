/**
 What formatting does to the index (config/config.go, formatTOML and buildRawProjectSpans): it keeps projects, platforms
 and the content of their options sections exactly when it removes no project or platform header, and no empty options
 header above another one of the same platform.
 */
module TomlFormat {
  import opened Wrappers
  import opened Strings
  import opened TomlLine
  import opened TomlIndex
  import opened TomlSpans
  import opened TomlEdit
  import opened TomlConfig
  import opened TomlFile
  import opened FormatToml
  import opened TomlOutline

  // ----- The outline of formatted lines -----

  lemma HeaderTable(line: string)
    ensures IsHeader(line) <==> TableOf(line) != NoTable
  {
    TableOfAny(line);
  }

  lemma StrippedMark(line: string)
    ensures TableOf(Stripped(line)) == TableOf(line)
  {
    StrippedKeepsKind(line);
    SameTable(Stripped(line), line, INDEXED);
  }

  lemma {:induction false} SameTable(a: string, b: string, candidates: seq<Table>)
    requires TrimSpace(a) == TrimSpace(b)
    ensures TableAmong(a, candidates) == TableAmong(b, candidates)
  {
    if candidates != [] { SameTable(a, b, candidates[1..]); }
  }

  lemma StepStripped(o: Outline, line: string)
    ensures StepOutline(o, Stripped(line)) == StepOutline(o, line)
  {
    hide TableOf, TrimSpace, Stripped;
    StrippedMark(line);
    StrippedSameKind(line);
    StrippedTwice(line);
  }

  lemma StepBlank(o: Outline, line: string)
    requires IsBlank(line)
    ensures StepOutline(o, line) == o
  {
    hide TableOf;
    HeaderIsNotBlank(line);
  }

  lemma OutlineSnoc(lines: seq<string>, line: string)
    ensures OutlineOf(lines + [line]) == StepOutline(OutlineOf(lines), line)
  {
    assert (lines + [line])[..|lines|] == lines;
  }

  lemma OutlineOfAdded(out: seq<string>, line: string)
    ensures OutlineOf(AddLine(out, line)) == StepOutline(OutlineOf(out), line)
  {
    hide StepOutline, IsBlank, Stripped;
    EmptyIsBlank();
    OutlineSnoc(out, "");
    StepBlank(OutlineOf(out), "");
    if IsBlank(line) {
      StepBlank(OutlineOf(out), line);
    } else {
      var front := out + Gap(out, line);
      if Gap(out, line) == [] { assert front == out; }
      OutlineSnoc(front, Stripped(line));
      StepStripped(OutlineOf(out), line);
    }
  }

  lemma {:induction false} OutlineBlankInFront(s: seq<string>, blank: string)
    requires IsBlank(blank)
    ensures OutlineOf([blank] + s) == OutlineOf(s)
  {
    hide StepOutline, IsBlank;
    if s == [] {
      OutlineSnoc([], blank);
      StepBlank(OutlineOf([]), blank);
      assert [] + [blank] == [blank] + s;
    } else {
      var init, line := s[..|s| - 1], s[|s| - 1];
      OutlineBlankInFront(init, blank);
      OutlineSnoc([blank] + init, line);
      assert [blank] + init + [line] == [blank] + s;
    }
  }

  lemma {:induction false} OutlineDropFirst(s: seq<string>)
    ensures OutlineOf(DropFirstBlanks(s)) == OutlineOf(s)
  {
    hide OutlineOf, IsBlank;
    if s != [] && IsBlank(s[0]) {
      OutlineBlankInFront(s[1..], s[0]);
      assert [s[0]] + s[1..] == s;
      OutlineDropFirst(s[1..]);
    }
  }

  lemma {:induction false} OutlineDropLast(s: seq<string>)
    ensures OutlineOf(DropLastBlanks(s)) == OutlineOf(s)
  {
    hide StepOutline, IsBlank;
    if s != [] && IsBlank(s[|s| - 1]) {
      OutlineDropLast(s[..|s| - 1]);
      StepBlank(OutlineOf(s[..|s| - 1]), s[|s| - 1]);
    }
  }

  lemma OutlineOfFormatted(lines: seq<string>)
    ensures OutlineOf(FormatLines(lines)) == OutlineOf(Layout(lines, |lines|))
  {
    OutlineDropFirst(Layout(lines, |lines|));
    OutlineDropLast(DropFirstBlanks(Layout(lines, |lines|)));
  }

  /** The outline of the first `n` lines, and of what they are laid out as. */
  function Before(lines: seq<string>, n: nat): Outline
    requires n <= |lines|
  {
    OutlineOf(lines[..n])
  }

  function After(lines: seq<string>, n: nat): Outline
    requires n <= |lines|
  {
    OutlineOf(Layout(lines, n))
  }

  lemma NextOutlines(lines: seq<string>, n: nat)
    requires n < |lines|
    ensures Before(lines, n + 1) == StepOutline(Before(lines, n), lines[n])
    ensures After(lines, n + 1) == if Skipped(lines, n) then After(lines, n) else StepOutline(After(lines, n), lines[n])
  {
    hide StepOutline, Skipped, AddLine;
    OutlineSnoc(lines[..n], lines[n]);
    assert lines[..n] + [lines[n]] == lines[..n + 1];
    OutlineOfAdded(Layout(lines, n), lines[n]);
  }

  lemma NoOutlines(lines: seq<string>)
    ensures Before(lines, 0) == After(lines, 0) == Outline([], false)
  {
  }

  // ----- Which headers must not be removed -----

  /** A project header without content of its own, or a platform header of a project without content of its own. */
  ghost predicate Lost(lines: seq<string>, k: nat) {
    && k < |lines| && Skipped(lines, k) && OpensBlock(TableOf(lines[k]))
    && exists p :: 0 <= p <= k && TableOf(lines[p]) == Projects
  }

  ghost predicate LosesBlock(lines: seq<string>) {
    exists k: nat :: Lost(lines, k)
  }

  /** The platform at line `n` has options headers above, and all of them are empty. */
  predicate Pending(lines: seq<string>, n: nat)
    requires n <= |lines|
  {
    n > 0 &&
    match TableOf(lines[n - 1])
    case Projects => false
    case Platforms => false
    case Options =>
      Skipped(lines, n - 1) &&
      (Pending(lines, n - 1) || (InPlatform(Before(lines, n - 1)) && LastOptions(Before(lines, n - 1)).None?))
    case _ => Pending(lines, n - 1)
  }

  /** The first options header of a platform that has content, below an empty one. */
  predicate DoubledAt(lines: seq<string>, k: nat) {
    k < |lines| && TableOf(lines[k]) == Options && !Skipped(lines, k) && Pending(lines, k)
  }

  ghost predicate Doubles(lines: seq<string>) {
    exists k: nat :: DoubledAt(lines, k)
  }

  lemma {:induction false} ProjectsSeen(lines: seq<string>, n: nat)
    requires n <= |lines|
    ensures Before(lines, n).projects != [] <==> exists p :: 0 <= p < n && TableOf(lines[p]) == Projects
  {
    hide TableOf, IsBlank, Stripped;
    NoOutlines(lines);
    if n > 0 {
      ProjectsSeen(lines, n - 1);
      NextOutlines(lines, n - 1);
    }
  }

  lemma LostIs(lines: seq<string>, k: nat)
    requires k < |lines|
    ensures Lost(lines, k) <==>
            && Skipped(lines, k)
            && (TableOf(lines[k]) == Projects || (TableOf(lines[k]) == Platforms && Before(lines, k).projects != []))
  {
    hide TableOf, Skipped, Before;
    ProjectsSeen(lines, k);
    if TableOf(lines[k]) == Projects { assert exists p :: 0 <= p <= k && TableOf(lines[p]) == Projects; }
  }

  lemma SkippedIsHeader(lines: seq<string>, k: nat)
    requires k < |lines|
    ensures Skipped(lines, k) ==> TableOf(lines[k]) != NoTable && !HasContent(lines, k + 1)
    ensures TableOf(lines[k]) != NoTable && !Skipped(lines, k) ==> HasContent(lines, k + 1)
    ensures HasContent(lines, k) <==> TableOf(lines[k]) == NoTable && (!IsBlank(lines[k]) || HasContent(lines, k + 1))
  {
    hide TableOf, IsHeader, IsBlank;
    HeaderTable(lines[k]);
  }

  // ----- No header lost: the outline is kept up to empty sections -----

  predicate SameLengths(a: Outline, b: Outline) {
    |a.projects| == |b.projects| && forall i :: 0 <= i < |a.projects| ==> |a.projects[i]| == |b.projects[i]|
  }

  predicate IsOpen(o: Outline) {
    o.open ==> InPlatform(o) && LastOptions(o).Some?
  }

  /** Only a section without content can have become another one; `tight` if it can only have gone. */
  predicate Kept(x: Option<seq<string>>, y: Option<seq<string>>, tight: bool) {
    y == x || (x == Some([]) && (tight ==> y.None?))
  }

  predicate AllKept(a: Outline, b: Outline, tight: bool)
    requires SameLengths(a, b)
  {
    forall i, q :: 0 <= i < |a.projects| && 0 <= q < |a.projects[i]| ==> Kept(a.projects[i][q], b.projects[i][q], tight)
  }

  predicate OpenKept(a: Outline, b: Outline, tight: bool)
    requires SameLengths(a, b) && IsOpen(a) && IsOpen(b)
  {
    && (a.open ==> b.open && LastOptions(a) == LastOptions(b))
    && (b.open && !a.open ==> !tight && LastOptions(a) == Some([]))
  }

  predicate Follows(a: Outline, b: Outline, ahead: bool, tight: bool) {
    && SameLengths(a, b) && IsOpen(a) && IsOpen(b)
    && AllKept(a, b, tight) && (ahead ==> OpenKept(a, b, tight))
  }

  lemma FollowsKept(a: Outline, b: Outline, line: string, ahead: bool, tight: bool)
    requires Follows(a, b, ahead, tight)
    requires TableOf(line) == NoTable && !IsBlank(line) ==> ahead
    requires tight && TableOf(line) == Options && InPlatform(a) ==> LastOptions(a).None? || LastOptions(b).Some?
    ensures Follows(StepOutline(a, line), StepOutline(b, line), TableOf(line) != NoTable || ahead, tight)
  {
    hide TableOf, IsBlank, Stripped;
    if InPlatform(a) { assert Kept(LastOptions(a), LastOptions(b), tight); }
  }

  lemma FollowsSkipped(a: Outline, b: Outline, line: string, ahead: bool, tight: bool)
    requires Follows(a, b, ahead, tight)
    requires TableOf(line) != NoTable && TableOf(line) != Projects && (TableOf(line) == Platforms ==> a.projects == [])
    ensures Follows(StepOutline(a, line), b, false, tight)
  {
    hide TableOf, IsBlank, Stripped;
    if InPlatform(a) { assert Kept(LastOptions(a), LastOptions(b), tight); }
  }

  lemma {:induction false} LayoutFollows(lines: seq<string>, n: nat, tight: bool)
    requires n <= |lines| && (forall k: nat :: k < n ==> !Lost(lines, k))
    requires tight ==> forall k: nat :: k < n ==> !DoubledAt(lines, k)
    ensures Follows(Before(lines, n), After(lines, n), HasContent(lines, n), tight)
  {
    hide TableOf, IsBlank, IsHeader, Skipped, StepOutline, Before, After, Lost, AllKept, OpenKept, Pending;
    if n == 0 {
      NothingFollows(lines, tight);
    } else {
      var a, b, line := Before(lines, n - 1), After(lines, n - 1), lines[n - 1];
      LayoutFollows(lines, n - 1, tight);
      NextOutlines(lines, n - 1);
      SkippedIsHeader(lines, n - 1);
      LostIs(lines, n - 1);
      if Skipped(lines, n - 1) {
        FollowsSkipped(a, b, line, HasContent(lines, n - 1), tight);
      } else {
        if tight {
          assert !DoubledAt(lines, n - 1);
          PendingIs(lines, n - 1);
        }
        FollowsKept(a, b, line, HasContent(lines, n - 1), tight);
      }
    }
  }

  lemma NothingFollows(lines: seq<string>, tight: bool)
    ensures Follows(Before(lines, 0), After(lines, 0), HasContent(lines, 0), tight)
  {
    NoOutlines(lines);
  }

  /** The current platform has an options section, but no longer. */
  predicate Gone(a: Outline, b: Outline)
    requires SameLengths(a, b)
  {
    InPlatform(a) && LastOptions(a).Some? && LastOptions(b).None?
  }

  /** Pending platforms are those whose options headers were all removed. */
  lemma {:induction false} PendingIs(lines: seq<string>, n: nat)
    requires n <= |lines| && (forall k: nat :: k < n ==> !Lost(lines, k))
    ensures SameLengths(Before(lines, n), After(lines, n))
    ensures Pending(lines, n) <==> Gone(Before(lines, n), After(lines, n))
  {
    hide TableOf, IsBlank, IsHeader, Skipped, StepOutline, Before, After, Lost, AllKept, OpenKept;
    LayoutFollows(lines, n, false);
    NoOutlines(lines);
    if n > 0 {
      PendingIs(lines, n - 1);
      LayoutFollows(lines, n - 1, false);
      NextOutlines(lines, n - 1);
      LostIs(lines, n - 1);
      SkippedIsHeader(lines, n - 1);
      PendingStep(Before(lines, n - 1), After(lines, n - 1), lines[n - 1], Skipped(lines, n - 1), HasContent(lines, n - 1));
    }
  }

  lemma PendingStep(a: Outline, b: Outline, line: string, skipped: bool, ahead: bool)
    requires Follows(a, b, ahead, false)
    requires skipped ==>
               TableOf(line) != NoTable && TableOf(line) != Projects && (TableOf(line) == Platforms ==> a.projects == [])
    requires TableOf(line) == NoTable && !IsBlank(line) ==> ahead
    ensures var a', b' := StepOutline(a, line), if skipped then b else StepOutline(b, line);
            SameLengths(a', b') &&
            (Gone(a', b') <==>
              match TableOf(line)
              case Projects => false
              case Platforms => false
              case Options => skipped && (Gone(a, b) || (InPlatform(a) && LastOptions(a).None?))
              case _ => Gone(a, b))
  {
    hide TableOf, IsBlank, Stripped;
    if InPlatform(a) { assert Kept(LastOptions(a), LastOptions(b), false); }
  }

  // ----- A second options section of a platform comes to light -----

  predicate Shown(a: Outline, b: Outline, i: nat, q: nat, ahead: bool)
    requires SameLengths(a, b) && IsOpen(a) && IsOpen(b)
  {
    && i < |a.projects| && q < |a.projects[i]|
    && a.projects[i][q] == Some([]) && b.projects[i][q].Some?
    && (i == |a.projects| - 1 && q == |a.projects[i]| - 1 ==> !a.open)
    && (b.projects[i][q].value != [] || (i == |a.projects| - 1 && q == |a.projects[i]| - 1 && b.open && ahead))
  }

  lemma ShownKept(a: Outline, b: Outline, line: string, i: nat, q: nat, ahead: bool, next: bool)
    requires Follows(a, b, ahead, false) && Shown(a, b, i, q, ahead)
    requires ahead <==> TableOf(line) == NoTable && (!IsBlank(line) || next)
    ensures var a', b' := StepOutline(a, line), StepOutline(b, line);
            SameLengths(a', b') && IsOpen(a') && IsOpen(b') ==> Shown(a', b', i, q, next)
  {
    hide TableOf, IsBlank, Stripped;
  }

  lemma ShownSkipped(a: Outline, b: Outline, line: string, i: nat, q: nat, ahead: bool)
    requires Follows(a, b, ahead, false) && Shown(a, b, i, q, ahead) && !ahead
    requires TableOf(line) != NoTable && TableOf(line) != Projects && (TableOf(line) == Platforms ==> a.projects == [])
    ensures var a' := StepOutline(a, line);
            SameLengths(a', b) && IsOpen(a') ==> Shown(a', b, i, q, false)
  {
    hide TableOf, IsBlank, Stripped;
  }

  lemma ShownAt(a: Outline, b: Outline, line: string)
    requires Follows(a, b, false, false) && Gone(a, b) && TableOf(line) == Options
    ensures var a', b' := StepOutline(a, line), StepOutline(b, line);
            SameLengths(a', b') && IsOpen(a') && IsOpen(b') ==>
              Shown(a', b', |a.projects| - 1, |a.projects[|a.projects| - 1]| - 1, true)
  {
    hide TableOf, IsBlank, Stripped;
    assert Kept(LastOptions(a), LastOptions(b), false);
  }

  lemma {:induction false} DoubleShows(lines: seq<string>, k: nat, n: nat) returns (i: nat, q: nat)
    requires DoubledAt(lines, k) && k < n <= |lines| && forall j: nat :: j < n ==> !Lost(lines, j)
    ensures Follows(Before(lines, n), After(lines, n), HasContent(lines, n), false)
    ensures Shown(Before(lines, n), After(lines, n), i, q, HasContent(lines, n))
    decreases n
  {
    hide TableOf, IsBlank, IsHeader, Skipped, StepOutline, Before, After, Lost, AllKept, OpenKept, Shown, Pending;
    var m := n - 1;
    var a, b, line := Before(lines, m), After(lines, m), lines[m];
    LayoutFollows(lines, n, false);
    LayoutFollows(lines, m, false);
    NextOutlines(lines, m);
    SkippedIsHeader(lines, m);
    LostIs(lines, m);
    if k == m {
      PendingIs(lines, m);
      ShownAt(a, b, line);
      i, q := |a.projects| - 1, |a.projects[|a.projects| - 1]| - 1;
    } else {
      i, q := DoubleShows(lines, k, m);
      if Skipped(lines, m) {
        ShownSkipped(a, b, line, i, q, HasContent(lines, m));
      } else {
        ShownKept(a, b, line, i, q, HasContent(lines, m), HasContent(lines, n));
      }
    }
  }

  // ----- A lost header: there are fewer projects and platforms -----

  function Total(projects: seq<seq<Option<seq<string>>>>): nat {
    if projects == [] then 0 else Total(projects[..|projects| - 1]) + |projects[|projects| - 1]|
  }

  /** How many projects and platforms there are. */
  function Size(o: Outline): nat {
    |o.projects| + Total(o.projects)
  }

  lemma StepSize(o: Outline, line: string)
    ensures Size(StepOutline(o, line)) ==
            Size(o) + if TableOf(line) == Projects || (TableOf(line) == Platforms && o.projects != []) then 1 else 0
    ensures |StepOutline(o, line).projects| == |o.projects| + if TableOf(line) == Projects then 1 else 0
  {
    hide TableOf, IsBlank, Stripped;
    var ps := o.projects;
    assert (ps + [[]])[..|ps|] == ps;
    if ps != [] {
      var r := StepOutline(o, line).projects;
      assert TableOf(line) != Projects ==> r[..|ps| - 1] == ps[..|ps| - 1];
    }
  }

  lemma {:induction false} SizeShrinks(lines: seq<string>, n: nat)
    requires n <= |lines|
    ensures |After(lines, n).projects| <= |Before(lines, n).projects|
    ensures Size(After(lines, n)) <= Size(Before(lines, n))
    ensures (exists k: nat :: k < n && Lost(lines, k)) ==> Size(After(lines, n)) < Size(Before(lines, n))
  {
    hide TableOf, Skipped, StepOutline, Before, After, Lost, Size;
    NoOutlines(lines);
    if n > 0 {
      SizeShrinks(lines, n - 1);
      NextOutlines(lines, n - 1);
      LostIs(lines, n - 1);
      StepSize(Before(lines, n - 1), lines[n - 1]);
      StepSize(After(lines, n - 1), lines[n - 1]);
      SkippedIsHeader(lines, n - 1);
    }
  }

  lemma {:induction false} SameTotal(a: seq<seq<Option<seq<string>>>>, b: seq<seq<Option<seq<string>>>>)
    requires |a| == |b| && forall i :: 0 <= i < |a| ==> |a[i]| == |b[i]|
    ensures Total(a) == Total(b)
  {
    if a != [] { SameTotal(a[..|a| - 1], b[..|b| - 1]); }
  }

  // ----- The index of formatted lines -----

  /** What a platform's options section says, without blank lines and trailing blanks. */
  ghost function OptionContent(lines: seq<string>, i: nat, q: nat): seq<string>
    requires Has(lines, i, q)
  {
    Content(OptionLines(lines, i, q))
  }

  function ContentOf(options: Option<seq<string>>): seq<string> {
    if options.None? then [] else options.value
  }

  lemma OutlineIsIndex(lines: seq<string>, i: nat, q: nat)
    ensures var o := OutlineOf(lines);
            && (Has(lines, i, q) <==> i < |o.projects| && q < |o.projects[i]|)
            && (Has(lines, i, q) ==> OptionContent(lines, i, q) == ContentOf(o.projects[i][q]))
  {
    hide PlatformBlocks, ProjectBlocks, OutlineOf, Marks, PlatformOf;
    OutlineReads(lines);
    if Has(lines, i, q) { OptionsSpan(Marks(lines), i, q); }
    assert Content([]) == [];
  }

  lemma CountsAreLengths(lines: seq<string>, r: seq<string>)
    ensures SameCounts(lines, r) <==> SameLengths(OutlineOf(lines), OutlineOf(r))
  {
    hide PlatformBlocks, ProjectBlocks, OutlineOf, Marks, PlatformAt;
    OutlineReads(lines);
    OutlineReads(r);
  }

  /** Formatting keeps the numbers of projects and platforms exactly when it removes no header of theirs. */
  lemma FormatKeepsCounts(lines: seq<string>)
    ensures SameCounts(lines, FormatLines(lines)) <==> !LosesBlock(lines)
  {
    hide OutlineOf, FormatLines, SameCounts, Skipped, Follows, Total;
    var n := |lines|;
    CountsAreLengths(lines, FormatLines(lines));
    OutlineOfFormatted(lines);
    assert lines[..n] == lines;
    if LosesBlock(lines) {
      SizeShrinks(lines, n);
      if SameLengths(Before(lines, n), After(lines, n)) { SameTotal(Before(lines, n).projects, After(lines, n).projects); }
    } else {
      LayoutFollows(lines, n, false);
      FollowsLengths(Before(lines, n), After(lines, n), HasContent(lines, n), false);
    }
  }

  lemma FollowsLengths(a: Outline, b: Outline, ahead: bool, tight: bool)
    requires Follows(a, b, ahead, tight)
    ensures SameLengths(a, b)
    ensures forall i: nat, q: nat :: i < |a.projects| && q < |a.projects[i]| ==>
              i < |b.projects| && q < |b.projects[i]| && Kept(a.projects[i][q], b.projects[i][q], tight)
  {
  }

  /** Then a platform's options keep their content, unless they had none. */
  lemma FormatKeepsOptions(lines: seq<string>, i: nat, q: nat)
    requires !LosesBlock(lines) && Has(lines, i, q)
    ensures Has(FormatLines(lines), i, q)
    ensures OptionContent(FormatLines(lines), i, q) == OptionContent(lines, i, q) || OptionContent(lines, i, q) == []
  {
    hide OutlineOf, FormatLines, Has, OptionContent, Skipped, Follows, Lost;
    var n := |lines|;
    OutlineOfFormatted(lines);
    assert lines[..n] == lines;
    LayoutFollows(lines, n, false);
    FollowsLengths(Before(lines, n), After(lines, n), HasContent(lines, n), false);
    OutlineIsIndex(lines, i, q);
    OutlineIsIndex(FormatLines(lines), i, q);
  }

  /** The same projects and platforms, and the same content of every options section. */
  ghost predicate SameIndex(lines: seq<string>, r: seq<string>) {
    && SameCounts(lines, r)
    && forall i: nat, q: nat :: Has(lines, i, q) ==> Has(r, i, q) && OptionContent(r, i, q) == OptionContent(lines, i, q)
  }

  /**
   Formatting keeps the index exactly when it removes no project header, no platform header of a project, and no empty
   options header above another options section of the same platform.
   */
  lemma FormatKeepsIndex(lines: seq<string>)
    ensures SameIndex(lines, FormatLines(lines)) <==> !LosesBlock(lines) && !Doubles(lines)
  {
    hide OutlineOf, FormatLines, SameCounts, Has, OptionContent, Skipped, Lost, DoubledAt, Follows;
    FormatKeepsCounts(lines);
    if !LosesBlock(lines) {
      if Doubles(lines) {
        var k: nat :| DoubledAt(lines, k);
        DoubledDiffers(lines, k);
      } else {
        forall i: nat, q: nat | Has(lines, i, q)
          ensures Has(FormatLines(lines), i, q) && OptionContent(FormatLines(lines), i, q) == OptionContent(lines, i, q)
        {
          UndoubledKept(lines, i, q);
        }
      }
    }
  }

  lemma UndoubledKept(lines: seq<string>, i: nat, q: nat)
    requires !LosesBlock(lines) && !Doubles(lines) && Has(lines, i, q)
    ensures Has(FormatLines(lines), i, q) && OptionContent(FormatLines(lines), i, q) == OptionContent(lines, i, q)
  {
    hide OutlineOf, FormatLines, Has, OptionContent, Skipped, Follows, Lost, DoubledAt;
    var n := |lines|;
    OutlineOfFormatted(lines);
    assert lines[..n] == lines;
    LayoutFollows(lines, n, true);
    FollowsLengths(Before(lines, n), After(lines, n), HasContent(lines, n), true);
    OutlineIsIndex(lines, i, q);
    OutlineIsIndex(FormatLines(lines), i, q);
  }

  lemma DoubledDiffers(lines: seq<string>, k: nat)
    requires !LosesBlock(lines) && DoubledAt(lines, k)
    ensures exists i: nat, q: nat :: Has(lines, i, q) && Has(FormatLines(lines), i, q) &&
              OptionContent(FormatLines(lines), i, q) != OptionContent(lines, i, q)
  {
    hide OutlineOf, FormatLines, Has, OptionContent, Skipped, Lost, Follows;
    var n := |lines|;
    OutlineOfFormatted(lines);
    assert lines[..n] == lines;
    var i, q := DoubleShows(lines, k, n);
    FollowsLengths(Before(lines, n), After(lines, n), HasContent(lines, n), false);
    OutlineIsIndex(lines, i, q);
    OutlineIsIndex(FormatLines(lines), i, q);
  }

  // ----- Values -----

  lemma {:induction false} KeyIndexSnoc(body: seq<string>, line: string, key: string)
    ensures KeyIndex(body + [line], key) ==
            if KeyIndex(body, key) < |body| then KeyIndex(body, key)
            else if MatchTomlStringKey(line, key) then |body| else |body| + 1
  {
    hide MatchTomlStringKey;
    if body == [] {
      assert [] + [line] == [line] && [line][1..] == [];
    } else {
      assert (body + [line])[1..] == body[1..] + [line];
      KeyIndexSnoc(body[1..], line, key);
    }
  }

  lemma GetSnoc(body: seq<string>, line: string, key: string)
    ensures Get(body + [line], key) ==
            if Get(body, key).Some? then Get(body, key)
            else if MatchTomlStringKey(line, key) then Some(ValueOf(line, key)) else None
  {
    hide MatchTomlStringKey, ValueOf;
    KeyIndexSnoc(body, line, key);
  }

  lemma {:induction false} NoComment(m: Mode, text: string)
    requires '#' !in text
    ensures CommentAt(m, text) == |text|
    decreases |text|
  {
    if text != "" { NoComment(NextMode(m, text[0]), text[1..]); }
  }

  lemma StrippedValue(line: string, key: string)
    ensures MatchTomlStringKey(Stripped(line), key) <==> MatchTomlStringKey(line, key)
    ensures MatchTomlStringKey(line, key) ==> ValueOf(Stripped(line), key) == ValueOf(line, key)
  {
    hide TrimSpace, CommentAt, Scan;
    var post := StrippedSplits(line);
    var s := Stripped(line);
    StrippedKeepsKind(line);
    NoSharp(post);
    ScanConcat(Plain, s, post);
    ScanConcat(Plain, s, "");
    assert s + "" == s;
    if Scan(Plain, s).Some? {
      NoComment(Scan(Plain, s).value, post);
      NoComment(Scan(Plain, s).value, "");
      assert line[..|line|] == line && s[..|s|] == s;
    } else {
      assert line[..CommentAt(Plain, s)] == s[..CommentAt(Plain, s)];
    }
  }

  lemma NoSharp(post: string)
    requires AllSpace(post)
    ensures '#' !in post
  {
  }

  /** A reader of a section sees its content only. */
  lemma {:induction false} GetOfContent(body: seq<string>, key: string)
    ensures Get(Content(body), key) == Get(body, key)
  {
    hide MatchTomlStringKey, ValueOf, IsBlank, Stripped;
    if body != [] {
      var init, line := body[..|body| - 1], body[|body| - 1];
      GetOfContent(init, key);
      GetSnoc(init, line, key);
      GetSnoc(Content(init), Stripped(line), key);
      assert init + [line] == body;
      StrippedValue(line, key);
      BlankIsNoKey(line, key);
    }
  }

  lemma BlankIsNoKey(line: string, key: string)
    ensures IsBlank(line) ==> !MatchTomlStringKey(line, key)
  {
  }

  /** So every value is read from the formatted lines as before. */
  lemma FormatKeepsValues(lines: seq<string>, i: nat, q: nat, key: string)
    requires !LosesBlock(lines) && Has(lines, i, q) && (OptionContent(lines, i, q) != [] || !Doubles(lines))
    ensures Has(FormatLines(lines), i, q)
    ensures Get(OptionLines(FormatLines(lines), i, q), key) == Get(OptionLines(lines, i, q), key)
  {
    hide OutlineOf, FormatLines, Has, OptionLines, Get, Lost, DoubledAt, Content;
    if OptionContent(lines, i, q) != [] { FormatKeepsOptions(lines, i, q); } else { UndoubledKept(lines, i, q); }
    GetOfContent(OptionLines(lines, i, q), key);
    GetOfContent(OptionLines(FormatLines(lines), i, q), key);
  }

  // ----- When nothing is lost -----

  /** A header with a key line of its own is never removed. */
  lemma KeyedHeaderIsKept(lines: seq<string>, k: nat, j: nat, key: string)
    requires k < j < |lines| && MatchTomlStringKey(lines[j], key)
    requires forall x :: k < x <= j ==> !IsHeader(lines[x])
    ensures !Skipped(lines, k)
  {
    hide TrimSpace, IsHeader;
    BlankIsNoKey(lines[j], key);
    ContentBefore(lines, k + 1, j);
  }

  lemma {:induction false} ContentBefore(lines: seq<string>, n: nat, j: nat)
    requires n <= j < |lines| && !IsBlank(lines[j]) && forall x :: n <= x <= j ==> !IsHeader(lines[x])
    ensures HasContent(lines, n)
    decreases j - n
  {
    if n < j { ContentBefore(lines, n + 1, j); }
  }

  /** Formatted lines lose nothing when they are formatted again. */
  lemma FormattedLosesNothing(lines: seq<string>)
    ensures !LosesBlock(FormatLines(lines)) && !Doubles(FormatLines(lines))
  {
    hide TableOf, TrimSpace, Layout;
    var out := FormatLines(lines);
    FormatIsNormal(lines);
    forall k: nat | k < |out| ensures !Skipped(out, k) { NormalSkipsNothing(out, k); }
    forall k: nat | k < |out| ensures !Pending(out, k) { NothingPending(out, k); }
  }

  lemma NormalSkipsNothing(out: seq<string>, k: nat)
    requires Normal(out) && k < |out|
    ensures !Skipped(out, k)
  {
    hide TrimSpace, Spaced;
    if IsHeader(out[k]) {
      assert out[..k + 1] == out[..k] + [out[k]];
      SectionSnoc(out[..k], out[k]);
      ContentAhead(out, [], k + 1);
      assert out + [] == out;
    }
  }

  lemma {:induction false} NothingPending(lines: seq<string>, n: nat)
    requires n <= |lines| && forall k: nat :: k < |lines| ==> !Skipped(lines, k)
    ensures !Pending(lines, n)
  {
    hide TableOf, Skipped;
    if n > 0 { NothingPending(lines, n - 1); }
  }

  // ----- The text that is written and read again -----

  lemma {:induction false} ContentWithBlank(lines: seq<string>, j: nat)
    requires j <= |lines|
    ensures HasContent(lines + [""], j) == HasContent(lines, j)
    decreases |lines| - j
  {
    EmptyIsBlank();
    hide TrimSpace;
    if j < |lines| { ContentWithBlank(lines, j + 1); }
  }

  lemma {:induction false} LayoutWithBlank(lines: seq<string>, n: nat)
    requires n <= |lines|
    ensures Layout(lines + [""], n) == Layout(lines, n)
  {
    hide AddLine, IsHeader;
    if n > 0 {
      LayoutWithBlank(lines, n - 1);
      ContentWithBlank(lines, n);
    }
  }

  lemma {:induction false} DropFirstWithBlank(s: seq<string>)
    ensures DropFirstBlanks(s + [""]) == if DropFirstBlanks(s) == [] then [] else DropFirstBlanks(s) + [""]
  {
    EmptyIsBlank();
    hide IsBlank;
    if s == [] {
      assert ([""] + [])[1..] == [] && s + [""] == [""];
    } else if IsBlank(s[0]) {
      DropFirstWithBlank(s[1..]);
      assert (s + [""])[1..] == s[1..] + [""];
    }
  }

  lemma TrailingBlank(lines: seq<string>)
    ensures FormatLines(lines + [""]) == FormatLines(lines)
  {
    hide IsBlank, Layout;
    var laid := Layout(lines, |lines|);
    LayoutWithBlank(lines, |lines|);
    BlankStep(lines + [""], |lines|);
    DropFirstWithBlank(laid);
    EmptyIsBlank();
    var front := DropFirstBlanks(laid);
    assert (front + [""])[..|front|] == front;
  }

  /** What writeRawConfig writes for edited lines. */
  function WrittenText(lines: seq<string>, hadTrailing: bool): string {
    Formatted(JoinConfigLines(lines, hadTrailing))
  }

  lemma JoinedLines(lines: seq<string>, hadTrailing: bool)
    requires NoneContains(lines, '\n')
    ensures FormatLines(Split(JoinConfigLines(lines, hadTrailing), '\n')) == FormatLines(lines)
  {
    hide FormatLines;
    TrailingBlank(lines);
    if lines == [] {
      TrailingBlank([""]);
      assert [""] + [""] == ["", ""] && [] + [""] == [""];
      assert Split("", '\n') == [""];
      SplitOfWritten([]);
      assert Join([], '\n') + "\n" == "\n";
    } else {
      SplitOfWritten(lines);
    }
  }

  /** The next reader of the file gets the formatted lines. */
  lemma WrittenReadsBack(lines: seq<string>, hadTrailing: bool)
    requires NoneContains(lines, '\n')
    ensures SplitConfigLines(WrittenText(lines, hadTrailing)).0 == FormatLines(lines)
    ensures NoneContains(FormatLines(lines), '\n')
  {
    hide Layout, IsBlank, DropFirstBlanks, DropLastBlanks, Split;
    var out := FormatLines(lines);
    JoinedLines(lines, hadTrailing);
    FormatIsNormal(lines);
    NormalEnds(out);
    LayoutHasNoNewline(lines, |lines|);
    DropKeepsNoNewline(Layout(lines, |lines|));
    DropKeepsNoNewline(DropFirstBlanks(Layout(lines, |lines|)));
    SplitOfJoin(out, false);
    EmptyIsBlank();
    NothingJoined(out);
  }

  lemma NothingJoined(out: seq<string>)
    ensures out == [] ==> SplitConfigLines(Join(out, '\n') + "\n").0 == []
  {
  }

  // ----- A file that loses a platform -----

  /** Two platforms, the first of which has no line of its own above its options. */
  function TwoPlatforms(name: string, option: string, kind: string, list: string): seq<string> {
    ["[[projects]]", name, "[[projects.platforms]]", "[projects.platforms.options]", option,
     "[[projects.platforms]]", kind, "[projects.platforms.options]", list]
  }

  lemma HeaderTexts()
    ensures TableOf("[[projects]]") == Projects && TableOf("[[projects.platforms]]") == Platforms
    ensures TableOf("[projects.platforms.options]") == Options
  {
    hide TableOf;
    TrimOfTrimmed("[[projects]]");
    TrimOfTrimmed("[[projects.platforms]]");
    TrimOfTrimmed("[projects.platforms.options]");
    TableOfHeader("[[projects]]", Projects);
    TableOfHeader("[[projects.platforms]]", Platforms);
    TableOfHeader("[projects.platforms.options]", Options);
  }

  /** The first platform header goes, and the second platform is found no more at its place. */
  lemma PlatformIsLost(name: string, option: string, kind: string, list: string)
    requires IsContent(name) && IsContent(option) && IsContent(kind) && IsContent(list)
    ensures var lines := TwoPlatforms(name, option, kind, list);
            Has(lines, 0, 1) && LosesBlock(lines) && !Has(FormatLines(lines), 0, 1)
  {
    hide TableOf, StepOutline, IsContent, IsHeader, IsBlank, Size, OutlineOf, FormatLines, Has;
    var lines := TwoPlatforms(name, option, kind, list);
    HeaderTexts();
    PlatformHeaderSkipped(name, option, kind, list);
    NoTables(name, option);
    NoTables(kind, list);
    assert Lost(lines, 2) by { assert TableOf(lines[0]) == Projects; }
    CountUp(lines);
    assert lines[..9] == lines;
    SizeShrinks(lines, 9);
    OutlineOfFormatted(lines);
    OutlineIsIndex(lines, 0, 1);
    OutlineIsIndex(FormatLines(lines), 0, 1);
    SizeOfOne(OutlineOf(lines));
    SizeOfOne(OutlineOf(FormatLines(lines)));
  }

  lemma NoTables(a: string, b: string)
    requires IsContent(a) && IsContent(b)
    ensures TableOf(a) == NoTable && TableOf(b) == NoTable
  {
    HeaderTable(a);
    HeaderTable(b);
  }

  lemma PlatformHeaderSkipped(name: string, option: string, kind: string, list: string)
    ensures Skipped(TwoPlatforms(name, option, kind, list), 2)
  {
    hide TableOf;
    HeaderTexts();
    HeaderTable("[[projects.platforms]]");
    HeaderTable("[projects.platforms.options]");
  }

  lemma SizeOfOne(o: Outline)
    requires |o.projects| <= 1
    ensures Size(o) == if o.projects == [] then 0 else 1 + |o.projects[0]|
  {
    if o.projects != [] {
      assert o.projects[..|o.projects| - 1] == [];
      assert Total(o.projects) == Total([]) + |o.projects[0]|;
    }
  }

  /** One project with two platforms. */
  lemma CountUp(lines: seq<string>)
    requires |lines| == 9 && TableOf(lines[0]) == Projects && TableOf(lines[2]) == TableOf(lines[5]) == Platforms
    requires forall k :: 0 < k < 9 && k != 2 && k != 5 ==> !OpensBlock(TableOf(lines[k]))
    ensures |Before(lines, 9).projects| == 1 && Size(Before(lines, 9)) == 3
  {
    hide TableOf, StepOutline, Size, Before, After;
    NoOutlines(lines);
    NoSize();
    SizeUp(lines, 0);
    SizeUp(lines, 1);
    SizeUp(lines, 2);
    SizeUp(lines, 3);
    SizeUp(lines, 4);
    SizeUp(lines, 5);
    SizeUp(lines, 6);
    SizeUp(lines, 7);
    SizeUp(lines, 8);
  }

  lemma NoSize()
    ensures Size(Outline([], false)) == 0
  {
  }

  lemma SizeUp(lines: seq<string>, n: nat)
    requires n < |lines|
    ensures var a := Before(lines, n);
            && Size(Before(lines, n + 1)) ==
               Size(a) + (if TableOf(lines[n]) == Projects || (TableOf(lines[n]) == Platforms && a.projects != []) then 1 else 0)
            && |Before(lines, n + 1).projects| == |a.projects| + if TableOf(lines[n]) == Projects then 1 else 0
  {
    NextOutlines(lines, n);
    StepSize(Before(lines, n), lines[n]);
  }
}
