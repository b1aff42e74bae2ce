/** buildRawProjectSpans: the loops that compute the line index from the text (config/config.go). */
module TomlSpans {
  import opened Strings
  import opened TomlLine
  import opened TomlIndex

  function HeaderText(t: Table): string {
    match t
    case Projects => "[[projects]]"
    case Platforms => "[[projects.platforms]]"
    case Options => "[projects.platforms.options]"
    case Agent => "[projects.agent]"
    case AgentOptions => "[projects.agent.options]"
    case Providers => "[[projects.agent.providers]]"
    case NoTable => ""
    case OtherTable => "["
  }

  predicate Indexed(t: Table) {
    !t.NoTable? && !t.OtherTable?
  }

  const INDEXED: seq<Table> := [Projects, Platforms, Options, Agent, AgentOptions, Providers]

  /** The first of the candidates whose header the line is. */
  function TableAmong(line: string, candidates: seq<Table>): Table {
    if candidates == [] then (if IsAnyTableHeader(line) then OtherTable else NoTable)
    else if MatchTableHeader(line, HeaderText(candidates[0])) then candidates[0]
    else TableAmong(line, candidates[1..])
  }

  function TableOf(line: string): Table {
    TableAmong(line, INDEXED)
  }

  function MarkOf(line: string): Mark {
    Mark(TableOf(line), MatchTomlStringKey(line, "type"), MatchTomlStringKey(line, "name"))
  }

  function Marks(lines: seq<string>): (r: seq<Mark>)
    ensures |r| == |lines|
  {
    if lines == [] then [] else [MarkOf(lines[0])] + Marks(lines[1..])
  }

  lemma {:induction false} MarksAt(lines: seq<string>, i: nat)
    requires i < |lines|
    ensures Marks(lines)[i] == MarkOf(lines[i])
  {
    if i > 0 { MarksAt(lines[1..], i - 1); }
  }

  ghost predicate Looks(lines: seq<string>, marks: seq<Mark>, i: nat)
    requires i < |lines| == |marks|
  {
    marks[i] == MarkOf(lines[i])
  }

  /** What the loops over the text may assume of the marks: each is the mark of its line. */
  ghost predicate Describes(lines: seq<string>, marks: seq<Mark>) {
    |lines| == |marks| &&
    forall i {:trigger Looks(lines, marks, i)} :: 0 <= i < |lines| ==> Looks(lines, marks, i)
  }

  lemma MarksDescribe(lines: seq<string>)
    ensures Describes(lines, Marks(lines))
  {
    forall i | 0 <= i < |lines| ensures Looks(lines, Marks(lines), i) { MarksAt(lines, i); }
  }

  /** No text is read as two different indexed headers. */
  lemma HeadersAreExclusive(line: string, a: Table, b: Table)
    requires Indexed(a) && Indexed(b) && MatchTableHeader(line, HeaderText(a)) && MatchTableHeader(line, HeaderText(b))
    ensures a == b
  {
    var t, x, y := TrimSpace(line), HeaderText(a), HeaderText(b);
    if |x| < |y| { HeaderNotExtended(t, x, y); }
    if |y| < |x| { HeaderNotExtended(t, y, x); }
    assert x == t[..|x|] && y == t[..|y|];
  }

  lemma HeaderNotExtended(t: string, x: string, y: string)
    requires HasPrefix(t, x) && HasPrefix(t, y) && |x| < |y|
    requires t[|x|] == ' ' || t[|x|] == '\t' || t[|x|] == '#'
    ensures y[|x|] == ' ' || y[|x|] == '\t' || y[|x|] == '#'
  {
    assert y[|x|] == t[..|y|][|x|];
  }

  lemma {:induction false} TableAmongIs(line: string, candidates: seq<Table>, t: Table)
    requires forall i :: 0 <= i < |candidates| ==> Indexed(candidates[i])
    requires Indexed(t)
    ensures TableAmong(line, candidates) == t <==> t in candidates && MatchTableHeader(line, HeaderText(t))
    ensures TableAmong(line, candidates) == NoTable ==> !IsAnyTableHeader(line)
    ensures TableAmong(line, candidates) != NoTable ==> IsAnyTableHeader(line)
  {
    hide MatchTableHeader, IsAnyTableHeader, HeaderText;
    if candidates != [] {
      TableAmongIs(line, candidates[1..], t);
      if MatchTableHeader(line, HeaderText(candidates[0])) {
        HeaderIsHeader(line, candidates[0]);
        if MatchTableHeader(line, HeaderText(t)) { HeadersAreExclusive(line, candidates[0], t); }
      }
    }
  }

  lemma HeaderIsHeader(line: string, t: Table)
    requires Indexed(t) && MatchTableHeader(line, HeaderText(t))
    ensures IsAnyTableHeader(line)
  {
    HeaderMatchesAny(line, HeaderText(t));
  }

  lemma AllIndexed()
    ensures forall i :: 0 <= i < |INDEXED| ==> Indexed(INDEXED[i])
    ensures forall t: Table :: Indexed(t) ==> t in INDEXED
  {
    assert INDEXED[0] == Projects && INDEXED[1] == Platforms && INDEXED[2] == Options;
    assert INDEXED[3] == Agent && INDEXED[4] == AgentOptions && INDEXED[5] == Providers;
  }

  lemma TableOfHeader(line: string, t: Table)
    requires Indexed(t)
    ensures MatchTableHeader(line, HeaderText(t)) <==> TableOf(line) == t
  {
    hide MatchTableHeader, IsAnyTableHeader, HeaderText, TableAmong;
    AllIndexed();
    TableAmongIs(line, INDEXED, t);
  }

  lemma TableOfAny(line: string)
    ensures IsAnyTableHeader(line) <==> TableOf(line) != NoTable
  {
    hide MatchTableHeader, IsAnyTableHeader, HeaderText, TableAmong;
    AllIndexed();
    TableAmongIs(line, INDEXED, Projects);
  }

  // ----- Tests on one line, in the terms of the index -----

  method IsHeaderLine(lines: seq<string>, ghost marks: seq<Mark>, i: nat, t: Table) returns (b: bool)
    requires Describes(lines, marks)
    requires i < |lines| && Indexed(t)
    ensures b == Matches(marks[i], Header(t))
  {
    assert Looks(lines, marks, i);
    b := MatchTableHeader(lines[i], HeaderText(t));
    TableOfHeader(lines[i], t);
  }

  method IsAnyHeaderLine(lines: seq<string>, ghost marks: seq<Mark>, i: nat) returns (b: bool)
    requires Describes(lines, marks)
    requires i < |lines|
    ensures b == Matches(marks[i], AnyHeader)
  {
    assert Looks(lines, marks, i);
    b := IsAnyTableHeader(lines[i]);
    TableOfAny(lines[i]);
  }

  method IsTypeLine(lines: seq<string>, ghost marks: seq<Mark>, i: nat) returns (b: bool)
    requires Describes(lines, marks)
    requires i < |lines|
    ensures b == Matches(marks[i], TypeKey)
  {
    assert Looks(lines, marks, i);
    b := MatchTomlStringKey(lines[i], "type");
  }

  method IsNameLine(lines: seq<string>, ghost marks: seq<Mark>, i: nat) returns (b: bool)
    requires Describes(lines, marks)
    requires i < |lines|
    ensures b == Matches(marks[i], NameKey)
  {
    assert Looks(lines, marks, i);
    b := MatchTomlStringKey(lines[i], "name");
  }

  // ----- The loops -----

  /** The inner loop that looks for the next header, `end` being the default. */
  method FindSectionEnd(lines: seq<string>, ghost marks: seq<Mark>, at: nat, end: int) returns (r: int)
    requires Describes(lines, marks)
    requires at <= end < |lines|
    ensures r == SectionStop(marks, at, end + 1) - 1
  {
    r := end;
    var j := at + 1;
    while j <= end
      invariant at + 1 <= j <= end + 1
      invariant SectionStop(marks, at, end + 1) == First(marks, AnyHeader, j, end + 1)
    {
      var header := IsAnyHeaderLine(lines, marks, j);
      if header {
        r := j - 1;
        break;
      }
      j := j + 1;
    }
  }

  method CollectHeaders(lines: seq<string>, ghost marks: seq<Mark>, t: Table, lo: nat, stop: nat) returns (starts: seq<nat>)
    requires Describes(lines, marks)
    requires lo <= stop <= |lines| && Indexed(t)
    ensures starts == All(marks, Header(t), lo, stop)
  {
    starts := [];
    var i := lo;
    while i < stop
      invariant lo <= i <= stop
      invariant starts == All(marks, Header(t), lo, i)
    {
      AllSnoc(marks, Header(t), lo, i);
      var header := IsHeaderLine(lines, marks, i, t);
      if header {
        starts := starts + [i];
      }
      i := i + 1;
    }
  }

  /** The loop over one platform block. */
  method ScanPlatform(lines: seq<string>, ghost marks: seq<Mark>, pstart: nat, pend: int) returns (ps: PlatformSpan)
    requires Describes(lines, marks)
    requires pstart <= pend < |lines|
    ensures ps == PlatformOf(marks, pstart, pend + 1)
  {
    var typeLine, optionsStart, optionsEnd := -1, -1, -1;
    var inMainPlatformTable := true;
    var ln := pstart + 1;
    ghost var main := SectionStop(marks, pstart, pend + 1);
    while ln <= pend
      invariant pstart + 1 <= ln <= pend + 1
      invariant inMainPlatformTable == (ln <= main)
      invariant inMainPlatformTable ==> main == First(marks, AnyHeader, ln, pend + 1)
      invariant typeLine < 0 ==> typeLine == -1
      invariant typeLine < 0 && inMainPlatformTable ==>
                  FirstOrNone(marks, TypeKey, pstart + 1, main) == FirstOrNone(marks, TypeKey, ln, main)
      invariant typeLine >= 0 || !inMainPlatformTable ==> typeLine == FirstOrNone(marks, TypeKey, pstart + 1, main)
      invariant optionsStart < 0 ==> optionsStart == -1 && optionsEnd == -1
      invariant optionsStart < 0 ==> FirstOrNone(marks, Header(Options), pstart + 1, pend + 1) ==
                                     FirstOrNone(marks, Header(Options), ln, pend + 1)
      invariant optionsStart >= 0 ==> optionsStart == FirstOrNone(marks, Header(Options), pstart + 1, pend + 1) &&
                                      optionsEnd == EndOf(marks, optionsStart, pend + 1)
    {
      var header := IsAnyHeaderLine(lines, marks, ln);
      if header {
        inMainPlatformTable := false;
      }
      var isType := IsTypeLine(lines, marks, ln);
      if inMainPlatformTable && typeLine < 0 && isType {
        typeLine := ln;
      }
      var isOptions := IsHeaderLine(lines, marks, ln, Options);
      if optionsStart < 0 && isOptions {
        optionsStart := ln;
        optionsEnd := FindSectionEnd(lines, marks, ln, pend);
      }
      ln := ln + 1;
    }
    ps := PlatformSpan(pstart, pend, typeLine, optionsStart, optionsEnd);
  }

  method ScanProvider(lines: seq<string>, ghost marks: seq<Mark>, at: nat, end: int) returns (span: ProviderSpan)
    requires Describes(lines, marks)
    requires at <= end < |lines|
    ensures span == ProviderOf(marks, at, end + 1)
  {
    var provEnd := FindSectionEnd(lines, marks, at, end);
    var nameLine := -1;
    var j := at + 1;
    while j <= provEnd
      invariant at + 1 <= j <= provEnd + 1
      invariant FirstOrNone(marks, NameKey, at + 1, provEnd + 1) == FirstOrNone(marks, NameKey, j, provEnd + 1)
    {
      var isName := IsNameLine(lines, marks, j);
      if isName {
        nameLine := j;
        break;
      }
      j := j + 1;
    }
    span := ProviderSpan(at, provEnd, nameLine);
  }

  method NoteSection(lines: seq<string>, ghost marks: seq<Mark>, ghost lo: nat, ln: nat, end: int,
                     ghost t: Table, found: bool, start0: int, end0: int)
    returns (start1: int, end1: int)
    requires Describes(lines, marks)
    requires lo <= ln <= end < |lines| && (found <==> marks[ln].table == t)
    requires Section(start0, end0) == LastSection(marks, t, lo, ln, end + 1)
    ensures Section(start1, end1) == LastSection(marks, t, lo, ln + 1, end + 1)
  {
    start1, end1 := start0, end0;
    if found {
      start1 := ln;
      end1 := FindSectionEnd(lines, marks, ln, end);
    }
  }

  method NoteProvider(lines: seq<string>, ghost marks: seq<Mark>, ghost lo: nat, ln: nat, end: int, spans: seq<ProviderSpan>)
    returns (r: seq<ProviderSpan>)
    requires Describes(lines, marks)
    requires lo <= ln <= end < |lines|
    requires spans == ProvidersIn(marks, lo, ln, end + 1)
    ensures r == ProvidersIn(marks, lo, ln + 1, end + 1)
  {
    r := spans;
    var isProvider := IsHeaderLine(lines, marks, ln, Providers);
    if isProvider {
      var span := ScanProvider(lines, marks, ln, end);
      r := r + [span];
    }
  }

  /** The loop over the agent sections of one project; the last header of each kind wins. */
  method ScanAgent(lines: seq<string>, ghost marks: seq<Mark>, start: nat, end: int)
    returns (agentStart: int, agentEnd: int, optionsStart: int, optionsEnd: int, providers: seq<ProviderSpan>)
    requires Describes(lines, marks)
    requires start <= end < |lines|
    ensures Section(agentStart, agentEnd) == LastSection(marks, Agent, start + 1, end + 1, end + 1)
    ensures Section(optionsStart, optionsEnd) == LastSection(marks, AgentOptions, start + 1, end + 1, end + 1)
    ensures providers == ProvidersIn(marks, start + 1, end + 1, end + 1)
  {
    agentStart, agentEnd, optionsStart, optionsEnd, providers := -1, -1, -1, -1, [];
    var ln := start + 1;
    while ln <= end
      invariant start + 1 <= ln <= end + 1
      invariant Section(agentStart, agentEnd) == LastSection(marks, Agent, start + 1, ln, end + 1)
      invariant Section(optionsStart, optionsEnd) == LastSection(marks, AgentOptions, start + 1, ln, end + 1)
      invariant providers == ProvidersIn(marks, start + 1, ln, end + 1)
    {
      var isAgent := IsHeaderLine(lines, marks, ln, Agent);
      var isOptions := IsHeaderLine(lines, marks, ln, AgentOptions);
      var isProvider := IsHeaderLine(lines, marks, ln, Providers);
      var plainAgent := isAgent && !isOptions && !isProvider;
      agentStart, agentEnd := NoteSection(lines, marks, start + 1, ln, end, Agent, plainAgent, agentStart, agentEnd);
      optionsStart, optionsEnd := NoteSection(lines, marks, start + 1, ln, end, AgentOptions, isOptions, optionsStart, optionsEnd);
      providers := NoteProvider(lines, marks, start + 1, ln, end, providers);
      ln := ln + 1;
    }
  }

  ghost predicate StartsAt(starts: seq<nat>, blocks: seq<Block>, stop: nat, i: nat)
    requires i < |starts| == |blocks|
  {
    blocks[i].start == starts[i] && blocks[i].stop == if i + 1 < |starts| then starts[i + 1] else stop
  }

  /** How the loops over header lines see the blocks these headers open. */
  ghost predicate Starts(starts: seq<nat>, blocks: seq<Block>, stop: nat) {
    |starts| == |blocks| && forall i :: 0 <= i < |starts| ==> StartsAt(starts, blocks, stop, i)
  }

  lemma StartsOf(marks: seq<Mark>, t: Table, lo: nat, stop: nat)
    requires lo <= stop <= |marks|
    ensures Starts(All(marks, Header(t), lo, stop), Blocks(marks, t, lo, stop), stop)
  {
    hide All, Blocks, StartsIn;
    var starts, blocks := All(marks, Header(t), lo, stop), Blocks(marks, t, lo, stop);
    StartsOfBlocks(marks, t, lo, stop);
    assert |starts| == |blocks|;
    forall i | 0 <= i < |starts| ensures StartsAt(starts, blocks, stop, i) {
      StartsOfBlock(marks, t, lo, stop, i);
    }
  }

  method ScanPlatforms(lines: seq<string>, ghost marks: seq<Mark>, start: nat, end: int) returns (platforms: seq<PlatformSpan>)
    requires Describes(lines, marks)
    requires start <= end < |lines|
    ensures platforms == PlatformsOf(marks, start, end + 1)
  {
    var starts := CollectHeaders(lines, marks, Platforms, start + 1, end + 1);
    StartsOf(marks, Platforms, start + 1, end + 1);
    platforms := ScanPlatformsAt(lines, marks, starts, end, Blocks(marks, Platforms, start + 1, end + 1));
  }

  method BlockEnd(starts: seq<nat>, i: nat, last: int, ghost size: nat, ghost blocks: seq<Block>) returns (end: int)
    requires -1 <= last && i < |starts| && Starts(starts, blocks, last + 1)
    requires blocks[i].start < blocks[i].stop <= size
    ensures end == blocks[i].stop - 1 && starts[i] == blocks[i].start && starts[i] <= end < size
  {
    end := last;
    assert StartsAt(starts, blocks, last + 1, i);
    if i + 1 < |starts| {
      end := starts[i + 1] - 1;
    }
  }

  method ScanPlatformsAt(lines: seq<string>, ghost marks: seq<Mark>, starts: seq<nat>, end: int, ghost blocks: seq<Block>)
    returns (platforms: seq<PlatformSpan>)
    requires Describes(lines, marks)
    requires -1 <= end < |lines| && BlocksIn(marks, blocks) && Starts(starts, blocks, end + 1)
    ensures platforms == PlatformsIn(marks, blocks, |blocks|)
  {
    platforms := [];
    for p := 0 to |starts|
      invariant platforms == PlatformsIn(marks, blocks, p)
    {
      var pend := BlockEnd(starts, p, end, |lines|, blocks);
      var ps := ScanPlatform(lines, marks, starts[p], pend);
      platforms := platforms + [ps];
    }
  }

  ghost predicate IsProject(marks: seq<Mark>, blocks: seq<Block>, spans: seq<ProjectSpan>, i: nat)
    requires BlocksIn(marks, blocks) && i < |blocks| == |spans|
  {
    spans[i] == ProjectOf(marks, blocks[i].start, blocks[i].stop)
  }

  ghost predicate AreProjects(marks: seq<Mark>, blocks: seq<Block>, spans: seq<ProjectSpan>)
    requires BlocksIn(marks, blocks)
  {
    |blocks| == |spans| &&
    forall i {:trigger IsProject(marks, blocks, spans, i)} :: 0 <= i < |spans| ==> IsProject(marks, blocks, spans, i)
  }

  lemma SpansAreProjects(marks: seq<Mark>)
    ensures AreProjects(marks, Blocks(marks, Projects, 0, |marks|), SpansOf(marks))
  {
    var blocks := Blocks(marks, Projects, 0, |marks|);
    forall i | 0 <= i < |blocks| ensures IsProject(marks, blocks, SpansOf(marks), i) {
      ProjectsInAt(marks, blocks, |blocks|, i);
    }
  }

  /** buildRawProjectSpans: its loops compute the index specified by `TomlIndex.SpansOf`. */
  method BuildRawProjectSpans(lines: seq<string>) returns (spans: seq<ProjectSpan>)
    ensures spans == SpansOf(Marks(lines))
  {
    ghost var marks := Marks(lines);
    MarksDescribe(lines);
    StartsOf(marks, Projects, 0, |lines|);
    SpansAreProjects(marks);
    var starts := CollectHeaders(lines, marks, Projects, 0, |lines|);
    spans := ScanProjects(lines, marks, starts, Blocks(marks, Projects, 0, |lines|), SpansOf(marks));
  }

  method ScanProjects(lines: seq<string>, ghost marks: seq<Mark>, starts: seq<nat>, ghost blocks: seq<Block>,
                      ghost expected: seq<ProjectSpan>)
    returns (spans: seq<ProjectSpan>)
    requires Describes(lines, marks) && BlocksIn(marks, blocks) && Starts(starts, blocks, |lines|)
    requires AreProjects(marks, blocks, expected)
    ensures spans == expected
  {
    spans := [];
    for i := 0 to |starts|
      invariant spans == expected[..i]
    {
      var span := ScanProjectAt(lines, marks, starts, blocks, expected, i);
      spans := spans + [span];
    }
  }

  method ScanProjectAt(lines: seq<string>, ghost marks: seq<Mark>, starts: seq<nat>, ghost blocks: seq<Block>,
                       ghost expected: seq<ProjectSpan>, i: nat)
    returns (span: ProjectSpan)
    requires Describes(lines, marks) && BlocksIn(marks, blocks) && Starts(starts, blocks, |lines|)
    requires i < |starts| && AreProjects(marks, blocks, expected)
    ensures span == expected[i]
  {
    var end := BlockEnd(starts, i, |lines| - 1, |lines|, blocks);
    assert IsProject(marks, blocks, expected, i);
    span := ScanProject(lines, marks, starts[i], end);
  }

  method ScanProject(lines: seq<string>, ghost marks: seq<Mark>, start: nat, end: int) returns (span: ProjectSpan)
    requires Describes(lines, marks)
    requires start <= end < |lines|
    ensures span == ProjectOf(marks, start, end + 1)
  {
    var agentStart, agentEnd, optionsStart, optionsEnd, providers := ScanAgent(lines, marks, start, end);
    var platforms := ScanPlatforms(lines, marks, start, end);
    span := ProjectSpan(start, end, platforms, agentStart, agentEnd, optionsStart, optionsEnd, providers);
  }
}
