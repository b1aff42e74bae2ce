/**
 An edit of one platform's options neither makes formatting lose a project or platform header nor brings a newline
 into a line (config/config.go).
 */
module TomlEdited {
  import opened Strings
  import opened TomlLine
  import opened TomlIndex
  import opened TomlSpans
  import opened TomlEdit
  import opened TomlConfig
  import opened TomlOptions
  import opened FormatToml
  import opened TomlOutline
  import opened TomlFormat

  // ----- Content below a header, in a file put together from parts -----

  lemma {:induction false} ContentInFront(a: seq<string>, rest: seq<string>, j: nat)
    requires j <= |a| && !HasContent(rest, 0)
    ensures HasContent(a + rest, j) == HasContent(a, j)
    decreases |a| - j
  {
    hide IsBlank, IsHeader;
    if j < |a| { ContentInFront(a, rest, j + 1); } else { ContentBehind(a, rest, 0); }
  }

  lemma {:induction false} ContentBehind(a: seq<string>, rest: seq<string>, j: nat)
    requires j <= |rest|
    ensures HasContent(a + rest, |a| + j) == HasContent(rest, j)
    decreases |rest| - j
  {
    hide IsBlank, IsHeader;
    if j < |rest| { ContentBehind(a, rest, j + 1); }
  }

  ghost predicate HasProject(lines: seq<string>) {
    exists p :: 0 <= p < |lines| && TableOf(lines[p]) == Projects
  }

  predicate OpensNone(lines: seq<string>) {
    forall k :: 0 <= k < |lines| ==> !OpensBlock(TableOf(lines[k]))
  }

  /** Lines that open no block are exchanged for other such lines below a header. */
  lemma ExchangeKeepsLost(a: seq<string>, was: seq<string>, now: seq<string>, c: seq<string>, k: nat)
    requires HasProject(a) && OpensNone(was) && OpensNone(now)
    requires !HasContent(was + c, 0) && !HasContent(now + c, 0)
    requires Lost(a + was + c, k)
    ensures LosesBlock(a + now + c)
  {
    hide TableOf, IsHeader, IsBlank, HasContent;
    var x, y := a + was + c, a + now + c;
    assert x == a + (was + c) && y == a + (now + c);
    if k < |a| {
      ContentInFront(a, was + c, k + 1);
      ContentInFront(a, now + c, k + 1);
      assert x[k] == a[k] == y[k];
      var p :| 0 <= p <= k && TableOf(x[p]) == Projects;
      assert y[p] == x[p];
      assert Lost(y, k);
    } else {
      assert x[k] == (was + c)[k - |a|];
      var j := k - |a| - |was|;
      assert j >= 0;
      assert x == (a + was) + c && y == (a + now) + c;
      ContentBehind(a + was, c, j + 1);
      ContentBehind(a + now, c, j + 1);
      var p :| 0 <= p < |a| && TableOf(a[p]) == Projects;
      assert y[p] == a[p] && y[|a| + |now| + j] == c[j] == x[k];
      assert Lost(y, |a| + |now| + j);
    }
  }

  lemma ExchangeKeepsBlocks(a: seq<string>, was: seq<string>, now: seq<string>, c: seq<string>)
    requires HasProject(a) && OpensNone(was) && OpensNone(now)
    requires !HasContent(was + c, 0) && !HasContent(now + c, 0)
    ensures LosesBlock(a + was + c) <==> LosesBlock(a + now + c)
  {
    hide TableOf, HasContent, Lost;
    if LosesBlock(a + was + c) {
      var k: nat :| Lost(a + was + c, k);
      ExchangeKeepsLost(a, was, now, c, k);
    }
    if LosesBlock(a + now + c) {
      var k: nat :| Lost(a + now + c, k);
      ExchangeKeepsLost(a, now, was, c, k);
    }
  }

  // ----- The parts of a file around one platform's options -----

  lemma AfterPlatform(marks: seq<Mark>, i: nat, q: nat)
    requires HasPlatform(marks, i, q)
    ensures var b := PlatformBlocks(marks, i)[q];
            && b.stop <= |marks| && (b.stop < |marks| ==> OpensBlock(marks[b.stop].table))
            && ProjectBlocks(marks)[i].start < b.start && marks[ProjectBlocks(marks)[i].start].table == Projects
  {
    hide Blocks;
    var project := ProjectBlocks(marks)[i];
    BlocksTile(marks, Projects, 0, |marks|, i);
    BlocksTile(marks, Platforms, project.start + 1, project.stop, q);
    if q + 1 < |PlatformBlocks(marks, i)| { BlockHeader(marks, Platforms, project.start + 1, project.stop, q + 1); }
    else if i + 1 < |ProjectBlocks(marks)| { BlockHeader(marks, Projects, 0, |marks|, i + 1); }
  }

  lemma SectionIsSound(marks: seq<Mark>, i: nat, q: nat)
    requires HasPlatform(marks, i, q)
    ensures var b, p := PlatformBlocks(marks, i)[q], PlatformAt(marks, i, q);
            && p.start == b.start && p.end == b.stop - 1 && 0 <= p.start <= p.end < |marks| && SoundPlatform(marks, p)
  {
    hide Blocks;
    var project := ProjectBlocks(marks)[i];
    BlocksTile(marks, Projects, 0, |marks|, i);
    BlocksTile(marks, Platforms, project.start + 1, project.stop, q);
    PlatformOfIsSound(marks, PlatformBlocks(marks, i)[q].start, PlatformBlocks(marks, i)[q].stop);
  }

  lemma SectionOpensNone(lines: seq<string>, i: nat, q: nat)
    requires Has(lines, i, q) && Span(lines, i, q).optionsStart >= 0
    ensures OpensNone(OptionLines(lines, i, q))
    ensures TableOf(lines[Span(lines, i, q).optionsStart]) == Options
  {
    hide TableOf, PlatformBlocks, PlatformAt, Marks;
    var p, body := Span(lines, i, q), OptionLines(lines, i, q);
    SectionIsSound(Marks(lines), i, q);
    forall k | 0 <= k < |body| ensures !OpensBlock(TableOf(body[k])) {
      MarksAt(lines, p.optionsStart + 1 + k);
      assert body[k] == lines[p.optionsStart + 1 + k];
    }
    MarksAt(lines, p.optionsStart);
  }

  /** What follows a platform's options, or a platform without options, starts with a header if it is not empty. */
  lemma NoContentAfter(lines: seq<string>, i: nat, q: nat)
    requires Has(lines, i, q)
    ensures !HasContent(LinesAfter(lines, i, q), 0)
  {
    hide TableOf, IsHeader, PlatformBlocks, PlatformAt, ProjectBlocks, Marks;
    SectionIsSound(Marks(lines), i, q);
    AfterPlatform(Marks(lines), i, q);
    var rest := LinesAfter(lines, i, q);
    if rest != [] {
      var at := |lines| - |rest|;
      MarksAt(lines, at);
      HeaderTable(lines[at]);
      assert rest[0] == lines[at];
    }
  }

  /** The file up to its platform's options header, or up to the end of the platform. */
  ghost function Front(lines: seq<string>, i: nat, q: nat): seq<string>
    requires Has(lines, i, q)
  {
    SpanInBlock(lines, i, q);
    var p := Span(lines, i, q);
    if p.optionsStart < 0 then lines[..p.end + 1] else lines[..p.optionsStart]
  }

  /** The header of the section, with the blank line before a new one. */
  ghost function Opening(lines: seq<string>, i: nat, q: nat): seq<string>
    requires Has(lines, i, q)
  {
    SpanInBlock(lines, i, q);
    var p := Span(lines, i, q);
    if p.optionsStart < 0 then Opener(lines, p.end + 1) else [lines[p.optionsStart]]
  }

  lemma FrontHasProject(lines: seq<string>, i: nat, q: nat)
    requires Has(lines, i, q)
    ensures HasProject(Front(lines, i, q))
  {
    hide TableOf, PlatformBlocks, PlatformAt, ProjectBlocks, Marks;
    SectionIsSound(Marks(lines), i, q);
    AfterPlatform(Marks(lines), i, q);
    var p := ProjectBlocks(Marks(lines))[i].start;
    MarksAt(lines, p);
    assert Front(lines, i, q)[p] == lines[p];
  }

  /** A header of an options section, with a blank line before it or not. */
  predicate IsOpening(opening: seq<string>) {
    && (|opening| == 1 || (|opening| == 2 && opening[0] == ""))
    && TableOf(opening[|opening| - 1]) == Options
  }

  lemma HeaderOpens(header: string, blank: bool)
    requires TableOf(header) == Options
    ensures IsOpening(BlankIf(blank) + [header]) && IsOpening([header])
  {
    hide TableOf;
  }

  lemma OpenerIsOpening(lines: seq<string>, at: nat)
    requires at <= |lines|
    ensures IsOpening(Opener(lines, at))
  {
    hide IsOpening, TableOf, IsBlank, BlankIf;
    OptionsMark();
    HeaderOpens(OPTIONS_HEADER, at > 0 && !IsBlank(lines[at - 1]));
  }

  lemma OpeningIs(lines: seq<string>, i: nat, q: nat)
    requires Has(lines, i, q)
    ensures IsOpening(Opening(lines, i, q)) && LinesBefore(lines, i, q) == Front(lines, i, q) + Opening(lines, i, q)
  {
    hide PlatformBlocks, PlatformAt, ProjectBlocks, Marks, TableOf, SpansOf, IsOpening, Opener;
    SpanInBlock(lines, i, q);
    var p := Span(lines, i, q);
    if p.optionsStart < 0 {
      OpenerIsOpening(lines, p.end + 1);
    } else {
      SectionOpensNone(lines, i, q);
      HeaderOpens(lines[p.optionsStart], false);
      assert lines[..p.optionsStart + 1] == lines[..p.optionsStart] + [lines[p.optionsStart]];
    }
  }

  lemma OpeningOpens(opening: seq<string>)
    requires IsOpening(opening)
    ensures OpensNone(opening)
  {
    hide TableOf;
    BlankMark();
  }

  lemma OpeningOpensNone(lines: seq<string>, i: nat, q: nat)
    requires Has(lines, i, q)
    ensures OpensNone(Opening(lines, i, q)) && LinesBefore(lines, i, q) == Front(lines, i, q) + Opening(lines, i, q)
    ensures forall rest :: !HasContent(Opening(lines, i, q) + rest, 0)
  {
    hide IsOpening, OpensNone, HasContent, Opening, Front, LinesBefore, Has;
    OpeningIs(lines, i, q);
    var opening := Opening(lines, i, q);
    OpeningOpens(opening);
    forall rest ensures !HasContent(opening + rest, 0) { OpeningHasNoContent(opening, rest); }
  }

  lemma OpeningHasNoContent(opening: seq<string>, rest: seq<string>)
    requires IsOpening(opening)
    ensures !HasContent(opening + rest, 0)
  {
    hide TableOf, IsHeader;
    EmptyIsBlank();
    HeaderTable(opening[|opening| - 1]);
    var lines := opening + rest;
    if |opening| == 2 { assert !HasContent(lines, 1); }
  }

  /** The file in three parts: without a section yet, the middle one is empty. */
  lemma FileInParts(lines: seq<string>, i: nat, q: nat)
    requires Has(lines, i, q)
    ensures lines == Front(lines, i, q) +
                     (if Span(lines, i, q).optionsStart < 0 then [] else Opening(lines, i, q) + OptionLines(lines, i, q)) +
                     LinesAfter(lines, i, q)
  {
    hide PlatformBlocks, PlatformAt, ProjectBlocks, Marks;
    SpanInBlock(lines, i, q);
  }

  lemma NoneOpened(a: seq<string>, b: seq<string>)
    requires OpensNone(a) && OpensNone(b)
    ensures OpensNone(a + b)
  {
    hide TableOf;
  }

  lemma NothingOpened()
    ensures OpensNone([])
  {
  }

  lemma PartsBefore(lines: seq<string>, i: nat, q: nat) returns (was: seq<string>)
    requires Has(lines, i, q)
    ensures lines == Front(lines, i, q) + was + LinesAfter(lines, i, q)
    ensures OpensNone(was) && !HasContent(was + LinesAfter(lines, i, q), 0)
  {
    hide HasContent, OpensNone, LinesAfter, OptionLines, Front, Opening, Span, Has;
    FileInParts(lines, i, q);
    if Span(lines, i, q).optionsStart < 0 {
      was := [];
      assert [] + LinesAfter(lines, i, q) == LinesAfter(lines, i, q);
      NoContentAfter(lines, i, q);
      NothingOpened();
    } else {
      was := Opening(lines, i, q) + OptionLines(lines, i, q);
      SectionOpens(lines, lines, i, q);
    }
  }

  /** A section under the header of `lines` opens no block and starts with a header. */
  lemma SectionOpens(lines: seq<string>, r: seq<string>, i: nat, q: nat)
    requires Has(lines, i, q) && Has(r, i, q) && Span(r, i, q).optionsStart >= 0
    ensures var now := Opening(lines, i, q) + OptionLines(r, i, q);
            OpensNone(now) && !HasContent(now + LinesAfter(lines, i, q), 0)
  {
    hide HasContent, OpensNone, LinesBefore, LinesAfter, OptionLines, Front, Opening, Span, Has;
    var opening, body, c := Opening(lines, i, q), OptionLines(r, i, q), LinesAfter(lines, i, q);
    OpeningOpensNone(lines, i, q);
    SectionOpensNone(r, i, q);
    NoneOpened(opening, body);
    assert (opening + body) + c == opening + (body + c);
  }

  lemma PartsAfter(lines: seq<string>, r: seq<string>, i: nat, q: nat) returns (now: seq<string>)
    requires Has(lines, i, q) && Has(r, i, q) && Span(r, i, q).optionsStart >= 0
    requires LinesBefore(r, i, q) == LinesBefore(lines, i, q) && LinesAfter(r, i, q) == LinesAfter(lines, i, q)
    ensures r == Front(lines, i, q) + now + LinesAfter(lines, i, q)
    ensures OpensNone(now) && !HasContent(now + LinesAfter(lines, i, q), 0)
  {
    hide HasContent, OpensNone, LinesBefore, LinesAfter, OptionLines, Front, Opening, Span, Has;
    now := Opening(lines, i, q) + OptionLines(r, i, q);
    FileIsItsParts(r, i, q);
    OpeningOpensNone(lines, i, q);
    SectionOpens(lines, r, i, q);
    assert r == Front(lines, i, q) + now + LinesAfter(lines, i, q);
  }

  /** Whether formatting loses a block can be told before the edit. */
  lemma EditKeepsBlocks(lines: seq<string>, r: seq<string>, i: nat, q: nat)
    requires ChangesOptionsOnly(lines, r, i, q)
    ensures LosesBlock(r) <==> LosesBlock(lines)
  {
    assert Has(lines, i, q) && Has(r, i, q);
    hide Keeps, Has, LosesBlock, HasContent, OpensNone, HasProject, LinesBefore, LinesAfter, OptionLines, Front, Span;
    var was := PartsBefore(lines, i, q);
    var now := PartsAfter(lines, r, i, q);
    FrontHasProject(lines, i, q);
    ExchangeKeepsBlocks(Front(lines, i, q), was, now, LinesAfter(lines, i, q));
  }

  // ----- No newline -----

  lemma NoneInParts(a: seq<string>, b: seq<string>)
    ensures NoneContains(a + b, '\n') <==> NoneContains(a, '\n') && NoneContains(b, '\n')
  {
    assert forall k :: 0 <= k < |b| ==> b[k] == (a + b)[|a| + k];
    assert forall k :: 0 <= k < |a| ==> a[k] == (a + b)[k];
  }

  lemma {:induction false} IndentIsPart(line: string, c: char)
    requires c !in line
    ensures c !in Indent(line)
  {
    if line != "" && (line[0] == ' ' || line[0] == '\t') { IndentIsPart(line[1..], c); }
  }

  lemma NoneInKey(key: string)
    requires BareKey(key)
    ensures '\n' !in key
  {
  }

  lemma PutHasNoNewline(body: seq<string>, key: string, value: string)
    requires NoneContains(body, '\n') && BareKey(key)
    ensures NoneContains(Put(body, key, Quote(value)), '\n')
  {
    hide TrimSpace, Quote, CommentAt;
    NoneInKey(key);
    QuoteIsNeutral(value);
    var j := KeyIndex(body, key);
    if j < |body| {
      IndentIsPart(body[j], '\n');
      TrimIsTrimmed(body[j][CommentAt(Plain, body[j])..]);
    }
  }

  lemma PartHasNoNewline(lines: seq<string>, lo: nat, hi: nat)
    requires NoneContains(lines, '\n') && lo <= hi <= |lines|
    ensures NoneContains(lines[lo..hi], '\n') && NoneContains(lines[hi..], '\n') && NoneContains(lines[..lo], '\n')
  {
  }

  lemma NewLinesHaveNoNewline(lines: seq<string>, at: nat)
    requires at <= |lines|
    ensures NoneContains(Opener(lines, at), '\n') && NoneContains(Closer(lines, at), '\n')
  {
    hide IsBlank;
    assert '\n' !in OPTIONS_HEADER;
  }

  lemma PartsHaveNoNewline(lines: seq<string>, i: nat, q: nat)
    requires Has(lines, i, q) && NoneContains(lines, '\n')
    ensures NoneContains(LinesBefore(lines, i, q), '\n') && NoneContains(LinesAfter(lines, i, q), '\n')
    ensures NoneContains(BodyOrNew(lines, i, q), '\n')
  {
    hide PlatformAt, PlatformBlocks, ProjectBlocks, SpansOf, Marks, NoneContains, Opener, Closer;
    var p := Span(lines, i, q);
    SpanInBlock(lines, i, q);
    PartHasNoNewline(lines, 0, p.end + 1);
    PartHasNoNewline(lines, p.end + 1, |lines|);
    NewLinesHaveNoNewline(lines, p.end + 1);
    NoneInParts(lines[..p.end + 1], Opener(lines, p.end + 1));
    if p.optionsStart >= 0 {
      PartHasNoNewline(lines, 0, p.optionsStart + 1);
      PartHasNoNewline(lines, p.optionsEnd + 1, |lines|);
      PartHasNoNewline(lines, p.optionsStart + 1, p.optionsEnd + 1);
    }
  }

  /** The edited lines can be written one by one. */
  lemma EditHasNoNewline(lines: seq<string>, r: seq<string>, i: nat, q: nat, publicNext: string, adminNext: string)
    requires Has(lines, i, q) && NoneContains(lines, '\n')
    ensures GroupListsWritten(lines, r, i, q, publicNext, adminNext) ==> NoneContains(r, '\n')
  {
    if GroupListsWritten(lines, r, i, q, publicNext, adminNext) {
      assert Has(r, i, q);
      hide Span, Has, Keeps, Put, Get, Quote, NoneContains, BareKey, LinesBefore, LinesAfter, BodyOrNew, OptionLines;
      var once := Put(BodyOrNew(lines, i, q), PUBLIC_KEY, Quote(publicNext));
      GroupKeysAreBare();
      PartsHaveNoNewline(lines, i, q);
      PutHasNoNewline(BodyOrNew(lines, i, q), PUBLIC_KEY, publicNext);
      PutHasNoNewline(once, ADMIN_KEY, adminNext);
      FileIsItsParts(r, i, q);
      NoneInParts(LinesBefore(r, i, q), OptionLines(r, i, q));
      NoneInParts(LinesBefore(r, i, q) + OptionLines(r, i, q), LinesAfter(r, i, q));
    }
  }
}
