/** The edits of one platform's options through the rebuilt index (config/config.go). */
module TomlConfig {
  import opened Wrappers
  import opened Strings
  import opened TomlLine
  import opened TomlIndex
  import opened TomlSpans
  import opened TomlEdit

  const OPTIONS_HEADER := "[projects.platforms.options]"

  /** The file after its lines from `lo` to `stop` were replaced by `body`. */
  function Spliced(lines: seq<string>, lo: nat, stop: nat, body: seq<string>): (r: seq<string>)
    requires lo <= stop <= |lines|
    ensures |r| == |lines| - (stop - lo) + |body|
  {
    lines[..lo] + body + lines[stop..]
  }

  // ----- How an edit moves the marks -----

  lemma {:induction false} MarksConcat(a: seq<string>, b: seq<string>)
    ensures Marks(a + b) == Marks(a) + Marks(b)
  {
    if a == [] {
      assert a + b == b;
    } else {
      assert (a + b)[1..] == a[1..] + b;
      MarksConcat(a[1..], b);
    }
  }

  lemma KeyLineMark(line: string, key: string)
    requires MatchTomlStringKey(line, key) && BareKey(key) && BareKey("type") && BareKey("name")
    ensures MarkOf(line) == Mark(NoTable, key == "type", key == "name")
  {
    TableOfAny(line);
    if MatchTomlStringKey(line, "type") { OneKeyPerLine(line, key, "type"); }
    if MatchTomlStringKey(line, "name") { OneKeyPerLine(line, key, "name"); }
  }

  lemma IndexedKeysAreBare()
    ensures BareKey("type") && BareKey("name")
  {
  }

  /** The lines that an upsert adds to the file: none when the key is there. */
  function Added(body: seq<string>, key: string, text: string): (r: seq<Mark>)
    ensures |r| == if KeyIndex(body, key) < |body| then 0 else 1
  {
    if KeyIndex(body, key) < |body| then [] else [MarkOf(NewLine(key, text))]
  }

  lemma MarksOfPut(body: seq<string>, key: string, text: string)
    requires BareKey(key) && ValueText(text)
    ensures Marks(Put(body, key, text)) == Marks(body) + Added(body, key, text)
    ensures NoMatch(Added(body, key, text), AnyHeader)
  {
    var j, r := KeyIndex(body, key), Put(body, key, text);
    IndexedKeysAreBare();
    PutLine(body, key, text);
    KeyLineMark(r[j], key);
    if j < |body| {
      KeyLineMark(body[j], key);
      forall i | 0 <= i < |body| ensures Marks(r)[i] == Marks(body)[i] {
        MarksAt(r, i);
        MarksAt(body, i);
      }
    } else {
      MarksConcat(body, [NewLine(key, text)]);
      MarksAt([NewLine(key, text)], 0);
    }
  }

  lemma MarksSplit(lines: seq<string>, k: nat)
    requires k <= |lines|
    ensures Marks(lines)[..k] == Marks(lines[..k]) && Marks(lines)[k..] == Marks(lines[k..])
  {
    MarksConcat(lines[..k], lines[k..]);
    assert lines[..k] + lines[k..] == lines;
  }

  lemma MarksOfSplice(lines: seq<string>, lo: nat, stop: nat, body: seq<string>, block: seq<Mark>)
    requires lo <= stop <= |lines| && Marks(body) == Marks(lines[lo..stop]) + block
    ensures Marks(Spliced(lines, lo, stop, body)) == Inserted(Marks(lines), stop, block)
  {
    hide Marks, MarkOf;
    MarksConcat(lines[..lo] + body, lines[stop..]);
    MarksConcat(lines[..lo], body);
    MarksSplit(lines, stop);
    MarksSplit(lines[..stop], lo);
    assert lines[..stop][..lo] == lines[..lo] && lines[..stop][lo..] == lines[lo..stop];
    JoinedMarks(Marks(lines[..lo]), Marks(lines[lo..stop]), block, Marks(lines[..stop]));
  }

  lemma JoinedMarks(a: seq<Mark>, b: seq<Mark>, block: seq<Mark>, ab: seq<Mark>)
    requires ab == a + b
    ensures a + (b + block) == ab + block
  {
  }

  // ----- One platform's options -----

  ghost predicate Has(lines: seq<string>, i: nat, q: nat) {
    HasPlatform(Marks(lines), i, q)
  }

  ghost function Span(lines: seq<string>, i: nat, q: nat): (p: PlatformSpan)
    requires Has(lines, i, q)
    ensures InFile(lines, p)
  {
    PlatformAt(Marks(lines), i, q)
  }

  ghost predicate InFile(lines: seq<string>, p: PlatformSpan) {
    p.optionsStart == -1 || 0 <= p.optionsStart <= p.optionsEnd < |lines|
  }

  ghost function SectionLines(lines: seq<string>, p: PlatformSpan): seq<string>
    requires InFile(lines, p)
  {
    if p.optionsStart < 0 then [] else lines[p.optionsStart + 1..p.optionsEnd + 1]
  }

  /** The lines under the options header of platform `q` of project `i`; none without such a header. */
  ghost function OptionLines(lines: seq<string>, i: nat, q: nat): seq<string>
    requires Has(lines, i, q)
  {
    SectionLines(lines, Span(lines, i, q))
  }

  ghost predicate SameCounts(lines: seq<string>, r: seq<string>) {
    |ProjectBlocks(Marks(r))| == |ProjectBlocks(Marks(lines))| &&
    forall i :: 0 <= i < |ProjectBlocks(Marks(lines))| ==>
      |PlatformBlocks(Marks(r), i)| == |PlatformBlocks(Marks(lines), i)|
  }

  lemma CountsCompare(a: seq<string>, b: seq<string>, c: seq<string>)
    requires SameCounts(a, b)
    ensures SameCounts(a, c) <==> SameCounts(b, c)
  {
    hide Marks, ProjectBlocks, PlatformBlocks;
  }

  /** Every platform but (i, q) has the option lines it had. */
  ghost predicate OthersKept(lines: seq<string>, r: seq<string>, i: nat, q: nat) {
    forall i2: nat, q2: nat :: (i2 != i || q2 != q) && Has(lines, i2, q2) ==>
      Has(r, i2, q2) && OptionLines(r, i2, q2) == OptionLines(lines, i2, q2)
  }

  /** All lines up to the platform's header and all lines after its block are as they were. */
  ghost predicate SurroundingsKept(lines: seq<string>, r: seq<string>, i: nat, q: nat)
    requires Has(lines, i, q) && Has(r, i, q)
  {
    var b, b' := PlatformBlocks(Marks(lines), i)[q], PlatformBlocks(Marks(r), i)[q];
    b'.start == b.start && r[..b.start + 1] == lines[..b.start + 1] && r[b'.stop..] == lines[b.stop..]
  }

  /** What an edit of one platform's options keeps. */
  ghost predicate Keeps(lines: seq<string>, r: seq<string>, i: nat, q: nat) {
    && Has(lines, i, q) && Has(r, i, q)
    && SameCounts(lines, r)
    && OthersKept(lines, r, i, q)
    && SurroundingsKept(lines, r, i, q)
  }

  lemma KeepsTransitive(a: seq<string>, b: seq<string>, c: seq<string>, i: nat, q: nat)
    ensures Keeps(a, b, i, q) && Keeps(b, c, i, q) ==> Keeps(a, c, i, q)
  {
    hide Marks, ProjectBlocks, PlatformBlocks, OptionLines;
  }

  lemma InsertKeepsCounts(lines: seq<string>, r: seq<string>, at: nat, block: seq<Mark>)
    requires at <= |lines| && Marks(r) == Inserted(Marks(lines), at, block)
    requires NoMatch(block, Header(Projects)) && NoMatch(block, Header(Platforms))
    ensures SameCounts(lines, r)
  {
    hide PlatformBlocks, Marks, Inserted;
    InsertKeepsProjects(Marks(lines), at, block);
    forall i | 0 <= i < |ProjectBlocks(Marks(lines))|
      ensures |PlatformBlocks(Marks(r), i)| == |PlatformBlocks(Marks(lines), i)|
    {
      InsertKeepsCount(Marks(lines), at, block, i);
    }
  }

  lemma InsertKeepsCount(marks: seq<Mark>, at: nat, block: seq<Mark>, i: nat)
    requires at <= |marks| && NoMatch(block, Header(Projects)) && NoMatch(block, Header(Platforms))
    requires i < |ProjectBlocks(marks)|
    ensures i < |ProjectBlocks(Inserted(marks, at, block))|
    ensures |PlatformBlocks(Inserted(marks, at, block), i)| == |PlatformBlocks(marks, i)|
  {
    InsertKeepsPlatforms(marks, at, block, i);
  }

  /** Lines replaced between `lo` and `stop` leave the options of a platform outside these lines alone. */
  lemma OutsideIsKept(lines: seq<string>, lo: nat, stop: nat, body: seq<string>, block: seq<Mark>, i: nat, q: nat)
    requires lo <= stop <= |lines| && Marks(body) == Marks(lines[lo..stop]) + block
    requires NoMatch(block, Header(Projects)) && NoMatch(block, Header(Platforms))
    requires Has(lines, i, q)
    requires PlatformBlocks(Marks(lines), i)[q].stop < lo || stop <= PlatformBlocks(Marks(lines), i)[q].start
    ensures var r := Spliced(lines, lo, stop, body);
            Has(r, i, q) && OptionLines(r, i, q) == OptionLines(lines, i, q)
  {
    hide Spliced, SectionLines, PlatformBlocks, Marks, ShPlatform, ErasePlatform, PlatformOf;
    MarksOfSplice(lines, lo, stop, body, block);
    InsertMovesPlatform(Marks(lines), stop, block, i, q);
    SpanInBlock(lines, i, q);
    assert |body| == stop - lo + |block|;
    SliceKept(lines, lo, stop, body, Span(lines, i, q), Span(Spliced(lines, lo, stop, body), i, q));
  }

  lemma OthersOutside(marks: seq<Mark>, lo: nat, stop: nat, i: nat, q: nat, i2: nat, q2: nat)
    requires HasPlatform(marks, i, q) && HasPlatform(marks, i2, q2) && (i2 != i || q2 != q)
    requires PlatformBlocks(marks, i)[q].start < lo <= stop <= PlatformBlocks(marks, i)[q].stop
    ensures PlatformBlocks(marks, i2)[q2].stop < lo || stop <= PlatformBlocks(marks, i2)[q2].start
  {
    if i < i2 || (i == i2 && q < q2) { PlatformsApart(marks, i, q, i2, q2); } else { PlatformsApart(marks, i2, q2, i, q); }
  }

  lemma SpanInBlock(lines: seq<string>, i: nat, q: nat)
    requires Has(lines, i, q)
    ensures var b, p := PlatformBlocks(Marks(lines), i)[q], Span(lines, i, q);
            b.start < b.stop <= |lines| && p.start == b.start && p.end == b.stop - 1 &&
            (p.optionsStart == -1 || b.start < p.optionsStart <= p.optionsEnd < b.stop)
  {
  }

  lemma SliceKept(lines: seq<string>, lo: nat, stop: nat, body: seq<string>, p: PlatformSpan, p': PlatformSpan)
    requires lo <= stop <= |lines| && |body| >= stop - lo && InFile(lines, p)
    requires p.optionsStart >= 0 ==> p.optionsEnd + 1 < lo || stop <= p.optionsStart
    requires ErasePlatform(p') == ShPlatform(p, stop, |body| - (stop - lo))
    ensures InFile(Spliced(lines, lo, stop, body), p')
    ensures SectionLines(Spliced(lines, lo, stop, body), p') == SectionLines(lines, p)
  {
    var r, k := Spliced(lines, lo, stop, body), |body| - (stop - lo);
    if p.optionsStart >= 0 {
      if stop <= p.optionsStart {
        SpliceTail(lines, lo, stop, body, p.optionsStart + 1, p.optionsEnd + 1);
      } else {
        assert p'.optionsStart == p.optionsStart && p'.optionsEnd == p.optionsEnd;
        assert r[..lo] == lines[..lo];
      }
    }
  }

  lemma SpliceTail(lines: seq<string>, lo: nat, stop: nat, body: seq<string>, x: nat, y: nat)
    requires lo <= stop <= x <= y <= |lines| && |body| >= stop - lo
    ensures var r, k := Spliced(lines, lo, stop, body), |body| - (stop - lo);
            r[x + k..y + k] == lines[x..y]
  {
  }

  /** An edit inside one platform block, below its header, keeps everything that is not that platform's. */
  lemma EditKeeps(lines: seq<string>, lo: nat, stop: nat, body: seq<string>, block: seq<Mark>, i: nat, q: nat)
    requires lo <= stop <= |lines| && Marks(body) == Marks(lines[lo..stop]) + block
    requires NoMatch(block, Header(Projects)) && NoMatch(block, Header(Platforms))
    requires Has(lines, i, q)
    requires PlatformBlocks(Marks(lines), i)[q].start < lo && stop <= PlatformBlocks(Marks(lines), i)[q].stop
    ensures Keeps(lines, Spliced(lines, lo, stop, body), i, q)
  {
    hide Spliced, Marks, OptionLines, PlatformBlocks, SameCounts, NoMatch;
    var r := Spliced(lines, lo, stop, body);
    assert |body| == stop - lo + |block|;
    MarksOfSplice(lines, lo, stop, body, block);
    InsertKeepsCounts(lines, r, stop, block);
    PlatformMoves(Marks(lines), stop, block, i, q);
    forall i2: nat, q2: nat | (i2 != i || q2 != q) && Has(lines, i2, q2)
      ensures Has(r, i2, q2) && OptionLines(r, i2, q2) == OptionLines(lines, i2, q2)
    {
      OthersOutside(Marks(lines), lo, stop, i, q, i2, q2);
      OutsideIsKept(lines, lo, stop, body, block, i2, q2);
    }
    SpanInBlock(lines, i, q);
    SpliceEnds(lines, lo, stop, body, PlatformBlocks(Marks(lines), i)[q].start + 1, PlatformBlocks(Marks(lines), i)[q].stop);
  }

  lemma SpliceEnds(lines: seq<string>, lo: nat, stop: nat, body: seq<string>, x: nat, y: nat)
    requires x <= lo <= stop <= y <= |lines| && |body| >= stop - lo
    ensures var r, k := Spliced(lines, lo, stop, body), |body| - (stop - lo);
            r[..x] == lines[..x] && r[y + k..] == lines[y..]
  {
  }

  function BlankIf(b: bool): (r: seq<string>)
    ensures |r| == if b then 1 else 0
  {
    if b then [""] else []
  }

  /** The options header, with a blank line before it where one is missing. */
  function Opener(lines: seq<string>, at: nat): seq<string>
    requires at <= |lines|
  {
    BlankIf(at > 0 && !IsBlank(lines[at - 1])) + [OPTIONS_HEADER]
  }

  /** The blank line after a new options header, where one is missing. */
  function Closer(lines: seq<string>, at: nat): (r: seq<string>)
    requires at <= |lines|
    ensures |r| <= 1
  {
    BlankIf(at < |lines| && !IsBlank(lines[at]))
  }

  // ----- All lines but one platform's options -----

  /** The lines up to the options header; a platform without one gets it at its end. */
  ghost function LinesBefore(lines: seq<string>, i: nat, q: nat): seq<string>
    requires Has(lines, i, q)
  {
    SpanInBlock(lines, i, q);
    var p := Span(lines, i, q);
    if p.optionsStart < 0 then lines[..p.end + 1] + Opener(lines, p.end + 1) else lines[..p.optionsStart + 1]
  }

  ghost function LinesAfter(lines: seq<string>, i: nat, q: nat): seq<string>
    requires Has(lines, i, q)
  {
    SpanInBlock(lines, i, q);
    var p := Span(lines, i, q);
    if p.optionsStart < 0 then lines[p.end + 1..] else lines[p.optionsEnd + 1..]
  }

  /** The lines of the options section; a new one starts with at most a blank line. */
  ghost function BodyOrNew(lines: seq<string>, i: nat, q: nat): seq<string>
    requires Has(lines, i, q)
  {
    SpanInBlock(lines, i, q);
    var p := Span(lines, i, q);
    if p.optionsStart < 0 then Closer(lines, p.end + 1) else OptionLines(lines, i, q)
  }

  /** The edit keeps the index and, in order, every line that is not under the platform's options header. */
  ghost predicate ChangesOptionsOnly(lines: seq<string>, r: seq<string>, i: nat, q: nat) {
    && Keeps(lines, r, i, q)
    && Span(r, i, q).optionsStart >= 0
    && LinesBefore(r, i, q) == LinesBefore(lines, i, q)
    && LinesAfter(r, i, q) == LinesAfter(lines, i, q)
  }

  /** With an options section the file is the lines before it, its lines, and the lines after it. */
  lemma FileIsItsParts(lines: seq<string>, i: nat, q: nat)
    requires Has(lines, i, q) && Span(lines, i, q).optionsStart >= 0
    ensures lines == LinesBefore(lines, i, q) + OptionLines(lines, i, q) + LinesAfter(lines, i, q)
  {
    hide PlatformAt, Marks;
  }

  lemma ChangesOptionsOnlyTransitive(a: seq<string>, b: seq<string>, c: seq<string>, i: nat, q: nat)
    ensures ChangesOptionsOnly(a, b, i, q) && ChangesOptionsOnly(b, c, i, q) ==> ChangesOptionsOnly(a, c, i, q)
  {
    hide LinesBefore, LinesAfter;
    KeepsTransitive(a, b, c, i, q);
  }

  // ----- Upserting a key of one platform's options -----

  /** The file after key `key` of a platform with an options section was set to the value text `text`. */
  ghost function WithOption(lines: seq<string>, i: nat, q: nat, key: string, text: string): seq<string>
    requires Has(lines, i, q)
  {
    var p := Span(lines, i, q);
    Upserted(lines, p.optionsStart + 1, p.optionsEnd, key, text)
  }

  lemma WithOptionIsSplice(lines: seq<string>, i: nat, q: nat, key: string, text: string)
    requires Has(lines, i, q) && Span(lines, i, q).optionsStart >= 0
    ensures var p := Span(lines, i, q);
            && OptionLines(lines, i, q) == lines[p.optionsStart + 1..p.optionsEnd + 1]
            && WithOption(lines, i, q, key, text) ==
               Spliced(lines, p.optionsStart + 1, p.optionsEnd + 1, Put(OptionLines(lines, i, q), key, text))
  {
    hide Upserted, Spliced, Put, PlatformAt, Marks;
    var p := Span(lines, i, q);
    UpsertedIsSplice(lines, p.optionsStart + 1, p.optionsEnd + 1, key, text);
  }

  lemma UpsertedIsSplice(lines: seq<string>, lo: nat, stop: nat, key: string, text: string)
    requires lo <= stop <= |lines|
    ensures Upserted(lines, lo, stop - 1, key, text) == Spliced(lines, lo, stop, Put(lines[lo..stop], key, text))
  {
    hide Put;
  }

  /**
   The edit is a lens on (project, platform, key): the platform's option lines become Put of what they were,
   and nothing else in the file or its index changes.
   */
  lemma UpsertIsLens(lines: seq<string>, i: nat, q: nat, key: string, text: string)
    requires Has(lines, i, q) && Span(lines, i, q).optionsStart >= 0 && BareKey(key) && ValueText(text)
    ensures var r := WithOption(lines, i, q, key, text);
            && Has(r, i, q) && ChangesOptionsOnly(lines, r, i, q)
            && Span(r, i, q).optionsStart == Span(lines, i, q).optionsStart
            && OptionLines(r, i, q) == Put(OptionLines(lines, i, q), key, text)
  {
    hide Spliced, Put, PlatformBlocks, PlatformAt, PlatformOf, Keeps, Added, Upserted, SectionLines, WithOption, Marks;
    var p, body := Span(lines, i, q), OptionLines(lines, i, q);
    var block := Added(body, key, text);
    WithOptionIsSplice(lines, i, q, key, text);
    MarksOfPut(body, key, text);
    SpanInBlock(lines, i, q);
    PlainMatchesNothing(block, Header(Projects));
    PlainMatchesNothing(block, Header(Platforms));
    EditKeeps(lines, p.optionsStart + 1, p.optionsEnd + 1, Put(body, key, text), block, i, q);
    OwnLines(lines, i, q, Put(body, key, text), block);
    RestOfSplice(lines, WithOption(lines, i, q, key, text), i, q, Put(body, key, text));
  }

  lemma RestOfSplice(lines: seq<string>, r: seq<string>, i: nat, q: nat, body: seq<string>)
    requires Has(lines, i, q) && Span(lines, i, q).optionsStart >= 0 && Has(r, i, q)
    requires var p := Span(lines, i, q); r == Spliced(lines, p.optionsStart + 1, p.optionsEnd + 1, body)
    requires Span(r, i, q).optionsStart == Span(lines, i, q).optionsStart && OptionLines(r, i, q) == body
    ensures LinesBefore(r, i, q) == LinesBefore(lines, i, q) && LinesAfter(r, i, q) == LinesAfter(lines, i, q)
  {
    hide PlatformAt, Marks;
    var p, p' := Span(lines, i, q), Span(r, i, q);
    assert |body| == p'.optionsEnd - p'.optionsStart;
    assert r[..p.optionsStart + 1] == lines[..p.optionsStart + 1];
    assert r[p.optionsStart + 1 + |body|..] == lines[p.optionsEnd + 1..];
  }

  lemma OwnLines(lines: seq<string>, i: nat, q: nat, body: seq<string>, block: seq<Mark>)
    requires Has(lines, i, q) && Span(lines, i, q).optionsStart >= 0
    ensures NoMatch(block, AnyHeader) && Marks(body) == Marks(OptionLines(lines, i, q)) + block ==>
              var p := Span(lines, i, q);
              var r := Spliced(lines, p.optionsStart + 1, p.optionsEnd + 1, body);
              Has(r, i, q) && Span(r, i, q).optionsStart == p.optionsStart && OptionLines(r, i, q) == body
  {
    hide Marks, PlatformBlocks, PlatformOf, ProjectBlocks, NoMatch;
    if NoMatch(block, AnyHeader) && Marks(body) == Marks(OptionLines(lines, i, q)) + block {
      var p := Span(lines, i, q);
      MarksOfSplice(lines, p.optionsStart + 1, p.optionsEnd + 1, body, block);
      PlainMatchesNothing(block, Header(Projects));
      PlainMatchesNothing(block, Header(Platforms));
      InsertMovesPlatform(Marks(lines), p.optionsEnd + 1, block, i, q);
    }
  }

  /** Put-get, other keys, and put-put on the whole file. */
  lemma OptionsAreALens(lines: seq<string>, i: nat, q: nat, key: string, first: string, second: string, other: string)
    requires Has(lines, i, q) && Span(lines, i, q).optionsStart >= 0
    requires BareKey(key) && ValueText(first) && ValueText(second) && BareKey(other) && other != key
    ensures var r := WithOption(lines, i, q, key, first);
            && Has(r, i, q) && Span(r, i, q).optionsStart >= 0
            && Get(OptionLines(r, i, q), key) == Some(first)
            && Get(OptionLines(r, i, q), other) == Get(OptionLines(lines, i, q), other)
            && WithOption(r, i, q, key, second) == WithOption(lines, i, q, key, second)
  {
    hide Get, Put, Keeps, Spliced, WithOption, SectionLines, PlatformAt, Marks, BareKey, ValueText, Upserted;
    var body := OptionLines(lines, i, q);
    UpsertIsLens(lines, i, q, key, first);
    PutGet(body, key, first);
    PutOther(body, key, first, other);
    PutPut(body, key, first, second);
    var r := WithOption(lines, i, q, key, first);
    WithOptionIsSplice(lines, i, q, key, first);
    WithOptionIsSplice(lines, i, q, key, second);
    WithOptionIsSplice(r, i, q, key, second);
    var p := Span(lines, i, q);
    SplicedTwice(lines, p.optionsStart + 1, p.optionsEnd + 1, Put(body, key, first), Put(body, key, second));
  }

  lemma SplicedTwice(lines: seq<string>, lo: nat, stop: nat, first: seq<string>, second: seq<string>)
    requires lo <= stop <= |lines|
    ensures Spliced(Spliced(lines, lo, stop, first), lo, lo + |first|, second) == Spliced(lines, lo, stop, second)
  {
    var r := Spliced(lines, lo, stop, first);
    assert r[..lo] == lines[..lo] && r[lo + |first|..] == lines[stop..];
  }
}
