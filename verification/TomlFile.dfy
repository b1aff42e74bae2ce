/** Text to lines and back, and the keys of a project's own table (config/config.go). */
module TomlFile {
  import opened Strings
  import opened TomlLine
  import opened TomlIndex
  import opened TomlSpans
  import opened TomlEdit
  import opened TomlConfig

  // ----- splitConfigLines and joinConfigLines -----

  predicate EndsWithNewline(s: string) {
    s != "" && s[|s| - 1] == '\n'
  }

  function SplitConfigLines(raw: string): (seq<string>, bool) {
    if raw == "" then ([], false)
    else
      var hadTrailing := EndsWithNewline(raw);
      var text := if hadTrailing then raw[..|raw| - 1] else raw;
      if text == "" then ([], hadTrailing) else (Split(text, '\n'), hadTrailing)
  }

  function JoinConfigLines(lines: seq<string>, hadTrailing: bool): string {
    var out := Join(lines, '\n');
    if hadTrailing || |lines| > 0 then out + "\n" else out
  }

  /** Splitting and joining gives the text back, with a newline added when the last line had none. */
  lemma JoinOfSplit(raw: string)
    ensures var (lines, hadTrailing) := SplitConfigLines(raw);
            JoinConfigLines(lines, hadTrailing) == if raw == "" || EndsWithNewline(raw) then raw else raw + "\n"
  {
    var text := if EndsWithNewline(raw) then raw[..|raw| - 1] else raw;
    JoinSplit(text, '\n');
    if EndsWithNewline(raw) { assert raw == text + "\n"; }
  }

  /** Joining and splitting gives the lines back, except that a file of one empty line becomes a file of none. */
  lemma SplitOfJoin(lines: seq<string>, hadTrailing: bool)
    requires NoneContains(lines, '\n')
    ensures SplitConfigLines(JoinConfigLines(lines, hadTrailing)).0 == lines <==> lines != [""]
  {
    if lines != [] {
      var text := Join(lines, '\n');
      var raw := JoinConfigLines(lines, hadTrailing);
      assert raw[|raw| - 1] == '\n' && raw[..|raw| - 1] == text;
      SplitJoin(lines, '\n');
    }
  }

  // ----- upsertProjectStringKey -----

  /** The lines of a project before its first sub-table. */
  function TableStop(marks: seq<Mark>, i: nat): (r: nat)
    requires i < |ProjectBlocks(marks)|
    ensures ProjectBlocks(marks)[i].start < r <= ProjectBlocks(marks)[i].stop
  {
    SectionStop(marks, ProjectBlocks(marks)[i].start, ProjectBlocks(marks)[i].stop)
  }

  ghost function ProjectLines(lines: seq<string>, i: nat): seq<string>
    requires i < |ProjectBlocks(Marks(lines))|
  {
    lines[ProjectBlocks(Marks(lines))[i].start + 1..TableStop(Marks(lines), i)]
  }

  ghost function WithProjectKey(lines: seq<string>, i: nat, key: string, text: string): seq<string>
    requires i < |ProjectBlocks(Marks(lines))|
  {
    Upserted(lines, ProjectBlocks(Marks(lines))[i].start + 1, TableStop(Marks(lines), i) - 1, key, text)
  }

  method UpsertProjectStringKey(lines: seq<string>, projectIdx: int, key: string, value: string) returns (r: seq<string>)
    ensures r == if 0 <= projectIdx < |ProjectBlocks(Marks(lines))|
                 then WithProjectKey(lines, projectIdx, key, Quote(value)) else lines
  {
    hide Upserted, Quote, Marks, SpansOf, Blocks;
    var spans := BuildRawProjectSpans(lines);
    CountsInIndex(Marks(lines), 0);
    if projectIdx < 0 || projectIdx >= |spans| {
      return lines;
    }
    SpanBounds(Marks(lines), projectIdx);
    MarksDescribe(lines);
    var start := spans[projectIdx].start;
    var end := FindSectionEnd(lines, Marks(lines), start, spans[projectIdx].end);
    r := UpsertTomlStringKey(lines, start + 1, end, key, value);
  }

  lemma TableIsOutsidePlatforms(marks: seq<Mark>, i: nat, i2: nat, q2: nat)
    requires i < |ProjectBlocks(marks)| && HasPlatform(marks, i2, q2)
    ensures var b, p := PlatformBlocks(marks, i2)[q2], ProjectBlocks(marks)[i];
            b.stop < p.start + 1 || TableStop(marks, i) <= b.start
  {
    var p, p2, b := ProjectBlocks(marks)[i], ProjectBlocks(marks)[i2], PlatformBlocks(marks, i2)[q2];
    BlockHeader(marks, Platforms, p2.start + 1, p2.stop, q2);
    if i2 < i {
      BlocksOrdered(marks, Projects, 0, |marks|, i2, i);
    } else if i < i2 {
      BlocksOrdered(marks, Projects, 0, |marks|, i, i2);
    } else {
      FirstSkips(marks, AnyHeader, p.start + 1, p.stop);
      assert Matches(marks[b.start], AnyHeader);
    }
  }

  /** The lines up to a project's header, and those from its first sub-table on. */
  ghost function AroundTable(lines: seq<string>, i: nat): (seq<string>, seq<string>)
    requires i < |ProjectBlocks(Marks(lines))|
  {
    (lines[..ProjectBlocks(Marks(lines))[i].start + 1], lines[TableStop(Marks(lines), i)..])
  }

  /** Setting a key of a project changes that project's own table, no line outside it, and no platform's options. */
  lemma ProjectKeyIsLens(lines: seq<string>, i: nat, key: string, text: string)
    requires i < |ProjectBlocks(Marks(lines))| && BareKey(key) && ValueText(text)
    ensures var r := WithProjectKey(lines, i, key, text);
            && SameCounts(lines, r)
            && ProjectLines(r, i) == Put(ProjectLines(lines, i), key, text)
            && AroundTable(r, i) == AroundTable(lines, i)
            && (forall i2: nat, q2: nat :: Has(lines, i2, q2) ==>
                  Has(r, i2, q2) && OptionLines(r, i2, q2) == OptionLines(lines, i2, q2))
  {
    hide Put, Added, WithProjectKey, ProjectLines, AroundTable, Spliced, PlatformBlocks, PlatformAt, Marks, TableStop;
    var marks, body := Marks(lines), ProjectLines(lines, i);
    var lo, stop := ProjectBlocks(marks)[i].start + 1, TableStop(marks, i);
    var block, newBody := Added(body, key, text), Put(body, key, text);
    var r := Spliced(lines, lo, stop, newBody);
    ProjectKeySplice(lines, i, key, text);
    MarksOfPut(body, key, text);
    PlainMatchesNothing(block, Header(Projects));
    PlainMatchesNothing(block, Header(Platforms));
    MarksOfSplice(lines, lo, stop, newBody, block);
    InsertKeepsCounts(lines, r, stop, block);
    ProjectLinesMove(lines, i, newBody, block);
    forall i2: nat, q2: nat | Has(lines, i2, q2)
      ensures Has(r, i2, q2) && OptionLines(r, i2, q2) == OptionLines(lines, i2, q2)
    {
      TableIsOutsidePlatforms(marks, i, i2, q2);
      OutsideIsKept(lines, lo, stop, newBody, block, i2, q2);
    }
  }

  lemma ProjectKeySplice(lines: seq<string>, i: nat, key: string, text: string)
    requires i < |ProjectBlocks(Marks(lines))|
    ensures var lo, stop := ProjectBlocks(Marks(lines))[i].start + 1, TableStop(Marks(lines), i);
            && ProjectLines(lines, i) == lines[lo..stop]
            && WithProjectKey(lines, i, key, text) == Spliced(lines, lo, stop, Put(ProjectLines(lines, i), key, text))
  {
    hide Put, TableStop, Upserted, Spliced, Marks;
    UpsertedIsSplice(lines, ProjectBlocks(Marks(lines))[i].start + 1, TableStop(Marks(lines), i), key, text);
  }

  lemma ProjectLinesMove(lines: seq<string>, i: nat, body: seq<string>, block: seq<Mark>)
    requires i < |ProjectBlocks(Marks(lines))| && NoMatch(block, AnyHeader)
    requires Marks(body) == Marks(ProjectLines(lines, i)) + block
    ensures var lo, stop := ProjectBlocks(Marks(lines))[i].start + 1, TableStop(Marks(lines), i);
            var r := Spliced(lines, lo, stop, body);
            i < |ProjectBlocks(Marks(r))| && ProjectLines(r, i) == body && AroundTable(r, i) == AroundTable(lines, i)
  {
    hide Marks, Spliced, ProjectBlocks;
    var marks := Marks(lines);
    var b, stop := ProjectBlocks(marks)[i], TableStop(marks, i);
    SpliceMiddle(lines, b.start + 1, stop, body);
    MarksOfSplice(lines, b.start + 1, stop, body, block);
    PlainMatchesNothing(block, Header(Projects));
    ProjectBlockAt(marks, stop, block, i);
    FirstShifts(marks, stop, block, AnyHeader, b.start, b.stop);
  }

  lemma SpliceMiddle(lines: seq<string>, lo: nat, stop: nat, body: seq<string>)
    requires lo <= stop <= |lines|
    ensures var r := Spliced(lines, lo, stop, body);
            r[lo..lo + |body|] == body && r[..lo] == lines[..lo] && r[lo + |body|..] == lines[stop..]
  {
  }
}
