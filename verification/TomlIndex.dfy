/**
 The line index of the configuration file as a function of what each line is (config/config.go,
 buildRawProjectSpans), its soundness, and how it moves when lines are inserted.
 */
module TomlIndex {

  /** The table headers the index looks for; every other line that starts with '[' is OtherTable. */
  datatype Table = NoTable | OtherTable | Projects | Platforms | Options | Agent | AgentOptions | Providers

  /** What the index sees of a line. */
  datatype Mark = Mark(table: Table, typeKey: bool, nameKey: bool)

  datatype Pattern = AnyHeader | Header(table: Table) | TypeKey | NameKey

  predicate Matches(m: Mark, p: Pattern) {
    match p
    case AnyHeader => m.table != NoTable
    case Header(t) => m.table == t
    case TypeKey => m.typeKey
    case NameKey => m.nameKey
  }

  // Bounds are inclusive and -1 marks an absent section, as in the source.
  datatype PlatformSpan = PlatformSpan(start: int, end: int, typeLine: int, optionsStart: int, optionsEnd: int)
  datatype ProviderSpan = ProviderSpan(start: int, end: int, nameLine: int)
  datatype ProjectSpan = ProjectSpan(
    start: int, end: int, platforms: seq<PlatformSpan>,
    agentStart: int, agentEnd: int, agentOptionsStart: int, agentOptionsEnd: int,
    agentProviders: seq<ProviderSpan>)

  /** First line in [lo, stop) that matches, or stop. */
  function First(marks: seq<Mark>, p: Pattern, lo: nat, stop: nat): (r: nat)
    requires lo <= stop <= |marks|
    ensures lo <= r <= stop
    ensures r < stop ==> Matches(marks[r], p)
    decreases stop - lo
  {
    if lo == stop || Matches(marks[lo], p) then lo else First(marks, p, lo + 1, stop)
  }

  lemma {:induction false} FirstSkips(marks: seq<Mark>, p: Pattern, lo: nat, stop: nat)
    requires lo <= stop <= |marks|
    ensures forall j :: lo <= j < First(marks, p, lo, stop) ==> !Matches(marks[j], p)
    decreases stop - lo
  {
    if lo < stop && !Matches(marks[lo], p) { FirstSkips(marks, p, lo + 1, stop); }
  }

  /** First is the only line with its property. */
  lemma {:induction false} FirstIs(marks: seq<Mark>, p: Pattern, lo: nat, stop: nat, r: nat)
    requires lo <= r <= stop <= |marks| && (r < stop ==> Matches(marks[r], p))
    requires forall j :: lo <= j < r ==> !Matches(marks[j], p)
    ensures First(marks, p, lo, stop) == r
    decreases r - lo
  {
    if lo < r { FirstIs(marks, p, lo + 1, stop, r); }
  }

  /** All lines in [lo, stop) that match, in order. */
  function All(marks: seq<Mark>, p: Pattern, lo: nat, stop: nat): (r: seq<nat>)
    requires lo <= stop <= |marks|
    ensures forall i :: 0 <= i < |r| ==> lo <= r[i] < stop && Matches(marks[r[i]], p)
    decreases stop - lo
  {
    if lo == stop then []
    else (if Matches(marks[lo], p) then [lo] else []) + All(marks, p, lo + 1, stop)
  }

  function FirstOrNone(marks: seq<Mark>, p: Pattern, lo: nat, stop: nat): int
    requires lo <= stop <= |marks|
  {
    var r := First(marks, p, lo, stop);
    if r < stop then r else -1
  }

  /** The lines from a header up to the next header of the same kind. */
  datatype Block = Block(start: nat, stop: nat)

  ghost predicate IsBlock(marks: seq<Mark>, t: Table, b: Block, lo: nat, stop: nat) {
    && lo <= b.start < b.stop <= stop <= |marks|
    && marks[b.start].table == t
    && (forall j :: b.start < j < b.stop ==> marks[j].table != t)
  }

  predicate BlocksIn(marks: seq<Mark>, blocks: seq<Block>) {
    forall i :: 0 <= i < |blocks| ==> blocks[i].start < blocks[i].stop <= |marks|
  }

  function BlocksFrom(marks: seq<Mark>, t: Table, s: nat, stop: nat): (r: seq<Block>)
    requires s < stop <= |marks| && marks[s].table == t
    ensures |r| > 0 && r[0].start == s && BlocksIn(marks, r)
    decreases stop - s
  {
    var next := First(marks, Header(t), s + 1, stop);
    if next == stop then [Block(s, stop)] else [Block(s, next)] + BlocksFrom(marks, t, next, stop)
  }

  function Blocks(marks: seq<Mark>, t: Table, lo: nat, stop: nat): (r: seq<Block>)
    requires lo <= stop <= |marks|
    ensures BlocksIn(marks, r)
  {
    var s := First(marks, Header(t), lo, stop);
    if s == stop then [] else BlocksFrom(marks, t, s, stop)
  }

  /** Where the section opened by the header at `at` stops: before the next header, at most at `stop`. */
  function SectionStop(marks: seq<Mark>, at: nat, stop: nat): (r: nat)
    requires at < stop <= |marks|
    ensures at < r <= stop
  {
    First(marks, AnyHeader, at + 1, stop)
  }

  function EndOf(marks: seq<Mark>, at: int, stop: nat): int
    requires -1 <= at < stop <= |marks|
  {
    if at < 0 then -1 else SectionStop(marks, at, stop) - 1
  }

  function PlatformOf(marks: seq<Mark>, start: nat, stop: nat): (r: PlatformSpan)
    requires start < stop <= |marks|
    ensures r.optionsStart == -1 || start < r.optionsStart <= r.optionsEnd < stop
  {
    var options := FirstOrNone(marks, Header(Options), start + 1, stop);
    PlatformSpan(start, stop - 1, FirstOrNone(marks, TypeKey, start + 1, SectionStop(marks, start, stop)),
                 options, EndOf(marks, options, stop))
  }

  function ProviderOf(marks: seq<Mark>, start: nat, stop: nat): ProviderSpan
    requires start < stop <= |marks|
  {
    var end := SectionStop(marks, start, stop);
    ProviderSpan(start, end - 1, FirstOrNone(marks, NameKey, start + 1, end))
  }

  function PlatformsIn(marks: seq<Mark>, blocks: seq<Block>, n: nat): (r: seq<PlatformSpan>)
    requires BlocksIn(marks, blocks) && n <= |blocks|
    ensures |r| == n
  {
    if n == 0 then [] else PlatformsIn(marks, blocks, n - 1) + [PlatformOf(marks, blocks[n - 1].start, blocks[n - 1].stop)]
  }

  lemma {:induction false} PlatformsInAt(marks: seq<Mark>, blocks: seq<Block>, n: nat, i: nat)
    requires BlocksIn(marks, blocks) && i < n <= |blocks|
    ensures PlatformsIn(marks, blocks, n)[i] == PlatformOf(marks, blocks[i].start, blocks[i].stop)
  {
    if i < n - 1 { PlatformsInAt(marks, blocks, n - 1, i); }
  }

  function PlatformsOf(marks: seq<Mark>, start: nat, stop: nat): (r: seq<PlatformSpan>)
    requires start < stop <= |marks|
    ensures |r| == |Blocks(marks, Platforms, start + 1, stop)|
  {
    var blocks := Blocks(marks, Platforms, start + 1, stop);
    PlatformsIn(marks, blocks, |blocks|)
  }

  function ProvidersIn(marks: seq<Mark>, lo: nat, hi: nat, stop: nat): seq<ProviderSpan>
    requires lo <= hi <= stop <= |marks|
    decreases hi - lo
  {
    if lo == hi then []
    else ProvidersIn(marks, lo, hi - 1, stop) +
         if marks[hi - 1].table == Providers then [ProviderOf(marks, hi - 1, stop)] else []
  }

  datatype Section = Section(start: int, end: int)

  /** The last section opened by a header `t` in [lo, hi). */
  function LastSection(marks: seq<Mark>, t: Table, lo: nat, hi: nat, stop: nat): Section
    requires lo <= hi <= stop <= |marks|
    decreases hi - lo
  {
    if lo == hi then Section(-1, -1)
    else if marks[hi - 1].table == t then Section(hi - 1, SectionStop(marks, hi - 1, stop) - 1)
    else LastSection(marks, t, lo, hi - 1, stop)
  }

  function ProjectOf(marks: seq<Mark>, start: nat, stop: nat): ProjectSpan
    requires start < stop <= |marks|
  {
    var agent := LastSection(marks, Agent, start + 1, stop, stop);
    var options := LastSection(marks, AgentOptions, start + 1, stop, stop);
    ProjectSpan(start, stop - 1, PlatformsOf(marks, start, stop),
                agent.start, agent.end, options.start, options.end, ProvidersIn(marks, start + 1, stop, stop))
  }

  function ProjectsIn(marks: seq<Mark>, blocks: seq<Block>, n: nat): (r: seq<ProjectSpan>)
    requires BlocksIn(marks, blocks) && n <= |blocks|
    ensures |r| == n
  {
    if n == 0 then [] else ProjectsIn(marks, blocks, n - 1) + [ProjectOf(marks, blocks[n - 1].start, blocks[n - 1].stop)]
  }

  lemma {:induction false} ProjectsInAt(marks: seq<Mark>, blocks: seq<Block>, n: nat, i: nat)
    requires BlocksIn(marks, blocks) && i < n <= |blocks|
    ensures ProjectsIn(marks, blocks, n)[i] == ProjectOf(marks, blocks[i].start, blocks[i].stop)
  {
    if i < n - 1 { ProjectsInAt(marks, blocks, n - 1, i); }
  }

  /** The index of the file: one span per `[[projects]]` header. */
  function SpansOf(marks: seq<Mark>): (r: seq<ProjectSpan>)
    ensures |r| == |Blocks(marks, Projects, 0, |marks|)|
  {
    var blocks := Blocks(marks, Projects, 0, |marks|);
    ProjectsIn(marks, blocks, |blocks|)
  }

  lemma {:induction false} AllSnoc(marks: seq<Mark>, p: Pattern, lo: nat, hi: nat)
    requires lo <= hi < |marks|
    ensures All(marks, p, lo, hi + 1) == All(marks, p, lo, hi) + if Matches(marks[hi], p) then [hi] else []
    decreases hi - lo
  {
    if lo < hi { AllSnoc(marks, p, lo + 1, hi); }
  }

  /** The collected header lines are the starts of the blocks. */
  lemma {:induction false} StartsFrom(marks: seq<Mark>, t: Table, s: nat, stop: nat)
    requires s < stop <= |marks| && marks[s].table == t
    ensures All(marks, Header(t), s, stop) == StartsIn(BlocksFrom(marks, t, s, stop))
    decreases stop - s
  {
    var next := First(marks, Header(t), s + 1, stop);
    FirstSkips(marks, Header(t), s + 1, stop);
    AllSkip(marks, Header(t), s + 1, next, stop);
    if next < stop {
      StartsFrom(marks, t, next, stop);
      assert ([Block(s, next)] + BlocksFrom(marks, t, next, stop))[1..] == BlocksFrom(marks, t, next, stop);
    }
  }

  function StartsIn(blocks: seq<Block>): (r: seq<nat>)
    ensures |r| == |blocks|
  {
    if blocks == [] then [] else [blocks[0].start] + StartsIn(blocks[1..])
  }

  lemma {:induction false} StartsInAt(blocks: seq<Block>, i: nat)
    requires i < |blocks|
    ensures StartsIn(blocks)[i] == blocks[i].start
  {
    if i > 0 { StartsInAt(blocks[1..], i - 1); }
  }

  lemma {:induction false} AllSkip(marks: seq<Mark>, p: Pattern, lo: nat, mid: nat, stop: nat)
    requires lo <= mid <= stop <= |marks|
    requires forall j :: lo <= j < mid ==> !Matches(marks[j], p)
    ensures All(marks, p, lo, stop) == All(marks, p, mid, stop)
    decreases mid - lo
  {
    if lo < mid { AllSkip(marks, p, lo + 1, mid, stop); }
  }

  lemma StartsOfBlocks(marks: seq<Mark>, t: Table, lo: nat, stop: nat)
    requires lo <= stop <= |marks|
    ensures All(marks, Header(t), lo, stop) == StartsIn(Blocks(marks, t, lo, stop))
  {
    var s := First(marks, Header(t), lo, stop);
    FirstSkips(marks, Header(t), lo, stop);
    AllSkip(marks, Header(t), lo, s, stop);
    if s < stop { StartsFrom(marks, t, s, stop); }
  }

  lemma StartsOfBlock(marks: seq<Mark>, t: Table, lo: nat, stop: nat, i: nat)
    requires lo <= stop <= |marks| && i < |Blocks(marks, t, lo, stop)|
    ensures var starts, b := All(marks, Header(t), lo, stop), Blocks(marks, t, lo, stop)[i];
            && |starts| == |Blocks(marks, t, lo, stop)| && starts[i] == b.start
            && b.stop == (if i + 1 < |starts| then starts[i + 1] else stop)
  {
    var blocks := Blocks(marks, t, lo, stop);
    StartsOfBlocks(marks, t, lo, stop);
    StartsInAt(blocks, i);
    if i + 1 < |blocks| { StartsInAt(blocks, i + 1); }
    BlocksTile(marks, t, lo, stop, i);
  }

  // ----- The index is sound -----

  /** Blocks tile the range from the first header on; inside a block there is no further header. */
  lemma {:induction false} BlocksFromTile(marks: seq<Mark>, t: Table, s: nat, stop: nat, i: nat)
    requires s < stop <= |marks| && marks[s].table == t && i < |BlocksFrom(marks, t, s, stop)|
    ensures var r := BlocksFrom(marks, t, s, stop);
            && IsBlock(marks, t, r[i], s, stop)
            && r[i].stop == (if i + 1 < |r| then r[i + 1].start else stop)
    decreases stop - s
  {
    var next := First(marks, Header(t), s + 1, stop);
    FirstSkips(marks, Header(t), s + 1, stop);
    forall j | s < j < next ensures marks[j].table != t { assert !Matches(marks[j], Header(t)); }
    if i > 0 { BlocksFromTile(marks, t, next, stop, i - 1); }
  }

  lemma BlocksTile(marks: seq<Mark>, t: Table, lo: nat, stop: nat, i: nat)
    requires lo <= stop <= |marks| && i < |Blocks(marks, t, lo, stop)|
    ensures var r := Blocks(marks, t, lo, stop);
            && IsBlock(marks, t, r[i], lo, stop)
            && r[i].stop == (if i + 1 < |r| then r[i + 1].start else stop)
            && (i == 0 ==> forall j :: lo <= j < r[0].start ==> marks[j].table != t)
  {
    var s := First(marks, Header(t), lo, stop);
    BlocksFromTile(marks, t, s, stop, i);
    FirstSkips(marks, Header(t), lo, stop);
    forall j | lo <= j < s ensures marks[j].table != t { assert !Matches(marks[j], Header(t)); }
  }

  lemma BlockHeader(marks: seq<Mark>, t: Table, lo: nat, stop: nat, i: nat)
    requires lo <= stop <= |marks| && i < |Blocks(marks, t, lo, stop)|
    ensures var b := Blocks(marks, t, lo, stop)[i]; lo <= b.start < b.stop <= stop && marks[b.start].table == t
  {
    BlocksTile(marks, t, lo, stop, i);
  }

  lemma SpanBounds(marks: seq<Mark>, i: nat)
    requires i < |SpansOf(marks)|
    ensures var b := Blocks(marks, Projects, 0, |marks|)[i];
            && SpansOf(marks)[i].start == b.start && SpansOf(marks)[i].end == b.stop - 1
            && SpansOf(marks)[i].platforms == PlatformsOf(marks, b.start, b.stop)
  {
    var b := Blocks(marks, Projects, 0, |marks|)[i];
    var blocks := Blocks(marks, Projects, 0, |marks|);
    ProjectsInAt(marks, blocks, |blocks|, i);
  }

  /** Project blocks follow each other without gap, up to the last line. */
  lemma ProjectsTileTheFile(marks: seq<Mark>, i: nat)
    requires i < |SpansOf(marks)|
    ensures var spans := SpansOf(marks);
            && 0 <= spans[i].start <= spans[i].end < |marks| && marks[spans[i].start].table == Projects
            && spans[i].end + 1 == (if i + 1 < |spans| then spans[i + 1].start else |marks|)
            && (forall j :: spans[i].start < j <= spans[i].end ==> marks[j].table != Projects)
            && (i == 0 ==> forall j :: 0 <= j < spans[0].start ==> marks[j].table != Projects)
  {
    hide SpansOf, Blocks, PlatformsOf;
    BlocksTile(marks, Projects, 0, |marks|, i);
    SpanBounds(marks, i);
    if i + 1 < |SpansOf(marks)| { SpanBounds(marks, i + 1); }
  }

  /** Platform blocks lie in their project, in order and apart; options sections hold no header. */
  lemma PlatformsAreNested(marks: seq<Mark>, i: nat, q: nat)
    requires i < |SpansOf(marks)| && q < |SpansOf(marks)[i].platforms|
    ensures var project, platform := SpansOf(marks)[i], SpansOf(marks)[i].platforms[q];
            && 0 <= project.start < platform.start <= platform.end <= project.end < |marks|
            && platform.end + 1 == (if q + 1 < |project.platforms| then project.platforms[q + 1].start else project.end + 1)
            && SoundPlatform(marks, platform)
  {
    var b := Blocks(marks, Projects, 0, |marks|)[i];
    SpanBounds(marks, i);
    PlatformNested(marks, b.start, b.stop, q);
    PlatformSound(marks, b.start, b.stop, q);
  }

  ghost predicate SoundPlatform(marks: seq<Mark>, platform: PlatformSpan)
    requires 0 <= platform.start <= platform.end < |marks|
  {
    && marks[platform.start].table == Platforms
    && (platform.optionsStart < 0 ==> forall j :: platform.start <= j <= platform.end ==> marks[j].table != Options)
    && (platform.optionsStart >= 0 ==>
          && platform.start < platform.optionsStart <= platform.optionsEnd <= platform.end
          && marks[platform.optionsStart].table == Options
          && (forall j :: platform.optionsStart < j <= platform.optionsEnd ==> marks[j].table == NoTable)
          && (platform.optionsEnd < platform.end ==> marks[platform.optionsEnd + 1].table != NoTable))
  }

  lemma PlatformOfIsSound(marks: seq<Mark>, start: nat, stop: nat)
    requires start < stop <= |marks| && marks[start].table == Platforms
    ensures SoundPlatform(marks, PlatformOf(marks, start, stop))
  {
    var r := First(marks, Header(Options), start + 1, stop);
    FirstSkips(marks, Header(Options), start + 1, stop);
    forall j | start <= j < r ensures marks[j].table != Options {
      if j > start { assert !Matches(marks[j], Header(Options)); }
    }
    if r < stop {
      assert Matches(marks[r], Header(Options));
      var end := SectionStop(marks, r, stop);
      FirstSkips(marks, AnyHeader, r + 1, stop);
      forall j | r < j < end ensures marks[j].table == NoTable { assert !Matches(marks[j], AnyHeader); }
    }
  }

  lemma PlatformBounds(marks: seq<Mark>, start: nat, stop: nat, q: nat)
    requires start < stop <= |marks| && q < |PlatformsOf(marks, start, stop)|
    ensures var b := Blocks(marks, Platforms, start + 1, stop)[q];
            && PlatformsOf(marks, start, stop)[q] == PlatformOf(marks, b.start, b.stop)
            && PlatformsOf(marks, start, stop)[q].start == b.start && PlatformsOf(marks, start, stop)[q].end == b.stop - 1
  {
    var blocks := Blocks(marks, Platforms, start + 1, stop);
    PlatformsInAt(marks, blocks, |blocks|, q);
  }

  lemma PlatformNested(marks: seq<Mark>, start: nat, stop: nat, q: nat)
    requires start < stop <= |marks| && q < |PlatformsOf(marks, start, stop)|
    ensures var platforms := PlatformsOf(marks, start, stop);
            && start < platforms[q].start <= platforms[q].end < stop
            && platforms[q].end + 1 == (if q + 1 < |platforms| then platforms[q + 1].start else stop)
  {
    BlocksTile(marks, Platforms, start + 1, stop, q);
    PlatformBounds(marks, start, stop, q);
    if q + 1 < |PlatformsOf(marks, start, stop)| { PlatformBounds(marks, start, stop, q + 1); }
  }

  lemma PlatformSound(marks: seq<Mark>, start: nat, stop: nat, q: nat)
    requires start < stop <= |marks| && q < |PlatformsOf(marks, start, stop)|
    ensures var platform := PlatformsOf(marks, start, stop)[q];
            0 <= platform.start <= platform.end < |marks| && SoundPlatform(marks, platform)
  {
    var b := Blocks(marks, Platforms, start + 1, stop)[q];
    BlockHeader(marks, Platforms, start + 1, stop, q);
    PlatformBounds(marks, start, stop, q);
    PlatformOfIsSound(marks, b.start, b.stop);
  }

  /** The section of the last header `t`: it ends before the next header of any kind. */
  lemma {:induction false} LastSectionIsSound(marks: seq<Mark>, t: Table, lo: nat, hi: nat, stop: nat)
    requires lo <= hi <= stop <= |marks| && t != NoTable
    ensures SoundSection(marks, LastSection(marks, t, lo, hi, stop), t, lo, hi, stop)
    decreases hi - lo
  {
    if lo < hi {
      if marks[hi - 1].table == t {
        FirstSkips(marks, AnyHeader, hi, stop);
        var end := SectionStop(marks, hi - 1, stop);
        forall j | hi <= j < end ensures marks[j].table == NoTable { assert !Matches(marks[j], AnyHeader); }
      } else {
        LastSectionIsSound(marks, t, lo, hi - 1, stop);
      }
    }
  }

  ghost predicate SoundSection(marks: seq<Mark>, r: Section, t: Table, lo: nat, hi: nat, stop: nat)
    requires lo <= hi <= stop <= |marks|
  {
    if r.start < 0 then r == Section(-1, -1) && forall j :: lo <= j < hi ==> marks[j].table != t
    else
      && lo <= r.start < hi && r.start <= r.end < stop && marks[r.start].table == t
      && (forall j :: r.start < j < hi ==> marks[j].table != t)
      && (forall j :: r.start < j <= r.end ==> marks[j].table == NoTable)
      && (r.end + 1 < stop ==> marks[r.end + 1].table != NoTable)
  }

  /** Agent and agent options of a project: the last such header, with its lines up to the next header. */
  lemma AgentSectionsAreSound(marks: seq<Mark>, i: nat)
    requires i < |SpansOf(marks)|
    ensures var p := SpansOf(marks)[i];
            && 0 <= p.start <= p.end < |marks|
            && SoundSection(marks, Section(p.agentStart, p.agentEnd), Agent, p.start + 1, p.end + 1, p.end + 1)
            && SoundSection(marks, Section(p.agentOptionsStart, p.agentOptionsEnd), AgentOptions,
                            p.start + 1, p.end + 1, p.end + 1)
  {
    hide SpansOf, Blocks, PlatformsOf, LastSection, ProvidersIn, SoundSection;
    var blocks := Blocks(marks, Projects, 0, |marks|);
    SpanIsProject(marks, i);
    LastSectionIsSound(marks, Agent, blocks[i].start + 1, blocks[i].stop, blocks[i].stop);
    LastSectionIsSound(marks, AgentOptions, blocks[i].start + 1, blocks[i].stop, blocks[i].stop);
  }

  lemma SpanIsProject(marks: seq<Mark>, i: nat)
    requires i < |SpansOf(marks)|
    ensures var b := Blocks(marks, Projects, 0, |marks|)[i]; SpansOf(marks)[i] == ProjectOf(marks, b.start, b.stop)
  {
    var blocks := Blocks(marks, Projects, 0, |marks|);
    ProjectsInAt(marks, blocks, |blocks|, i);
  }

  /** The type line of a platform: the first "type" key before any other header, if there is one. */
  lemma TypeLineIsSound(marks: seq<Mark>, start: nat, stop: nat)
    requires start < stop <= |marks|
    ensures var r := PlatformOf(marks, start, stop).typeLine;
            && (r < 0 ==> r == -1 && forall j :: start < j < SectionStop(marks, start, stop) ==> !marks[j].typeKey)
            && (r >= 0 ==>
                  && start < r < SectionStop(marks, start, stop) && marks[r].typeKey
                  && (forall j :: start < j < r ==> !marks[j].typeKey)
                  && (forall j :: start < j <= r ==> marks[j].table == NoTable))
  {
    var end := SectionStop(marks, start, stop);
    FirstSkips(marks, AnyHeader, start + 1, stop);
    FirstSkips(marks, TypeKey, start + 1, end);
    var r := First(marks, TypeKey, start + 1, end);
    forall j | start < j < r ensures !marks[j].typeKey { assert !Matches(marks[j], TypeKey); }
    forall j | start < j < end ensures marks[j].table == NoTable { assert !Matches(marks[j], AnyHeader); }
  }

  ghost predicate SpansFor(marks: seq<Mark>, r: seq<ProviderSpan>, lo: nat, hi: nat, stop: nat)
    requires lo <= hi <= stop <= |marks|
  {
    && (forall k :: 0 <= k < |r| ==> lo <= r[k].start < hi && r[k] == ProviderOf(marks, r[k].start, stop))
    && (forall k, m :: 0 <= k < m < |r| ==> r[k].start < r[m].start)
    && (forall j :: lo <= j < hi ==> (marks[j].table == Providers <==> StartsOne(r, j)))
  }

  ghost predicate StartsOne(r: seq<ProviderSpan>, j: int) {
    exists k :: 0 <= k < |r| && r[k].start == j
  }

  lemma StartsOneSnoc(r: seq<ProviderSpan>, span: ProviderSpan, j: int)
    ensures StartsOne(r + [span], j) <==> StartsOne(r, j) || span.start == j
  {
    if StartsOne(r, j) {
      var k :| 0 <= k < |r| && r[k].start == j;
      assert (r + [span])[k].start == j;
    }
    if span.start == j { assert (r + [span])[|r|].start == j; }
  }

  lemma SpansForSnoc(marks: seq<Mark>, r: seq<ProviderSpan>, lo: nat, hi: nat, stop: nat)
    requires lo <= hi < stop <= |marks| && SpansFor(marks, r, lo, hi, stop)
    ensures marks[hi].table == Providers ==> SpansFor(marks, r + [ProviderOf(marks, hi, stop)], lo, hi + 1, stop)
    ensures marks[hi].table != Providers ==> SpansFor(marks, r, lo, hi + 1, stop)
  {
    ProviderStart(marks, hi, stop);
    hide ProviderOf, StartsOne;
    if marks[hi].table == Providers {
      forall j | lo <= j < hi + 1 ensures StartsOne(r + [ProviderOf(marks, hi, stop)], j) <==> marks[j].table == Providers {
        StartsOneSnoc(r, ProviderOf(marks, hi, stop), j);
      }
    } else {
      NoneStarts(marks, r, lo, hi, stop);
    }
  }

  lemma NoneStarts(marks: seq<Mark>, r: seq<ProviderSpan>, lo: nat, hi: nat, stop: nat)
    requires lo <= hi <= stop <= |marks| && SpansFor(marks, r, lo, hi, stop)
    ensures !StartsOne(r, hi)
  {
  }

  /** The provider spans are those of all provider headers, in order. */
  lemma {:induction false} ProvidersAreSound(marks: seq<Mark>, lo: nat, hi: nat, stop: nat)
    requires lo <= hi <= stop <= |marks|
    ensures SpansFor(marks, ProvidersIn(marks, lo, hi, stop), lo, hi, stop)
    decreases hi - lo
  {
    hide SpansFor, ProviderOf;
    if lo < hi {
      ProvidersAreSound(marks, lo, hi - 1, stop);
      SpansForSnoc(marks, ProvidersIn(marks, lo, hi - 1, stop), lo, hi - 1, stop);
      var front := ProvidersIn(marks, lo, hi - 1, stop);
      assert front + [] == front;
    } else {
      NoSpans(marks, lo, stop);
    }
  }

  lemma NoSpans(marks: seq<Mark>, lo: nat, stop: nat)
    requires lo <= stop <= |marks|
    ensures SpansFor(marks, [], lo, lo, stop)
  {
  }

  lemma ProviderStart(marks: seq<Mark>, at: nat, stop: nat)
    requires at < stop <= |marks|
    ensures ProviderOf(marks, at, stop).start == at
  {
  }

  // ----- Inserting lines -----

  function Inserted(marks: seq<Mark>, at: nat, block: seq<Mark>): (r: seq<Mark>)
    requires at <= |marks|
    ensures |r| == |marks| + |block|
  {
    marks[..at] + block + marks[at..]
  }

  /** Where line or bound `x` is after `k` lines were inserted at `at`. */
  function Sh(x: int, at: nat, k: nat): int {
    if x >= at then x + k else x
  }

  predicate NoMatch(block: seq<Mark>, p: Pattern) {
    forall j :: 0 <= j < |block| ==> !Matches(block[j], p)
  }

  lemma FirstShifts(marks: seq<Mark>, at: nat, block: seq<Mark>, p: Pattern, start: int, stop: nat)
    requires at <= |marks| && -1 <= start < stop <= |marks|
    requires NoMatch(block, p) || stop < at || at <= start
    ensures 0 <= Sh(start, at, |block|) + 1 <= Sh(stop, at, |block|) <= |marks| + |block|
    ensures First(Inserted(marks, at, block), p, Sh(start, at, |block|) + 1, Sh(stop, at, |block|)) ==
            Sh(First(marks, p, start + 1, stop), at, |block|)
  {
    var k, m := |block|, Inserted(marks, at, block);
    var r := First(marks, p, start + 1, stop);
    FirstSkips(marks, p, start + 1, stop);
    if r < stop { InsertedOld(marks, at, block, r); }
    forall j | Sh(start, at, k) + 1 <= j < Sh(r, at, k) ensures !Matches(m[j], p) {
      InsertedAt(marks, at, block, j);
    }
    FirstIs(m, p, Sh(start, at, k) + 1, Sh(stop, at, k), Sh(r, at, k));
  }

  lemma InsertedAt(marks: seq<Mark>, at: nat, block: seq<Mark>, j: nat)
    requires at <= |marks| && j < |marks| + |block|
    ensures Inserted(marks, at, block)[j] ==
            if j < at then marks[j] else if j < at + |block| then block[j - at] else marks[j - |block|]
  {
  }

  lemma InsertedOld(marks: seq<Mark>, at: nat, block: seq<Mark>, j: nat)
    requires at <= |marks| && j < |marks|
    ensures Inserted(marks, at, block)[Sh(j, at, |block|)] == marks[j]
  {
  }

  function ShBlocks(blocks: seq<Block>, at: nat, k: nat): (r: seq<Block>)
    ensures |r| == |blocks|
  {
    if blocks == [] then []
    else [Block(Sh(blocks[0].start, at, k), Sh(blocks[0].stop, at, k))] + ShBlocks(blocks[1..], at, k)
  }

  lemma {:induction false} BlocksFromShift(marks: seq<Mark>, at: nat, block: seq<Mark>, t: Table, s: nat, stop: nat)
    requires at <= |marks| && s < stop <= |marks| && marks[s].table == t && NoMatch(block, Header(t))
    ensures Sh(s, at, |block|) < Sh(stop, at, |block|) <= |marks| + |block|
    ensures Inserted(marks, at, block)[Sh(s, at, |block|)].table == t
    ensures BlocksFrom(Inserted(marks, at, block), t, Sh(s, at, |block|), Sh(stop, at, |block|)) ==
            ShBlocks(BlocksFrom(marks, t, s, stop), at, |block|)
    decreases stop - s
  {
    var m, k := Inserted(marks, at, block), |block|;
    InsertedOld(marks, at, block, s);
    FirstShifts(marks, at, block, Header(t), s, stop);
    var next := First(marks, Header(t), s + 1, stop);
    if next < stop {
      BlocksFromShift(marks, at, block, t, next, stop);
      BlocksFromCons(marks, t, s, stop);
      BlocksFromCons(m, t, Sh(s, at, k), Sh(stop, at, k));
      ShBlocksCons(Block(s, next), BlocksFrom(marks, t, next, stop), at, k);
    } else {
      BlocksFromLast(marks, t, s, stop);
      BlocksFromLast(m, t, Sh(s, at, k), Sh(stop, at, k));
      ShBlocksOne(Block(s, stop), at, k);
    }
  }

  lemma BlocksFromLast(marks: seq<Mark>, t: Table, s: nat, stop: nat)
    requires s < stop <= |marks| && marks[s].table == t && First(marks, Header(t), s + 1, stop) == stop
    ensures BlocksFrom(marks, t, s, stop) == [Block(s, stop)]
  {
  }

  lemma ShBlocksOne(b: Block, at: nat, k: nat)
    ensures ShBlocks([b], at, k) == [Block(Sh(b.start, at, k), Sh(b.stop, at, k))]
  {
  }

  lemma BlocksFromCons(marks: seq<Mark>, t: Table, s: nat, stop: nat)
    requires s < stop <= |marks| && marks[s].table == t && First(marks, Header(t), s + 1, stop) < stop
    ensures var next := First(marks, Header(t), s + 1, stop);
            marks[next].table == t && BlocksFrom(marks, t, s, stop) == [Block(s, next)] + BlocksFrom(marks, t, next, stop)
  {
  }

  lemma ShBlocksCons(b: Block, rest: seq<Block>, at: nat, k: nat)
    ensures ShBlocks([b] + rest, at, k) == [Block(Sh(b.start, at, k), Sh(b.stop, at, k))] + ShBlocks(rest, at, k)
  {
    assert ([b] + rest)[1..] == rest;
  }

  lemma {:induction false} ShBlocksAt(blocks: seq<Block>, i: nat, at: nat, k: nat)
    requires i < |blocks|
    ensures ShBlocks(blocks, at, k)[i] == Block(Sh(blocks[i].start, at, k), Sh(blocks[i].stop, at, k))
  {
    if i > 0 { ShBlocksAt(blocks[1..], i - 1, at, k); }
  }

  lemma BlocksShift(marks: seq<Mark>, at: nat, block: seq<Mark>, t: Table, start: int, stop: nat)
    requires at <= |marks| && -1 <= start < stop <= |marks| && NoMatch(block, Header(t))
    ensures 0 <= Sh(start, at, |block|) + 1 <= Sh(stop, at, |block|) <= |marks| + |block|
    ensures Blocks(Inserted(marks, at, block), t, Sh(start, at, |block|) + 1, Sh(stop, at, |block|)) ==
            ShBlocks(Blocks(marks, t, start + 1, stop), at, |block|)
  {
    FirstShifts(marks, at, block, Header(t), start, stop);
    var s := First(marks, Header(t), start + 1, stop);
    if s < stop { BlocksFromShift(marks, at, block, t, s, stop); }
  }

  /** The position of a span's headers and bounds, without the lines of its "type" and "name" keys. */
  function ErasePlatform(ps: PlatformSpan): PlatformSpan { ps.(typeLine := -1) }

  /** Inclusive bounds move with the line after them. */
  function ShEnd(x: int, at: nat, k: nat): int {
    if x < 0 then x else Sh(x + 1, at, k) - 1
  }

  function ShPlatform(ps: PlatformSpan, at: nat, k: nat): PlatformSpan {
    PlatformSpan(Sh(ps.start, at, k), ShEnd(ps.end, at, k), -1, Sh(ps.optionsStart, at, k), ShEnd(ps.optionsEnd, at, k))
  }

  lemma EndShifts(marks: seq<Mark>, at: nat, block: seq<Mark>, start: int, stop: nat)
    requires at <= |marks| && -1 <= start < stop <= |marks|
    requires NoMatch(block, AnyHeader) || stop < at || at <= start || start < 0
    ensures -1 <= Sh(start, at, |block|) < Sh(stop, at, |block|) <= |marks| + |block|
    ensures EndOf(Inserted(marks, at, block), Sh(start, at, |block|), Sh(stop, at, |block|)) ==
            ShEnd(EndOf(marks, start, stop), at, |block|)
  {
    if start >= 0 { FirstShifts(marks, at, block, AnyHeader, start, stop); }
  }

  lemma PlainMatchesNothing(block: seq<Mark>, p: Pattern)
    requires p.Header? && p.table != NoTable
    ensures NoMatch(block, AnyHeader) ==> NoMatch(block, p)
  {
    if NoMatch(block, AnyHeader) {
      forall j | 0 <= j < |block| ensures !Matches(block[j], p) { assert !Matches(block[j], AnyHeader); }
    }
  }

  /** A platform block moves as a whole when the lines are plain or are inserted outside it. */
  lemma PlatformShifts(marks: seq<Mark>, at: nat, block: seq<Mark>, start: nat, stop: nat)
    requires at <= |marks| && start < stop <= |marks|
    requires NoMatch(block, AnyHeader) || stop < at || at <= start
    ensures Sh(start, at, |block|) < Sh(stop, at, |block|) <= |marks| + |block|
    ensures ErasePlatform(PlatformOf(Inserted(marks, at, block), Sh(start, at, |block|), Sh(stop, at, |block|))) ==
            ShPlatform(PlatformOf(marks, start, stop), at, |block|)
  {
    PlainMatchesNothing(block, Header(Options));
    FirstShifts(marks, at, block, Header(Options), start, stop);
    var options := FirstOrNone(marks, Header(Options), start + 1, stop);
    assert FirstOrNone(Inserted(marks, at, block), Header(Options), Sh(start, at, |block|) + 1, Sh(stop, at, |block|)) ==
           Sh(options, at, |block|);
    EndShifts(marks, at, block, options, stop);
    assert Sh(stop, at, |block|) - 1 == ShEnd(stop - 1, at, |block|);
  }

  /** Inserting lines that are no project or platform header keeps every project and platform. */
  lemma InsertKeepsProjects(marks: seq<Mark>, at: nat, block: seq<Mark>)
    requires at <= |marks| && NoMatch(block, Header(Projects))
    ensures Blocks(Inserted(marks, at, block), Projects, 0, |marks| + |block|) ==
            ShBlocks(Blocks(marks, Projects, 0, |marks|), at, |block|)
  {
    if |marks| > 0 {
      BlocksShift(marks, at, block, Projects, -1, |marks|);
    } else {
      assert Inserted(marks, at, block) == block;
    }
  }

  // ----- One platform of the index -----

  function ProjectBlocks(marks: seq<Mark>): (r: seq<Block>)
    ensures BlocksIn(marks, r)
  {
    Blocks(marks, Projects, 0, |marks|)
  }

  function PlatformBlocks(marks: seq<Mark>, i: nat): (r: seq<Block>)
    requires i < |ProjectBlocks(marks)|
    ensures BlocksIn(marks, r)
  {
    var b := ProjectBlocks(marks)[i];
    Blocks(marks, Platforms, b.start + 1, b.stop)
  }

  predicate HasPlatform(marks: seq<Mark>, i: nat, q: nat) {
    i < |ProjectBlocks(marks)| && q < |PlatformBlocks(marks, i)|
  }

  /** Platform `q` of project `i`, as the index gives it. */
  function PlatformAt(marks: seq<Mark>, i: nat, q: nat): PlatformSpan
    requires HasPlatform(marks, i, q)
  {
    var b := PlatformBlocks(marks, i)[q];
    PlatformOf(marks, b.start, b.stop)
  }

  lemma CountsInIndex(marks: seq<Mark>, i: nat)
    ensures |SpansOf(marks)| == |ProjectBlocks(marks)|
    ensures i < |SpansOf(marks)| ==> |SpansOf(marks)[i].platforms| == |PlatformBlocks(marks, i)|
  {
    hide SpansOf, Blocks, PlatformsOf, PlatformOf;
    if i < |SpansOf(marks)| { SpanBounds(marks, i); }
  }

  lemma PlatformInIndex(marks: seq<Mark>, i: nat, q: nat)
    requires i < |SpansOf(marks)| && q < |SpansOf(marks)[i].platforms|
    ensures HasPlatform(marks, i, q) && SpansOf(marks)[i].platforms[q] == PlatformAt(marks, i, q)
  {
    hide SpansOf, Blocks, PlatformsOf, PlatformOf;
    SpanBounds(marks, i);
    var b := ProjectBlocks(marks)[i];
    PlatformBounds(marks, b.start, b.stop, q);
  }

  /** The lines of two platforms do not overlap. */
  lemma PlatformsApart(marks: seq<Mark>, i: nat, q: nat, i2: nat, q2: nat)
    requires HasPlatform(marks, i, q) && HasPlatform(marks, i2, q2)
    requires i < i2 || (i == i2 && q < q2)
    ensures PlatformBlocks(marks, i)[q].stop <= PlatformBlocks(marks, i2)[q2].start
  {
    var b, b2 := ProjectBlocks(marks)[i], ProjectBlocks(marks)[i2];
    if i == i2 {
      BlocksOrdered(marks, Platforms, b.start + 1, b.stop, q, q2);
    } else {
      BlocksOrdered(marks, Projects, 0, |marks|, i, i2);
      BlockHeader(marks, Platforms, b.start + 1, b.stop, q);
      BlockHeader(marks, Platforms, b2.start + 1, b2.stop, q2);
    }
  }

  lemma {:induction false} BlocksOrdered(marks: seq<Mark>, t: Table, lo: nat, stop: nat, a: nat, b: nat)
    requires lo <= stop <= |marks| && a < b < |Blocks(marks, t, lo, stop)|
    ensures Blocks(marks, t, lo, stop)[a].stop <= Blocks(marks, t, lo, stop)[b].start
    decreases b
  {
    hide Blocks;
    BlocksTile(marks, t, lo, stop, b - 1);
    if a < b - 1 { BlocksOrdered(marks, t, lo, stop, a, b - 1); }
  }

  lemma ProjectBlockAt(marks: seq<Mark>, at: nat, block: seq<Mark>, i: nat)
    requires at <= |marks| && NoMatch(block, Header(Projects)) && i < |ProjectBlocks(marks)|
    ensures var before, after := ProjectBlocks(marks), ProjectBlocks(Inserted(marks, at, block));
            |after| == |before| &&
            after[i] == Block(Sh(before[i].start, at, |block|), Sh(before[i].stop, at, |block|))
  {
    InsertKeepsProjects(marks, at, block);
    ShBlocksAt(ProjectBlocks(marks), i, at, |block|);
  }

  /** No project and no platform is lost or gained; each block moves with its lines. */
  lemma InsertKeepsPlatforms(marks: seq<Mark>, at: nat, block: seq<Mark>, i: nat)
    requires at <= |marks| && NoMatch(block, Header(Projects)) && NoMatch(block, Header(Platforms))
    requires i < |ProjectBlocks(marks)|
    ensures var m, k := Inserted(marks, at, block), |block|;
            && ProjectBlocks(m) == ShBlocks(ProjectBlocks(marks), at, k)
            && PlatformBlocks(m, i) == ShBlocks(PlatformBlocks(marks, i), at, k)
  {
    var b := ProjectBlocks(marks)[i];
    InsertKeepsProjects(marks, at, block);
    ShBlocksAt(ProjectBlocks(marks), i, at, |block|);
    BlocksShift(marks, at, block, Platforms, b.start, b.stop);
  }

  lemma PlatformMoves(marks: seq<Mark>, at: nat, block: seq<Mark>, i: nat, q: nat)
    requires at <= |marks| && NoMatch(block, Header(Projects)) && NoMatch(block, Header(Platforms))
    requires HasPlatform(marks, i, q)
    ensures var m, k := Inserted(marks, at, block), |block|;
            var b := PlatformBlocks(marks, i)[q];
            && HasPlatform(m, i, q) && PlatformBlocks(m, i)[q] == Block(Sh(b.start, at, k), Sh(b.stop, at, k))
  {
    InsertKeepsPlatforms(marks, at, block, i);
    ShBlocksAt(PlatformBlocks(marks, i), q, at, |block|);
  }

  /** A platform and its options section move as a whole when the lines are plain or inserted outside it. */
  lemma InsertMovesPlatform(marks: seq<Mark>, at: nat, block: seq<Mark>, i: nat, q: nat)
    requires at <= |marks| && NoMatch(block, Header(Projects)) && NoMatch(block, Header(Platforms))
    requires HasPlatform(marks, i, q)
    requires NoMatch(block, AnyHeader) || PlatformBlocks(marks, i)[q].stop < at || at <= PlatformBlocks(marks, i)[q].start
    ensures HasPlatform(Inserted(marks, at, block), i, q)
    ensures ErasePlatform(PlatformAt(Inserted(marks, at, block), i, q)) == ShPlatform(PlatformAt(marks, i, q), at, |block|)
  {
    PlatformMoves(marks, at, block, i, q);
    var b := PlatformBlocks(marks, i)[q];
    PlatformShifts(marks, at, block, b.start, b.stop);
  }

  /** A block holding one options header, added at the end of a platform without options. */
  lemma OptionsAppear(marks: seq<Mark>, start: nat, stop: nat, block: seq<Mark>, h: nat)
    requires start < stop <= |marks| && PlatformOf(marks, start, stop).optionsStart < 0
    requires h < |block| && block[h].table == Options
    requires forall j :: 0 <= j < |block| && j != h ==> block[j].table == NoTable
    ensures var p := PlatformOf(Inserted(marks, stop, block), start, stop + |block|);
            p.optionsStart == stop + h && p.optionsEnd == stop + |block| - 1
  {
    var m := Inserted(marks, stop, block);
    FirstSkips(marks, Header(Options), start + 1, stop);
    forall j | start + 1 <= j < stop + h ensures !Matches(m[j], Header(Options)) {
      InsertedAt(marks, stop, block, j);
    }
    InsertedAt(marks, stop, block, stop + h);
    FirstIs(m, Header(Options), start + 1, stop + |block|, stop + h);
    forall j | stop + h < j < stop + |block| ensures !Matches(m[j], AnyHeader) {
      InsertedAt(marks, stop, block, j);
    }
    FirstIs(m, AnyHeader, stop + h + 1, stop + |block|, stop + |block|);
  }
}
