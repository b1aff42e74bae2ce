/** The index over the text: which lines of the file it points to (config/config.go, buildRawProjectSpans). */
module TomlText {
  import opened Strings
  import opened TomlLine
  import opened TomlIndex
  import opened TomlSpans

  // ----- The matchers -----

  /** A header matches also when it is indented, or followed by blanks or a comment, but not as the start of another word. */
  lemma HeaderMatches(pre: string, header: string, rest: string)
    requires AllSpace(pre) && header != "" && Trimmed(header)
    ensures MatchTableHeader(pre + header + rest, header) <==>
            AllSpace(rest) || rest[0] == ' ' || rest[0] == '\t' || rest[0] == '#'
  {
    if AllSpace(rest) {
      TrimUnique(pre, header, rest);
    } else {
      var k := TrimRightSplits(rest);
      var kept := rest[..k];
      assert k > 0;
      assert rest == kept + rest[k..] && pre + header + rest == pre + (header + kept) + rest[k..];
      TrimUnique(pre, header + kept, rest[k..]);
      assert (header + kept)[|header|] == rest[0];
    }
  }

  /** A key line may be indented and have blanks around its '='. */
  lemma KeyMatches(pre: string, key: string, mid: string, rest: string)
    requires AllSpace(pre) && AllSpace(mid) && BareKey(key)
    ensures MatchTomlStringKey(pre + key + mid + "=" + rest, key)
  {
    hide IsSpace;
    var k := TrimRightSplits("=" + rest);
    var kept := ("=" + rest)[..k];
    BareKeyIsNoBlank(key);
    EqualsStays(rest, k);
    assert "=" + rest == kept + ("=" + rest)[k..];
    assert pre + key + mid + "=" + rest == pre + (key + mid + kept) + ("=" + rest)[k..];
    TrimUnique(pre, key + mid + kept, ("=" + rest)[k..]);
    assert (key + mid + kept)[|key|..] == mid + kept + "";
    TrimUnique(mid, kept, "");
  }

  lemma BareKeyIsNoBlank(key: string)
    requires BareKey(key)
    ensures !IsSpace(key[0]) && key[0] != '#' && key[0] != '['
  {
    assert IsBareChar(key[0]);
  }

  lemma EqualsStays(rest: string, k: nat)
    requires k <= |"=" + rest| && AllSpace(("=" + rest)[k..]) && (k > 0 ==> !IsSpace(("=" + rest)[k - 1]))
    ensures k > 0 && ("=" + rest)[0] == '=' && !IsSpace('=')
  {
    assert ("=" + rest)[0] == '=';
  }

  // ----- Marks and text -----

  /** The mark says of the line what its text says. */
  predicate Reads(m: Mark, line: string) {
    && (m.table == Projects <==> MatchTableHeader(line, "[[projects]]"))
    && (m.table == Platforms <==> MatchTableHeader(line, "[[projects.platforms]]"))
    && (m.table == Options <==> MatchTableHeader(line, "[projects.platforms.options]"))
    && (m.table == Agent <==> MatchTableHeader(line, "[projects.agent]"))
    && (m.table == AgentOptions <==> MatchTableHeader(line, "[projects.agent.options]"))
    && (m.table == Providers <==> MatchTableHeader(line, "[[projects.agent.providers]]"))
    && (m.table != NoTable <==> IsAnyTableHeader(line))
    && (m.typeKey <==> MatchTomlStringKey(line, "type"))
    && (m.nameKey <==> MatchTomlStringKey(line, "name"))
  }

  lemma MarksAreText(lines: seq<string>)
    ensures forall k: nat :: k < |lines| ==> Reads(Marks(lines)[k], lines[k])
  {
    hide Marks, Reads;
    forall k: nat | k < |lines| ensures Reads(Marks(lines)[k], lines[k]) {
      MarksAt(lines, k);
      MarkIsText(lines[k]);
    }
  }

  lemma MarkIsText(line: string)
    ensures Reads(MarkOf(line), line)
  {
    hide MatchTableHeader, MatchTomlStringKey, TableOf;
    TableOfHeader(line, Projects);
    TableOfHeader(line, Platforms);
    TableOfHeader(line, Options);
    TableOfHeader(line, Agent);
    TableOfHeader(line, AgentOptions);
    TableOfHeader(line, Providers);
    TableOfAny(line);
  }

  // ----- What the spans point to -----

  /** No header between the two lines, and one right after them unless `hi` comes first. */
  ghost predicate RunsToNextHeader(lines: seq<string>, start: int, end: int, hi: int)
    requires 0 <= start <= end <= hi < |lines|
  {
    && (forall k :: start < k <= end ==> !IsAnyTableHeader(lines[k]))
    && (end < hi ==> IsAnyTableHeader(lines[end + 1]))
  }

  /** The last section with that header among the lines `lo` to `hi`; -1 twice if there is none. */
  ghost predicate LastSectionOf(lines: seq<string>, header: string, start: int, end: int, lo: int, hi: int)
    requires 0 <= lo && hi < |lines|
  {
    if start < 0 then start == end == -1 && forall k :: lo <= k <= hi ==> !MatchTableHeader(lines[k], header)
    else
      && lo <= start <= end <= hi && MatchTableHeader(lines[start], header)
      && (forall k :: start < k <= hi ==> !MatchTableHeader(lines[k], header))
      && RunsToNextHeader(lines, start, end, hi)
  }

  /** Each project starts at its header, reaches to the next project or the end of the file, and has the last agent sections. */
  lemma ProjectText(lines: seq<string>, i: nat)
    requires i < |SpansOf(Marks(lines))|
    ensures var spans := SpansOf(Marks(lines));
            var p := spans[i];
            && 0 <= p.start <= p.end < |lines| && MatchTableHeader(lines[p.start], "[[projects]]")
            && (forall k :: p.start < k <= p.end ==> !MatchTableHeader(lines[k], "[[projects]]"))
            && p.end + 1 == (if i + 1 < |spans| then spans[i + 1].start else |lines|)
            && (i == 0 ==> forall k :: 0 <= k < p.start ==> !MatchTableHeader(lines[k], "[[projects]]"))
            && LastSectionOf(lines, "[projects.agent]", p.agentStart, p.agentEnd, p.start + 1, p.end)
            && LastSectionOf(lines, "[projects.agent.options]", p.agentOptionsStart, p.agentOptionsEnd, p.start + 1, p.end)
  {
    hide SpansOf, Marks, MatchTableHeader, MatchTomlStringKey, IsAnyTableHeader;
    MarksAreText(lines);
    ProjectsTileTheFile(Marks(lines), i);
    AgentSectionsAreSound(Marks(lines), i);
  }

  /** Each platform starts at its header and has its first "type" line and its first options section. */
  lemma PlatformText(lines: seq<string>, i: nat, q: nat)
    requires i < |SpansOf(Marks(lines))| && q < |SpansOf(Marks(lines))[i].platforms|
    ensures var project := SpansOf(Marks(lines))[i];
            var p := project.platforms[q];
            && 0 <= project.start < p.start <= p.end <= project.end < |lines|
            && MatchTableHeader(lines[p.start], "[[projects.platforms]]")
            && (forall k :: p.start < k <= p.end ==> !MatchTableHeader(lines[k], "[[projects.platforms]]"))
            && p.end + 1 == (if q + 1 < |project.platforms| then project.platforms[q + 1].start else project.end + 1)
            && (q == 0 ==> forall k :: project.start < k < p.start ==> !MatchTableHeader(lines[k], "[[projects.platforms]]"))
            && FirstOptions(lines, p) && FirstType(lines, p)
  {
    hide SpansOf, Marks, MatchTableHeader, MatchTomlStringKey, IsAnyTableHeader, Blocks, PlatformOf;
    var marks := Marks(lines);
    MarksAreText(lines);
    PlatformsAreNested(marks, i, q);
    PlatformInIndex(marks, i, q);
    var b := PlatformBlocks(marks, i)[q];
    PlatformIsBlock(marks, i, q);
    OptionsAreFirst(marks, b.start, b.stop);
    TypeLineIsSound(marks, b.start, b.stop);
    TypeStop(marks, b.start, b.stop);
  }

  ghost predicate FirstOptions(lines: seq<string>, p: PlatformSpan)
    requires 0 <= p.start <= p.end < |lines|
  {
    if p.optionsStart < 0 then forall k :: p.start < k <= p.end ==> !MatchTableHeader(lines[k], "[projects.platforms.options]")
    else
      && p.start < p.optionsStart <= p.optionsEnd <= p.end
      && MatchTableHeader(lines[p.optionsStart], "[projects.platforms.options]")
      && (forall k :: p.start < k < p.optionsStart ==> !MatchTableHeader(lines[k], "[projects.platforms.options]"))
      && RunsToNextHeader(lines, p.optionsStart, p.optionsEnd, p.end)
  }

  /** The first "type" line above any other header of the platform. */
  ghost predicate FirstType(lines: seq<string>, p: PlatformSpan)
    requires 0 <= p.start <= p.end < |lines|
  {
    if p.typeLine < 0 then
      forall k :: p.start < k <= p.end && MatchTomlStringKey(lines[k], "type") ==>
        exists h :: p.start < h <= k && IsAnyTableHeader(lines[h])
    else
      && p.start < p.typeLine <= p.end && MatchTomlStringKey(lines[p.typeLine], "type")
      && (forall k :: p.start < k < p.typeLine ==> !MatchTomlStringKey(lines[k], "type"))
      && (forall k :: p.start < k <= p.typeLine ==> !IsAnyTableHeader(lines[k]))
  }

  lemma PlatformIsBlock(marks: seq<Mark>, i: nat, q: nat)
    requires HasPlatform(marks, i, q)
    ensures var b, p, project := PlatformBlocks(marks, i)[q], PlatformAt(marks, i, q), ProjectBlocks(marks)[i];
            && p.start == b.start && p.end == b.stop - 1 && b.stop <= |marks| && marks[b.start].table == Platforms
            && (forall k :: b.start < k < b.stop ==> marks[k].table != Platforms)
            && (q == 0 ==> forall k :: project.start < k < b.start ==> marks[k].table != Platforms)
            && project.start == SpansOf(marks)[i].start
  {
    hide Blocks, SpansOf;
    var project := ProjectBlocks(marks)[i];
    CountsInIndex(marks, i);
    SpanBounds(marks, i);
    BlocksTile(marks, Platforms, project.start + 1, project.stop, q);
  }

  lemma OptionsAreFirst(marks: seq<Mark>, start: nat, stop: nat)
    requires start < stop <= |marks|
    ensures var p := PlatformOf(marks, start, stop);
            forall k :: start < k < (if p.optionsStart < 0 then stop else p.optionsStart) ==> marks[k].table != Options
  {
    FirstSkips(marks, Header(Options), start + 1, stop);
    forall k | start < k < First(marks, Header(Options), start + 1, stop) ensures marks[k].table != Options {
      assert !Matches(marks[k], Header(Options));
    }
  }

  lemma TypeStop(marks: seq<Mark>, start: nat, stop: nat)
    requires start < stop <= |marks|
    ensures var end := SectionStop(marks, start, stop); end < stop ==> marks[end].table != NoTable
  {
  }

  /** One span per provider header of the project, in order, with its first "name" line. */
  lemma ProviderText(lines: seq<string>, i: nat)
    requires i < |SpansOf(Marks(lines))|
    ensures var p := SpansOf(Marks(lines))[i];
            && 0 <= p.start <= p.end < |lines|
            && (forall k :: 0 <= k < |p.agentProviders| ==> IsProvider(lines, p.agentProviders[k], p.start, p.end))
            && (forall k, m :: 0 <= k < m < |p.agentProviders| ==> p.agentProviders[k].start < p.agentProviders[m].start)
            && (forall k :: p.start < k <= p.end && MatchTableHeader(lines[k], "[[projects.agent.providers]]") ==>
                  StartsOne(p.agentProviders, k))
  {
    hide SpansOf, Marks, MatchTableHeader, MatchTomlStringKey, IsAnyTableHeader, Blocks, ProviderOf, ProvidersIn, PlatformsOf;
    var marks := Marks(lines);
    var p := SpansOf(marks)[i];
    MarksAreText(lines);
    ProjectsTileTheFile(marks, i);
    SpanIsProject(marks, i);
    var b := Blocks(marks, Projects, 0, |marks|)[i];
    ProvidersAreSound(marks, b.start + 1, b.stop, b.stop);
    forall k | 0 <= k < |p.agentProviders| ensures IsProvider(lines, p.agentProviders[k], p.start, p.end) {
      assert StartsOne(p.agentProviders, p.agentProviders[k].start);
      ProviderIsSound(marks, p.agentProviders[k].start, b.stop);
    }
  }

  ghost predicate IsProvider(lines: seq<string>, r: ProviderSpan, lo: int, hi: int)
    requires 0 <= lo <= hi < |lines|
  {
    && lo < r.start <= r.end <= hi && MatchTableHeader(lines[r.start], "[[projects.agent.providers]]")
    && RunsToNextHeader(lines, r.start, r.end, hi)
    && if r.nameLine < 0 then r.nameLine == -1 && forall k :: r.start < k <= r.end ==> !MatchTomlStringKey(lines[k], "name")
       else
         && r.start < r.nameLine <= r.end && MatchTomlStringKey(lines[r.nameLine], "name")
         && forall k :: r.start < k < r.nameLine ==> !MatchTomlStringKey(lines[k], "name")
  }

  lemma ProviderIsSound(marks: seq<Mark>, start: nat, stop: nat)
    requires start < stop <= |marks|
    ensures var r := ProviderOf(marks, start, stop);
            && r.start == start <= r.end < stop
            && (forall k :: start < k <= r.end ==> marks[k].table == NoTable)
            && (r.end + 1 < stop ==> marks[r.end + 1].table != NoTable)
            && (if r.nameLine < 0 then r.nameLine == -1 && forall k :: start < k <= r.end ==> !marks[k].nameKey
                else start < r.nameLine <= r.end && marks[r.nameLine].nameKey &&
                     forall k :: start < k < r.nameLine ==> !marks[k].nameKey)
  {
    var end := SectionStop(marks, start, stop);
    FirstSkips(marks, AnyHeader, start + 1, stop);
    FirstSkips(marks, NameKey, start + 1, end);
    forall k | start < k < end ensures marks[k].table == NoTable { assert !Matches(marks[k], AnyHeader); }
    forall k | start < k < First(marks, NameKey, start + 1, end) ensures !marks[k].nameKey {
      assert !Matches(marks[k], NameKey);
    }
  }
}
