/** Adding a missing options section, and writing the group lists of one platform (config/config.go). */
module TomlOptions {
  import opened Wrappers
  import opened Strings
  import opened TomlLine
  import opened TomlIndex
  import opened TomlSpans
  import opened TomlEdit
  import opened TomlConfig

  const PUBLIC_KEY := "public_group_chats"
  const ADMIN_KEY := "admin_group_chats"

  /** The options header with a blank line before and after it where one is missing. */
  function OptionsBlock(lines: seq<string>, at: nat): seq<string>
    requires at <= |lines|
  {
    Opener(lines, at) + Closer(lines, at)
  }

  lemma BlankMark()
    ensures MarkOf("").table == NoTable
  {
    TableOfAny("");
  }

  lemma OptionsMark()
    ensures MarkOf(OPTIONS_HEADER).table == Options
  {
    TrimOfTrimmed(OPTIONS_HEADER);
    TableOfHeader(OPTIONS_HEADER, Options);
  }

  lemma OptionsBlockMarks(before: bool, after: bool)
    ensures var block := Marks(BlankIf(before) + [OPTIONS_HEADER] + BlankIf(after));
            var h := if before then 1 else 0;
            |block| == h + 1 + (if after then 1 else 0) && OnlyOptions(block, h)
  {
    hide MarkOf;
    var lines := BlankIf(before) + [OPTIONS_HEADER] + BlankIf(after);
    BlankMark();
    OptionsMark();
    forall j | 0 <= j < |lines| ensures Marks(lines)[j] == MarkOf(lines[j]) { MarksAt(lines, j); }
  }

  ghost function WithOptionsBlock(lines: seq<string>, i: nat, q: nat): seq<string>
    requires Has(lines, i, q)
  {
    var at := Span(lines, i, q).end + 1;
    SpanInBlock(lines, i, q);
    WithLines(lines, at, OptionsBlock(lines, at))
  }

  lemma {:induction false} NoKeyInBlanks(body: seq<string>, key: string)
    requires forall j :: 0 <= j < |body| ==> body[j] == ""
    ensures Get(body, key) == None
  {
    KeyIndexIs(body, key, |body|);
  }

  /** The block adds an options section without keys to a platform that has none, and keeps everything else. */
  lemma OptionsSectionAppears(lines: seq<string>, i: nat, q: nat)
    requires Has(lines, i, q) && Span(lines, i, q).optionsStart < 0
    ensures var r := WithOptionsBlock(lines, i, q);
            && Has(r, i, q) && ChangesOptionsOnly(lines, r, i, q)
            && OptionLines(r, i, q) == BodyOrNew(lines, i, q)
            && (forall key :: Get(OptionLines(r, i, q), key) == None)
  {
    hide Keeps, Get, PlatformBlocks, PlatformAt, Marks, Spliced, SectionLines, OnlyOptions, NoMatch, OptionsBlock, WithOptionsBlock;
    SpanInBlock(lines, i, q);
    var at := PlatformBlocks(Marks(lines), i)[q].stop;
    var block := OptionsBlock(lines, at);
    var h := OptionsBlockIs(lines, at);
    var r := Spliced(lines, at, at, block);
    BlockIsSplice(lines, i, q, at);
    OnlyOptionsIsNoBlock(Marks(block), h);
    MarksOfNothing(lines, at, block);
    EditKeeps(lines, at, at, block, Marks(block), i, q);
    MarksOfSplice(lines, at, at, block, Marks(block));
    AddedPlatform(Marks(lines), at, Marks(block), h, i, q);
    AddedLinesAreBlank(lines, at, block, h, Span(r, i, q));
    AddedParts(lines, r, i, q, h);
  }

  lemma AddedParts(lines: seq<string>, r: seq<string>, i: nat, q: nat, h: nat)
    requires Has(lines, i, q) && Span(lines, i, q).optionsStart < 0 && Has(r, i, q)
    requires var at := Span(lines, i, q).end + 1;
             && at <= |lines| && r == Spliced(lines, at, at, OptionsBlock(lines, at)) && h + 1 == |Opener(lines, at)|
             && Span(r, i, q).optionsStart == at + h && Span(r, i, q).optionsEnd == at + |OptionsBlock(lines, at)| - 1
    ensures LinesBefore(r, i, q) == LinesBefore(lines, i, q) && LinesAfter(r, i, q) == LinesAfter(lines, i, q)
    ensures OptionLines(r, i, q) == BodyOrNew(lines, i, q)
  {
    hide PlatformAt, Marks, Opener, Closer;
    SpanInBlock(lines, i, q);
    var at, p := Span(lines, i, q).end + 1, Span(r, i, q);
    var opener, closer := Opener(lines, at), Closer(lines, at);
    assert r == lines[..at] + opener + closer + lines[at..];
    assert r[..p.optionsStart + 1] == lines[..at] + opener;
  }

  lemma BlockIsSplice(lines: seq<string>, i: nat, q: nat, at: nat)
    requires Has(lines, i, q) && at == Span(lines, i, q).end + 1 <= |lines|
    ensures WithOptionsBlock(lines, i, q) == Spliced(lines, at, at, OptionsBlock(lines, at))
  {
    hide OptionsBlock, PlatformAt, Marks;
  }

  /** The line of the block that is the header. */
  lemma OptionsBlockIs(lines: seq<string>, at: nat) returns (h: nat)
    requires at <= |lines|
    ensures OnlyOptions(Marks(OptionsBlock(lines, at)), h) && h + 1 == |Opener(lines, at)|
    ensures forall j :: h < j < |OptionsBlock(lines, at)| ==> OptionsBlock(lines, at)[j] == ""
  {
    hide Marks, OnlyOptions, IsBlank;
    var before, after := at > 0 && !IsBlank(lines[at - 1]), at < |lines| && !IsBlank(lines[at]);
    OptionsBlockMarks(before, after);
    h := if before then 1 else 0;
  }

  /** Marks of lines of which only line `h` is a header, the options header. */
  ghost predicate OnlyOptions(block: seq<Mark>, h: nat) {
    h < |block| && block[h].table == Options && forall j :: 0 <= j < |block| && j != h ==> block[j].table == NoTable
  }

  lemma OnlyOptionsIsNoBlock(block: seq<Mark>, h: nat)
    requires OnlyOptions(block, h)
    ensures NoMatch(block, Header(Projects)) && NoMatch(block, Header(Platforms))
  {
  }

  lemma MarksOfNothing(lines: seq<string>, at: nat, block: seq<string>)
    requires at <= |lines|
    ensures Marks(block) == Marks(lines[at..at]) + Marks(block)
  {
    assert lines[at..at] == [];
  }

  lemma AddedPlatform(marks: seq<Mark>, at: nat, block: seq<Mark>, h: nat, i: nat, q: nat)
    requires HasPlatform(marks, i, q) && PlatformAt(marks, i, q).optionsStart < 0
    requires at == PlatformBlocks(marks, i)[q].stop && OnlyOptions(block, h)
    ensures var m := Inserted(marks, at, block);
            && HasPlatform(m, i, q) && PlatformAt(m, i, q).optionsStart == at + h
            && PlatformAt(m, i, q).optionsEnd == at + |block| - 1
  {
    hide PlatformBlocks, PlatformOf, Inserted;
    OnlyOptionsIsNoBlock(block, h);
    PlatformMoves(marks, at, block, i, q);
    OptionsAppear(marks, PlatformBlocks(marks, i)[q].start, at, block, h);
  }

  lemma AddedLinesAreBlank(lines: seq<string>, at: nat, block: seq<string>, h: nat, p: PlatformSpan)
    requires at <= |lines| && h < |block| && (forall j :: h < j < |block| ==> block[j] == "")
    requires p.optionsStart == at + h && p.optionsEnd == at + |block| - 1
    ensures InFile(Spliced(lines, at, at, block), p)
    ensures forall key :: Get(SectionLines(Spliced(lines, at, at, block), p), key) == None
  {
    var body := SectionLines(Spliced(lines, at, at, block), p);
    assert body == block[h + 1..];
    forall key ensures Get(body, key) == None { NoKeyInBlanks(body, key); }
  }

  // ----- The edit of SetFeishuGroupMode -----

  /** reloadSpan: the indexing is in range because the edit kept the counts. */
  method ReloadSpan(lines: seq<string>, i: nat, q: nat) returns (span: PlatformSpan)
    requires Has(lines, i, q)
    ensures span == Span(lines, i, q)
  {
    hide PlatformAt;
    var spans := BuildRawProjectSpans(lines);
    CountsInIndex(Marks(lines), i);
    PlatformInIndex(Marks(lines), i, q);
    span := spans[i].platforms[q];
  }

  method MakeOptionsBlock(lines: seq<string>, insertAt: nat) returns (block: seq<string>)
    requires insertAt <= |lines|
    ensures block == OptionsBlock(lines, insertAt)
  {
    hide TrimSpace;
    block := [];
    if insertAt > 0 && TrimSpace(lines[insertAt - 1]) != "" {
      block := block + [""];
    }
    block := block + [OPTIONS_HEADER];
    if insertAt < |lines| && TrimSpace(lines[insertAt]) != "" {
      block := block + [""];
    }
  }

  method AddOptionsSection(lines: seq<string>, i: nat, q: nat, span: PlatformSpan) returns (r: seq<string>)
    requires Has(lines, i, q) && span == Span(lines, i, q)
    ensures r == WithOptionsBlock(lines, i, q)
  {
    hide Marks, OptionsBlock, WithLines;
    SpanInBlock(lines, i, q);
    var block := MakeOptionsBlock(lines, span.end + 1);
    r := InsertLines(lines, span.end + 1, block);
  }

  lemma GroupKeysAreBare()
    ensures BareKey(PUBLIC_KEY) && BareKey(ADMIN_KEY) && PUBLIC_KEY != ADMIN_KEY
  {
    assert |PUBLIC_KEY| != |ADMIN_KEY|;
  }

  /**
   What the group mode edit leaves in the file: both lists as given, every other setting of the section, and every
   line that is not under the platform's options header, as it was.
   */
  ghost predicate GroupListsWritten(lines: seq<string>, r: seq<string>, i: nat, q: nat, publicNext: string, adminNext: string)
    requires Has(lines, i, q)
  {
    && ChangesOptionsOnly(lines, r, i, q)
    && OptionLines(r, i, q) == Put(Put(BodyOrNew(lines, i, q), PUBLIC_KEY, Quote(publicNext)), ADMIN_KEY, Quote(adminNext))
    && Get(OptionLines(r, i, q), PUBLIC_KEY) == Some(Quote(publicNext))
    && Get(OptionLines(r, i, q), ADMIN_KEY) == Some(Quote(adminNext))
    && (forall key :: BareKey(key) && key != PUBLIC_KEY && key != ADMIN_KEY ==>
          Get(OptionLines(r, i, q), key) == Get(OptionLines(lines, i, q), key))
  }

  /** The file is `lines`, possibly with an empty options section added to the platform. */
  ghost predicate Ready(lines: seq<string>, base: seq<string>, i: nat, q: nat)
    requires Has(lines, i, q)
  {
    && ChangesOptionsOnly(lines, base, i, q) && OptionLines(base, i, q) == BodyOrNew(lines, i, q)
    && (forall key :: Get(OptionLines(base, i, q), key) == Get(OptionLines(lines, i, q), key))
  }

  lemma ReadyAsIs(lines: seq<string>, i: nat, q: nat)
    requires Has(lines, i, q) && Span(lines, i, q).optionsStart >= 0
    ensures Ready(lines, lines, i, q)
  {
    hide Get;
  }

  lemma ReadyAdded(lines: seq<string>, i: nat, q: nat)
    requires Has(lines, i, q) && Span(lines, i, q).optionsStart < 0
    ensures Ready(lines, WithOptionsBlock(lines, i, q), i, q) && Has(WithOptionsBlock(lines, i, q), i, q)
  {
    hide Keeps, WithOptionsBlock, OptionLines, Get;
    OptionsSectionAppears(lines, i, q);
    NoSectionNoKeys(lines, i, q);
  }

  lemma NoSectionNoKeys(lines: seq<string>, i: nat, q: nat)
    requires Has(lines, i, q) && Span(lines, i, q).optionsStart < 0
    ensures forall key :: Get(OptionLines(lines, i, q), key) == None
  {
    hide Get;
    var body := OptionLines(lines, i, q);
    forall key ensures Get(body, key) == None { NoKeyInBlanks(body, key); }
  }

  lemma UpsertStringIsLens(lines: seq<string>, i: nat, q: nat, key: string, value: string)
    requires Has(lines, i, q) && Span(lines, i, q).optionsStart >= 0 && BareKey(key)
    ensures var r := WithOption(lines, i, q, key, Quote(value));
            && Has(r, i, q) && ChangesOptionsOnly(lines, r, i, q)
            && OptionLines(r, i, q) == Put(OptionLines(lines, i, q), key, Quote(value))
  {
    hide Keeps, Put, WithOption, SectionLines, PlatformAt, Marks;
    QuoteIsNeutral(value);
    UpsertIsLens(lines, i, q, key, Quote(value));
  }

  lemma TwoPuts(body: seq<string>, publicNext: string, adminNext: string, key: string)
    requires BareKey(key)
    ensures var r := Put(Put(body, PUBLIC_KEY, Quote(publicNext)), ADMIN_KEY, Quote(adminNext));
            Get(r, key) == if key == ADMIN_KEY then Some(Quote(adminNext))
                           else if key == PUBLIC_KEY then Some(Quote(publicNext)) else Get(body, key)
  {
    hide Put, Get, Quote;
    GroupKeysAreBare();
    QuoteIsNeutral(publicNext);
    QuoteIsNeutral(adminNext);
    var once := Put(body, PUBLIC_KEY, Quote(publicNext));
    if key == ADMIN_KEY { PutGet(once, key, Quote(adminNext)); } else { PutOther(once, ADMIN_KEY, Quote(adminNext), key); }
    if key == PUBLIC_KEY { PutGet(body, key, Quote(publicNext)); } else { PutOther(body, PUBLIC_KEY, Quote(publicNext), key); }
  }

  /** After both writes a reader finds both lists, and every other key as it was before. */
  lemma GetsAfterTwoPuts(before: seq<string>, base: seq<string>, after: seq<string>, publicNext: string, adminNext: string)
    requires forall key :: Get(base, key) == Get(before, key)
    requires after == Put(Put(base, PUBLIC_KEY, Quote(publicNext)), ADMIN_KEY, Quote(adminNext))
    ensures Get(after, PUBLIC_KEY) == Some(Quote(publicNext)) && Get(after, ADMIN_KEY) == Some(Quote(adminNext))
    ensures forall key :: BareKey(key) && key != PUBLIC_KEY && key != ADMIN_KEY ==> Get(after, key) == Get(before, key)
  {
    hide Put, Get, Quote, BareKey;
    GroupKeysAreBare();
    TwoPuts(base, publicNext, adminNext, PUBLIC_KEY);
    TwoPuts(base, publicNext, adminNext, ADMIN_KEY);
    forall key | BareKey(key) && key != PUBLIC_KEY && key != ADMIN_KEY ensures Get(after, key) == Get(before, key) {
      TwoPuts(base, publicNext, adminNext, key);
    }
  }

  lemma HasIsInRange(lines: seq<string>, i: nat, q: nat)
    ensures var spans := SpansOf(Marks(lines));
            Has(lines, i, q) <==> i < |spans| && q < |spans[i].platforms|
  {
    hide PlatformBlocks, ProjectBlocks, Marks;
    CountsInIndex(Marks(lines), i);
  }

  /** The raw edit of SetFeishuGroupMode: both lists of one platform are written, a missing section is added first. */
  method WriteGroupLists(lines: seq<string>, projectIdx: nat, absIdx: nat, publicNext: string, adminNext: string)
    returns (res: Option<seq<string>>)
    ensures res.Some? <==> Has(lines, projectIdx, absIdx)
    ensures res.Some? ==> GroupListsWritten(lines, res.value, projectIdx, absIdx, publicNext, adminNext)
  {
    hide Keeps, Get, Put, Has, PlatformAt, WithOptionsBlock, SectionLines, BareKey, ValueText, Marks, SpansOf, Quote;
    hide Upserted, OptionLines, BodyOrNew, LinesBefore, LinesAfter;
    var r := lines;
    var spans := BuildRawProjectSpans(r);
    HasIsInRange(lines, projectIdx, absIdx);
    if projectIdx >= |spans| {
      return None;
    }
    if absIdx >= |spans[projectIdx].platforms| {
      return None;
    }
    PlatformInIndex(Marks(r), projectIdx, absIdx);
    var span := spans[projectIdx].platforms[absIdx];
    if span.optionsStart < 0 {
      ReadyAdded(lines, projectIdx, absIdx);
      r := AddOptionsSection(r, projectIdx, absIdx, span);
      span := ReloadSpan(r, projectIdx, absIdx);
    } else {
      ReadyAsIs(lines, projectIdx, absIdx);
    }
    ghost var base := r;
    GroupKeysAreBare();
    UpsertStringIsLens(r, projectIdx, absIdx, PUBLIC_KEY, publicNext);
    r := UpsertTomlStringKey(r, span.optionsStart + 1, span.optionsEnd, PUBLIC_KEY, publicNext);
    span := ReloadSpan(r, projectIdx, absIdx);
    ghost var once := r;
    UpsertStringIsLens(r, projectIdx, absIdx, ADMIN_KEY, adminNext);
    r := UpsertTomlStringKey(r, span.optionsStart + 1, span.optionsEnd, ADMIN_KEY, adminNext);
    GetsAfterTwoPuts(OptionLines(lines, projectIdx, absIdx), OptionLines(base, projectIdx, absIdx),
                     OptionLines(r, projectIdx, absIdx), publicNext, adminNext);
    ChangesOptionsOnlyTransitive(lines, base, once, projectIdx, absIdx);
    ChangesOptionsOnlyTransitive(lines, once, r, projectIdx, absIdx);
    res := Some(r);
  }
}
