/** SetFeishuGroupMode from the requested mode to the written lines (config/config.go). */
module GroupModeEdit {
  import opened Wrappers
  import opened Strings
  import opened TomlLine
  import opened TomlEdit
  import opened TomlConfig
  import opened TomlOptions
  import opened TomlFile
  import opened FormatToml
  import opened TomlOutline
  import opened TomlFormat
  import opened TomlEdited
  import opened CommaList
  import opened GroupModes

  datatype Outcome =
    | ChatIdMissing
    | InvalidMode
    | NotInFile
    | Written(text: string, lines: seq<string>, publicNext: string, adminNext: string,
              publicAdded: bool, adminAdded: bool, publicRemoved: bool, adminRemoved: bool)

  /** The request is the word, in any case and with blanks around it. */
  predicate Asks(mode: string, word: string) {
    InAnyCase(TrimSpace(mode), word)
  }

  predicate AsksPublic(mode: string) {
    Asks(mode, "public") || Asks(mode, "public_group")
  }

  predicate AsksAdmin(mode: string) {
    Asks(mode, "admin") || Asks(mode, "admin_group")
  }

  predicate AsksNothing(mode: string) {
    forall word :: word in ["public", "public_group", "admin", "admin_group"] ==> !Asks(mode, word)
  }

  /** The four words ask for two modes, and no request asks for both. */
  lemma ModesAreWords(mode: string)
    ensures Lower(TrimSpace(mode)) in ["public", "public_group"] <==> AsksPublic(mode)
    ensures Lower(TrimSpace(mode)) in ["admin", "admin_group"] <==> AsksAdmin(mode)
    ensures !(AsksPublic(mode) && AsksAdmin(mode))
    ensures !AsksPublic(mode) && !AsksAdmin(mode) <==> AsksNothing(mode)
  {
    hide Lower, InAnyCase, TrimSpace;
    var s := TrimSpace(mode);
    LowerIs(s, "public");
    LowerIs(s, "public_group");
    LowerIs(s, "admin");
    LowerIs(s, "admin_group");
    assert "public"[0] != "admin"[0] && "public_group"[0] != "admin_group"[0];
    assert "public"[0] != "admin_group"[0] && "public_group"[0] != "admin"[0];
  }

  /** Whether the id is new to the list once it was removed from it. */
  predicate Adds(list: string, id: string) {
    Merged(Removed(list, id).0, id).1
  }

  /** An id counts as added exactly when the list, from which it was removed first, has no "*". */
  lemma AddsIs(list: string, id: string)
    requires IsChatId(id)
    ensures Adds(list, id) <==> "*" !in Items(list)
  {
    hide Merged, Removed, Items, Contains, Without, EqualFold, TrimSpace;
    var key := TrimSpace(id);
    StarIsNoId(key);
    RemovedItems(list, id);
    StarItems(list);
    WithoutItem(Items(list), key);
    MergedItems(Removed(list, id).0, id);
  }

  // ----- From file to file -----

  const LEGACY_KEY := "allow_group_chats"

  /** What a later call reads as the value of an option; "" when it is absent or no string. */
  ghost function ReadOption(body: seq<string>, key: string): string {
    var text := Get(body, key);
    if text == None || Unquote(text.value) == None then "" else Unquote(text.value).value
  }

  ghost function ListsIn(lines: seq<string>, i: nat, q: nat): Lists
    requires Has(lines, i, q)
  {
    var body := OptionLines(lines, i, q);
    Lists(ReadOption(body, PUBLIC_KEY), ReadOption(body, LEGACY_KEY), ReadOption(body, ADMIN_KEY))
  }

  lemma LegacyKeyIsAnother()
    ensures BareKey(LEGACY_KEY) && LEGACY_KEY != PUBLIC_KEY && LEGACY_KEY != ADMIN_KEY
  {
    assert LEGACY_KEY[1] != ADMIN_KEY[1];
    assert LEGACY_KEY[1] != PUBLIC_KEY[1];
  }

  lemma ReadWritten(body: seq<string>, key: string, value: string)
    requires Get(body, key) == Some(Quote(value))
    ensures ReadOption(body, key) == value <==> Readable(value)
  {
    hide Get, Quote, Unquote;
    UnquoteQuote(value);
  }

  lemma SameRead(before: seq<string>, after: seq<string>, key: string)
    requires Get(after, key) == Get(before, key)
    ensures ReadOption(after, key) == ReadOption(before, key)
  {
  }

  lemma EditedListsRead(lines: seq<string>, r: seq<string>, i: nat, q: nat, publicNext: string, adminNext: string)
    requires Has(lines, i, q)
    ensures GroupListsWritten(lines, r, i, q, publicNext, adminNext) ==>
              Has(r, i, q) && OptionContent(r, i, q) != [] &&
              (ListsIn(r, i, q) == Lists(publicNext, ListsIn(lines, i, q).legacy, adminNext) <==>
               Readable(publicNext) && Readable(adminNext))
  {
    hide Get, Put, Quote, Unquote, OptionLines, BodyOrNew, LinesBefore, LinesAfter, Span, BareKey, ReadOption, Readable, Content;
    if GroupListsWritten(lines, r, i, q, publicNext, adminNext) {
      var before, after := OptionLines(lines, i, q), OptionLines(r, i, q);
      LegacyKeyIsAnother();
      SameRead(before, after, LEGACY_KEY);
      ReadWritten(after, PUBLIC_KEY, publicNext);
      ReadWritten(after, ADMIN_KEY, adminNext);
      GetOfContent(after, PUBLIC_KEY);
      NothingToGet(PUBLIC_KEY);
    }
  }

  lemma NothingToGet(key: string)
    ensures Get([], key) == None
  {
  }

  lemma FormatKeepsLists(r: seq<string>, i: nat, q: nat)
    requires Has(r, i, q) && !LosesBlock(r) && OptionContent(r, i, q) != []
    ensures Has(FormatLines(r), i, q) && ListsIn(FormatLines(r), i, q) == ListsIn(r, i, q)
  {
    hide Get, OptionLines, Has, FormatLines, LosesBlock, OptionContent, ReadOption;
    FormatKeepsValues(r, i, q, PUBLIC_KEY);
    FormatKeepsValues(r, i, q, LEGACY_KEY);
    FormatKeepsValues(r, i, q, ADMIN_KEY);
    var before, after := OptionLines(r, i, q), OptionLines(FormatLines(r), i, q);
    SameRead(before, after, PUBLIC_KEY);
    SameRead(before, after, LEGACY_KEY);
    SameRead(before, after, ADMIN_KEY);
  }

  /**
   The written file is the formatted one. If formatting loses no project or platform header of the file, which can be
   told before the call, it gives both new lists back exactly when they can be written as TOML strings, the legacy list
   as it was, and nothing is lost the next time.
   */
  lemma WrittenListsReadBack(lines: seq<string>, r: seq<string>, i: nat, q: nat, publicNext: string, adminNext: string)
    requires Has(lines, i, q) && !LosesBlock(lines)
    ensures GroupListsWritten(lines, r, i, q, publicNext, adminNext) ==>
              && Has(FormatLines(r), i, q) && !LosesBlock(FormatLines(r))
              && (ListsIn(FormatLines(r), i, q) == Lists(publicNext, ListsIn(lines, i, q).legacy, adminNext) <==>
                  Readable(publicNext) && Readable(adminNext))
  {
    hide ListsIn, Has, Readable, LosesBlock, FormatLines, OptionContent, Put, Get, BodyOrNew, OptionLines, ChangesOptionsOnly;
    if GroupListsWritten(lines, r, i, q, publicNext, adminNext) {
      EditedListsRead(lines, r, i, q, publicNext, adminNext);
      EditKeepsBlocks(lines, r, i, q);
      FormatKeepsLists(r, i, q);
      FormattedLosesNothing(r);
    }
  }

  /** The written file has the projects and platforms of the old one exactly when formatting loses no header of theirs. */
  lemma WrittenFileKeepsCounts(lines: seq<string>, r: seq<string>, i: nat, q: nat, publicNext: string, adminNext: string)
    requires Has(lines, i, q)
    ensures GroupListsWritten(lines, r, i, q, publicNext, adminNext) ==>
              (SameCounts(lines, FormatLines(r)) <==> !LosesBlock(lines))
  {
    hide Has, LosesBlock, FormatLines, Put, Get, BodyOrNew, OptionLines, LinesBefore, LinesAfter, SurroundingsKept, OthersKept;
    if GroupListsWritten(lines, r, i, q, publicNext, adminNext) {
      EditKeepsBlocks(lines, r, i, q);
      FormatKeepsCounts(r);
      CountsCompare(lines, r, FormatLines(r));
    }
  }

  /** In the written file every other platform's options read as before, if they say anything. */
  lemma OthersReadBack(lines: seq<string>, r: seq<string>, i: nat, q: nat, publicNext: string, adminNext: string,
                       i2: nat, q2: nat)
    requires Has(lines, i, q) && !LosesBlock(lines)
    requires Has(lines, i2, q2) && (i2 != i || q2 != q) && OptionContent(lines, i2, q2) != []
    ensures GroupListsWritten(lines, r, i, q, publicNext, adminNext) ==>
              Has(FormatLines(r), i2, q2) && OptionContent(FormatLines(r), i2, q2) == OptionContent(lines, i2, q2)
  {
    hide Has, LosesBlock, FormatLines, Put, Get, BodyOrNew, OptionLines, Content, LinesBefore, LinesAfter, SurroundingsKept;
    if GroupListsWritten(lines, r, i, q, publicNext, adminNext) {
      EditKeepsBlocks(lines, r, i, q);
      assert Has(r, i2, q2) && OptionLines(r, i2, q2) == OptionLines(lines, i2, q2);
      FormatKeepsOptions(r, i2, q2);
    }
  }

  /** A call on the lists of the file is one `GroupModes.Set` on them: what the next call reads is what `Set` gives. */
  lemma EditIsSet(lines: seq<string>, r: seq<string>, i: nat, q: nat, chatId: string, toPublic: bool)
    requires Has(lines, i, q) && !LosesBlock(lines)
    ensures var next := Set(ListsIn(lines, i, q), chatId, toPublic);
            GroupListsWritten(lines, r, i, q, next.publicList, next.adminList) &&
            Readable(next.publicList) && Readable(next.adminList) ==>
              Has(FormatLines(r), i, q) && !LosesBlock(FormatLines(r)) && ListsIn(FormatLines(r), i, q) == next
  {
    hide GroupListsWritten, ListsIn, Readable, NextLists, FormatLines, LosesBlock;
    var next := Set(ListsIn(lines, i, q), chatId, toPublic);
    WrittenListsReadBack(lines, r, i, q, next.publicList, next.adminList);
  }

  // ----- Sequences of calls on the file -----

  predicate ReadableLists(l: Lists) {
    Readable(l.publicList) && Readable(l.adminList)
  }

  /** One call takes the file from `lines` to `next`. */
  ghost predicate CallWrites(lines: seq<string>, next: seq<string>, i: nat, q: nat, call: Call) {
    && Has(lines, i, q)
    && var l := Set(ListsIn(lines, i, q), call.id, call.toPublic);
       exists r :: GroupListsWritten(lines, r, i, q, l.publicList, l.adminList) && next == FormatLines(r)
  }

  lemma OneCall(lines: seq<string>, next: seq<string>, i: nat, q: nat, call: Call)
    requires Has(lines, i, q) && !LosesBlock(lines) && CallWrites(lines, next, i, q, call)
    ensures var l := Set(ListsIn(lines, i, q), call.id, call.toPublic);
            ReadableLists(l) ==> Has(next, i, q) && !LosesBlock(next) && ListsIn(next, i, q) == l
  {
    hide GroupListsWritten, ListsIn, Readable, Set, FormatLines, LosesBlock, Has;
    var l := Set(ListsIn(lines, i, q), call.id, call.toPublic);
    var r :| GroupListsWritten(lines, r, i, q, l.publicList, l.adminList) && next == FormatLines(r);
    EditIsSet(lines, r, i, q, call.id, call.toPublic);
  }

  /**
   From a file whose project and platform headers survive formatting, through any sequence of calls for one platform,
   the lists in the file are those of `GroupModes.Run`, so that its exclusiveness results hold for the file.
   */
  lemma {:induction false} FilesFollowRun(files: seq<seq<string>>, calls: seq<Call>, i: nat, q: nat, n: nat)
    requires |files| == |calls| + 1 && n <= |calls| && Has(files[0], i, q) && !LosesBlock(files[0])
    requires forall k: nat :: k < n ==> CallWrites(files[k], files[k + 1], i, q, calls[k])
    requires forall k: nat :: 0 < k <= n ==> ReadableLists(GroupModes.Run(ListsIn(files[0], i, q), calls[..k]))
    ensures Has(files[n], i, q) && !LosesBlock(files[n])
    ensures ListsIn(files[n], i, q) == GroupModes.Run(ListsIn(files[0], i, q), calls[..n])
  {
    hide ListsIn, Readable, Set, LosesBlock, Has, CallWrites;
    if n == 0 {
      assert calls[..0] == [];
    } else {
      FilesFollowRun(files, calls, i, q, n - 1);
      RunSnoc(ListsIn(files[0], i, q), calls, n - 1);
      assert CallWrites(files[n - 1], files[n], i, q, calls[n - 1]);
      OneCall(files[n - 1], files[n], i, q, calls[n - 1]);
    }
  }

  /**
   End to end: the lists read back from the written file hold the id in the requested mode exactly when that list had
   no "*", and in the other mode exactly when it returns through the legacy list.
   */
  lemma WrittenListsAreExclusive(lines: seq<string>, r: seq<string>, i: nat, q: nat, chatId: string, toPublic: bool)
    requires Has(lines, i, q) && IsChatId(chatId) && !LosesBlock(lines)
    ensures var l, next := ListsIn(lines, i, q), Set(ListsIn(lines, i, q), chatId, toPublic);
            GroupListsWritten(lines, r, i, q, next.publicList, next.adminList) &&
            Readable(next.publicList) && Readable(next.adminList) ==>
              && Has(FormatLines(r), i, q)
              && var after, key := ListsIn(FormatLines(r), i, q), TrimSpace(chatId);
                 if toPublic then (InPublic(after, key) <==> "*" !in Items(PublicRead(l))) && !InAdmin(after, key)
                 else (InAdmin(after, key) <==> "*" !in Items(l.adminList)) &&
                      (InPublic(after, key) <==> Returns(l, chatId, toPublic))
  {
    hide GroupListsWritten, ListsIn, Readable, Set, Items, InAdmin, InPublic, Returns, PublicRead, FormatLines, LosesBlock;
    EditIsSet(lines, r, i, q, chatId, toPublic);
    SetIsExclusive(ListsIn(lines, i, q), chatId, toPublic);
  }

  lemma SplitHasNoNewline(raw: string)
    ensures NoneContains(SplitConfigLines(raw).0, '\n')
  {
    JoinSplit(if EndsWithNewline(raw) then raw[..|raw| - 1] else raw, '\n');
  }

  /** The lists after the change of mode, and what was added and removed. */
  method ChangeLists(publicOption: string, legacyOption: string, adminOption: string, id: string, toPublic: bool)
    returns (publicNext: string, adminNext: string,
             publicAdded: bool, adminAdded: bool, publicRemoved: bool, adminRemoved: bool)
    requires TrimSpace(id) == id
    ensures var next := Set(Lists(publicOption, legacyOption, adminOption), id, toPublic);
            publicNext == next.publicList && adminNext == next.adminList
    ensures (publicRemoved, adminRemoved) ==
            (Removed(PublicList(publicOption, legacyOption), id).1, Removed(TrimSpace(adminOption), id).1)
    ensures (publicAdded, adminAdded) ==
            (toPublic && Adds(PublicList(publicOption, legacyOption), id), !toPublic && Adds(TrimSpace(adminOption), id))
  {
    hide TrimSpace, Merged, Removed;
    var publicCurrent := TrimSpace(publicOption);
    if publicCurrent == "" {
      publicCurrent := TrimSpace(legacyOption);
    }
    var adminCurrent := TrimSpace(adminOption);
    publicNext, publicRemoved := RemoveCommaSeparatedValue(publicCurrent, id);
    adminNext, adminRemoved := RemoveCommaSeparatedValue(adminCurrent, id);
    publicAdded, adminAdded := false, false;
    if toPublic {
      publicNext, publicAdded := MergeCommaSeparatedValue(publicNext, id);
    } else {
      adminNext, adminAdded := MergeCommaSeparatedValue(adminNext, id);
    }
  }

  /** What the next call reads, in terms of the text that is written. */
  lemma TextReadsBack(raw: string, r: seq<string>, i: nat, q: nat, publicNext: string, adminNext: string)
    requires Has(SplitConfigLines(raw).0, i, q)
    requires GroupListsWritten(SplitConfigLines(raw).0, r, i, q, publicNext, adminNext)
    ensures SplitConfigLines(WrittenText(r, SplitConfigLines(raw).1)).0 == FormatLines(r)
  {
    hide Has, GroupListsWritten, FormatLines, SplitConfigLines, WrittenText;
    SplitHasNoNewline(raw);
    EditHasNoNewline(SplitConfigLines(raw).0, r, i, q, publicNext, adminNext);
    WrittenReadsBack(r, SplitConfigLines(raw).1);
  }

  /** writeRawConfig on joined lines, up to the write. */
  method TextToWrite(lines: seq<string>, hadTrailing: bool) returns (text: string)
    ensures text == WrittenText(lines, hadTrailing)
  {
    text := FormatTOML(JoinConfigLines(lines, hadTrailing));
  }

  /** The whole edit, from the text of the file to the text that is written. */
  method SetFeishuGroupMode(raw: string, projectIdx: nat, absIdx: nat, publicOption: string, legacyOption: string,
                            adminOption: string, chatId: string, mode: string)
    returns (res: Outcome)
    ensures res.ChatIdMissing? <==> TrimSpace(chatId) == ""
    ensures res.InvalidMode? <==> TrimSpace(chatId) != "" && AsksNothing(mode)
    ensures res.Written? && IsChatId(chatId) ==>
              && (Asks(mode, "public") || Asks(mode, "public_group") ==>
                    && !Contains(Items(res.adminNext), TrimSpace(chatId))
                    && (Contains(Items(res.publicNext), TrimSpace(chatId)) <==>
                        "*" !in Items(PublicList(publicOption, legacyOption))))
              && (Asks(mode, "admin") || Asks(mode, "admin_group") ==>
                    && !Contains(Items(res.publicNext), TrimSpace(chatId))
                    && (Contains(Items(res.adminNext), TrimSpace(chatId)) <==> "*" !in Items(adminOption)))
    ensures res.NotInFile? ==> !Has(SplitConfigLines(raw).0, projectIdx, absIdx)
    ensures res.Written? ==>
              && res.publicNext == Set(Lists(publicOption, legacyOption, adminOption), chatId, AsksPublic(mode)).publicList
              && res.adminNext == Set(Lists(publicOption, legacyOption, adminOption), chatId, AsksPublic(mode)).adminList
              && (res.publicRemoved, res.adminRemoved) ==
                 (Removed(PublicList(publicOption, legacyOption), TrimSpace(chatId)).1,
                  Removed(TrimSpace(adminOption), TrimSpace(chatId)).1)
              && (res.publicAdded, res.adminAdded) ==
                 (AsksPublic(mode) && Adds(PublicList(publicOption, legacyOption), TrimSpace(chatId)),
                  !AsksPublic(mode) && Adds(TrimSpace(adminOption), TrimSpace(chatId)))
              && Has(SplitConfigLines(raw).0, projectIdx, absIdx)
              && GroupListsWritten(SplitConfigLines(raw).0, res.lines, projectIdx, absIdx, res.publicNext, res.adminNext)
              && res.text == WrittenText(res.lines, SplitConfigLines(raw).1)
              && SplitConfigLines(res.text).0 == FormatLines(res.lines)
    ensures var lines, next := SplitConfigLines(raw).0, FormatLines(if res.Written? then res.lines else []);
            res.Written? && Readable(res.publicNext) && Readable(res.adminNext) && !LosesBlock(lines) &&
            ListsIn(lines, projectIdx, absIdx) == Lists(publicOption, legacyOption, adminOption) ==>
              && Has(next, projectIdx, absIdx)
              && ListsIn(next, projectIdx, absIdx) == Set(ListsIn(lines, projectIdx, absIdx), chatId, AsksPublic(mode))
  {
    hide TrimSpace, Lower, GroupListsWritten, Has, ListsIn, Readable, FormatLines, Formatted, LosesBlock;
    hide SplitConfigLines, JoinConfigLines, Set, Removed, Adds, PublicList, IsChatId, Contains, Items, WrittenText;
    hide Asks, AsksPublic, AsksAdmin, AsksNothing;
    var id := TrimSpace(chatId);
    if id == "" {
      return ChatIdMissing;
    }
    ModesAreWords(mode);
    var m := Lower(TrimSpace(mode));
    var toPublic := m == "public" || m == "public_group";
    if !toPublic && m != "admin" && m != "admin_group" {
      return InvalidMode;
    }
    TrimTwice(chatId);
    SetTrimmed(Lists(publicOption, legacyOption, adminOption), chatId, toPublic);
    if IsChatId(chatId) { ListsHold(publicOption, legacyOption, adminOption, chatId, mode); }
    var publicNext, adminNext, publicAdded, adminAdded, publicRemoved, adminRemoved :=
      ChangeLists(publicOption, legacyOption, adminOption, id, toPublic);
    var (lines, hadTrailing) := SplitConfigLines(raw);
    var edited := WriteGroupLists(lines, projectIdx, absIdx, publicNext, adminNext);
    if edited == None {
      return NotInFile;
    }
    var text := TextToWrite(edited.value, hadTrailing);
    TextReadsBack(raw, edited.value, projectIdx, absIdx, publicNext, adminNext);
    if !LosesBlock(lines) { EditIsSet(lines, edited.value, projectIdx, absIdx, chatId, toPublic); }
    res := Written(text, edited.value, publicNext, adminNext, publicAdded, adminAdded, publicRemoved, adminRemoved);
  }

  /** Which of the two written lists holds the id, for the words of the two modes. */
  lemma ListsHold(publicOption: string, legacyOption: string, adminOption: string, chatId: string, mode: string)
    requires IsChatId(chatId)
    ensures var next := Set(Lists(publicOption, legacyOption, adminOption), chatId, AsksPublic(mode));
            && (Asks(mode, "public") || Asks(mode, "public_group") ==>
                  && !Contains(Items(next.adminList), TrimSpace(chatId))
                  && (Contains(Items(next.publicList), TrimSpace(chatId)) <==>
                      "*" !in Items(PublicList(publicOption, legacyOption))))
            && (Asks(mode, "admin") || Asks(mode, "admin_group") ==>
                  && !Contains(Items(next.publicList), TrimSpace(chatId))
                  && (Contains(Items(next.adminList), TrimSpace(chatId)) <==> "*" !in Items(adminOption)))
  {
    hide Contains, Items, TrimSpace, GroupMode, Asks;
    ModesAreWords(mode);
    TrimTwice(chatId);
    ItemsTrimmed(adminOption);
    var publicList, adminList := PublicList(publicOption, legacyOption), TrimSpace(adminOption);
    if AsksPublic(mode) { GroupModeIsExclusive(publicList, adminList, TrimSpace(chatId)); }
    else { GroupModeIsExclusive(adminList, publicList, TrimSpace(chatId)); }
  }

  lemma SetTrimmed(l: Lists, id: string, toPublic: bool)
    ensures Set(l, TrimSpace(id), toPublic) == Set(l, id, toPublic)
  {
    TrimTwice(id);
  }
}
