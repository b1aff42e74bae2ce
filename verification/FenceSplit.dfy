/** SplitMessageCodeFenceAware: cutting a message into chunks that keep code fences intact (core/markdown.go). */
module FenceSplit {
  import opened Strings

  const FENCE := "```"

  // ----- Reading fences -----

  predicate IsFence(line: string) {
    |TrimSpace(line)| >= 3 && TrimSpace(line)[..3] == FENCE
  }

  /** The open fence after `line`; "" when none is open. */
  function Fence(open: string, line: string): string {
    if !IsFence(line) then open else if open != "" then "" else TrimSpace(line)
  }

  function FenceAfter(open: string, lines: seq<string>): string {
    if lines == [] then open else Fence(FenceAfter(open, lines[..|lines| - 1]), lines[|lines| - 1])
  }

  /** Each line with the fence it stands in. */
  function Labels(open: string, lines: seq<string>): (r: seq<(string, string)>)
    ensures |r| == |lines|
  {
    if lines == [] then []
    else
      var init := lines[..|lines| - 1];
      Labels(open, init) + [(FenceAfter(open, init), lines[|lines| - 1])]
  }

  // ----- Chunks -----

  /** A chunk: original lines, the fence reopened before them, and whether a fence is closed after them. */
  datatype Piece = Piece(reopen: string, lines: seq<string>, close: bool)

  function Head(reopen: string): seq<string> {
    if reopen == "" then [] else [reopen]
  }

  function Body(p: Piece): seq<string> {
    Head(p.reopen) + p.lines + if p.close then [FENCE] else []
  }

  function Render(p: Piece): string {
    Join(Body(p), '\n')
  }

  function RenderAll(pieces: seq<Piece>): seq<string> {
    if pieces == [] then [] else RenderAll(pieces[..|pieces| - 1]) + [Render(pieces[|pieces| - 1])]
  }

  /** Bytes of the lines, each with its newline. */
  function Width(lines: seq<string>): nat {
    if lines == [] then 0 else Width(lines[..|lines| - 1]) + Bytes(lines[|lines| - 1]) + 1
  }

  datatype State = State(pieces: seq<Piece>, reopen: string, lines: seq<string>, open: string)

  function Current(st: State): seq<string> {
    Head(st.reopen) + st.lines
  }

  function LastPiece(st: State): Piece {
    Piece(st.reopen, st.lines, st.open != "")
  }

  function Limit(open: string, maxLen: int): int {
    if open != "" then maxLen - 4 else maxLen
  }

  predicate Full(st: State, line: string, maxLen: int) {
    Width(Current(st)) + Bytes(line) + 1 > Limit(st.open, maxLen) && Current(st) != []
  }

  function Flushed(st: State): State {
    State(st.pieces + [LastPiece(st)], st.open, [], st.open)
  }

  function AddLine(st: State, line: string): State {
    st.(lines := st.lines + [line], open := Fence(st.open, line))
  }

  function Step(st: State, line: string, maxLen: int): State {
    AddLine(if Full(st, line, maxLen) then Flushed(st) else st, line)
  }

  function Run(lines: seq<string>, n: nat, maxLen: int): State
    requires n <= |lines|
  {
    if n == 0 then State([], "", [], "") else Step(Run(lines, n - 1, maxLen), lines[n - 1], maxLen)
  }

  function Finished(st: State): seq<Piece> {
    if Current(st) != [] then st.pieces + [LastPiece(st)] else st.pieces
  }

  /** The chunks of a text that has to be split. */
  function Pieces(text: string, maxLen: int): seq<Piece> {
    var lines := Split(text, '\n');
    Finished(Run(lines, |lines|, maxLen))
  }

  lemma {:induction false} JoinSnoc(parts: seq<string>, last: string, sep: char)
    requires parts != []
    ensures Join(parts + [last], sep) == Join(parts, sep) + [sep] + last
  {
    assert (parts + [last])[1..] == parts[1..] + [last];
    if |parts| > 1 { JoinSnoc(parts[1..], last, sep); }
  }

  lemma WidthSnoc(lines: seq<string>, line: string)
    ensures Width(lines + [line]) == Width(lines) + Bytes(line) + 1
  {
    assert (lines + [line])[..|lines|] == lines;
  }

  lemma RenderSnoc(pieces: seq<Piece>, p: Piece)
    ensures RenderAll(pieces + [p]) == RenderAll(pieces) + [Render(p)]
  {
    assert (pieces + [p])[..|pieces|] == pieces;
  }

  /** The text of the current chunk, closed when a fence is open. */
  method Emit(ghost st: State, current: seq<string>, openFence: string) returns (chunk: string)
    requires current == Current(st) != [] && openFence == st.open
    ensures chunk == Render(LastPiece(st))
  {
    chunk := Join(current, '\n');
    if openFence != "" {
      JoinSnoc(current, FENCE, '\n');
      chunk := chunk + "\n```";
    } else {
      assert current + [] == current;
    }
  }

  method NextFence(openFence: string, line: string) returns (r: string)
    ensures r == Fence(openFence, line)
  {
    r := openFence;
    var trimmed := TrimSpace(line);
    if |trimmed| >= 3 && trimmed[..3] == FENCE {
      if openFence != "" {
        r := "";
      } else {
        r := trimmed;
      }
    }
  }

  method SplitMessageCodeFenceAware(text: string, maxLen: int) returns (chunks: seq<string>)
    ensures chunks == if maxLen <= 0 || Bytes(text) <= maxLen then [text] else RenderAll(Pieces(text, maxLen))
  {
    hide Fence, Width, Render, RenderAll, Split, Finished, Run, Full, Current, LastPiece;
    if maxLen <= 0 || Bytes(text) <= maxLen {
      return [text];
    }
    var lines := Split(text, '\n');
    ghost var st := Run(lines, 0, maxLen);
    StateAtStart(lines, maxLen);
    NothingYet();
    chunks := [];
    var current: seq<string> := [];
    var currentLen := 0;
    var openFence := "";
    for i := 0 to |lines|
      invariant st == Run(lines, i, maxLen)
      invariant chunks == RenderAll(st.pieces) && current == Current(st)
      invariant currentLen == Width(current) && openFence == st.open
    {
      var line := lines[i];
      var lineLen := Bytes(line) + 1;
      var limit := maxLen;
      if openFence != "" {
        limit := limit - 4;
      }
      RunNext(lines, i, maxLen);
      FullIs(st, line, maxLen);
      CurrentAfter(st, line);
      if currentLen + lineLen > limit && |current| > 0 {
        var chunk := Emit(st, current, openFence);
        RenderSnoc(st.pieces, LastPiece(st));
        chunks := chunks + [chunk];
        current := [];
        currentLen := 0;
        if openFence != "" {
          WidthSnoc(current, openFence);
          current := current + [openFence];
          currentLen := Bytes(openFence) + 1;
        }
        st := Flushed(st);
        CurrentAfter(st, line);
      }
      WidthSnoc(current, line);
      current := current + [line];
      currentLen := currentLen + lineLen;
      openFence := NextFence(openFence, line);
      st := AddLine(st, line);
    }
    if |current| > 0 {
      var chunk := Emit(st, current, openFence);
      RenderSnoc(st.pieces, LastPiece(st));
      chunks := chunks + [chunk];
    }
    FinishedIs(st);
  }

  lemma RunNext(lines: seq<string>, i: nat, maxLen: int)
    requires i < |lines|
    ensures Run(lines, i + 1, maxLen) == Step(Run(lines, i, maxLen), lines[i], maxLen)
  {
  }

  lemma FullIs(st: State, line: string, maxLen: int)
    ensures Full(st, line, maxLen) <==>
            Width(Current(st)) + Bytes(line) + 1 > (if st.open != "" then maxLen - 4 else maxLen) && |Current(st)| > 0
  {
  }

  lemma CurrentAfter(st: State, line: string)
    ensures Current(Flushed(st)) == Head(st.open)
    ensures Current(AddLine(st, line)) == Current(st) + [line]
  {
    assert Head(st.open) + [] == Head(st.open);
  }

  lemma StateAtStart(lines: seq<string>, maxLen: int)
    ensures Run(lines, 0, maxLen) == State([], "", [], "") && Current(State([], "", [], "")) == []
  {
  }

  lemma FinishedIs(st: State)
    ensures Finished(st) == if Current(st) != [] then st.pieces + [LastPiece(st)] else st.pieces
  {
  }

  lemma NothingYet()
    ensures Width([]) == 0 && RenderAll([]) == []
  {
  }

  // ----- The meaning is preserved -----

  lemma FenceSnoc(open: string, lines: seq<string>, line: string)
    ensures FenceAfter(open, lines + [line]) == Fence(FenceAfter(open, lines), line)
    ensures Labels(open, lines + [line]) == Labels(open, lines) + [(FenceAfter(open, lines), line)]
  {
    assert (lines + [line])[..|lines|] == lines;
  }

  /** The labelled original lines of all chunks, one chunk after the other. */
  function AllLabels(pieces: seq<Piece>): seq<(string, string)> {
    if pieces == [] then []
    else
      var p := pieces[|pieces| - 1];
      AllLabels(pieces[..|pieces| - 1]) + Labels(p.reopen, p.lines)
  }

  lemma AllLabelsSnoc(pieces: seq<Piece>, p: Piece)
    ensures AllLabels(pieces + [p]) == AllLabels(pieces) + Labels(p.reopen, p.lines)
  {
    assert (pieces + [p])[..|pieces|] == pieces;
  }

  /** A fence as it is kept for reopening, or none. */
  predicate Reopens(fence: string) {
    fence == "" || (IsFence(fence) && TrimSpace(fence) == fence)
  }

  predicate SoundPiece(p: Piece) {
    p.lines != [] && Reopens(p.reopen) && (p.close <==> FenceAfter(p.reopen, p.lines) != "")
  }

  predicate SoundPieces(pieces: seq<Piece>) {
    forall i :: 0 <= i < |pieces| ==> SoundPiece(pieces[i])
  }

  lemma FenceReopens(open: string, line: string)
    requires Reopens(open)
    ensures Reopens(Fence(open, line))
  {
    if IsFence(line) {
      TrimIsTrimmed(line);
      TrimOfTrimmed(TrimSpace(line));
    }
  }

  /** What was read so far, the current chunk included. */
  function Read(st: State): seq<(string, string)> {
    AllLabels(st.pieces + [LastPiece(st)])
  }

  /** The state after some lines: nothing is lost, and the current chunk opens in the right fence. */
  predicate Tracks(st: State, lines: seq<string>) {
    && Read(st) == Labels("", lines)
    && st.open == FenceAfter("", lines) == FenceAfter(st.reopen, st.lines)
    && Reopens(st.reopen) && Reopens(st.open)
    && SoundPieces(st.pieces)
  }

  /** At the head of the loop the current chunk is empty only at the start. */
  predicate AtHead(st: State, lines: seq<string>) {
    Tracks(st, lines) && (st.lines == [] ==> lines == [] && st.pieces == [] && st.reopen == "")
  }

  lemma FlushTracks(st: State, lines: seq<string>)
    requires AtHead(st, lines) && Current(st) != []
    ensures Tracks(Flushed(st), lines)
  {
    hide IsFence, TrimSpace, AllLabels;
    AllLabelsSnoc(st.pieces + [LastPiece(st)], Piece(st.open, [], st.open != ""));
    NoLines(st.open);
  }

  lemma AddTracks(st: State, lines: seq<string>, line: string)
    requires Tracks(st, lines)
    ensures AtHead(AddLine(st, line), lines + [line])
  {
    hide Reopens, Fence, SoundPieces, Labels, FenceAfter, AllLabels;
    FenceSnoc("", lines, line);
    FenceSnoc(st.reopen, st.lines, line);
    FenceReopens(st.open, line);
    AllLabelsSnoc(st.pieces, LastPiece(st));
    AllLabelsSnoc(st.pieces, LastPiece(AddLine(st, line)));
    Associates(AllLabels(st.pieces), Labels(st.reopen, st.lines), [(st.open, line)]);
  }

  lemma Associates(a: seq<(string, string)>, b: seq<(string, string)>, c: seq<(string, string)>)
    ensures a + (b + c) == (a + b) + c
  {
  }

  lemma {:induction false} RunTracks(lines: seq<string>, n: nat, maxLen: int)
    requires n <= |lines|
    ensures AtHead(Run(lines, n, maxLen), lines[..n])
  {
    hide Reopens, Fence, SoundPieces, Labels, FenceAfter, AllLabels, Width;
    NoLabels();
    if n > 0 {
      RunTracks(lines, n - 1, maxLen);
      var st, line := Run(lines, n - 1, maxLen), lines[n - 1];
      assert lines[..n] == lines[..n - 1] + [line];
      if Full(st, line, maxLen) {
        FlushTracks(st, lines[..n - 1]);
        AddTracks(Flushed(st), lines[..n - 1], line);
      } else {
        AddTracks(st, lines[..n - 1], line);
      }
    }
  }

  lemma NoLabels()
    ensures AtHead(State([], "", [], ""), [])
  {
    AllLabelsSnoc([], Piece("", [], false));
    assert [] + [Piece("", [], false)] == [Piece("", [], false)];
  }

  /**
   The chunks hold the lines of the text, each once and in order, and each in the fence it stands in; a chunk
   is closed exactly when its last line leaves a fence open.
   */
  lemma ChunksKeepMeaning(text: string, maxLen: int)
    ensures AllLabels(Pieces(text, maxLen)) == Labels("", Split(text, '\n'))
    ensures SoundPieces(Pieces(text, maxLen))
  {
    hide Fence, Reopens, Split;
    var lines := Split(text, '\n');
    var st := Run(lines, |lines|, maxLen);
    RunTracks(lines, |lines|, maxLen);
    assert lines[..|lines|] == lines;
    AllLabelsSnoc(st.pieces, LastPiece(st));
  }

  // ----- A chunk read on its own -----

  lemma HeadReopens(reopen: string)
    requires Reopens(reopen)
    ensures FenceAfter("", Head(reopen)) == reopen
  {
    FenceSnoc("", [], reopen);
    assert [] + [reopen] == [reopen];
  }

  lemma NoLines(open: string)
    ensures FenceAfter(open, []) == open && Labels(open, []) == []
  {
  }

  lemma {:induction false} HeadLabels(reopen: string, lines: seq<string>)
    requires Reopens(reopen)
    ensures FenceAfter("", Head(reopen) + lines) == FenceAfter(reopen, lines)
    ensures Labels("", Head(reopen) + lines)[|Head(reopen)|..] == Labels(reopen, lines)
  {
    hide Fence, Labels, FenceAfter, Reopens, Head;
    if lines == [] {
      NoLines(reopen);
      HeadReopens(reopen);
      assert Head(reopen) + [] == Head(reopen);
    } else {
      var init, line := lines[..|lines| - 1], lines[|lines| - 1];
      HeadLabels(reopen, init);
      FenceSnoc("", Head(reopen) + init, line);
      FenceSnoc(reopen, init, line);
      assert Head(reopen) + init + [line] == Head(reopen) + lines && init + [line] == lines;
    }
  }

  lemma ClosingFence()
    ensures IsFence(FENCE)
  {
    TrimOfTrimmed(FENCE);
  }

  /** A reader of one chunk sees the original lines in the fences they stand in, and no fence is left open. */
  lemma ChunkReadsAlone(p: Piece)
    requires SoundPiece(p)
    ensures var h := |Head(p.reopen)|;
            Labels("", Body(p))[h..h + |p.lines|] == Labels(p.reopen, p.lines)
    ensures FenceAfter("", Body(p)) == ""
  {
    hide IsFence, Labels;
    var front := Head(p.reopen) + p.lines;
    HeadLabels(p.reopen, p.lines);
    if p.close {
      ClosingFence();
      FenceSnoc("", front, FENCE);
    } else {
      assert Body(p) == front;
    }
  }

  predicate OneLine(s: string) {
    '\n' !in s
  }

  /** The text of a chunk splits into the lines it was built from. */
  lemma RenderedBody(p: Piece)
    requires p.lines != [] && OneLine(p.reopen) && NoneContains(p.lines, '\n')
    ensures Split(Render(p), '\n') == Body(p)
  {
    assert NoneContains(Body(p), '\n');
    SplitJoin(Body(p), '\n');
  }

  predicate OneLiners(pieces: seq<Piece>) {
    forall i :: 0 <= i < |pieces| ==> OneLine(pieces[i].reopen) && NoneContains(pieces[i].lines, '\n')
  }

  lemma {:induction false} RunOneLiners(lines: seq<string>, n: nat, maxLen: int)
    requires NoneContains(lines, '\n') && n <= |lines|
    ensures var st := Run(lines, n, maxLen);
            OneLiners(st.pieces) && OneLine(st.reopen) && OneLine(st.open) && NoneContains(st.lines, '\n')
  {
    hide IsFence, Width, Full, Current;
    if n > 0 {
      RunOneLiners(lines, n - 1, maxLen);
      TrimIsTrimmed(lines[n - 1]);
    }
  }

  /** Each chunk, as text, splits into the reopened fence, its lines of the original and the closing fence. */
  lemma ChunksAreReadable(text: string, maxLen: int, i: nat)
    requires i < |Pieces(text, maxLen)|
    ensures var p := Pieces(text, maxLen)[i];
            SoundPiece(p) && Split(Render(p), '\n') == Body(p) && FenceAfter("", Split(Render(p), '\n')) == ""
  {
    hide Run, FenceAfter, Render, SoundPiece, Body;
    var lines := Split(text, '\n');
    JoinSplit(text, '\n');
    RunOneLiners(lines, |lines|, maxLen);
    ChunksKeepMeaning(text, maxLen);
    var p := Pieces(text, maxLen)[i];
    assert SoundPiece(p);
    PieceHasLines(p);
    RenderedBody(p);
    ChunkReadsAlone(p);
  }

  lemma PieceHasLines(p: Piece)
    requires SoundPiece(p)
    ensures p.lines != []
  {
  }

  // ----- Lengths -----

  lemma SeparatedBytes(a: string, sep: char, b: string)
    requires sep as int < 0x80
    ensures Bytes(a + [sep] + b) == Bytes(a) + 1 + Bytes(b)
  {
    BytesConcat(a + [sep], b);
    BytesConcat(a, [sep]);
    assert [sep][1..] == "";
  }

  lemma FenceBytes()
    ensures Bytes(FENCE) == 3 && Width([]) == 0
  {
    BytesConcat("`", "``");
    BytesConcat("`", "`");
    assert FENCE == "`" + "``" && "``" == "`" + "`" && "`"[1..] == "";
  }

  lemma OneWidth(line: string)
    ensures Width([line]) == Bytes(line) + 1
  {
    assert [line][..0] == [];
  }

  lemma {:induction false} JoinLength(parts: seq<string>, sep: char)
    requires parts != [] && sep as int < 0x80
    ensures Bytes(Join(parts, sep)) + 1 == Width(parts)
  {
    var init, last := parts[..|parts| - 1], parts[|parts| - 1];
    assert init + [last] == parts;
    if |parts| > 1 {
      JoinLength(init, sep);
      JoinSnoc(init, last, sep);
      SeparatedBytes(Join(init, sep), sep, last);
    } else {
      OneWidth(last);
    }
  }

  lemma PieceLength(p: Piece)
    requires p.lines != []
    ensures Bytes(Render(p)) + 1 == Width(Head(p.reopen) + p.lines) + if p.close then 4 else 0
  {
    var front := Head(p.reopen) + p.lines;
    JoinLength(Body(p), '\n');
    FenceBytes();
    if p.close { WidthSnoc(front, FENCE); } else { assert Body(p) == front; }
  }

  /** The fence that was open before the last line of the chunk. */
  function OpenBeforeLast(p: Piece): string
    requires p.lines != []
  {
    FenceAfter(p.reopen, p.lines[..|p.lines| - 1])
  }

  /** Every line fits in a chunk of its own, with the fence it stands in reopened and closed. */
  ghost predicate LinesFit(lines: seq<string>, maxLen: int) {
    forall k :: 0 <= k < |lines| ==> Width(Head(FenceAfter("", lines[..k])) + [lines[k]]) <= maxLen - 4
  }

  ghost predicate Narrow(p: Piece, maxLen: int, fit: bool) {
    p.lines != [] && (|p.lines| > 1 || fit ==> Width(Head(p.reopen) + p.lines) <= Limit(OpenBeforeLast(p), maxLen))
  }

  ghost predicate AllNarrow(pieces: seq<Piece>, maxLen: int, fit: bool) {
    forall i :: 0 <= i < |pieces| ==> Narrow(pieces[i], maxLen, fit)
  }

  lemma RunContext(lines: seq<string>, n: nat, maxLen: int)
    requires n <= |lines|
    ensures var st := Run(lines, n, maxLen);
            && st.open == FenceAfter("", lines[..n]) == FenceAfter(st.reopen, st.lines)
            && (st.lines == [] ==> n == 0)
  {
    hide Fence, FenceAfter, AllLabels, Labels, Reopens, SoundPieces, Run;
    RunTracks(lines, n, maxLen);
  }

  lemma FullHasLines(st: State, line: string, maxLen: int)
    ensures Full(st, line, maxLen) ==> Current(st) != []
  {
  }

  lemma {:induction false} RunNarrow(lines: seq<string>, n: nat, maxLen: int, fit: bool)
    requires n <= |lines| && (fit ==> LinesFit(lines, maxLen))
    ensures var st := Run(lines, n, maxLen);
            AllNarrow(st.pieces, maxLen, fit) && (n > 0 ==> Narrow(LastPiece(st), maxLen, fit))
  {
    hide Fence, FenceAfter, Width, Narrow, Full;
    if n > 0 {
      RunNarrow(lines, n - 1, maxLen, fit);
      RunContext(lines, n - 1, maxLen);
      var st, line := Run(lines, n - 1, maxLen), lines[n - 1];
      LineFits(lines, n - 1, maxLen, fit);
      FullHasLines(st, line, maxLen);
      if Full(st, line, maxLen) {
        FirstLineNarrow(Flushed(st), line, maxLen, fit);
      } else if st.lines == [] {
        FirstLineNarrow(st, line, maxLen, fit);
      } else {
        NextLineNarrow(st, line, maxLen, fit);
      }
    }
  }

  lemma LineFits(lines: seq<string>, k: nat, maxLen: int, fit: bool)
    requires k < |lines| && (fit ==> LinesFit(lines, maxLen))
    ensures fit ==> Width(Head(FenceAfter("", lines[..k])) + [lines[k]]) <= maxLen - 4
  {
  }

  lemma FirstLineNarrow(st: State, line: string, maxLen: int, fit: bool)
    requires st.lines == [] && st.open == st.reopen
    requires fit ==> Width(Head(st.reopen) + [line]) <= maxLen - 4
    ensures Narrow(LastPiece(AddLine(st, line)), maxLen, fit)
  {
    assert [] + [line] == [line];
  }

  lemma NextLineNarrow(st: State, line: string, maxLen: int, fit: bool)
    requires Current(st) != [] && !Full(st, line, maxLen) && st.open == FenceAfter(st.reopen, st.lines)
    ensures Narrow(LastPiece(AddLine(st, line)), maxLen, fit)
  {
    WidthSnoc(Current(st), line);
    assert Head(st.reopen) + (st.lines + [line]) == Current(st) + [line];
    assert (st.lines + [line])[..|st.lines|] == st.lines;
  }

  /**
   The length of a chunk. With two lines of text or more it is below the limit, except that a chunk whose last
   line opens a fence can be 3 bytes over, because no room was kept for the closing fence.
   */
  lemma ChunkLength(text: string, maxLen: int, i: nat)
    requires i < |Pieces(text, maxLen)|
    ensures var p := Pieces(text, maxLen)[i];
            && p.lines != []
            && (|p.lines| > 1 || LinesFit(Split(text, '\n'), maxLen) ==>
                  Bytes(Render(p)) <= if p.close && OpenBeforeLast(p) == "" then maxLen + 3 else maxLen - 1)
  {
    hide Fence, FenceAfter, Width, Run, Split, LinesFit;
    var lines := Split(text, '\n');
    var p := Pieces(text, maxLen)[i];
    RunNarrow(lines, |lines|, maxLen, LinesFit(lines, maxLen));
    assert Narrow(p, maxLen, LinesFit(lines, maxLen));
    PieceLength(p);
  }

  /**
   The bound of maxLen + 3 is reached for every maxLen from 10 on: a line that leaves just enough room for an
   opening fence, the fence, and any short line.
   */
  lemma OverflowIsReached(first: string, last: string, maxLen: int)
    requires !IsFence(first) && Bytes(first) == maxLen - 5 && !IsFence(last) && Bytes(last) <= maxLen - 9
    ensures LinesFit([first, FENCE, last], maxLen)
    ensures var pieces := Finished(Run([first, FENCE, last], 3, maxLen));
            |pieces| == 2 && Bytes(Render(pieces[0])) == maxLen + 3
  {
    hide Width, LinesFit, Run, IsFence, Finished;
    OverflowWidths(first, last);
    OverflowFits(first, last, maxLen);
    OverflowRun(first, last, maxLen);
    FinishedIs(State([Piece("", [first, FENCE], true)], FENCE, [last], FENCE));
    PieceLength(Piece("", [first, FENCE], true));
    assert Head("") + [first, FENCE] == [first, FENCE];
  }

  lemma OverflowWidths(first: string, last: string)
    ensures Width([]) == 0 && Width([first]) == Bytes(first) + 1 && Width([first, FENCE]) == Bytes(first) + 5
    ensures Width([FENCE]) == 4 && Width([FENCE, last]) == Bytes(last) + 5
  {
    hide IsFence, Width, Bytes;
    FenceBytes();
    WidthSnoc([], first);
    WidthSnoc([first], FENCE);
    WidthSnoc([], FENCE);
    WidthSnoc([FENCE], last);
    assert [] + [first] == [first] && [] + [FENCE] == [FENCE];
    assert [first] + [FENCE] == [first, FENCE] && [FENCE] + [last] == [FENCE, last];
  }

  lemma OpeningFence()
    ensures Fence("", FENCE) == FENCE
  {
    ClosingFence();
    TrimOfTrimmed(FENCE);
  }

  lemma OverflowRun(first: string, last: string, maxLen: int)
    requires !IsFence(first) && Bytes(first) == maxLen - 5 && !IsFence(last) && Bytes(last) <= maxLen - 9
    ensures Run([first, FENCE, last], 3, maxLen) == State([Piece("", [first, FENCE], true)], FENCE, [last], FENCE)
  {
    hide IsFence, Width;
    var lines := [first, FENCE, last];
    OpeningFence();
    OverflowWidths(first, last);
    assert [] + [first] == [first] && [first] + [FENCE] == [first, FENCE] && [] + [last] == [last];
    assert Run(lines, 1, maxLen) == State([], "", [first], "");
    assert Head("") + [first] == [first] && Head("") + [first, FENCE] == [first, FENCE];
    assert Run(lines, 2, maxLen) == State([], "", [first, FENCE], FENCE);
    assert Full(Run(lines, 2, maxLen), last, maxLen);
  }

  lemma OverflowFits(first: string, last: string, maxLen: int)
    requires !IsFence(first) && Bytes(first) == maxLen - 5 && Bytes(last) <= maxLen - 9
    ensures LinesFit([first, FENCE, last], maxLen)
  {
    hide IsFence, Width;
    var lines := [first, FENCE, last];
    OpeningFence();
    OverflowWidths(first, last);
    FenceSnoc("", [], first);
    FenceSnoc("", [first], FENCE);
    assert [] + [first] == [first] && [first] + [FENCE] == [first, FENCE];
    assert lines[..0] == [] && lines[..1] == [first] && lines[..2] == [first, FENCE];
    assert Head("") + [first] == [first] && Head("") + [FENCE] == [FENCE] && Head(FENCE) + [last] == [FENCE, last];
  }

  // ----- Which lines are fences -----

  ghost predicate FenceBehind(line: string, pre: string, rest: string) {
    AllSpace(pre) && line == pre + "```" + rest
  }

  /** A line is a fence exactly when it begins, after blanks, with three backticks. */
  lemma FencesAre(line: string)
    ensures IsFence(line) <==> exists pre: string, rest: string :: FenceBehind(line, pre, rest)
  {
    if IsFence(line) {
      var pre, post := TrimSplits(line);
      var t := TrimSpace(line);
      assert t == "```" + t[3..];
      assert FenceBehind(line, pre, t[3..] + post);
    }
    if pre, rest :| FenceBehind(line, pre, rest) { FenceIsFence(line, pre, rest); }
  }

  /** What is no blank at the beginning stays when blanks around are cut off. */
  lemma FrontStays(x: string, before: string, t: string, after: string)
    requires x == before + t + after && AllSpace(before) && AllSpace(after)
    requires |x| >= 3 && forall i :: 0 <= i < 3 ==> !IsSpace(x[i])
    ensures before == "" && |t| >= 3 && t[..3] == x[..3]
  {
    hide IsSpace;
    assert forall i :: 0 <= i < |before| ==> x[i] == before[i];
    var c, n := x[0], |before| + |t|;
    forall i | n <= i < |x| ensures IsSpace(x[i]) { assert x[i] == after[i - n]; }
    assert |before| > 0 ==> IsSpace(c);
    assert n < |x| ==> IsSpace(x[n]);
    assert x[|before|..n] == t;
  }

  lemma FrontStaysBehind(pre: string, x: string)
    requires AllSpace(pre) && |x| >= 3 && forall i :: 0 <= i < 3 ==> !IsSpace(x[i])
    ensures var t := TrimSpace(pre + x); |t| >= 3 && t[..3] == x[..3]
  {
    hide IsSpace, TrimSpace, AllSpace, Trimmed;
    var before, after := TrimSplits(x);
    var t := TrimSpace(x);
    FrontStays(x, before, t, after);
    assert pre + x == pre + t + after;
    TrimUnique(pre, t, after);
  }

  lemma FenceIsFence(line: string, pre: string, rest: string)
    requires FenceBehind(line, pre, rest)
    ensures IsFence(line)
  {
    var x := "```" + rest;
    assert !IsSpace('`') && x[..3] == "```" && forall i :: 0 <= i < 3 ==> x[i] == '`';
    hide IsSpace, TrimSpace;
    FrontStaysBehind(pre, x);
    assert line == pre + x;
  }

  // ----- Cuts are needed -----

  /** The next line did not fit any more: with it the chunk would have been over the limit in force. */
  predicate CutNeeded(p: Piece, line: string, maxLen: int) {
    Width(Head(p.reopen) + p.lines) + Bytes(line) + 1 > if p.close then maxLen - 4 else maxLen
  }

  predicate CutNeededAt(pieces: seq<Piece>, i: nat, maxLen: int)
    requires i + 1 < |pieces|
  {
    pieces[i + 1].lines != [] && CutNeeded(pieces[i], pieces[i + 1].lines[0], maxLen)
  }

  predicate CutsNeeded(pieces: seq<Piece>, maxLen: int) {
    forall i: nat :: i + 1 < |pieces| ==> CutNeededAt(pieces, i, maxLen)
  }

  lemma {:induction false} RunCuts(lines: seq<string>, n: nat, maxLen: int)
    requires n <= |lines|
    ensures var st := Run(lines, n, maxLen);
            && CutsNeeded(st.pieces + (if st.lines == [] then [] else [LastPiece(st)]), maxLen)
            && (st.lines == [] ==> n == 0 && st.pieces == [] && st.reopen == "")
  {
    hide Width, CutNeeded, CutsNeeded, Full, LastPiece, Step, Run;
    if n == 0 {
      NoCuts(lines, maxLen);
      assert Run(lines, 0, maxLen).pieces + [] == [];
    } else {
      RunCuts(lines, n - 1, maxLen);
      RunNext(lines, n - 1, maxLen);
      var st, line := Run(lines, n - 1, maxLen), lines[n - 1];
      FullIsNeeded(st, line, maxLen);
      StepCuts(st, line, maxLen);
    }
  }

  lemma NoCuts(lines: seq<string>, maxLen: int)
    ensures Run(lines, 0, maxLen) == State([], "", [], "") && CutsNeeded([], maxLen)
  {
  }

  lemma FullIsNeeded(st: State, line: string, maxLen: int)
    ensures Full(st, line, maxLen) ==> CutNeeded(LastPiece(st), line, maxLen)
  {
  }

  lemma StepCuts(st: State, line: string, maxLen: int)
    requires CutsNeeded(st.pieces + (if st.lines == [] then [] else [LastPiece(st)]), maxLen)
    requires st.lines == [] ==> st.pieces == [] && st.reopen == ""
    requires Full(st, line, maxLen) ==> CutNeeded(LastPiece(st), line, maxLen)
    ensures var r := Step(st, line, maxLen); r.lines != [] && CutsNeeded(r.pieces + [LastPiece(r)], maxLen)
  {
    hide Fence, Width, Bytes, CutNeeded;
    var r := Step(st, line, maxLen);
    var was := st.pieces + if st.lines == [] then [] else [LastPiece(st)];
    if Full(st, line, maxLen) {
      assert r.lines == [line];
      var now := was + [LastPiece(r)];
      assert r.pieces == was && was[|was| - 1] == LastPiece(st);
      forall i: nat | i + 1 < |now| ensures CutNeededAt(now, i, maxLen) {
        assert now[i] == was[i];
        if i + 1 < |was| { assert CutNeededAt(was, i, maxLen) && now[i + 1] == was[i + 1]; }
      }
    } else if st.lines == [] {
      assert r.pieces == [];
    } else {
      var now := r.pieces + [LastPiece(r)];
      assert r.pieces == st.pieces && r.lines[0] == st.lines[0] && r.reopen == st.reopen;
      forall i: nat | i + 1 < |now| ensures CutNeededAt(now, i, maxLen) {
        assert CutNeededAt(was, i, maxLen) && now[i] == was[i];
        if i + 1 < |st.pieces| { assert now[i + 1] == was[i + 1]; } else { assert now[i + 1].lines == r.lines; }
      }
    }
  }

  /** A chunk is cut only where the next line of the text, with what the chunk holds, would have passed the limit. */
  lemma CutsAreNeeded(text: string, maxLen: int)
    ensures CutsNeeded(Pieces(text, maxLen), maxLen)
  {
    hide Run, Split, CutsNeeded;
    var lines := Split(text, '\n');
    RunCuts(lines, |lines|, maxLen);
    FinishedIs(Run(lines, |lines|, maxLen));
    assert Run(lines, |lines|, maxLen).pieces + [] == Run(lines, |lines|, maxLen).pieces;
  }

  // ----- How many chunks -----

  /** Bytes of all lines of the text in the chunks, and of the fences opened again. */
  function OwnWidth(pieces: seq<Piece>): nat {
    if pieces == [] then 0 else OwnWidth(pieces[..|pieces| - 1]) + Width(pieces[|pieces| - 1].lines)
  }

  function HeadWidth(pieces: seq<Piece>): nat {
    if pieces == [] then 0 else HeadWidth(pieces[..|pieces| - 1]) + Width(Head(pieces[|pieces| - 1].reopen))
  }

  lemma {:induction false} WidthConcat(a: seq<string>, b: seq<string>)
    ensures Width(a + b) == Width(a) + Width(b)
  {
    if b == [] { assert a + b == a; } else {
      WidthConcat(a, b[..|b| - 1]);
      assert (a + b)[..|a + b| - 1] == a + b[..|b| - 1];
    }
  }

  lemma FirstWidth(lines: seq<string>)
    requires lines != []
    ensures Bytes(lines[0]) + 1 <= Width(lines)
  {
    assert [lines[0]] + lines[1..] == lines;
    WidthConcat([lines[0]], lines[1..]);
    OneWidth(lines[0]);
  }

  lemma WidthsSnoc(pieces: seq<Piece>, p: Piece)
    ensures OwnWidth(pieces + [p]) == OwnWidth(pieces) + Width(p.lines)
    ensures HeadWidth(pieces + [p]) == HeadWidth(pieces) + Width(Head(p.reopen))
  {
    assert (pieces + [p])[..|pieces|] == pieces;
  }

  /** Each cut is paid for by the chunk before it and the first line after it. */
  lemma {:induction false} CutsPay(pieces: seq<Piece>, maxLen: int)
    requires pieces != [] && CutsNeeded(pieces, maxLen)
    ensures var n := |pieces|;
            (n - 1) * (maxLen - 3) + Width(pieces[n - 1].lines) <= 2 * OwnWidth(pieces) + HeadWidth(pieces[..n - 1])
  {
    hide Width, Bytes, OwnWidth, HeadWidth, CutsNeeded, Head;
    var n := |pieces|;
    var init, last := pieces[..n - 1], pieces[n - 1];
    assert init + [last] == pieces;
    WidthsSnoc(init, last);
    if n == 1 {
      NoWidths();
    } else {
      var p := pieces[n - 2];
      LastCut(pieces, maxLen);
      CutsPay(init, maxLen);
      assert init == pieces[..n - 2] + [p] && init[..n - 2] == pieces[..n - 2];
      WidthsSnoc(pieces[..n - 2], p);
      FirstWidth(last.lines);
      WidthConcat(Head(p.reopen), p.lines);
      assert (n - 1) * (maxLen - 3) == (n - 2) * (maxLen - 3) + (maxLen - 3);
    }
  }

  lemma NoWidths()
    ensures OwnWidth([]) == 0 && HeadWidth([]) == 0
  {
  }

  lemma LastCut(pieces: seq<Piece>, maxLen: int)
    requires |pieces| > 1 && CutsNeeded(pieces, maxLen)
    ensures CutsNeeded(pieces[..|pieces| - 1], maxLen)
    ensures var p, last := pieces[|pieces| - 2], pieces[|pieces| - 1];
            last.lines != [] && Width(Head(p.reopen) + p.lines) + Bytes(last.lines[0]) + 1 >= maxLen - 3
  {
    hide Width, Bytes;
    var init := pieces[..|pieces| - 1];
    assert CutNeededAt(pieces, |pieces| - 2, maxLen);
    forall i: nat | i + 1 < |init| ensures CutNeededAt(init, i, maxLen) { assert CutNeededAt(pieces, i, maxLen); }
  }

  lemma {:induction false} RunOwn(lines: seq<string>, n: nat, maxLen: int)
    requires n <= |lines|
    ensures var st := Run(lines, n, maxLen); OwnWidth(st.pieces) + Width(st.lines) == Width(lines[..n])
  {
    hide Fence, Full, Width, Bytes, OwnWidth, HeadWidth;
    NoWidths();
    FenceBytes();
    if n > 0 {
      RunOwn(lines, n - 1, maxLen);
      RunNext(lines, n - 1, maxLen);
      var st := Run(lines, n - 1, maxLen);
      WidthsSnoc(st.pieces, LastPiece(st));
      WidthSnoc(st.lines, lines[n - 1]);
      WidthSnoc([], lines[n - 1]);
      WidthSnoc(lines[..n - 1], lines[n - 1]);
      assert lines[..n - 1] + [lines[n - 1]] == lines[..n];
    }
  }

  /** No fence of the text is wider than `f` with its newline. */
  predicate FencesFit(lines: seq<string>, f: nat) {
    forall k :: 0 <= k < |lines| && IsFence(lines[k]) ==> Bytes(TrimSpace(lines[k])) + 1 <= f
  }

  lemma {:induction false} RunHeads(lines: seq<string>, n: nat, maxLen: int, f: nat)
    requires n <= |lines| && FencesFit(lines, f)
    ensures var st := Run(lines, n, maxLen);
            && Width(Head(st.open)) <= f && Width(Head(st.reopen)) <= f && HeadWidth(st.pieces) <= |st.pieces| * f
  {
    hide Full, Width, Bytes, OwnWidth, HeadWidth, TrimSpace;
    NoWidths();
    FenceBytes();
    if n > 0 {
      RunHeads(lines, n - 1, maxLen, f);
      RunNext(lines, n - 1, maxLen);
      var st := Run(lines, n - 1, maxLen);
      WidthsSnoc(st.pieces, LastPiece(st));
      OneWidth(TrimSpace(lines[n - 1]));
      assert (|st.pieces| + 1) * f == |st.pieces| * f + f;
    }
  }

  /**
   The number of chunks: apart from the fences opened again, every two neighbours hold more than maxLen - 4 bytes.
   Without fences `f` is 0.
   */
  lemma ChunkCount(text: string, maxLen: int, f: nat)
    requires FencesFit(Split(text, '\n'), f)
    ensures (|Pieces(text, maxLen)| - 1) * (maxLen - 3 - f) <= 2 * (Bytes(text) + 1)
  {
    hide Run, Split, CutsNeeded, Width, Bytes, OwnWidth, HeadWidth, IsFence;
    var lines := Split(text, '\n');
    var st, pieces := Run(lines, |lines|, maxLen), Pieces(text, maxLen);
    CutsAreNeeded(text, maxLen);
    FinishedIs(st);
    RunCuts(lines, |lines|, maxLen);
    RunOwn(lines, |lines|, maxLen);
    RunHeads(lines, |lines|, maxLen, f);
    WidthsSnoc(st.pieces, LastPiece(st));
    JoinSplit(text, '\n');
    JoinLength(lines, '\n');
    assert lines[..|lines|] == lines;
    var n := |pieces|;
    assert pieces == st.pieces + [LastPiece(st)] && pieces[..n - 1] == st.pieces;
    CutsPay(pieces, maxLen);
    assert (n - 1) * (maxLen - 3 - f) == (n - 1) * (maxLen - 3) - (n - 1) * f;
  }
}
