/**
 The text of one turn: which parts are delivered in segments while the turn runs and which at its end
 (core/engine.go, processInteractiveEvents), with the stream preview inactive and every send succeeding.
 */
module TurnText {
  import SplitMessage

  const MAX_MESSAGE_LEN: nat := 4000

  datatype Event =
    | Text(content: string)
    | Thinking(content: string)
    | ToolUse
    | Permission(autoApproved: bool)

  /** The two display settings that the flushes depend on. */
  datatype Display = Display(thinkingMessages: bool, toolMessages: bool)

  datatype State = State(textParts: seq<string>, segmentStart: nat, toolCount: nat, sent: seq<string>)

  function Concat(parts: seq<string>): string {
    if parts == [] then "" else Concat(parts[..|parts| - 1]) + parts[|parts| - 1]
  }

  /** What splitMessage makes of a text. */
  function Messages(text: string): seq<string> {
    if text == "" then [""] else SplitMessage.Chunks(text, MAX_MESSAGE_LEN)
  }

  predicate Valid(st: State) {
    st.segmentStart <= |st.textParts| && forall i :: 0 <= i < |st.textParts| ==> st.textParts[i] != ""
  }

  // ----- One event -----

  /** The accumulated segment is sent and counted as surfaced. */
  function Flush(st: State): State
    requires Valid(st)
  {
    if |st.textParts| == st.segmentStart then st
    else st.(segmentStart := |st.textParts|, sent := st.sent + Messages(Concat(st.textParts[st.segmentStart..])))
  }

  predicate Flushes(e: Event, display: Display) {
    match e
    case Text(_) => false
    case Thinking(content) => !display.thinkingMessages || content != ""
    case ToolUse => true
    case Permission(auto) => !auto
  }

  function Handle(st: State, e: Event, display: Display): (r: State)
    requires Valid(st)
    ensures Valid(r)
  {
    var s := if Flushes(e, display) then Flush(st) else st;
    match e
    case Text(content) => if content == "" then s else s.(textParts := s.textParts + [content])
    case ToolUse => s.(toolCount := s.toolCount + 1)
    case _ => s
  }

  function Run(events: seq<Event>, display: Display): (r: State)
    ensures Valid(r)
  {
    if events == [] then State([], 0, 0, [])
    else Handle(Run(events[..|events| - 1], display), events[|events| - 1], display)
  }

  // ----- The end of the turn -----

  /** Both ends: with tools used and text surfaced only the rest is sent, otherwise the whole response. */
  function Finish(st: State, fullResponse: string): seq<string>
    requires Valid(st)
  {
    if st.toolCount > 0 && st.segmentStart > 0 then
      if st.segmentStart < |st.textParts| then st.sent + Messages(Concat(st.textParts[st.segmentStart..])) else st.sent
    else st.sent + Messages(fullResponse)
  }

  /** The agent process exited: the response is all the text there was, if any. */
  function Closed(st: State): seq<string>
    requires Valid(st)
  {
    if st.textParts == [] then st.sent else Finish(st, Concat(st.textParts))
  }

  /** The response of a result event, before the reply footer: its own text, or the collected one. */
  function Response(st: State, content: string, display: Display, emptyResponse: string): string {
    if st.textParts != [] && st.segmentStart == 0 && !display.toolMessages then Concat(st.textParts)
    else if content == "" && st.textParts != [] then Concat(st.textParts)
    else if content == "" then emptyResponse
    else content
  }

  class Turn {
    const display: Display
    var textParts: seq<string>
    var segmentStart: nat
    var toolCount: nat
    var sent: seq<string>

    ghost function Now(): State
      reads this
    {
      State(textParts, segmentStart, toolCount, sent)
    }

    constructor (display: Display)
      ensures this.display == display && Now() == Run([], display)
    {
      this.display := display;
      textParts, segmentStart, toolCount, sent := [], 0, 0, [];
    }

    method SendText(text: string)
      modifies `sent
      ensures sent == old(sent) + Messages(text)
    {
      var chunks := SplitMessage.Split(text, MAX_MESSAGE_LEN);
      for i := 0 to |chunks|
        invariant sent == old(sent) + chunks[..i]
      {
        sent := sent + [chunks[i]];
      }
      assert chunks[..|chunks|] == chunks;
    }

    method JoinParts(parts: seq<string>) returns (r: string)
      ensures r == Concat(parts)
    {
      r := "";
      for i := 0 to |parts|
        invariant r == Concat(parts[..i])
      {
        assert parts[..i + 1][..i] == parts[..i];
        r := r + parts[i];
      }
      assert parts[..|parts|] == parts;
    }

    method FlushSegment()
      requires Valid(Now())
      modifies `sent, `segmentStart
      ensures Now() == Flush(old(Now()))
    {
      if |textParts| > segmentStart {
        var segment := JoinParts(textParts[segmentStart..]);
        SegmentNotEmpty(textParts[segmentStart..]);
        if segment != "" {
          SendText(segment);
        }
        segmentStart := |textParts|;
      }
    }

    method OnThinking(content: string)
      requires Valid(Now())
      modifies this
      ensures Now() == Handle(old(Now()), Thinking(content), display)
    {
      if !display.thinkingMessages {
        FlushSegment();
      }
      if display.thinkingMessages && content != "" {
        FlushSegment();
      }
    }

    method OnToolUse()
      requires Valid(Now())
      modifies this
      ensures Now() == Handle(old(Now()), ToolUse, display)
    {
      toolCount := toolCount + 1;
      if !display.toolMessages {
        FlushSegment();
      }
      if display.toolMessages {
        FlushSegment();
      }
    }

    method OnText(content: string)
      requires Valid(Now())
      modifies this
      ensures Now() == Handle(old(Now()), Text(content), display)
    {
      if content != "" {
        textParts := textParts + [content];
      }
    }

    method OnPermission(autoApproved: bool)
      requires Valid(Now())
      modifies this
      ensures Now() == Handle(old(Now()), Permission(autoApproved), display)
    {
      if autoApproved {
        return;
      }
      FlushSegment();
    }

    method SendFinal(fullResponse: string)
      requires Valid(Now())
      modifies `sent
      ensures sent == Finish(old(Now()), fullResponse)
    {
      if toolCount > 0 && segmentStart > 0 {
        if segmentStart < |textParts| {
          var unsent := JoinParts(textParts[segmentStart..]);
          SegmentNotEmpty(textParts[segmentStart..]);
          if unsent != "" {
            SendText(unsent);
          }
        }
      } else {
        SendText(fullResponse);
      }
    }

    method OnResult(content: string, emptyResponse: string, polish: string -> string)
      requires Valid(Now())
      modifies `sent
      ensures sent == Finish(old(Now()), polish(Response(old(Now()), content, display, emptyResponse)))
    {
      var fullResponse := content;
      if |textParts| > 0 && segmentStart == 0 && !display.toolMessages {
        fullResponse := JoinParts(textParts);
      } else if fullResponse == "" && |textParts| > 0 {
        fullResponse := JoinParts(textParts);
      }
      SegmentNotEmpty(textParts);
      if fullResponse == "" {
        fullResponse := emptyResponse;
      }
      SendFinal(polish(fullResponse));
    }

    method OnChannelClosed()
      requires Valid(Now())
      modifies `sent
      ensures sent == Closed(old(Now()))
    {
      if |textParts| > 0 {
        var fullResponse := JoinParts(textParts);
        SendFinal(fullResponse);
      }
    }
  }

  lemma {:induction false} SegmentNotEmpty(parts: seq<string>)
    requires forall i :: 0 <= i < |parts| ==> parts[i] != ""
    ensures Concat(parts) == "" <==> parts == []
  {
  }

  // ----- What was delivered -----

  lemma {:induction false} ConcatPlus(a: seq<string>, b: seq<string>)
    ensures Concat(a + b) == Concat(a) + Concat(b)
  {
    if b == [] {
      assert a + b == a;
    } else {
      var init, last := b[..|b| - 1], b[|b| - 1];
      assert (a + b)[..|a + b| - 1] == a + init;
      ConcatPlus(a, init);
    }
  }

  lemma {:induction false} SameConcat(chunks: seq<string>)
    ensures Concat(chunks) == SplitMessage.Concat(chunks)
  {
    if chunks != [] {
      SameConcat(chunks[1..]);
      assert [chunks[0]] + chunks[1..] == chunks;
      ConcatPlus([chunks[0]], chunks[1..]);
      OnePart(chunks[0]);
    }
  }

  lemma OnePart(part: string)
    ensures Concat([part]) == part
  {
    assert [part][..0] == [];
  }

  lemma MessagesConcat(text: string)
    ensures Concat(Messages(text)) == text
  {
    if text == "" {
      OnePart("");
    } else {
      SplitMessage.ChunksConcat(text, MAX_MESSAGE_LEN);
      SameConcat(Messages(text));
    }
  }

  /** The non-empty text of a turn, in order. */
  function AllText(events: seq<Event>): string {
    if events == [] then ""
    else
      var e := events[|events| - 1];
      AllText(events[..|events| - 1]) + if e.Text? then e.content else ""
  }

  predicate UsedTool(events: seq<Event>) {
    exists i :: 0 <= i < |events| && events[i] == ToolUse
  }

  /** Some text was followed by an event that flushes. */
  predicate Surfaced(events: seq<Event>, display: Display) {
    events != [] &&
    (Surfaced(events[..|events| - 1], display) ||
     (Flushes(events[|events| - 1], display) && AllText(events[..|events| - 1]) != ""))
  }

  /** What is sent is what was surfaced, and what was collected is all the text. */
  predicate Accounts(st: State, events: seq<Event>, display: Display) {
    && Valid(st)
    && Concat(st.sent) == Concat(st.textParts[..st.segmentStart])
    && Concat(st.textParts) == AllText(events)
    && (st.toolCount > 0 <==> UsedTool(events))
    && (st.segmentStart > 0 <==> Surfaced(events, display))
  }

  lemma FlushAccounts(st: State)
    requires Valid(st) && Concat(st.sent) == Concat(st.textParts[..st.segmentStart])
    ensures Concat(Flush(st).sent) == Concat(st.textParts[..Flush(st).segmentStart])
    ensures Flush(st).segmentStart == |st.textParts|
  {
    var segment := Concat(st.textParts[st.segmentStart..]);
    MessagesConcat(segment);
    ConcatPlus(st.sent, Messages(segment));
    ConcatPlus(st.textParts[..st.segmentStart], st.textParts[st.segmentStart..]);
    assert st.textParts[..st.segmentStart] + st.textParts[st.segmentStart..] == st.textParts == st.textParts[..|st.textParts|];
  }

  lemma UsedToolSnoc(events: seq<Event>, e: Event)
    ensures UsedTool(events + [e]) <==> UsedTool(events) || e == ToolUse
  {
    if UsedTool(events) {
      var i :| 0 <= i < |events| && events[i] == ToolUse;
      assert (events + [e])[i] == ToolUse;
    }
    if e == ToolUse { assert (events + [e])[|events|] == ToolUse; }
  }

  lemma {:induction false} RunAccounts(events: seq<Event>, display: Display)
    ensures Accounts(Run(events, display), events, display)
  {
    hide Messages, Concat;
    NoneConcat();
    if events != [] {
      var init, e := events[..|events| - 1], events[|events| - 1];
      var st := Run(init, display);
      RunAccounts(init, display);
      assert init + [e] == events;
      UsedToolSnoc(init, e);
      FlushAccounts(st);
      SegmentNotEmpty(st.textParts);
      if e.Text? && e.content != "" {
        ConcatPlus(st.textParts, [e.content]);
        OnePart(e.content);
        assert (st.textParts + [e.content])[..st.segmentStart] == st.textParts[..st.segmentStart];
      }
    }
  }

  lemma RestSent(st: State)
    requires Valid(st) && Concat(st.sent) == Concat(st.textParts[..st.segmentStart])
    ensures Concat(st.sent + Messages(Concat(st.textParts[st.segmentStart..]))) == Concat(st.textParts)
  {
    var rest := st.textParts[st.segmentStart..];
    MessagesConcat(Concat(rest));
    ConcatPlus(st.sent, Messages(Concat(rest)));
    ConcatPlus(st.textParts[..st.segmentStart], rest);
    assert st.textParts[..st.segmentStart] + rest == st.textParts;
  }

  /** A turn that used a tool after or before surfaced text delivers all text exactly once, whatever the result says. */
  lemma ToolTurnDeliversOnce(events: seq<Event>, display: Display, fullResponse: string)
    requires UsedTool(events) && Surfaced(events, display)
    ensures Concat(Finish(Run(events, display), fullResponse)) == AllText(events)
  {
    hide Messages, Concat, Run, AllText;
    var st := Run(events, display);
    RunAccounts(events, display);
    RestSent(st);
    assert st.segmentStart == |st.textParts| ==> st.textParts[..st.segmentStart] == st.textParts;
  }

  /** Without a tool, or with nothing surfaced, the response is sent after whatever was surfaced. */
  lemma OtherTurnSendsResponse(events: seq<Event>, display: Display, fullResponse: string)
    requires !UsedTool(events) || !Surfaced(events, display)
    ensures var st := Run(events, display);
            Concat(Finish(st, fullResponse)) == Concat(st.textParts[..st.segmentStart]) + fullResponse
  {
    hide Messages, Concat, Run, AllText;
    var st := Run(events, display);
    RunAccounts(events, display);
    MessagesConcat(fullResponse);
    ConcatPlus(st.sent, Messages(fullResponse));
  }

  /**
   When the agent process exits, the text is delivered exactly once if and only if a tool was used or nothing
   was surfaced. Text surfaced before a thinking or permission event, in a turn without tools, is sent again.
   */
  lemma ClosedTurnDeliversOnce(events: seq<Event>, display: Display)
    ensures Concat(Closed(Run(events, display))) == AllText(events) <==>
            UsedTool(events) || !Surfaced(events, display)
  {
    hide Messages, Concat, Run;
    var st := Run(events, display);
    RunAccounts(events, display);
    SegmentNotEmpty(st.textParts);
    if UsedTool(events) && Surfaced(events, display) {
      ToolTurnDeliversOnce(events, display, Concat(st.textParts));
    } else {
      OtherTurnSendsResponse(events, display, Concat(st.textParts));
      SegmentNotEmpty(st.textParts[..st.segmentStart]);
      NoneConcat();
    }
  }

  lemma SamePrefix(a: string, b: string, c: string)
    ensures a + b == a + c <==> b == c
  {
    assert (a + b)[|a|..] == b && (a + c)[|a|..] == c;
  }

  /** A turn delivers its text exactly once if and only if a tool was used and text surfaced, or the response is the rest. */
  lemma TurnDeliversOnce(events: seq<Event>, display: Display, fullResponse: string)
    ensures var st := Run(events, display);
            Concat(Finish(st, fullResponse)) == AllText(events) <==>
            (UsedTool(events) && Surfaced(events, display)) || fullResponse == Concat(st.textParts[st.segmentStart..])
  {
    hide Messages, Concat, Run, AllText, UsedTool, Surfaced;
    var st := Run(events, display);
    if UsedTool(events) && Surfaced(events, display) {
      ToolTurnDeliversOnce(events, display, fullResponse);
    } else {
      OtherTurnSendsResponse(events, display, fullResponse);
      RunAccounts(events, display);
      ConcatPlus(st.textParts[..st.segmentStart], st.textParts[st.segmentStart..]);
      assert st.textParts[..st.segmentStart] + st.textParts[st.segmentStart..] == st.textParts;
      SamePrefix(Concat(st.textParts[..st.segmentStart]), fullResponse, Concat(st.textParts[st.segmentStart..]));
    }
  }

  /**
   The same for a result event, whose response gets a footer and an indicator (`polish`) before it is sent.  Without
   text of its own it sends all collected text: what was surfaced is sent again unless a tool was used.
   */
  lemma ResultDeliversOnce(events: seq<Event>, display: Display, content: string, emptyResponse: string,
                           polish: string -> string)
    ensures var st := Run(events, display);
            var sent := Finish(st, polish(Response(st, content, display, emptyResponse)));
            && (Concat(sent) == AllText(events) <==>
                (UsedTool(events) && Surfaced(events, display)) ||
                polish(Response(st, content, display, emptyResponse)) == Concat(st.textParts[st.segmentStart..]))
            && (content == "" && AllText(events) != "" && polish(AllText(events)) == AllText(events) ==>
                (Concat(sent) == AllText(events) <==> UsedTool(events) || !Surfaced(events, display)))
  {
    hide Messages, Concat, Run, Surfaced, UsedTool, Finish;
    var st := Run(events, display);
    TurnDeliversOnce(events, display, polish(Response(st, content, display, emptyResponse)));
    RunAccounts(events, display);
    NoneConcat();
    ClosedTurnDeliversOnce(events, display);
  }

  // ----- What a turn delivers, in terms of its events -----

  /** The text that flushing events have surfaced. */
  function SurfacedText(events: seq<Event>, display: Display): string {
    if events == [] then ""
    else if Flushes(events[|events| - 1], display) then AllText(events[..|events| - 1])
    else SurfacedText(events[..|events| - 1], display)
  }

  lemma {:induction false} SurfacedIsPrefix(events: seq<Event>, display: Display)
    ensures var st := Run(events, display); Concat(st.textParts[..st.segmentStart]) == SurfacedText(events, display)
  {
    hide Messages, Concat;
    NoneConcat();
    if events != [] {
      var init, e := events[..|events| - 1], events[|events| - 1];
      var st := Run(init, display);
      SurfacedIsPrefix(init, display);
      RunAccounts(init, display);
      assert st.textParts[..|st.textParts|] == st.textParts;
      if e.Text? && e.content != "" {
        assert (st.textParts + [e.content])[..st.segmentStart] == st.textParts[..st.segmentStart];
      }
    }
  }

  /** The text that no event has surfaced yet. */
  function Unsent(events: seq<Event>, display: Display): string {
    if events == [] then ""
    else
      var init, e := events[..|events| - 1], events[|events| - 1];
      if Flushes(e, display) then "" else Unsent(init, display) + if e.Text? then e.content else ""
  }

  lemma {:induction false} UnsentIsRest(events: seq<Event>, display: Display)
    ensures var st := Run(events, display);
            Valid(st) && Concat(st.textParts[st.segmentStart..]) == Unsent(events, display)
    ensures SurfacedText(events, display) + Unsent(events, display) == AllText(events)
  {
    hide Messages, Concat;
    NoneConcat();
    if events != [] {
      var init, e := events[..|events| - 1], events[|events| - 1];
      var st := Run(init, display);
      UnsentIsRest(init, display);
      assert st.textParts[|st.textParts|..] == [];
      if e.Text? && e.content != "" {
        assert (st.textParts + [e.content])[st.segmentStart..] == st.textParts[st.segmentStart..] + [e.content];
        ConcatPlus(st.textParts[st.segmentStart..], [e.content]);
        OnePart(e.content);
      }
    }
  }

  /**
   The messages that one more event sends: a tool use, a permission request that is not approved by itself, and thinking
   (when thinking is shown, only if it says something) send the text so far as one text cut into messages of at most
   4000 characters; other events send nothing.
   */
  lemma EventSends(events: seq<Event>, e: Event, display: Display)
    ensures var unsent := Unsent(events, display);
            Run(events + [e], display).sent == Run(events, display).sent +
            if unsent != "" &&
               (e == ToolUse || e == Permission(false) || (e.Thinking? && (e.content != "" || !display.thinkingMessages)))
            then SplitMessage.Chunks(unsent, 4000) else []
  {
    hide Concat, Run, SplitMessage.Chunks;
    UnsentIsRest(events, display);
    var st := Run(events, display);
    RunSnoc(events, e, display);
    SegmentNotEmpty(st.textParts[st.segmentStart..]);
  }

  lemma RunSnoc(events: seq<Event>, e: Event, display: Display)
    ensures Run(events + [e], display) == Handle(Run(events, display), e, display)
  {
    assert (events + [e])[..|events|] == events;
  }

  /** The messages that the end of a turn sends: the rest if a tool was used and text surfaced, the response otherwise. */
  lemma EndSends(events: seq<Event>, display: Display, fullResponse: string)
    ensures var unsent := Unsent(events, display);
            Finish(Run(events, display), fullResponse) == Run(events, display).sent +
            if UsedTool(events) && Surfaced(events, display) then
              (if unsent == "" then [] else SplitMessage.Chunks(unsent, 4000))
            else if fullResponse == "" then [""] else SplitMessage.Chunks(fullResponse, 4000)
  {
    hide Concat, Run, SplitMessage.Chunks, UsedTool, Surfaced;
    RunAccounts(events, display);
    UnsentIsRest(events, display);
    var st := Run(events, display);
    SegmentNotEmpty(st.textParts[st.segmentStart..]);
    assert st.sent + [] == st.sent;
  }

  /**
   What the user gets of a turn that ends with a result event: all text once if a tool was used and text surfaced;
   otherwise what surfaced and then the response.  That is the event's own text, or all collected text when it has
   none, or when nothing surfaced because tool messages are hidden; or the given reply when there is no text at all.
   */
  lemma ResultDelivers(events: seq<Event>, display: Display, content: string, emptyResponse: string,
                       polish: string -> string)
    ensures var st, text, first := Run(events, display), AllText(events), SurfacedText(events, display);
            Concat(Finish(st, polish(Response(st, content, display, emptyResponse)))) ==
            if text == "" then polish(if content == "" then emptyResponse else content)
            else if UsedTool(events) && Surfaced(events, display) then text
            else if content == "" then first + polish(text)
            else if !Surfaced(events, display) && !display.toolMessages then polish(text)
            else first + polish(content)
  {
    hide Messages, Concat, Run, Surfaced, UsedTool, Finish, AllText, SurfacedText;
    var st := Run(events, display);
    var full := polish(Response(st, content, display, emptyResponse));
    RunAccounts(events, display);
    SurfacedIsPrefix(events, display);
    NoneConcat();
    SegmentNotEmpty(st.textParts);
    if UsedTool(events) && Surfaced(events, display) {
      ToolTurnDeliversOnce(events, display, full);
      TextSurfaced(events, display);
    } else {
      OtherTurnSendsResponse(events, display, full);
      assert "" + full == full;
    }
  }

  /** What surfaced is text. */
  lemma TextSurfaced(events: seq<Event>, display: Display)
    ensures Surfaced(events, display) ==> AllText(events) != ""
  {
    hide Messages, Concat, Run, Surfaced, UsedTool;
    var st := Run(events, display);
    RunAccounts(events, display);
    SegmentNotEmpty(st.textParts);
  }

  /** The same for an agent process that exits: without text nothing but what surfaced, which is nothing, is sent. */
  lemma ClosedDelivers(events: seq<Event>, display: Display)
    ensures Concat(Closed(Run(events, display))) ==
            if UsedTool(events) && Surfaced(events, display) then AllText(events)
            else SurfacedText(events, display) + AllText(events)
  {
    hide Messages, Concat, Run, Surfaced, UsedTool, Finish, AllText, SurfacedText;
    var st := Run(events, display);
    RunAccounts(events, display);
    SurfacedIsPrefix(events, display);
    NoneConcat();
    SegmentNotEmpty(st.textParts);
    if UsedTool(events) && Surfaced(events, display) {
      ToolTurnDeliversOnce(events, display, Concat(st.textParts));
      TextSurfaced(events, display);
    } else {
      OtherTurnSendsResponse(events, display, Concat(st.textParts));
      assert st.textParts == [] ==> st.textParts[..st.segmentStart] == [];
    }
  }

  /** Messages that say something and are not longer than 4000 characters. */
  predicate AllFit(messages: seq<string>) {
    forall i :: 0 <= i < |messages| ==> 0 < |messages[i]| <= 4000
  }

  lemma MessagesFit(text: string)
    requires text != ""
    ensures AllFit(Messages(text))
  {
    forall i | 0 <= i < |Messages(text)| ensures 0 < |Messages(text)[i]| <= 4000 {
      SplitMessage.ChunkSizes(text, MAX_MESSAGE_LEN, i);
    }
  }

  lemma SegmentFits(st: State)
    requires Valid(st) && st.segmentStart < |st.textParts|
    ensures AllFit(Messages(Concat(st.textParts[st.segmentStart..])))
  {
    hide Messages, Concat;
    var rest := st.textParts[st.segmentStart..];
    SegmentNotEmpty(rest);
    MessagesFit(Concat(rest));
  }

  lemma {:induction false} RunFits(events: seq<Event>, display: Display)
    ensures AllFit(Run(events, display).sent)
  {
    hide Messages, Concat;
    if events != [] {
      var st := Run(events[..|events| - 1], display);
      RunFits(events[..|events| - 1], display);
      if st.segmentStart < |st.textParts| { SegmentFits(st); }
    }
  }

  /**
   Whatever a turn sends is cut into messages within the limit, and none of them is empty, except that an empty response
   is sent as one empty message.
   */
  lemma SentMessagesFit(events: seq<Event>, display: Display, fullResponse: string)
    ensures var st := Run(events, display);
            if fullResponse != "" || (UsedTool(events) && Surfaced(events, display)) then AllFit(Finish(st, fullResponse))
            else AllFit(st.sent) && Finish(st, fullResponse) == st.sent + [""]
    ensures AllFit(Closed(Run(events, display)))
  {
    hide Concat, Run, Surfaced, UsedTool;
    var st := Run(events, display);
    RunAccounts(events, display);
    RunFits(events, display);
    if st.segmentStart < |st.textParts| { SegmentFits(st); }
    if fullResponse != "" { MessagesFit(fullResponse); }
    SegmentNotEmpty(st.textParts);
    if st.textParts != [] { MessagesFit(Concat(st.textParts)); }
  }

  lemma NoneConcat()
    ensures Concat([]) == ""
  {
  }
}
