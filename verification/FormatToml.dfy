/** formatTOML: the clean-up of the encoder's output (config/config.go). */
module FormatToml {
  import opened Strings

  // ----- Kinds of lines -----

  predicate IsHeader(line: string) { TrimSpace(line) != "" && TrimSpace(line)[0] == '[' }

  predicate IsContent(line: string) { !IsBlank(line) && !IsHeader(line) }

  /** strings.TrimRight(line, " \t") */
  function Stripped(line: string): string {
    if line != "" && (line[|line| - 1] == ' ' || line[|line| - 1] == '\t') then Stripped(line[..|line| - 1]) else line
  }

  lemma {:induction false} StrippedSplits(line: string) returns (post: string)
    ensures line == Stripped(line) + post && AllSpace(post)
  {
    if line != "" && (line[|line| - 1] == ' ' || line[|line| - 1] == '\t') {
      var rest := StrippedSplits(line[..|line| - 1]);
      post := rest + [line[|line| - 1]];
    } else {
      post := "";
    }
  }

  lemma StrippedKeepsKind(line: string)
    ensures TrimSpace(Stripped(line)) == TrimSpace(line)
  {
    var blanks := StrippedSplits(line);
    var pre, post := TrimSplits(Stripped(line));
    var t := TrimSpace(Stripped(line));
    assert line == pre + t + (post + blanks);
    TrimUnique(pre, t, post + blanks);
  }

  lemma {:induction false} StrippedTwice(line: string)
    ensures Stripped(Stripped(line)) == Stripped(line)
  {
    if line != "" && (line[|line| - 1] == ' ' || line[|line| - 1] == '\t') { StrippedTwice(line[..|line| - 1]); }
  }

  // ----- The two passes -----

  /** Whether a content line comes before the next header, from line `j` on. */
  predicate HasContent(lines: seq<string>, j: nat)
    requires j <= |lines|
    decreases |lines| - j
  {
    j < |lines| && !IsHeader(lines[j]) && (!IsBlank(lines[j]) || HasContent(lines, j + 1))
  }

  predicate Skipped(lines: seq<string>, i: nat)
    requires i < |lines|
  {
    IsHeader(lines[i]) && !HasContent(lines, i + 1)
  }

  predicate LastBlank(out: seq<string>) {
    out != [] && IsBlank(out[|out| - 1])
  }

  function Gap(out: seq<string>, line: string): seq<string> {
    if IsHeader(line) && out != [] && !LastBlank(out) then [""] else []
  }

  function AddLine(out: seq<string>, line: string): seq<string> {
    if IsBlank(line) then (if LastBlank(out) then out else out + [""])
    else out + Gap(out, line) + [Stripped(line)]
  }

  /** The output after the first `n` lines. */
  function Layout(lines: seq<string>, n: nat): seq<string>
    requires n <= |lines|
  {
    if n == 0 then []
    else if Skipped(lines, n - 1) then Layout(lines, n - 1)
    else AddLine(Layout(lines, n - 1), lines[n - 1])
  }

  function DropFirstBlanks(s: seq<string>): seq<string> {
    if s != [] && IsBlank(s[0]) then DropFirstBlanks(s[1..]) else s
  }

  function DropLastBlanks(s: seq<string>): seq<string> {
    if s != [] && IsBlank(s[|s| - 1]) then DropLastBlanks(s[..|s| - 1]) else s
  }

  function FormatLines(lines: seq<string>): seq<string> {
    DropLastBlanks(DropFirstBlanks(Layout(lines, |lines|)))
  }

  function Formatted(raw: string): string {
    Join(FormatLines(Split(raw, '\n')), '\n') + "\n"
  }

  method Kind(line: string) returns (blank: bool, header: bool)
    ensures blank == IsBlank(line) && header == IsHeader(line) && !(blank && header)
  {
    var t := TrimSpace(line);
    blank := t == "";
    header := |t| > 0 && t[0] == '[';
  }

  /** Pass 1. */
  method EmptySections(lines: seq<string>) returns (skip: set<nat>)
    ensures forall i: nat :: i in skip <==> i < |lines| && Skipped(lines, i)
  {
    hide IsBlank, IsHeader;
    skip := {};
    for i := 0 to |lines|
      invariant forall k: nat :: k in skip <==> k < i && Skipped(lines, k)
    {
      var blank, header := Kind(lines[i]);
      if blank || !header {
        continue;
      }
      var hasContent := SectionHasContent(lines, i);
      if !hasContent {
        skip := skip + {i};
      }
    }
  }

  method SectionHasContent(lines: seq<string>, i: nat) returns (hasContent: bool)
    requires i < |lines|
    ensures hasContent == HasContent(lines, i + 1)
  {
    hide IsBlank, IsHeader;
    hasContent := false;
    var j := i + 1;
    while j < |lines|
      invariant i + 1 <= j <= |lines|
      invariant !hasContent && HasContent(lines, i + 1) == HasContent(lines, j)
    {
      var blank, header := Kind(lines[j]);
      if header {
        break;
      }
      if !blank {
        hasContent := true;
        break;
      }
      j := j + 1;
    }
  }

  lemma EmptyIsBlank()
    ensures IsBlank("")
  {
  }

  /** Pass 2. */
  method LayOut(lines: seq<string>, skip: set<nat>) returns (out: seq<string>)
    requires forall i: nat :: i in skip <==> i < |lines| && Skipped(lines, i)
    ensures out == Layout(lines, |lines|)
  {
    hide IsBlank, IsHeader, Skipped, Stripped;
    out := [];
    var prevBlank := false;
    for i := 0 to |lines|
      invariant out == Layout(lines, i) && prevBlank == LastBlank(out)
    {
      EmptyIsBlank();
      if i in skip {
        continue;
      }
      var line := Stripped(lines[i]);
      StrippedSameKind(lines[i]);
      var isBlank, isHeader := Kind(line);
      if isBlank {
        if prevBlank {
          continue;
        }
        prevBlank := true;
        out := out + [""];
        continue;
      }
      prevBlank := false;
      if isHeader {
        if |out| > 0 {
          var lastBlank, _ := Kind(out[|out| - 1]);
          if !lastBlank {
            out := out + [""];
          }
        }
      }
      out := out + [line];
    }
  }

  lemma StrippedSameKind(line: string)
    ensures IsBlank(Stripped(line)) == IsBlank(line) && IsHeader(Stripped(line)) == IsHeader(line)
  {
    StrippedKeepsKind(line);
  }

  method FormatTOML(raw: string) returns (text: string)
    ensures text == Formatted(raw)
  {
    hide IsBlank, Layout, Skipped;
    var lines := Split(raw, '\n');
    var skip := EmptySections(lines);
    var out := LayOut(lines, skip);
    ghost var laid := out;
    while |out| > 0 && IsBlank(out[0])
      invariant DropFirstBlanks(out) == DropFirstBlanks(laid)
    {
      out := out[1..];
    }
    ghost var front := out;
    while |out| > 0 && IsBlank(out[|out| - 1])
      invariant DropLastBlanks(out) == DropLastBlanks(front)
    {
      out := out[..|out| - 1];
    }
    text := Join(out, '\n') + "\n";
  }

  // ----- Meaning: the sections of a file, each with its content -----

  /** `[[…]]` opens a new element of an array of tables, to which the tables below it belong. */
  predicate IsArrayHeader(line: string) {
    |TrimSpace(line)| >= 2 && TrimSpace(line)[..2] == "[["
  }

  /**
   A section: where its content starts, how many array elements were opened up to there, its header ("" at the top of
   the file) and its content lines, both without trailing blanks.
   */
  datatype Part = Part(at: nat, arrays: nat, header: string, content: seq<string>)

  function Last(parts: seq<Part>): Part
    requires parts != []
  {
    parts[|parts| - 1]
  }

  function AddToParts(parts: seq<Part>, at: nat, line: string): (r: seq<Part>)
    requires parts != []
    ensures r != []
  {
    if IsBlank(line) then parts
    else if IsHeader(line) then
      parts + [Part(at + 1, Last(parts).arrays + if IsArrayHeader(line) then 1 else 0, Stripped(line), [])]
    else parts[|parts| - 1 := Last(parts).(content := Last(parts).content + [Stripped(line)])]
  }

  /** All sections, one per header, also when headers are alike. */
  function Parts(lines: seq<string>): (r: seq<Part>)
    ensures r != []
  {
    if lines == [] then [Part(0, 0, "", [])]
    else AddToParts(Parts(lines[..|lines| - 1]), |lines| - 1, lines[|lines| - 1])
  }

  function Filled(parts: seq<Part>): seq<Part> {
    if parts == [] then []
    else Filled(parts[..|parts| - 1]) + if parts[|parts| - 1].content == [] then [] else [parts[|parts| - 1]]
  }

  /** The sections that have content. */
  function Sections(lines: seq<string>): seq<Part> {
    Filled(Parts(lines))
  }

  /** How many array elements among the first `n` lines lose their header. */
  function SkippedArrays(lines: seq<string>, n: nat): nat
    requires n <= |lines|
  {
    if n == 0 then 0 else SkippedArrays(lines, n - 1) + if IsArrayHeader(lines[n - 1]) && Skipped(lines, n - 1) then 1 else 0
  }

  /** The same section, with `gone` array elements fewer above it. */
  predicate Moved(a: Part, b: Part, gone: nat) {
    b.header == a.header && b.content == a.content && b.arrays + gone == a.arrays
  }

  predicate InLines(parts: seq<Part>, n: nat) {
    forall j :: 0 <= j < |parts| ==> parts[j].at <= n
  }

  predicate AllMoved(lines: seq<string>, a: seq<Part>, b: seq<Part>)
    requires InLines(a, |lines|)
  {
    |a| == |b| && forall j :: 0 <= j < |a| ==> Moved(a[j], b[j], SkippedArrays(lines, a[j].at))
  }

  lemma PartsSnoc(lines: seq<string>, line: string)
    ensures Parts(lines + [line]) == AddToParts(Parts(lines), |lines|, line)
  {
    assert (lines + [line])[..|lines|] == lines;
  }

  lemma FilledSnoc(parts: seq<Part>, p: Part)
    ensures Filled(parts + [p]) == Filled(parts) + if p.content == [] then [] else [p]
  {
    assert (parts + [p])[..|parts|] == parts;
  }

  lemma {:induction false} PartsInLines(lines: seq<string>)
    ensures InLines(Parts(lines), |lines|) && InLines(Sections(lines), |lines|)
  {
    hide IsBlank, IsHeader, Stripped;
    if lines != [] { PartsInLines(lines[..|lines| - 1]); }
    FilledInLines(Parts(lines), |lines|);
  }

  lemma {:induction false} FilledInLines(parts: seq<Part>, n: nat)
    requires InLines(parts, n)
    ensures InLines(Filled(parts), n)
  {
    if parts != [] { FilledInLines(parts[..|parts| - 1], n); }
  }

  /** `a`: the sections of the first lines; `b`: those of what they are laid out as; `ahead`: content comes next. */
  predicate Laid(lines: seq<string>, n: nat, a: seq<Part>, b: seq<Part>, ahead: bool)
    requires a != [] && b != [] && n <= |lines| && InLines(a, |lines|) && InLines(Filled(a), |lines|)
  {
    && AllMoved(lines, Filled(a), Filled(b))
    && SkippedArrays(lines, Last(a).at) == SkippedArrays(lines, n)
    && Last(b).arrays + SkippedArrays(lines, n) == Last(a).arrays
    && (ahead ==> Moved(Last(a), Last(b), SkippedArrays(lines, n)))
  }

  lemma LaidBlank(lines: seq<string>, n: nat, a: seq<Part>, b: seq<Part>, ahead: bool)
    requires a != [] && b != [] && n < |lines| && InLines(a, |lines|) && InLines(Filled(a), |lines|)
    requires Laid(lines, n, a, b, ahead) && IsBlank(lines[n])
    ensures Laid(lines, n + 1, a, b, ahead)
  {
  }

  lemma HeaderAdds(parts: seq<Part>, at: nat, line: string)
    requires parts != [] && IsHeader(line)
    ensures var r := AddToParts(parts, at, line);
            && Filled(r) == Filled(parts)
            && Last(r) == Part(at + 1, Last(parts).arrays + if IsArrayHeader(line) then 1 else 0, Stripped(line), [])
  {
    hide TrimSpace, Stripped, Filled;
    var p := Last(AddToParts(parts, at, line));
    FilledSnoc(parts, p);
    assert AddToParts(parts, at, line) == parts + [p];
  }

  lemma LaidHeader(lines: seq<string>, n: nat, a: seq<Part>, b: seq<Part>, ahead: bool, at: nat)
    requires a != [] && b != [] && n < |lines| && InLines(a, |lines|) && InLines(Filled(a), |lines|)
    requires Laid(lines, n, a, b, ahead) && IsHeader(lines[n])
    ensures var a' := AddToParts(a, n, lines[n]);
            && InLines(a', |lines|) && InLines(Filled(a'), |lines|)
            && if Skipped(lines, n) then Laid(lines, n + 1, a', b, false)
               else Laid(lines, n + 1, a', AddToParts(b, at, lines[n]), true)
  {
    hide TrimSpace, Stripped, HasContent, Filled, AddToParts, AllMoved;
    HeaderAdds(a, n, lines[n]);
    HeaderAdds(b, at, lines[n]);
    AddedInLines(a, n, lines[n], |lines|);
  }

  lemma AddedInLines(parts: seq<Part>, at: nat, line: string, n: nat)
    requires parts != [] && InLines(parts, n) && at < n
    ensures InLines(AddToParts(parts, at, line), n)
  {
    hide TrimSpace, Stripped;
  }

  lemma LaidContent(lines: seq<string>, n: nat, a: seq<Part>, b: seq<Part>, at: nat)
    requires a != [] && b != [] && n < |lines| && InLines(a, |lines|) && InLines(Filled(a), |lines|)
    requires Laid(lines, n, a, b, true) && IsContent(lines[n])
    ensures var a' := AddToParts(a, n, lines[n]);
            InLines(a', |lines|) && InLines(Filled(a'), |lines|) && Laid(lines, n + 1, a', AddToParts(b, at, lines[n]), true)
  {
    hide TrimSpace, Stripped, HasContent, Filled;
    var a', b' := AddToParts(a, n, lines[n]), AddToParts(b, at, lines[n]);
    var fa, fb := a[..|a| - 1], b[..|b| - 1];
    assert a == fa + [Last(a)] && b == fb + [Last(b)] && a' == fa + [Last(a')] && b' == fb + [Last(b')];
    FilledSnoc(fa, Last(a));
    FilledSnoc(fb, Last(b));
    FilledSnoc(fa, Last(a'));
    FilledSnoc(fb, Last(b'));
    FilledInLines(a', |lines|);
    FilledInLines(fa, |lines|);
    LaidFront(lines, Filled(fa), Filled(fb), Last(a), Last(b), Last(a'), Last(b'));
  }

  lemma LaidFront(lines: seq<string>, fa: seq<Part>, fb: seq<Part>, p: Part, q: Part, p': Part, q': Part)
    requires InLines(fa, |lines|) && p.at <= |lines| && p'.at == p.at
    requires Moved(p, q, SkippedArrays(lines, p.at)) && Moved(p', q', SkippedArrays(lines, p.at))
    requires AllMoved(lines, fa + if p.content == [] then [] else [p], fb + if q.content == [] then [] else [q])
    ensures InLines(fa + [p'], |lines|) && AllMoved(lines, fa + [p'], fb + [q'])
  {
    hide SkippedArrays;
    var xa, xb := fa + if p.content == [] then [] else [p], fb + if q.content == [] then [] else [q];
    forall j | 0 <= j < |fa| ensures Moved(fa[j], fb[j], SkippedArrays(lines, fa[j].at)) {
      assert xa[j] == fa[j] && xb[j] == fb[j];
    }
  }

  lemma AddLineParts(out: seq<string>, line: string)
    ensures exists at: nat :: Parts(AddLine(out, line)) == AddToParts(Parts(out), at, line)
  {
    hide TrimSpace, Stripped;
    EmptyIsBlank();
    PartsSnoc(out, "");
    var front := out + Gap(out, line);
    if Gap(out, line) == [] { assert front == out; }
    PartsSnoc(front, Stripped(line));
    StrippedSameKind(line);
    StrippedTwice(line);
    StrippedKeepsKind(line);
    assert Parts(AddLine(out, line)) == AddToParts(Parts(out), |front|, line);
  }

  lemma {:induction false} LayoutKeepsParts(lines: seq<string>, n: nat)
    requires n <= |lines|
    ensures InLines(Parts(lines[..n]), |lines|) && InLines(Filled(Parts(lines[..n])), |lines|)
    ensures Laid(lines, n, Parts(lines[..n]), Parts(Layout(lines, n)), HasContent(lines, n))
  {
    hide AddLine, TrimSpace, Stripped, Laid, AddToParts, Parts, Filled, Layout;
    PartsInLines(lines[..n]);
    if n == 0 {
      NothingLaid(lines);
    } else {
      var m := n - 1;
      var a, b, line := Parts(lines[..m]), Parts(Layout(lines, m)), lines[m];
      LayoutKeepsParts(lines, m);
      assert lines[..m] + [line] == lines[..n];
      PartsSnoc(lines[..m], line);
      AddLineParts(Layout(lines, m), line);
      LayoutSnoc(lines, m);
      var at: nat :| Parts(AddLine(Layout(lines, m), line)) == AddToParts(b, at, line);
      if IsHeader(line) {
        LaidHeader(lines, m, a, b, HasContent(lines, m), at);
      } else if IsBlank(line) {
        LaidBlank(lines, m, a, b, HasContent(lines, m));
        BlankAddsNothing(a, m, line);
        BlankAddsNothing(b, at, line);
      } else {
        LaidContent(lines, m, a, b, at);
        LaidLess(lines, n, Parts(lines[..n]), Parts(Layout(lines, n)), HasContent(lines, n));
      }
    }
  }

  lemma LaidLess(lines: seq<string>, n: nat, a: seq<Part>, b: seq<Part>, ahead: bool)
    requires a != [] && b != [] && n <= |lines| && InLines(a, |lines|) && InLines(Filled(a), |lines|)
    requires Laid(lines, n, a, b, true)
    ensures Laid(lines, n, a, b, ahead)
  {
  }

  lemma LayoutSnoc(lines: seq<string>, n: nat)
    requires n < |lines|
    ensures Layout(lines, n + 1) == if Skipped(lines, n) then Layout(lines, n) else AddLine(Layout(lines, n), lines[n])
  {
  }

  lemma BlankAddsNothing(parts: seq<Part>, at: nat, line: string)
    requires parts != [] && IsBlank(line)
    ensures AddToParts(parts, at, line) == parts
  {
  }

  lemma NothingLaid(lines: seq<string>)
    ensures InLines(Parts(lines[..0]), |lines|) && InLines(Filled(Parts(lines[..0])), |lines|)
    ensures Laid(lines, 0, Parts(lines[..0]), Parts(Layout(lines, 0)), HasContent(lines, 0))
  {
    assert lines[..0] == [];
  }

  predicate SameParts(a: seq<Part>, b: seq<Part>) {
    |a| == |b| && forall j :: 0 <= j < |a| ==> Moved(a[j], b[j], 0)
  }

  lemma {:induction false} FilledSame(a: seq<Part>, b: seq<Part>)
    requires SameParts(a, b)
    ensures SameParts(Filled(a), Filled(b))
  {
    if a != [] { FilledSame(a[..|a| - 1], b[..|b| - 1]); }
  }

  lemma AddedSame(a: seq<Part>, b: seq<Part>, at: nat, at': nat, line: string)
    requires a != [] && SameParts(a, b)
    ensures SameParts(AddToParts(a, at, line), AddToParts(b, at', line))
  {
    hide TrimSpace, Stripped;
  }

  lemma {:induction false} PartsBlankInFront(s: seq<string>, blank: string)
    requires IsBlank(blank)
    ensures SameParts(Parts([blank] + s), Parts(s))
  {
    hide AddToParts, IsBlank, Parts;
    if s == [] {
      PartsSnoc([], blank);
      BlankAddsNothing(Parts([]), 0, blank);
      assert [] + [blank] == [blank] + s;
    } else {
      var init, line := s[..|s| - 1], s[|s| - 1];
      PartsBlankInFront(init, blank);
      PartsSnoc([blank] + init, line);
      PartsSnoc(init, line);
      assert init + [line] == s && [blank] + init + [line] == [blank] + s;
      AddedSame(Parts([blank] + init), Parts(init), |init| + 1, |init|, line);
    }
  }

  lemma {:induction false} PartsDropFirst(s: seq<string>)
    ensures SameParts(Parts(s), Parts(DropFirstBlanks(s)))
  {
    hide IsBlank, Parts;
    if s != [] && IsBlank(s[0]) {
      PartsBlankInFront(s[1..], s[0]);
      assert [s[0]] + s[1..] == s;
      PartsDropFirst(s[1..]);
    }
  }

  lemma {:induction false} PartsDropLast(s: seq<string>)
    ensures Parts(DropLastBlanks(s)) == Parts(s)
  {
    hide TrimSpace;
    if s != [] && IsBlank(s[|s| - 1]) { PartsDropLast(s[..|s| - 1]); }
  }

  /**
   Formatting keeps the sections with content, one by one and in order, each with its header and its content lines up
   to trailing blanks. Above each there are as many array elements less as lost their header above it.
   */
  lemma FormatKeepsContent(lines: seq<string>)
    ensures InLines(Sections(lines), |lines|) && AllMoved(lines, Sections(lines), Sections(FormatLines(lines)))
  {
    hide Parts, Layout, DropFirstBlanks, DropLastBlanks, Filled;
    var laid := Layout(lines, |lines|);
    LayoutKeepsParts(lines, |lines|);
    assert lines[..|lines|] == lines;
    PartsDropFirst(laid);
    PartsDropLast(DropFirstBlanks(laid));
    FilledSame(Parts(laid), Parts(FormatLines(lines)));
  }

  lemma {:induction false} NoneSkipped(lines: seq<string>, n: nat)
    requires n <= |lines|
    ensures SkippedArrays(lines, n) == 0 <==> forall k :: 0 <= k < n ==> !(IsArrayHeader(lines[k]) && Skipped(lines, k))
  {
    hide IsArrayHeader, Skipped;
    if n > 0 { NoneSkipped(lines, n - 1); }
  }

  /** A section stays in its array element exactly when no array element above it loses its header. */
  lemma SectionStaysInElement(lines: seq<string>, j: nat)
    requires j < |Sections(lines)|
    ensures var r := Sections(FormatLines(lines));
            && |r| == |Sections(lines)| && Sections(lines)[j].at <= |lines|
            && (r[j].arrays == Sections(lines)[j].arrays <==>
                forall k :: 0 <= k < Sections(lines)[j].at ==> !(IsArrayHeader(lines[k]) && Skipped(lines, k)))
  {
    hide Sections, FormatLines, IsArrayHeader, Skipped, SkippedArrays;
    FormatKeepsContent(lines);
    NoneSkipped(lines, Sections(lines)[j].at);
  }

  // ----- The normal form -----

  predicate Clean(line: string) {
    line == "" || (!IsBlank(line) && Stripped(line) == line)
  }

  /** Clean lines, single blank lines, and a blank line before each header. */
  predicate Spaced(out: seq<string>) {
    && (forall i :: 0 <= i < |out| ==> Clean(out[i]))
    && (forall i :: 0 < i < |out| && IsBlank(out[i]) ==> !IsBlank(out[i - 1]))
    && (forall i :: 0 < i < |out| && IsHeader(out[i]) ==> IsBlank(out[i - 1]))
  }

  /** The last header has no content yet. */
  predicate Open(out: seq<string>) {
    out != [] && (IsHeader(out[|out| - 1]) || (IsBlank(out[|out| - 1]) && Open(out[..|out| - 1])))
  }

  /** No header follows a header without content. */
  predicate SectionsFull(out: seq<string>) {
    out == [] ||
    (SectionsFull(out[..|out| - 1]) && (IsHeader(out[|out| - 1]) ==> !Open(out[..|out| - 1])))
  }

  predicate Normal(out: seq<string>) {
    && Spaced(out) && SectionsFull(out) && !Open(out)
    && (out != [] ==> !IsBlank(out[0]) && !IsBlank(out[|out| - 1]))
  }

  lemma SectionSnoc(out: seq<string>, line: string)
    ensures Open(out + [line]) <==> IsHeader(line) || (IsBlank(line) && Open(out))
    ensures SectionsFull(out + [line]) <==> SectionsFull(out) && (IsHeader(line) ==> !Open(out))
  {
    assert (out + [line])[..|out|] == out;
  }

  lemma SpacedSnoc(out: seq<string>, line: string)
    requires Spaced(out) && Clean(line) && (IsBlank(line) ==> !LastBlank(out))
    requires IsHeader(line) ==> out == [] || LastBlank(out)
    ensures Spaced(out + [line])
  {
    hide Clean, IsBlank, IsHeader;
  }

  lemma AddLineIsSpaced(out: seq<string>, line: string)
    requires Spaced(out)
    ensures Spaced(AddLine(out, line))
  {
    hide Spaced, TrimSpace, Stripped;
    EmptyIsBlank();
    StrippedSameKind(line);
    StrippedTwice(line);
    if IsBlank(line) {
      if !LastBlank(out) { SpacedSnoc(out, ""); }
    } else {
      var front := out + Gap(out, line);
      if Gap(out, line) == [] { assert front == out; } else { SpacedSnoc(out, ""); }
      SpacedSnoc(front, Stripped(line));
    }
  }

  lemma AddLineSections(out: seq<string>, line: string)
    requires SectionsFull(out) && (IsHeader(line) ==> !Open(out))
    ensures SectionsFull(AddLine(out, line))
    ensures Open(AddLine(out, line)) <==> IsHeader(line) || (IsBlank(line) && Open(out))
  {
    hide TrimSpace, Stripped;
    EmptyIsBlank();
    StrippedSameKind(line);
    SectionSnoc(out, "");
    var front := out + Gap(out, line);
    if Gap(out, line) == [] { assert front == out; }
    SectionSnoc(front, Stripped(line));
  }

  lemma {:induction false} LayoutIsSpaced(lines: seq<string>, n: nat)
    requires n <= |lines|
    ensures Spaced(Layout(lines, n))
  {
    if n > 0 {
      LayoutIsSpaced(lines, n - 1);
      AddLineIsSpaced(Layout(lines, n - 1), lines[n - 1]);
    }
  }

  lemma {:induction false} LayoutSections(lines: seq<string>, n: nat)
    requires n <= |lines|
    ensures SectionsFull(Layout(lines, n)) && (Open(Layout(lines, n)) ==> HasContent(lines, n))
  {
    hide AddLine, TrimSpace;
    if n > 0 {
      LayoutSections(lines, n - 1);
      if !Skipped(lines, n - 1) { AddLineSections(Layout(lines, n - 1), lines[n - 1]); }
    }
  }

  lemma {:induction false} BlankInFrontSections(s: seq<string>, blank: string)
    requires IsBlank(blank)
    ensures Open([blank] + s) == Open(s) && SectionsFull([blank] + s) == SectionsFull(s)
  {
    hide TrimSpace;
    if s == [] {
      SectionSnoc([], blank);
    } else {
      var init, line := s[..|s| - 1], s[|s| - 1];
      BlankInFrontSections(init, blank);
      SectionSnoc([blank] + init, line);
      assert [blank] + init + [line] == [blank] + s;
    }
  }

  lemma {:induction false} DropFirstSections(s: seq<string>)
    requires Spaced(s) && SectionsFull(s) && !Open(s)
    ensures var r := DropFirstBlanks(s);
            Spaced(r) && SectionsFull(r) && !Open(r) && (r != [] ==> !IsBlank(r[0]))
  {
    hide TrimSpace;
    if s != [] && IsBlank(s[0]) {
      BlankInFrontSections(s[1..], s[0]);
      assert [s[0]] + s[1..] == s;
      SpacedTail(s);
      DropFirstSections(s[1..]);
    }
  }

  lemma SpacedTail(s: seq<string>)
    requires s != [] && Spaced(s)
    ensures Spaced(s[1..])
  {
    hide Clean, IsBlank, IsHeader;
    forall i | 0 < i < |s[1..]| ensures s[1..][i] == s[i + 1] && s[1..][i - 1] == s[i] {}
  }

  lemma SpacedInit(s: seq<string>)
    requires s != [] && Spaced(s)
    ensures Spaced(s[..|s| - 1])
  {
    hide Clean, IsBlank, IsHeader;
  }

  lemma {:induction false} DropLastSections(s: seq<string>)
    requires Spaced(s) && SectionsFull(s) && !Open(s) && (s != [] ==> !IsBlank(s[0]))
    ensures Normal(DropLastBlanks(s))
  {
    hide TrimSpace;
    if s != [] && IsBlank(s[|s| - 1]) {
      SpacedInit(s);
      DropLastSections(s[..|s| - 1]);
    }
  }

  /** Whatever the input, the result is in normal form. */
  lemma FormatIsNormal(lines: seq<string>)
    ensures Normal(FormatLines(lines))
  {
    var laid := Layout(lines, |lines|);
    LayoutIsSpaced(lines, |lines|);
    LayoutSections(lines, |lines|);
    DropFirstSections(laid);
    DropLastSections(DropFirstBlanks(laid));
  }

  // ----- Normal lines are left alone -----

  lemma {:induction false} SectionsFullPrefix(out: seq<string>, k: nat)
    requires k <= |out| && SectionsFull(out)
    ensures SectionsFull(out[..k])
    decreases |out|
  {
    if k < |out| {
      SectionsFullPrefix(out[..|out| - 1], k);
      assert out[..|out| - 1][..k] == out[..k];
    } else {
      assert out[..k] == out;
    }
  }

  /** In full sections an open header has content ahead. */
  lemma {:induction false} ContentAhead(out: seq<string>, tail: seq<string>, j: nat)
    requires SectionsFull(out) && !Open(out) && j <= |out| && Open(out[..j])
    ensures HasContent(out + tail, j)
    decreases |out| - j
  {
    hide TrimSpace;
    assert out[..|out|] == out;
    if j < |out| {
      SectionsFullPrefix(out, j + 1);
      assert out[..j + 1] == out[..j] + [out[j]];
      SectionSnoc(out[..j], out[j]);
      assert (out + tail)[j] == out[j];
      if IsBlank(out[j]) { ContentAhead(out, tail, j + 1); }
    }
  }

  lemma {:induction false} LayoutOfNormal(out: seq<string>, tail: seq<string>, n: nat)
    requires Normal(out) && n <= |out|
    ensures Layout(out + tail, n) == out[..n]
  {
    hide TrimSpace, Stripped;
    if n > 0 {
      LayoutOfNormal(out, tail, n - 1);
      var line := out[n - 1];
      assert (out + tail)[n - 1] == line && out[..n] == out[..n - 1] + [line];
      SectionSnoc(out[..n - 1], line);
      if IsHeader(line) { ContentAhead(out, tail, n); }
      AddCleanLine(out, n);
    }
  }

  lemma AddCleanLine(out: seq<string>, n: nat)
    requires Normal(out) && 0 < n <= |out|
    ensures AddLine(out[..n - 1], out[n - 1]) == out[..n]
  {
    hide TrimSpace, Stripped;
    EmptyIsBlank();
    var front, line := out[..n - 1], out[n - 1];
    assert Clean(line) && out[..n] == front + [line];
    if n > 1 { assert front[|front| - 1] == out[n - 2]; }
    assert Gap(front, line) == [];
    assert front + [] + [line] == out[..n];
  }

  lemma BlankStep(lines: seq<string>, n: nat)
    requires n < |lines| && lines[n] == ""
    ensures Layout(lines, n + 1) ==
            if LastBlank(Layout(lines, n)) then Layout(lines, n) else Layout(lines, n) + [""]
  {
    EmptyIsBlank();
  }

  function Blanks(k: nat): (r: seq<string>)
    ensures |r| == k && forall i :: 0 <= i < k ==> r[i] == ""
  {
    if k == 0 then [] else Blanks(k - 1) + [""]
  }

  lemma LaidWithBlanks(out: seq<string>, k: nat)
    requires Normal(out) && k <= (if out == [] then 2 else 1)
    ensures var lines := out + Blanks(k); Layout(lines, |lines|) == if k == 0 then out else out + [""]
  {
    hide Layout, IsBlank, Normal, Blanks;
    NormalEnds(out);
    LayoutOfNormal(out, Blanks(k), |out|);
    assert out[..|out|] == out;
    if k > 0 { BlankStep(out + Blanks(k), |out|); }
    if k > 1 { BlankStep(out + Blanks(k), |out| + 1); }
    EmptyIsBlank();
  }

  lemma NormalEnds(out: seq<string>)
    requires Normal(out)
    ensures !LastBlank(out) && (out != [] ==> !IsBlank(out[0]))
  {
  }

  lemma DropsOneBlank(out: seq<string>)
    requires !LastBlank(out) && (out != [] ==> !IsBlank(out[0]))
    ensures DropLastBlanks(DropFirstBlanks(out)) == out
    ensures DropLastBlanks(DropFirstBlanks(out + [""])) == out
  {
    EmptyIsBlank();
    hide IsBlank;
    var one := out + [""];
    assert one[..|out|] == out;
    if out == [] {
      assert one[1..] == [];
      assert DropFirstBlanks(one) == DropFirstBlanks(one[1..]);
    } else {
      assert DropFirstBlanks(one) == one;
      assert DropLastBlanks(one) == DropLastBlanks(out);
    }
  }

  /** Up to two empty lines at the end, which is what splitting the written text adds, change nothing. */
  lemma NormalIsFixed(out: seq<string>, k: nat)
    requires Normal(out) && k <= (if out == [] then 2 else 1)
    ensures FormatLines(out + Blanks(k)) == out
  {
    hide Layout, IsBlank, Normal, DropFirstBlanks, DropLastBlanks, Blanks;
    LaidWithBlanks(out, k);
    NormalEnds(out);
    DropsOneBlank(out);
  }

  // ----- The text -----

  lemma {:induction false} StrippedIsPart(line: string, c: char)
    requires c !in line
    ensures c !in Stripped(line)
  {
    if line != "" && (line[|line| - 1] == ' ' || line[|line| - 1] == '\t') { StrippedIsPart(line[..|line| - 1], c); }
  }

  lemma {:induction false} LayoutHasNoNewline(lines: seq<string>, n: nat)
    requires NoneContains(lines, '\n') && n <= |lines|
    ensures NoneContains(Layout(lines, n), '\n')
  {
    hide TrimSpace, Stripped, Skipped, IsBlank, IsHeader;
    if n > 0 {
      LayoutHasNoNewline(lines, n - 1);
      StrippedIsPart(lines[n - 1], '\n');
    }
  }

  lemma {:induction false} DropKeepsNoNewline(s: seq<string>)
    requires NoneContains(s, '\n')
    ensures NoneContains(DropFirstBlanks(s), '\n') && NoneContains(DropLastBlanks(s), '\n')
  {
    hide IsBlank;
    if s != [] {
      if IsBlank(s[0]) { DropKeepsNoNewline(s[1..]); }
      if IsBlank(s[|s| - 1]) { DropKeepsNoNewline(s[..|s| - 1]); }
    }
  }

  lemma {:induction false} JoinSnoc(parts: seq<string>, sep: char)
    requires parts != []
    ensures Join(parts + [""], sep) == Join(parts, sep) + [sep]
  {
    assert (parts + [""])[1..] == parts[1..] + [""];
    if |parts| > 1 { JoinSnoc(parts[1..], sep); }
  }

  lemma SplitOfWritten(out: seq<string>)
    requires NoneContains(out, '\n')
    ensures Split(Join(out, '\n') + "\n", '\n') == if out == [] then ["", ""] else out + [""]
  {
    if out == [] {
      assert Join(["", ""], '\n') == "\n";
      SplitJoin(["", ""], '\n');
    } else {
      JoinSnoc(out, '\n');
      SplitJoin(out + [""], '\n');
    }
  }

  /** formatTOML is idempotent. */
  lemma FormatTwice(raw: string)
    ensures Formatted(Formatted(raw)) == Formatted(raw)
  {
    var lines := Split(raw, '\n');
    var out := FormatLines(lines);
    JoinSplit(raw, '\n');
    LayoutHasNoNewline(lines, |lines|);
    DropKeepsNoNewline(Layout(lines, |lines|));
    DropKeepsNoNewline(DropFirstBlanks(Layout(lines, |lines|)));
    SplitOfWritten(out);
    FormatIsNormal(lines);
    if out == [] {
      NormalIsFixed(out, 2);
      assert out + Blanks(2) == ["", ""];
    } else {
      NormalIsFixed(out, 1);
      assert out + Blanks(1) == out + [""];
    }
  }

  // ----- The formatted lines in one reading -----

  /** A line that is kept, and whether a blank line goes before it. */
  datatype KeptLine = KeptLine(text: string, gap: bool)

  /** `lead`: blank lines came before the first kept line; `gap`: blank lines came after the last one. */
  datatype Reading = Reading(lead: bool, kept: seq<KeptLine>, gap: bool)

  function ReadLine(r: Reading, line: string): Reading {
    if !IsBlank(line) then
      r.(kept := r.kept + [KeptLine(Stripped(line), r.kept != [] && (r.gap || IsHeader(line)))], gap := false)
    else if r.kept == [] then r.(lead := true)
    else r.(gap := true)
  }

  /** The lines read one by one, without headers of empty sections. */
  function ReadUpTo(lines: seq<string>, n: nat): Reading
    requires n <= |lines|
  {
    if n == 0 then Reading(false, [], false)
    else if Skipped(lines, n - 1) then ReadUpTo(lines, n - 1)
    else ReadLine(ReadUpTo(lines, n - 1), lines[n - 1])
  }

  function GapIf(blank: bool): seq<string> {
    if blank then [""] else []
  }

  function Rendered(kept: seq<KeptLine>): seq<string> {
    if kept == [] then []
    else Rendered(kept[..|kept| - 1]) + GapIf(kept[|kept| - 1].gap) + [kept[|kept| - 1].text]
  }

  /** The first line has no blank line before it, and none is blank itself. */
  predicate WellKept(r: Reading) {
    && (r.kept == [] ==> !r.gap) && (r.kept != [] ==> !r.kept[0].gap)
    && (forall i :: 0 <= i < |r.kept| ==> !IsBlank(r.kept[i].text))
  }

  lemma RenderedSnoc(kept: seq<KeptLine>, k: KeptLine)
    ensures Rendered(kept + [k]) == Rendered(kept) + GapIf(k.gap) + [k.text]
  {
    assert (kept + [k])[..|kept|] == kept;
  }

  lemma {:induction false} RenderedEnds(kept: seq<KeptLine>)
    requires kept != [] && !kept[0].gap && forall i :: 0 <= i < |kept| ==> !IsBlank(kept[i].text)
    ensures var r := Rendered(kept); r != [] && r[0] == kept[0].text && r[|r| - 1] == kept[|kept| - 1].text
  {
    hide IsBlank;
    if |kept| > 1 { RenderedEnds(kept[..|kept| - 1]); }
  }

  /** The output for a reading. */
  function Output(r: Reading): seq<string> {
    GapIf(r.lead) + Rendered(r.kept) + GapIf(r.gap)
  }

  lemma OutputEnds(r: Reading)
    requires WellKept(r)
    ensures Output(r) == [] <==> r.kept == [] && !r.lead
    ensures LastBlank(Output(r)) <==> if r.kept == [] then r.lead else r.gap
  {
    hide IsBlank, Rendered;
    EmptyIsBlank();
    NothingRendered();
    if r.kept != [] { RenderedEnds(r.kept); }
  }

  lemma LayBlank(r: Reading, line: string)
    requires WellKept(r) && IsBlank(line)
    ensures WellKept(ReadLine(r, line)) && AddLine(Output(r), line) == Output(ReadLine(r, line))
  {
    hide IsBlank, Rendered, LastBlank;
    OutputEnds(r);
    NothingRendered();
  }

  lemma LayKept(r: Reading, line: string)
    requires WellKept(r) && !IsBlank(line)
    ensures WellKept(ReadLine(r, line)) && AddLine(Output(r), line) == Output(ReadLine(r, line))
  {
    hide IsBlank, IsHeader, Stripped, Rendered, LastBlank;
    OutputEnds(r);
    StrippedSameKind(line);
    NothingRendered();
    var gap := r.kept != [] && (r.gap || IsHeader(line));
    RenderedSnoc(r.kept, KeptLine(Stripped(line), gap));
    assert Output(r) + Gap(Output(r), line) == GapIf(r.lead) + Rendered(r.kept) + GapIf(gap);
  }

  lemma NothingRendered()
    ensures Rendered([]) == []
  {
  }

  lemma {:induction false} LayoutIsReading(lines: seq<string>, n: nat)
    requires n <= |lines|
    ensures WellKept(ReadUpTo(lines, n)) && Layout(lines, n) == Output(ReadUpTo(lines, n))
  {
    hide Skipped, WellKept, AddLine, ReadLine, Output, IsBlank;
    if n == 0 {
      NothingRead();
    } else {
      LayoutIsReading(lines, n - 1);
      var r, line := ReadUpTo(lines, n - 1), lines[n - 1];
      if IsBlank(line) { LayBlank(r, line); } else { LayKept(r, line); }
    }
  }

  lemma NothingRead()
    ensures var r := Reading(false, [], false); WellKept(r) && Output(r) == []
  {
  }

  lemma BlanksDrop(lead: bool, body: seq<string>, gap: bool)
    requires if body == [] then !gap else !IsBlank(body[0]) && !IsBlank(body[|body| - 1])
    ensures DropLastBlanks(DropFirstBlanks(GapIf(lead) + body + GapIf(gap))) == body
  {
    hide IsBlank;
    EmptyIsBlank();
    var rest := body + GapIf(gap);
    assert GapIf(lead) + body + GapIf(gap) == GapIf(lead) + rest;
    if lead { assert ([""] + rest)[1..] == rest; } else { assert [] + rest == rest; }
    assert DropFirstBlanks(rest) == rest;
    if gap { assert (body + [""])[..|body|] == body; } else { assert body + [] == body; }
  }

  /**
   The whole formatter in one reading: the lines that are not blank, without headers of empty sections, each without
   blanks at its end, with one blank line before each header and wherever blank lines were.
   */
  lemma FormatIsReading(lines: seq<string>)
    ensures FormatLines(lines) == Rendered(ReadUpTo(lines, |lines|).kept)
  {
    hide Layout, ReadUpTo, IsBlank, DropFirstBlanks, DropLastBlanks, Rendered;
    LayoutIsReading(lines, |lines|);
    var r := ReadUpTo(lines, |lines|);
    NothingRendered();
    if r.kept != [] { RenderedEnds(r.kept); }
    BlanksDrop(r.lead, Rendered(r.kept), r.gap);
  }
}
