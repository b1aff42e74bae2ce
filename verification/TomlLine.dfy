/** One line of the configuration file as the surgical editor sees it (config/config.go). */
module TomlLine {
  import opened Wrappers
  import opened Strings

  // ----- Matchers -----

  predicate HasPrefix(s: string, prefix: string) {
    |prefix| <= |s| && s[..|prefix|] == prefix
  }

  predicate MatchTableHeader(line: string, header: string) {
    var t := TrimSpace(line);
    HasPrefix(t, header) &&
    (|t| == |header| || t[|header|] == ' ' || t[|header|] == '\t' || t[|header|] == '#')
  }

  predicate IsAnyTableHeader(line: string) {
    HasPrefix(TrimSpace(line), "[")
  }

  predicate MatchTomlStringKey(line: string, key: string) {
    var t := TrimSpace(line);
    t != "" && !HasPrefix(t, "#") && !HasPrefix(t, "[") && HasPrefix(t, key) &&
    HasPrefix(TrimSpace(t[|key|..]), "=")
  }

  predicate IsBareChar(c: char) {
    'a' <= c <= 'z' || 'A' <= c <= 'Z' || '0' <= c <= '9' || c == '_' || c == '-'
  }

  /** The keys the editor is called with: TOML bare keys. */
  predicate BareKey(key: string) {
    key != "" && forall i :: 0 <= i < |key| ==> IsBareChar(key[i])
  }

  lemma HeaderMatchesAny(line: string, header: string)
    requires MatchTableHeader(line, header) && HasPrefix(header, "[")
    ensures IsAnyTableHeader(line)
  {
    var t := TrimSpace(line);
    assert t[0] == t[..|header|][0];
  }

  /** A line defines at most one bare key. */
  lemma OneKeyPerLine(line: string, a: string, b: string)
    requires BareKey(a) && BareKey(b) && MatchTomlStringKey(line, a) && MatchTomlStringKey(line, b)
    ensures a == b
  {
    if |a| < |b| { ShorterKeyFails(line, a, b); }
    if |b| < |a| { ShorterKeyFails(line, b, a); }
    assert a == TrimSpace(line)[..|a|];
  }

  lemma ShorterKeyFails(line: string, a: string, b: string)
    requires BareKey(b) && HasPrefix(TrimSpace(line), b) && |a| < |b|
    ensures !MatchTomlStringKey(line, a)
  {
    var rest := TrimSpace(line)[|a|..];
    assert rest[0] == TrimSpace(line)[..|b|][|a|] == b[|a|];
    assert IsBareChar(rest[0]) && TrimLeft(rest) == rest;
    var k := TrimRightSplits(rest);
    assert TrimSpace(rest) == rest[..k];
  }

  // ----- Quoting -----

  function HexDigit(n: nat): (c: char)
    requires n < 16
    ensures HexValue(c) == Some(n) && IsBareChar(c)
  {
    "0123456789abcdef"[n]
  }

  function QuoteChar(c: char): string {
    if c == '"' then ['\\', '"']
    else if c == '\\' then ['\\', '\\']
    else if c == '\U{07}' then ['\\', 'a']
    else if c == '\U{08}' then ['\\', 'b']
    else if c == '\U{0C}' then ['\\', 'f']
    else if c == '\n' then ['\\', 'n']
    else if c == '\r' then ['\\', 'r']
    else if c == '\t' then ['\\', 't']
    else if c == '\U{0B}' then ['\\', 'v']
    else if c < ' ' || c == '\U{7F}' then ['\\', 'x', HexDigit(c as int / 16), HexDigit(c as int % 16)]
    else [c]
  }

  function QuoteBody(value: string): string {
    if value == "" then "" else QuoteChar(value[0]) + QuoteBody(value[1..])
  }

  function Quote(value: string): string {
    "\"" + QuoteBody(value) + "\""
  }

  function FormatBool(value: bool): string {
    if value then "true" else "false"
  }

  function HexValue(c: char): Option<nat> {
    if '0' <= c <= '9' then Some(c as int - '0' as int)
    else if 'a' <= c <= 'f' then Some(c as int - 'a' as int + 10)
    else None
  }

  /** The one-character escapes of a TOML basic string; Go's quoting also writes \a and \v, which TOML does not know. */
  function Unescape(c: char): Option<char> {
    if c == '"' || c == '\\' then Some(c)
    else if c == 'b' then Some('\U{08}')
    else if c == 'e' then Some('\U{1B}')
    else if c == 'f' then Some('\U{0C}')
    else if c == 'n' then Some('\n')
    else if c == 'r' then Some('\r')
    else if c == 't' then Some('\t')
    else None
  }

  predicate IsControl(c: char) {
    (c < ' ' && c != '\t') || c == '\U{7F}'
  }

  /** What a reader of a TOML basic string gets from the text between the quotes (TOML 1.1, without \u escapes). */
  function UnquoteBody(text: string): Option<string> {
    if text == "" then Some("")
    else if text[0] == '"' || IsControl(text[0]) then None
    else if text[0] != '\\' then Prepend(text[0], UnquoteBody(text[1..]))
    else if |text| >= 4 && text[1] == 'x' then
      var hi, lo := HexValue(text[2]), HexValue(text[3]);
      if hi.None? || lo.None? then None
      else Prepend((hi.value * 16 + lo.value) as char, UnquoteBody(text[4..]))
    else if |text| < 2 || Unescape(text[1]).None? then None
    else Prepend(Unescape(text[1]).value, UnquoteBody(text[2..]))
  }

  function Prepend(c: char, rest: Option<string>): Option<string> {
    if rest.None? then None else Some([c] + rest.value)
  }

  function Unquote(text: string): Option<string> {
    if |text| >= 2 && text[0] == '"' && text[|text| - 1] == '"' then UnquoteBody(text[1..|text| - 1]) else None
  }

  /** The bell and the vertical tab are the characters that are written with an escape TOML does not have. */
  predicate Readable(value: string) {
    '\U{07}' !in value && '\U{0B}' !in value
  }

  lemma UnquoteChar(c: char, rest: string)
    ensures UnquoteBody(QuoteChar(c) + rest) == if c == '\U{07}' || c == '\U{0B}' then None else Prepend(c, UnquoteBody(rest))
  {
    var q := QuoteChar(c);
    var text := q + rest;
    assert text[|q|..] == rest;
    assert text[0] == q[0];
    if |q| == 2 {
      assert text[1] == q[1];
    } else if |q| == 4 {
      assert text[1] == q[1] && text[2] == q[2] && text[3] == q[3];
    }
  }

  lemma {:induction false} UnquoteBodyOfQuote(value: string)
    ensures UnquoteBody(QuoteBody(value)) == if Readable(value) then Some(value) else None
  {
    if value != "" {
      hide QuoteChar, UnquoteBody;
      UnquoteBodyOfQuote(value[1..]);
      UnquoteChar(value[0], QuoteBody(value[1..]));
      assert value == [value[0]] + value[1..];
      assert forall c :: c in value <==> c == value[0] || c in value[1..];
    } else {
      NothingToUnquote();
    }
  }

  lemma NothingToUnquote()
    ensures UnquoteBody("") == Some("")
  {
  }

  /** Quoting loses nothing exactly when the value has neither a bell nor a vertical tab; else the text is no TOML string. */
  lemma UnquoteQuote(value: string)
    ensures Unquote(Quote(value)) == if Readable(value) then Some(value) else None
  {
    UnquoteBodyOfQuote(value);
    assert Quote(value)[1..|Quote(value)| - 1] == QuoteBody(value);
  }

  lemma {:induction false} QuoteBodyIsOneLine(value: string)
    ensures '\n' !in QuoteBody(value)
  {
    if value != "" { QuoteBodyIsOneLine(value[1..]); }
  }

  // ----- The comment scanner -----

  datatype Mode = Plain | Quoted | Escaped

  function NextMode(m: Mode, c: char): Mode {
    if m.Escaped? then Quoted
    else if c == '\\' && m.Quoted? then Escaped
    else if c == '"' then (if m.Quoted? then Plain else Quoted)
    else m
  }

  /** Position of the first '#' outside a quoted string; the length when there is none. */
  function CommentAt(m: Mode, text: string): (k: nat)
    ensures k <= |text|
    decreases |text|
  {
    if text == "" then 0
    else if text[0] == '#' && m.Plain? then 0
    else 1 + CommentAt(NextMode(m, text[0]), text[1..])
  }

  /** The scanner's mode after `text`; None when it stops at a comment inside `text`. */
  function Scan(m: Mode, text: string): Option<Mode>
    decreases |text|
  {
    if text == "" then Some(m)
    else if text[0] == '#' && m.Plain? then None
    else Scan(NextMode(m, text[0]), text[1..])
  }

  /** A value text that the scanner walks over and leaves unquoted again. */
  predicate Neutral(text: string) {
    Scan(Plain, text) == Some(Plain)
  }

  function CommentOf(line: string): string {
    TrimSpace(line[CommentAt(Plain, line)..])
  }

  method ExtractLineComment(line: string) returns (comment: string)
    ensures comment == CommentOf(line)
  {
    var inQuote, escaped := false, false;
    for i := 0 to |line|
      invariant escaped ==> inQuote
      invariant CommentAt(Plain, line) == i + CommentAt(ModeOf(inQuote, escaped), line[i..])
    {
      var ch := line[i];
      assert line[i..][0] == ch && line[i..][1..] == line[i + 1..];
      if escaped {
        escaped := false;
        continue;
      }
      if ch == '\\' && inQuote {
        escaped := true;
        continue;
      }
      if ch == '"' {
        inQuote := !inQuote;
        continue;
      }
      if ch == '#' && !inQuote {
        return TrimSpace(line[i..]);
      }
    }
    assert line[|line|..] == "";
    return "";
  }

  function ModeOf(inQuote: bool, escaped: bool): Mode {
    if escaped then Escaped else if inQuote then Quoted else Plain
  }

  lemma {:induction false} ScanConcat(m: Mode, a: string, b: string)
    ensures Scan(m, a).None? ==> Scan(m, a + b).None?
    ensures Scan(m, a).Some? ==> Scan(m, a + b) == Scan(Scan(m, a).value, b)
    ensures Scan(m, a).Some? ==> CommentAt(m, a + b) == |a| + CommentAt(Scan(m, a).value, b)
    ensures Scan(m, a).None? ==> CommentAt(m, a + b) == CommentAt(m, a)
    decreases |a|
  {
    if a == "" { assert a + b == b; } else {
      assert (a + b)[1..] == a[1..] + b;
      if !(a[0] == '#' && m.Plain?) { ScanConcat(NextMode(m, a[0]), a[1..], b); }
    }
  }

  lemma {:induction false} PlainTextIsNeutral(text: string)
    requires '#' !in text && '"' !in text
    ensures Neutral(text)
  {
    if text != "" { PlainTextIsNeutral(text[1..]); }
  }

  lemma {:induction false} ScanQuoteBody(value: string)
    ensures Scan(Quoted, QuoteBody(value)) == Some(Quoted)
  {
    if value != "" {
      ScanQuoteChar(value[0]);
      ScanConcat(Quoted, QuoteChar(value[0]), QuoteBody(value[1..]));
      ScanQuoteBody(value[1..]);
    }
  }

  lemma ScanQuoteChar(c: char)
    ensures Scan(Quoted, QuoteChar(c)) == Some(Quoted)
  {
    var q := QuoteChar(c);
    if |q| == 2 {
      ScanEscape(q);
    } else if |q| == 4 {
      ScanEscape(q[..2]);
      ScanConcat(Quoted, q[..2], q[2..]);
      assert q == q[..2] + q[2..];
      ScanHexDigits(q[2], q[3]);
      assert q[2..] == [q[2], q[3]];
    }
  }

  lemma ScanHexDigits(a: char, b: char)
    requires IsBareChar(a) && IsBareChar(b)
    ensures Scan(Quoted, [a, b]) == Some(Quoted)
  {
    var last := [a, b][1..];
    assert last[1..] == "" && Scan(Quoted, last[1..]) == Some(Quoted);
    assert Scan(Quoted, last) == Some(Quoted);
  }

  lemma ScanEscape(q: string)
    requires |q| == 2 && q[0] == '\\'
    ensures Scan(Quoted, q) == Some(Quoted)
  {
    var last := q[1..];
    assert last[1..] == "" && Scan(Quoted, last[1..]) == Some(Quoted);
    assert Scan(Escaped, last) == Some(Quoted);
  }

  /** The comment scanner skips over any quoted value, whatever it contains. */
  lemma QuoteIsNeutral(value: string)
    ensures Neutral(Quote(value)) && Trimmed(Quote(value)) && Quote(value) != "" && '\n' !in Quote(value)
  {
    ScanQuoteBody(value);
    QuoteBodyIsOneLine(value);
    ScanConcat(Quoted, QuoteBody(value), "\"");
    ScanConcat(Plain, "\"", QuoteBody(value) + "\"");
    assert Quote(value) == "\"" + (QuoteBody(value) + "\"");
  }

  // ----- Rewriting a key line -----

  function Indent(s: string): string {
    if s != "" && (s[0] == ' ' || s[0] == '\t') then [s[0]] + Indent(s[1..]) else ""
  }

  function KeyLine(indent: string, key: string, text: string, comment: string): string {
    indent + key + " = " + text + Tail(comment)
  }

  /** replaceTomlStringKeyLine, with the value already written as TOML text. */
  function ReplacedLine(line: string, key: string, text: string): string {
    KeyLine(Indent(line), key, text, CommentOf(line))
  }

  function NewLine(key: string, text: string): string {
    key + " = " + text
  }

  /** A value text that can follow "key = " on a line. */
  predicate ValueText(text: string) {
    text != "" && Trimmed(text) && Neutral(text)
  }

  /** Booleans are written unquoted. */
  lemma BoolIsValueText(value: bool)
    ensures ValueText(FormatBool(value)) && (FormatBool(value) == "true" <==> value) && (FormatBool(value) == "false" <==> !value)
  {
    PlainTextIsNeutral(FormatBool(value));
  }

  predicate Blanks(s: string) {
    forall i :: 0 <= i < |s| ==> s[i] == ' ' || s[i] == '\t'
  }

  predicate IsComment(s: string) {
    s != "" ==> s[0] == '#' && Trimmed(s)
  }

  /** The value text of a key line: what stands between '=' and the comment. */
  function ValueOf(line: string, key: string): string
    requires MatchTomlStringKey(line, key)
  {
    var body := TrimSpace(line[..CommentAt(Plain, line)]);
    if |body| <= |key| then ""
    else
      var rest := TrimSpace(body[|key|..]);
      if rest == "" then "" else TrimSpace(rest[1..])
  }

  lemma {:induction false} IndentIsBlank(s: string)
    ensures Blanks(Indent(s))
  {
    if s != "" && (s[0] == ' ' || s[0] == '\t') { IndentIsBlank(s[1..]); }
  }

  lemma {:induction false} IndentOf(blanks: string, rest: string)
    requires Blanks(blanks) && rest != "" && rest[0] != ' ' && rest[0] != '\t'
    ensures Indent(blanks + rest) == blanks
  {
    if blanks == "" { assert blanks + rest == rest; } else {
      IndentOf(blanks[1..], rest);
      assert (blanks + rest)[1..] == blanks[1..] + rest;
    }
  }

  lemma {:induction false} CommentIsMarked(m: Mode, text: string)
    ensures CommentAt(m, text) < |text| ==> text[CommentAt(m, text)] == '#'
    decreases |text|
  {
    if text != "" && !(text[0] == '#' && m.Plain?) { CommentIsMarked(NextMode(m, text[0]), text[1..]); }
  }

  lemma CommentOfIsComment(line: string)
    ensures IsComment(CommentOf(line))
  {
    var k := CommentAt(Plain, line);
    CommentIsMarked(Plain, line);
    TrimIsTrimmed(line[k..]);
    if k < |line| {
      assert TrimLeft(line[k..]) == line[k..];
      var j := TrimRightSplits(line[k..]);
    }
  }

  function Tail(comment: string): string {
    if comment != "" then " " + comment else ""
  }

  /** The shape of a line the editor writes, and what every reader of the model sees in it. */
  lemma KeyLineShape(indent: string, key: string, text: string, comment: string)
    requires Blanks(indent) && BareKey(key) && ValueText(text) && IsComment(comment)
    ensures var line := KeyLine(indent, key, text, comment);
            && MatchTomlStringKey(line, key) && !IsAnyTableHeader(line)
            && Indent(line) == indent && CommentOf(line) == comment && ValueOf(line, key) == text
  {
    var line := KeyLine(indent, key, text, comment);
    var body := key + " = " + text;
    KeyLineMatches(indent, key, text, Tail(comment));
    assert line == indent + (body + Tail(comment));
    IndentOf(indent, body + Tail(comment));
    KeyLineScan(indent, key, text, Tail(comment));
    var k := CommentAt(Plain, line);
    assert indent + body + Tail(comment) == line;
    KeyLineComment(indent + body, comment);
    assert line[..k] == indent + body + line[|indent + body|..k];
    KeyLineValue(indent, key, text, line[|indent + body|..k]);
  }

  /** The scanner passes over indentation, key and value. */
  lemma KeyLineScan(indent: string, key: string, text: string, tail: string)
    requires Blanks(indent) && BareKey(key) && ValueText(text)
    ensures Scan(Plain, indent + (key + " = " + text)) == Some(Plain)
  {
    var head := indent + key + " = ";
    PlainTextIsNeutral(head);
    ScanConcat(Plain, head, text);
    assert head + text == indent + (key + " = " + text);
  }

  lemma KeyLineComment(body: string, comment: string)
    requires Neutral(body) && IsComment(comment)
    ensures var line := body + Tail(comment);
            && CommentOf(line) == comment && |body| <= CommentAt(Plain, line)
            && AllSpace(line[|body|..CommentAt(Plain, line)])
  {
    var line := body + Tail(comment);
    ScanConcat(Plain, body, Tail(comment));
    var k := CommentAt(Plain, line);
    if comment == "" {
      assert line[k..] == "";
    } else {
      assert Tail(comment)[0] == ' ' && Tail(comment)[1..] == comment;
      assert CommentAt(Plain, Tail(comment)) == 1;
      assert line[k..] == comment;
      assert line[|body|] == ' ';
      TrimOfTrimmed(comment);
    }
  }

  lemma KeyLineMatches(indent: string, key: string, text: string, tail: string)
    requires Blanks(indent) && BareKey(key) && text != "" && Trimmed(text)
    requires tail == "" || (|tail| > 1 && tail[0] == ' ' && Trimmed(tail[1..]))
    ensures var line := indent + key + " = " + text + tail;
            MatchTomlStringKey(line, key) && !IsAnyTableHeader(line)
  {
    var line := indent + key + " = " + text + tail;
    var t := key + " = " + text + tail;
    assert t[0] == key[0] && IsBareChar(key[0]);
    assert t[|t| - 1] == if tail == "" then text[|text| - 1] else tail[|tail| - 1];
    TrimUnique(indent, t, "");
    assert indent + t + "" == line;
    assert t[..|key|] == key;
    var rest := t[|key|..];
    assert rest == " = " + text + tail;
    var eq := rest[1..];
    TrimUnique(" ", eq, "");
    assert " " + eq + "" == rest;
    assert eq[0] == '=';
  }

  lemma KeyLineValue(indent: string, key: string, text: string, post: string)
    requires Blanks(indent) && BareKey(key) && text != "" && Trimmed(text) && AllSpace(post)
    ensures var b := TrimSpace(indent + (key + " = " + text) + post);
            |b| > |key| && TrimSpace(b[|key|..]) != "" && TrimSpace(TrimSpace(b[|key|..])[1..]) == text
  {
    var body := key + " = " + text;
    TrimUnique(indent, body, post);
    assert body[|key|..] == " " + ("= " + text) + "";
    TrimUnique(" ", "= " + text, "");
    assert ("= " + text)[1..] == " " + text + "";
    TrimUnique(" ", text, "");
  }

  /** Rewriting keeps indentation and comment, and the new value can be read back. */
  lemma ReplacedLineShape(line: string, key: string, text: string)
    requires BareKey(key) && ValueText(text)
    ensures var r := ReplacedLine(line, key, text);
            && MatchTomlStringKey(r, key) && !IsAnyTableHeader(r)
            && Indent(r) == Indent(line) && CommentOf(r) == CommentOf(line) && ValueOf(r, key) == text
            && r == Indent(line) + key + " = " + text + (if CommentOf(line) == "" then "" else " " + CommentOf(line))
  {
    IndentIsBlank(line);
    CommentOfIsComment(line);
    KeyLineShape(Indent(line), key, text, CommentOf(line));
  }

  /** Put-put and idempotence of rewriting one line, for every line and every value. */
  lemma ReplacedTwice(line: string, key: string, first: string, second: string)
    requires BareKey(key) && ValueText(first)
    ensures ReplacedLine(ReplacedLine(line, key, first), key, second) == ReplacedLine(line, key, second)
  {
    ReplacedLineShape(line, key, first);
  }

  lemma NewLineShape(key: string, text: string)
    requires BareKey(key) && ValueText(text)
    ensures MatchTomlStringKey(NewLine(key, text), key) && !IsAnyTableHeader(NewLine(key, text))
    ensures ValueOf(NewLine(key, text), key) == text
    ensures ReplacedLine(NewLine(key, text), key, text) == NewLine(key, text)
    ensures Indent(NewLine(key, text)) == "" && CommentOf(NewLine(key, text)) == ""
  {
    KeyLineShape("", key, text, "");
    assert KeyLine("", key, text, "") == NewLine(key, text);
  }

  /** The value a string key was set to is the value read back from its line, if it can be read at all. */
  lemma QuotedValueReadsBack(line: string, key: string, value: string)
    requires BareKey(key)
    ensures var r := ReplacedLine(line, key, Quote(value));
            && MatchTomlStringKey(r, key)
            && Unquote(ValueOf(r, key)) == if Readable(value) then Some(value) else None
  {
    QuoteIsNeutral(value);
    ReplacedLineShape(line, key, Quote(value));
    UnquoteQuote(value);
  }
}
