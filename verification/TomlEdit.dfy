/** The surgical edits: upserting a key in a run of lines, and the lens laws of that edit (config/config.go). */
module TomlEdit {
  import opened Wrappers
  import opened TomlLine

  // ----- One run of lines as a table of keys -----

  /** The first line that sets `key`, or the number of lines. */
  function KeyIndex(body: seq<string>, key: string): (j: nat)
    ensures j <= |body|
    ensures j < |body| ==> MatchTomlStringKey(body[j], key)
  {
    if body == [] || MatchTomlStringKey(body[0], key) then 0 else 1 + KeyIndex(body[1..], key)
  }

  function Get(body: seq<string>, key: string): Option<string> {
    var j := KeyIndex(body, key);
    if j < |body| then Some(ValueOf(body[j], key)) else None
  }

  function Put(body: seq<string>, key: string, text: string): seq<string> {
    var j := KeyIndex(body, key);
    if j < |body| then body[j := ReplacedLine(body[j], key, text)] else body + [NewLine(key, text)]
  }

  lemma {:induction false} KeyIndexSkips(body: seq<string>, key: string, i: nat)
    requires i < KeyIndex(body, key)
    ensures !MatchTomlStringKey(body[i], key)
  {
    if i > 0 { KeyIndexSkips(body[1..], key, i - 1); }
  }

  lemma {:induction false} KeyIndexIs(body: seq<string>, key: string, j: nat)
    requires j <= |body| && (j < |body| ==> MatchTomlStringKey(body[j], key))
    requires forall i :: 0 <= i < j ==> !MatchTomlStringKey(body[i], key)
    ensures KeyIndex(body, key) == j
  {
    if j > 0 {
      forall i | 0 <= i < j - 1 ensures !MatchTomlStringKey(body[1..][i], key) { assert body[1..][i] == body[i + 1]; }
      KeyIndexIs(body[1..], key, j - 1);
    }
  }

  /** The line written by Put, and where it stands. */
  lemma PutLine(body: seq<string>, key: string, text: string)
    requires BareKey(key) && ValueText(text)
    ensures var j, r := KeyIndex(body, key), Put(body, key, text);
            && j < |r| && |r| == (if j < |body| then |body| else |body| + 1)
            && MatchTomlStringKey(r[j], key) && !IsAnyTableHeader(r[j]) && ValueOf(r[j], key) == text
            && (forall i :: 0 <= i < |body| && i != j ==> r[i] == body[i])
            && KeyIndex(r, key) == j
  {
    var j, r := KeyIndex(body, key), Put(body, key, text);
    if j < |body| { ReplacedLineShape(body[j], key, text); } else { NewLineShape(key, text); }
    forall i | 0 <= i < j ensures !MatchTomlStringKey(r[i], key) { KeyIndexSkips(body, key, i); }
    KeyIndexIs(r, key, j);
  }

  /** Put-get: the value written is the value looked up. */
  lemma PutGet(body: seq<string>, key: string, text: string)
    requires BareKey(key) && ValueText(text)
    ensures Get(Put(body, key, text), key) == Some(text)
  {
    PutLine(body, key, text);
  }

  /** Every other key keeps its value. */
  lemma PutOther(body: seq<string>, key: string, text: string, other: string)
    requires BareKey(key) && ValueText(text) && BareKey(other) && other != key
    ensures Get(Put(body, key, text), other) == Get(body, other)
  {
    var j, k, r := KeyIndex(body, key), KeyIndex(body, other), Put(body, key, text);
    PutLine(body, key, text);
    OtherKeyFails(r[j], key, other);
    if j < |body| { OtherKeyFails(body[j], key, other); }
    forall i | 0 <= i < k ensures !MatchTomlStringKey(r[i], other) { KeyIndexSkips(body, other, i); }
    if k < |body| {
      KeyIndexIs(r, other, k);
    } else {
      KeyIndexIs(r, other, |r|);
    }
  }

  lemma OtherKeyFails(line: string, key: string, other: string)
    requires BareKey(key) && BareKey(other) && other != key && MatchTomlStringKey(line, key)
    ensures !MatchTomlStringKey(line, other)
  {
    if MatchTomlStringKey(line, other) { OneKeyPerLine(line, key, other); }
  }

  /** Put-put: only the last value written counts; writing a value twice is writing it once. */
  lemma PutPut(body: seq<string>, key: string, first: string, second: string)
    requires BareKey(key) && ValueText(first) && ValueText(second)
    ensures Put(Put(body, key, first), key, second) == Put(body, key, second)
  {
    var j, r := KeyIndex(body, key), Put(body, key, first);
    PutLine(body, key, first);
    if j < |body| {
      ReplacedTwice(body[j], key, first, second);
    } else {
      NewLineReplaced(key, first, second);
    }
    assert r[j := ReplacedLine(r[j], key, second)] == Put(body, key, second);
  }

  lemma NewLineReplaced(key: string, first: string, second: string)
    requires BareKey(key) && ValueText(first)
    ensures ReplacedLine(NewLine(key, first), key, second) == NewLine(key, second)
  {
    NewLineShape(key, first);
    assert KeyLine("", key, second, "") == NewLine(key, second);
  }

  // ----- The editing methods -----

  function Clip(x: int, lo: nat, hi: nat): (r: nat)
    requires lo <= hi
    ensures lo <= r <= hi
  {
    if x < lo then lo else if x > hi then hi else x
  }

  /** The run of lines from `start` to `end` inclusive, both taken into the file. */
  function Upserted(lines: seq<string>, start: int, end: int, key: string, text: string): seq<string> {
    var lo := Clip(start, 0, |lines|);
    var stop := Clip(end + 1, lo, |lines|);
    lines[..lo] + Put(lines[lo..stop], key, text) + lines[stop..]
  }

  function WithLines(lines: seq<string>, at: int, block: seq<string>): seq<string> {
    var k := Clip(at, 0, |lines|);
    lines[..k] + block + lines[k..]
  }

  method InsertLines(lines: seq<string>, at: int, block: seq<string>) returns (r: seq<string>)
    ensures r == WithLines(lines, at, block)
  {
    var k := at;
    if k < 0 {
      k := 0;
    }
    if k > |lines| {
      k := |lines|;
    }
    r := [];
    r := r + lines[..k];
    r := r + block;
    r := r + lines[k..];
  }

  method LeadingWhitespace(s: string) returns (r: string)
    ensures r == Indent(s)
  {
    var i := 0;
    while i < |s|
      invariant i <= |s| && Indent(s) == s[..i] + Indent(s[i..])
    {
      assert s[i..][1..] == s[i + 1..] && s[..i + 1] == s[..i] + [s[i]];
      if s[i] != ' ' && s[i] != '\t' {
        break;
      }
      i := i + 1;
    }
    r := s[..i];
  }

  method ReplaceKeyLine(line: string, key: string, text: string) returns (updated: string)
    ensures updated == ReplacedLine(line, key, text)
  {
    var indent := LeadingWhitespace(line);
    var comment := ExtractLineComment(line);
    updated := indent + key + " = " + text;
    if comment != "" {
      updated := updated + " " + comment;
    }
    assert comment != "" ==> indent + key + " = " + text + " " + comment == indent + key + " = " + text + Tail(comment);
    assert comment == "" ==> indent + key + " = " + text == indent + key + " = " + text + Tail(comment);
  }

  lemma UpsertedAt(lines: seq<string>, start: int, end: int, key: string, text: string, i: nat)
    requires var lo := Clip(start, 0, |lines|);
             var stop := Clip(end + 1, lo, |lines|);
             lo <= i < stop && KeyIndex(lines[lo..stop], key) == i - lo
    ensures Upserted(lines, start, end, key, text) == lines[i := ReplacedLine(lines[i], key, text)]
  {
  }

  lemma UpsertedNew(lines: seq<string>, start: int, end: int, key: string, text: string)
    requires var lo := Clip(start, 0, |lines|);
             var stop := Clip(end + 1, lo, |lines|);
             KeyIndex(lines[lo..stop], key) == stop - lo
    ensures var lo := Clip(start, 0, |lines|);
            Upserted(lines, start, end, key, text) ==
            WithLines(lines, Clip(end + 1, lo, |lines|), [NewLine(key, text)])
  {
    var lo := Clip(start, 0, |lines|);
    var stop := Clip(end + 1, lo, |lines|);
    assert lines[..lo] + (lines[lo..stop] + [NewLine(key, text)]) == lines[..stop] + [NewLine(key, text)];
  }

  lemma SamePlace(lines: seq<string>, a: int, b: int, block: seq<string>)
    requires Clip(a, 0, |lines|) == Clip(b, 0, |lines|)
    ensures WithLines(lines, a, block) == WithLines(lines, b, block)
  {
  }

  lemma NoKeyInNothing(lines: seq<string>, key: string, i: nat)
    requires i <= |lines|
    ensures KeyIndex(lines[i..i], key) == 0
  {
  }

  method MatchesKey(line: string, key: string) returns (b: bool)
    ensures b == (KeyIndex([line], key) == 0)
  {
    b := MatchTomlStringKey(line, key);
  }

  lemma KeyIndexStep(lines: seq<string>, key: string, i: nat, stop: nat)
    requires i < stop <= |lines|
    ensures KeyIndex(lines[i..stop], key) ==
            if KeyIndex([lines[i]], key) == 0 then 0 else 1 + KeyIndex(lines[i + 1..stop], key)
  {
    assert lines[i..stop][1..] == lines[i + 1..stop];
  }

  /** upsertTomlRawKey. */
  method UpsertTomlRawKey(lines: seq<string>, start: int, end: int, key: string, text: string) returns (r: seq<string>)
    ensures r == Upserted(lines, start, end, key, text)
  {
    hide Upserted, WithLines, ReplacedLine, NewLine, KeyIndex;
    r := lines;
    var first, last := start, end;
    if first < 0 {
      first := 0;
    }
    if last >= |r| {
      last := |r| - 1;
    }
    ghost var lo := Clip(start, 0, |lines|);
    ghost var stop := Clip(end + 1, lo, |lines|);
    var i := first;
    while i <= last && i < |r|
      invariant first <= i && (i <= last + 1 || i == first) && r == lines
      invariant i <= stop ==> KeyIndex(lines[lo..stop], key) == i - lo + KeyIndex(lines[i..stop], key)
    {
      KeyIndexStep(lines, key, i, stop);
      var found := MatchesKey(r[i], key);
      if found {
        UpsertedAt(lines, start, end, key, text, i);
        var updated := ReplaceKeyLine(r[i], key, text);
        r := r[i := updated];
        return;
      }
      i := i + 1;
    }
    NoKeyInNothing(lines, key, stop);
    UpsertedNew(lines, start, end, key, text);
    var insertAt := last + 1;
    if insertAt < first {
      insertAt := first;
    }
    SamePlace(lines, insertAt, stop, [NewLine(key, text)]);
    r := InsertLines(r, insertAt, [NewLine(key, text)]);
  }

  /** upsertTomlStringKey; it differs from the raw form only in quoting the value. */
  method UpsertTomlStringKey(lines: seq<string>, start: int, end: int, key: string, value: string) returns (r: seq<string>)
    ensures r == Upserted(lines, start, end, key, Quote(value))
  {
    r := UpsertTomlRawKey(lines, start, end, key, Quote(value));
  }
}
