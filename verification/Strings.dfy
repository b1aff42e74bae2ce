/** The parts of Go's `strings` package that the modelled code uses. */
module Strings {

  /** unicode.IsSpace */
  predicate IsSpace(c: char) {
    c == '\t' || c == '\n' || c == '\U{0B}' || c == '\U{0C}' || c == '\r' || c == ' ' || c == '\U{85}' || c == '\U{A0}' ||
    c == '\U{1680}' || '\U{2000}' <= c <= '\U{200A}' || c == '\U{2028}' || c == '\U{2029}' || c == '\U{202F}' ||
    c == '\U{205F}' || c == '\U{3000}'
  }

  predicate AllSpace(s: string) {
    forall i :: 0 <= i < |s| ==> IsSpace(s[i])
  }

  /** Nothing for TrimSpace to remove. */
  predicate Trimmed(s: string) {
    s != "" ==> !IsSpace(s[0]) && !IsSpace(s[|s| - 1])
  }

  function TrimLeft(s: string): string {
    if s != "" && IsSpace(s[0]) then TrimLeft(s[1..]) else s
  }

  function TrimRight(s: string): string {
    if s != "" && IsSpace(s[|s| - 1]) then TrimRight(s[..|s| - 1]) else s
  }

  function TrimSpace(s: string): string {
    TrimRight(TrimLeft(s))
  }

  predicate IsBlank(line: string) {
    TrimSpace(line) == ""
  }

  lemma {:induction false} TrimLeftSplits(s: string) returns (k: nat)
    ensures k <= |s| && TrimLeft(s) == s[k..] && AllSpace(s[..k]) && (k < |s| ==> !IsSpace(s[k]))
  {
    if s != "" && IsSpace(s[0]) {
      k := TrimLeftSplits(s[1..]);
      assert s[1..][k..] == s[k + 1..];
      assert forall i :: 1 <= i < k + 1 ==> s[i] == s[1..][..k][i - 1];
      k := k + 1;
    } else {
      k := 0;
    }
  }

  lemma {:induction false} TrimRightSplits(s: string) returns (k: nat)
    ensures k <= |s| && TrimRight(s) == s[..k] && AllSpace(s[k..]) && (k > 0 ==> !IsSpace(s[k - 1]))
  {
    if s != "" && IsSpace(s[|s| - 1]) {
      k := TrimRightSplits(s[..|s| - 1]);
      assert s[..|s| - 1][..k] == s[..k];
      assert forall i :: k <= i < |s| - 1 ==> s[i] == s[..|s| - 1][k..][i - k];
    } else {
      k := |s|;
    }
  }

  lemma {:induction false} TrimLeftOfSpaces(pre: string, s: string)
    requires AllSpace(pre)
    ensures TrimLeft(pre + s) == TrimLeft(s)
  {
    if pre == "" { assert pre + s == s; } else {
      TrimLeftOfSpaces(pre[1..], s);
      assert (pre + s)[1..] == pre[1..] + s;
    }
  }

  lemma {:induction false} TrimRightOfSpaces(s: string, post: string)
    requires AllSpace(post)
    ensures TrimRight(s + post) == TrimRight(s)
  {
    if post == "" { assert s + post == s; } else {
      var n := |post| - 1;
      TrimRightOfSpaces(s, post[..n]);
      assert (s + post)[..|s + post| - 1] == s + post[..n];
    }
  }

  /** TrimSpace removes exactly the blanks around the text. */
  lemma TrimUnique(pre: string, s: string, post: string)
    requires AllSpace(pre) && AllSpace(post) && Trimmed(s)
    ensures TrimSpace(pre + s + post) == s
  {
    assert pre + s + post == pre + (s + post);
    TrimLeftOfSpaces(pre, s + post);
    if s == "" {
      assert s + post == post + "";
      TrimLeftOfSpaces(post, "");
    } else {
      assert TrimLeft(s + post) == s + post;
      TrimRightOfSpaces(s, post);
    }
  }

  lemma TrimSplits(s: string) returns (pre: string, post: string)
    ensures s == pre + TrimSpace(s) + post && AllSpace(pre) && AllSpace(post) && Trimmed(TrimSpace(s))
  {
    var i := TrimLeftSplits(s);
    var j := TrimRightSplits(s[i..]);
    pre, post := s[..i], s[i..][j..];
    assert s == s[..i] + s[i..][..j] + s[i..][j..];
  }

  lemma TrimIsTrimmed(s: string)
    ensures Trimmed(TrimSpace(s))
    ensures |TrimSpace(s)| <= |s|
    ensures forall c :: c in TrimSpace(s) ==> c in s
  {
    var pre, post := TrimSplits(s);
    assert s == pre + TrimSpace(s) + post;
  }

  lemma TrimOfTrimmed(s: string)
    requires Trimmed(s)
    ensures TrimSpace(s) == s
  {
    TrimUnique("", s, "");
    assert "" + s + "" == s;
  }

  // ----- Lengths in bytes -----

  /** Length of a character in UTF-8. */
  function Utf8Length(c: char): nat {
    if c as int < 0x80 then 1 else if c as int < 0x800 then 2 else if c as int < 0x10000 then 3 else 4
  }

  /** Go's len of a string. */
  function Bytes(s: string): nat {
    if s == "" then 0 else Utf8Length(s[0]) + Bytes(s[1..])
  }

  lemma {:induction false} BytesConcat(a: string, b: string)
    ensures Bytes(a + b) == Bytes(a) + Bytes(b)
  {
    if a == "" { assert a + b == b; } else {
      BytesConcat(a[1..], b);
      assert (a + b)[1..] == a[1..] + b;
    }
  }

  // ----- ASCII case -----

  function FoldChar(c: char): char {
    if 'A' <= c <= 'Z' then c + ' ' else c
  }

  /** strings.ToLower on ASCII letters. */
  function Lower(s: string): string {
    if s == "" then "" else [FoldChar(s[0])] + Lower(s[1..])
  }

  /** The text is the given word, each letter in either case. */
  predicate InAnyCase(s: string, word: string) {
    |s| == |word| && forall i :: 0 <= i < |s| ==> s[i] == word[i] || ('A' <= s[i] <= 'Z' && s[i] + ' ' == word[i])
  }

  predicate LowerCase(word: string) {
    forall i :: 0 <= i < |word| ==> !('A' <= word[i] <= 'Z')
  }

  lemma {:induction false} LowerIs(s: string, word: string)
    requires LowerCase(word)
    ensures Lower(s) == word <==> InAnyCase(s, word)
  {
    if s != "" && word != "" {
      LowerIs(s[1..], word[1..]);
      assert word == [word[0]] + word[1..] && Lower(s)[1..] == Lower(s[1..]);
      if InAnyCase(s, word) { assert s[0] == word[0] || s[0] + ' ' == word[0]; }
    }
  }

  // ----- Split and join -----

  function SplitFrom(s: string, sep: char, from: nat, i: nat): (parts: seq<string>)
    requires from <= i <= |s|
    ensures parts != []
    decreases |s| - i
  {
    if i == |s| then [s[from..]]
    else if s[i] == sep then [s[from..i]] + SplitFrom(s, sep, i + 1, i + 1)
    else SplitFrom(s, sep, from, i + 1)
  }

  /** strings.Split with a one-character separator. */
  function Split(s: string, sep: char): (parts: seq<string>)
    ensures parts != []
  {
    SplitFrom(s, sep, 0, 0)
  }

  /** strings.Join with a one-character separator. */
  function Join(parts: seq<string>, sep: char): string {
    if parts == [] then ""
    else if |parts| == 1 then parts[0]
    else parts[0] + [sep] + Join(parts[1..], sep)
  }

  predicate NoneContains(parts: seq<string>, sep: char) {
    forall i :: 0 <= i < |parts| ==> sep !in parts[i]
  }

  lemma {:induction false} SplitFromSkips(a: string, sep: char, rest: string, from: nat, i: nat)
    requires from <= i <= |a| && sep !in a
    ensures SplitFrom(a + [sep] + rest, sep, from, i) ==
            [a[from..]] + SplitFrom(a + [sep] + rest, sep, |a| + 1, |a| + 1)
    decreases |a| - i
  {
    var s := a + [sep] + rest;
    if i == |a| {
      assert s[from..i] == a[from..];
    } else {
      assert s[i] == a[i];
      SplitFromSkips(a, sep, rest, from, i + 1);
    }
  }

  lemma {:induction false} SplitFromPlain(a: string, sep: char, from: nat, i: nat)
    requires from <= i <= |a| && sep !in a
    ensures SplitFrom(a, sep, from, i) == [a[from..]]
    decreases |a| - i
  {
    if i < |a| { SplitFromPlain(a, sep, from, i + 1); }
  }

  lemma {:induction false} SplitFromSuffix(s: string, t: string, d: nat, sep: char, from: nat, i: nat)
    requires d <= |s| && t == s[d..] && from <= i <= |t|
    ensures SplitFrom(s, sep, d + from, d + i) == SplitFrom(t, sep, from, i)
    decreases |t| - i
  {
    if i == |t| {
      assert s[d + from..] == t[from..];
    } else if t[i] == sep {
      SplitFromSuffix(s, t, d, sep, i + 1, i + 1);
      assert s[d + from..d + i] == t[from..i];
    } else {
      SplitFromSuffix(s, t, d, sep, from, i + 1);
    }
  }

  /** Splitting what was joined gives the parts back. */
  lemma {:induction false} SplitJoin(parts: seq<string>, sep: char)
    requires parts != [] && NoneContains(parts, sep)
    ensures Split(Join(parts, sep), sep) == parts
  {
    var s := Join(parts, sep);
    if |parts| == 1 {
      SplitFromPlain(parts[0], sep, 0, 0);
      assert parts == [parts[0][0..]];
    } else {
      var rest := Join(parts[1..], sep);
      SplitFromSkips(parts[0], sep, rest, 0, 0);
      assert s[|parts[0]| + 1..] == rest;
      SplitFromSuffix(s, rest, |parts[0]| + 1, sep, 0, 0);
      SplitJoin(parts[1..], sep);
      assert parts == [parts[0][0..]] + parts[1..];
    }
  }

  lemma {:induction false} JoinSplitFrom(s: string, sep: char, from: nat, i: nat)
    requires from <= i <= |s| && sep !in s[from..i]
    ensures Join(SplitFrom(s, sep, from, i), sep) == s[from..]
    ensures NoneContains(SplitFrom(s, sep, from, i), sep)
    decreases |s| - i
  {
    if i == |s| {
      assert s[from..i] == s[from..];
    } else if s[i] == sep {
      JoinSplitFrom(s, sep, i + 1, i + 1);
      var rest := SplitFrom(s, sep, i + 1, i + 1);
      var parts := [s[from..i]] + rest;
      assert parts[1..] == rest;
      assert s[from..] == s[from..i] + [sep] + s[i + 1..];
    } else {
      assert s[from..i + 1] == s[from..i] + [s[i]];
      JoinSplitFrom(s, sep, from, i + 1);
    }
  }

  /** Joining what was split gives the text back; no part contains the separator. */
  lemma JoinSplit(s: string, sep: char)
    ensures Join(Split(s, sep), sep) == s && NoneContains(Split(s, sep), sep)
  {
    JoinSplitFrom(s, sep, 0, 0);
  }
}
