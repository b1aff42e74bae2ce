/** splitMessage: cutting a reply into messages of limited length, at a newline where possible (core/engine.go). */
module SplitMessage {

  /** strings.LastIndex(s, "\n") */
  function LastNewline(s: string): (k: int)
    ensures -1 <= k < |s| && (k >= 0 ==> s[k] == '\n')
    ensures forall j :: k < j < |s| ==> s[j] != '\n'
  {
    if s == "" then -1 else if s[|s| - 1] == '\n' then |s| - 1 else LastNewline(s[..|s| - 1])
  }

  /** Where the first chunk of a text longer than `maxLen` ends. */
  function Cut(runes: string, maxLen: nat): (end: nat)
    requires 0 < maxLen < |runes|
    ensures maxLen / 2 < end <= maxLen
  {
    var k := LastNewline(runes[..maxLen]);
    if k > 0 && k >= maxLen / 2 then k + 1 else maxLen
  }

  function Chunks(runes: string, maxLen: nat): seq<string>
    requires maxLen > 0
  {
    if runes == "" then []
    else if |runes| <= maxLen then [runes]
    else [runes[..Cut(runes, maxLen)]] + Chunks(runes[Cut(runes, maxLen)..], maxLen)
  }

  method Split(text: string, maxLen: nat) returns (chunks: seq<string>)
    requires maxLen > 0
    ensures chunks == if text == "" then [""] else Chunks(text, maxLen)
    ensures |text| <= maxLen ==> chunks == [text]
  {
    var runes := text;
    if |runes| <= maxLen {
      return [text];
    }
    hide LastNewline;
    chunks := [];
    while |runes| > 0
      invariant chunks + Chunks(runes, maxLen) == Chunks(text, maxLen)
      decreases |runes|
    {
      if |runes| <= maxLen {
        chunks := chunks + [runes];
        break;
      }
      var end := maxLen;
      var idx := LastNewline(runes[..end]);
      if idx > 0 {
        if idx >= end / 2 {
          end := idx + 1;
        }
      }
      assert end == Cut(runes, maxLen);
      assert chunks + ([runes[..end]] + Chunks(runes[end..], maxLen)) ==
             chunks + [runes[..end]] + Chunks(runes[end..], maxLen);
      chunks := chunks + [runes[..end]];
      runes := runes[end..];
    }
  }

  function Concat(chunks: seq<string>): string {
    if chunks == [] then "" else chunks[0] + Concat(chunks[1..])
  }

  /** Nothing is lost and nothing is added. */
  lemma {:induction false} ChunksConcat(runes: string, maxLen: nat)
    requires maxLen > 0
    ensures Concat(Chunks(runes, maxLen)) == runes
    decreases |runes|
  {
    if runes != "" {
      if |runes| <= maxLen {
        assert [runes][1..] == [];
      } else {
        var end := Cut(runes, maxLen);
        ChunksConcat(runes[end..], maxLen);
        assert ([runes[..end]] + Chunks(runes[end..], maxLen))[1..] == Chunks(runes[end..], maxLen);
        assert runes[..end] + runes[end..] == runes;
      }
    }
  }

  /**
   A cut is made only where the rest of the text is over the limit, below the limit it is made after a newline, and no
   newline in the second half of the window is passed over.
   */
  ghost predicate CutWell(chunk: string, rest: string, maxLen: nat) {
    && maxLen / 2 < |chunk| <= maxLen < |chunk| + |rest|
    && (|chunk| < maxLen ==> chunk[|chunk| - 1] == '\n')
    && (forall j :: |chunk| <= j < maxLen && j < |chunk + rest| ==> (chunk + rest)[j] != '\n')
    && (forall j :: 0 < j < maxLen - 1 && maxLen / 2 <= j && |chunk| == maxLen && chunk[maxLen - 1] != '\n' ==>
          chunk[j] != '\n')
  }

  lemma CutIsWell(runes: string, maxLen: nat)
    requires 0 < maxLen < |runes|
    ensures var end := Cut(runes, maxLen); CutWell(runes[..end], runes[end..], maxLen)
  {
    var end := Cut(runes, maxLen);
    assert runes[..end] + runes[end..] == runes;
    var window := runes[..maxLen];
    forall j | end <= j < maxLen ensures runes[j] != '\n' { assert window[j] == runes[j]; }
    forall j | 0 < j < maxLen - 1 && maxLen / 2 <= j && end == maxLen && runes[maxLen - 1] != '\n'
      ensures runes[j] != '\n'
    {
      assert window[j] == runes[j] && window[maxLen - 1] == runes[maxLen - 1];
    }
    if end < maxLen { assert window[end - 1] == runes[end - 1]; }
  }

  /** Every chunk has 1 to maxLen runes; every chunk but the last has more than half of it and is cut well. */
  lemma {:induction false} ChunkSizes(runes: string, maxLen: nat, i: nat)
    requires maxLen > 0 && i < |Chunks(runes, maxLen)|
    ensures var chunks := Chunks(runes, maxLen);
            && 0 < |chunks[i]| <= maxLen
            && (i + 1 < |chunks| ==> CutWell(chunks[i], Concat(chunks[i + 1..]), maxLen))
    decreases |runes|
  {
    if |runes| > maxLen {
      var end := Cut(runes, maxLen);
      var chunks, rest := Chunks(runes, maxLen), Chunks(runes[end..], maxLen);
      if i == 0 {
        CutIsWell(runes, maxLen);
        ChunksConcat(runes[end..], maxLen);
        assert chunks[1..] == rest;
      } else {
        ChunkSizes(runes[end..], maxLen, i - 1);
        assert chunks[i + 1..] == rest[i..];
      }
    }
  }

  lemma CountStep(n: nat, h: nat, maxLen: nat, end: nat, rest: nat)
    requires n > 0 && h <= end <= maxLen && (n - 1) * h < rest <= n * maxLen
    ensures n * h < end + rest <= (n + 1) * maxLen
  {
    assert n * h == (n - 1) * h + h;
    assert (n + 1) * maxLen == n * maxLen + maxLen;
  }

  /** The number of chunks: all but the last hold more than maxLen / 2 runes; a text within the limit stays whole. */
  lemma {:induction false} ChunkCount(runes: string, maxLen: nat)
    requires maxLen > 0 && runes != ""
    ensures |runes| <= maxLen <==> Chunks(runes, maxLen) == [runes]
    ensures (|Chunks(runes, maxLen)| - 1) * (maxLen / 2 + 1) < |runes| <= |Chunks(runes, maxLen)| * maxLen
    decreases |runes|
  {
    if |runes| > maxLen {
      var end := Cut(runes, maxLen);
      var rest := runes[end..];
      ChunkCount(rest, maxLen);
      CountStep(|Chunks(rest, maxLen)|, maxLen / 2 + 1, maxLen, end, |rest|);
      assert |Chunks(runes, maxLen)| == |Chunks(rest, maxLen)| + 1;
    } else {
      assert Chunks(runes, maxLen) == [runes];
    }
  }
}
