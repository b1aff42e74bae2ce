/** The directory history of a project: a bounded most-recent-first list (core/dir_history.go). */
module DirHistory {

  // ----- Lists -----

  function RemoveFirst(list: seq<string>, dir: string): seq<string> {
    if list == [] then [] else if list[0] == dir then list[1..] else [list[0]] + RemoveFirst(list[1..], dir)
  }

  function Take(list: seq<string>, n: nat): seq<string> {
    if |list| > n then list[..n] else list
  }

  /** The unbounded list after one more use of `dir`. */
  function Used(list: seq<string>, dir: string): seq<string> {
    if dir == "" then list else [dir] + RemoveFirst(list, dir)
  }

  /** The stored list after Add. */
  function Added(list: seq<string>, dir: string, maxSize: nat): seq<string> {
    if dir == "" then list else Take([dir] + RemoveFirst(list, dir), maxSize)
  }

  lemma RemoveFirstAt(list: seq<string>, dir: string, i: nat)
    requires i < |list|
    ensures list[i] == dir ==> RemoveFirst(list[i..], dir) == list[i + 1..]
    ensures list[i] != dir ==> list[..i] + RemoveFirst(list[i..], dir) == list[..i + 1] + RemoveFirst(list[i + 1..], dir)
  {
    assert list[i..][1..] == list[i + 1..];
  }

  lemma RemoveFirstAtEnd(list: seq<string>, dir: string)
    ensures list[..|list|] + RemoveFirst(list[|list|..], dir) == list
  {
  }

  class DirHistory {
    var entries: map<string, seq<string>>
    const maxSize: nat

    constructor (entries: map<string, seq<string>>, maxSize: nat)
      ensures this.entries == entries && this.maxSize == maxSize
    {
      this.entries, this.maxSize := entries, maxSize;
    }

    ghost function ListOf(project: string): seq<string>
      reads this
    {
      if project in entries then entries[project] else []
    }

    /** The loop of Add that takes an older use out of the list. */
    static method Removed(list: seq<string>, dir: string) returns (r: seq<string>)
      ensures r == RemoveFirst(list, dir)
    {
      hide RemoveFirst;
      for i := 0 to |list|
        invariant RemoveFirst(list, dir) == list[..i] + RemoveFirst(list[i..], dir)
      {
        RemoveFirstAt(list, dir, i);
        if list[i] == dir {
          return list[..i] + list[i + 1..];
        }
      }
      RemoveFirstAtEnd(list, dir);
      r := list;
    }

    method Add(project: string, dir: string)
      modifies this
      ensures ListOf(project) == Added(old(ListOf(project)), dir, maxSize)
      ensures forall p :: p != project ==> (p in entries <==> p in old(entries)) && ListOf(p) == old(ListOf(p))
    {
      if dir == "" {
        return;
      }
      var list := if project in entries then entries[project] else [];
      list := Removed(list, dir);
      list := [dir] + list;
      if |list| > maxSize {
        list := list[..maxSize];
      }
      entries := entries[project := list];
    }

    method List(project: string) returns (r: seq<string>)
      ensures r == ListOf(project)
    {
      r := if project in entries then entries[project] else [];
    }

    method Get(project: string, index: int) returns (dir: string)
      ensures dir == if 1 <= index <= |ListOf(project)| then ListOf(project)[index - 1] else ""
    {
      var list := List(project);
      if index < 1 || index > |list| {
        return "";
      }
      dir := list[index - 1];
    }

    /** The directory used before the current one. */
    method Previous(project: string) returns (dir: string)
      ensures dir == if |ListOf(project)| >= 2 then ListOf(project)[1] else ""
    {
      dir := Get(project, 2);
    }
  }

  // ----- The bounded list refines the unbounded one -----

  function FullAfter(start: seq<string>, uses: seq<string>): seq<string> {
    if uses == [] then start else Used(FullAfter(start, uses[..|uses| - 1]), uses[|uses| - 1])
  }

  function StoredAfter(start: seq<string>, uses: seq<string>, maxSize: nat): seq<string> {
    if uses == [] then start else Added(StoredAfter(start, uses[..|uses| - 1], maxSize), uses[|uses| - 1], maxSize)
  }

  /** Dropping the tail of a list before or after a removal makes no difference to what is kept of it. */
  lemma {:induction false} RemoveFromTake(list: seq<string>, dir: string, n: nat)
    ensures Take(RemoveFirst(Take(list, n + 1), dir), n) == Take(RemoveFirst(list, dir), n)
    decreases |list|
  {
    if |list| > n + 1 && n > 0 {
      var short := list[..n + 1];
      if list[0] == dir {
        assert short[1..] == list[1..][..n];
      } else {
        RemoveFromTake(list[1..], dir, n - 1);
        assert short[1..] == list[1..][..n] == Take(list[1..], n);
        var a, b := RemoveFirst(short[1..], dir), RemoveFirst(list[1..], dir);
        TakeCons(list[0], a, n);
        TakeCons(list[0], b, n);
      }
    }
  }

  lemma TakeCons(x: string, list: seq<string>, n: nat)
    requires n > 0
    ensures Take([x] + list, n) == [x] + Take(list, n - 1)
  {
  }

  lemma AddRefinesUse(full: seq<string>, dir: string, maxSize: nat)
    requires maxSize > 0
    ensures Added(Take(full, maxSize), dir, maxSize) == Take(Used(full, dir), maxSize)
  {
    if dir != "" {
      RemoveFromTake(full, dir, maxSize - 1);
      TakeCons(dir, RemoveFirst(Take(full, maxSize), dir), maxSize);
      TakeCons(dir, RemoveFirst(full, dir), maxSize);
    }
  }

  function Fits(length: nat, maxSize: nat): (r: nat)
    ensures r <= length && r <= maxSize && (r == length || r == maxSize)
  {
    if length <= maxSize then length else maxSize
  }

  predicate SomeUse(uses: seq<string>) {
    exists i :: 0 <= i < |uses| && uses[i] != ""
  }

  /**
   After any uses the stored list is the front of the full most-recent-first list, with as many entries as fit. A
   loaded list that is too long is cut by the first use.
   */
  lemma {:induction false} HistoryRefinesFullList(start: seq<string>, uses: seq<string>, maxSize: nat)
    requires maxSize > 0
    ensures StoredAfter(start, uses, maxSize) ==
            if SomeUse(uses) then FullAfter(start, uses)[..Fits(|FullAfter(start, uses)|, maxSize)] else start
    ensures SomeUse(uses) ==> |StoredAfter(start, uses, maxSize)| <= maxSize
  {
    if uses != [] {
      var init, dir := uses[..|uses| - 1], uses[|uses| - 1];
      HistoryRefinesFullList(start, init, maxSize);
      assert init + [dir] == uses;
      if SomeUse(init) {
        var i :| 0 <= i < |init| && init[i] != "";
        assert uses[i] != "";
        var full := FullAfter(start, init);
        assert Take(full, maxSize) == full[..Fits(|full|, maxSize)];
        AddRefinesUse(full, dir, maxSize);
        assert Take(Used(full, dir), maxSize) == Used(full, dir)[..Fits(|Used(full, dir)|, maxSize)];
      } else {
        NoUse(start, init);
        if dir != "" {
          assert uses[|uses| - 1] != "";
          assert Take(Used(start, dir), maxSize) == Used(start, dir)[..Fits(|Used(start, dir)|, maxSize)];
        }
      }
    }
  }

  lemma {:induction false} NoUse(start: seq<string>, uses: seq<string>)
    requires !SomeUse(uses)
    ensures FullAfter(start, uses) == start
  {
    if uses != [] {
      var init := uses[..|uses| - 1];
      assert uses[|uses| - 1] == "";
      assert forall i :: 0 <= i < |init| ==> init[i] == uses[i];
      NoUse(start, init);
    }
  }

  // ----- What the full list means -----

  predicate Distinct(list: seq<string>) {
    forall i, j :: 0 <= i < j < |list| ==> list[i] != list[j]
  }

  lemma {:induction false} RemoveKeepsDistinct(list: seq<string>, dir: string)
    requires Distinct(list)
    ensures Distinct(RemoveFirst(list, dir)) && dir !in RemoveFirst(list, dir)
    ensures forall x :: x in RemoveFirst(list, dir) <==> x in list && x != dir
  {
    if list != [] {
      RemoveKeepsDistinct(list[1..], dir);
      assert list[0] !in list[1..];
      assert forall x :: x in list <==> x == list[0] || x in list[1..];
    }
  }

  lemma {:induction false} HistoryIsDistinct(start: seq<string>, uses: seq<string>, maxSize: nat)
    requires Distinct(start)
    ensures Distinct(FullAfter(start, uses)) && Distinct(StoredAfter(start, uses, maxSize))
  {
    if uses != [] {
      var init, dir := uses[..|uses| - 1], uses[|uses| - 1];
      HistoryIsDistinct(start, init, maxSize);
      RemoveKeepsDistinct(FullAfter(start, init), dir);
      RemoveKeepsDistinct(StoredAfter(start, init, maxSize), dir);
    }
  }

  /** Position of the last use of `dir`, -1 when it was not used. */
  function LastUse(uses: seq<string>, dir: string): (r: int)
    ensures -1 <= r < |uses| && (r >= 0 ==> uses[r] == dir)
  {
    if uses == [] then -1 else if uses[|uses| - 1] == dir then |uses| - 1 else LastUse(uses[..|uses| - 1], dir)
  }

  lemma {:induction false} RemoveKeepsOrder(list: seq<string>, dir: string, i: nat)
    requires i < |RemoveFirst(list, dir)|
    ensures exists k :: i <= k <= i + 1 && k < |list| && list[k] == RemoveFirst(list, dir)[i] &&
                        (k == i ==> forall m :: 0 <= m <= i ==> list[m] != dir)
  {
    if list[0] == dir {
      assert list[i + 1] == RemoveFirst(list, dir)[i];
    } else if i == 0 {
      assert list[0] == RemoveFirst(list, dir)[0];
    } else {
      RemoveKeepsOrder(list[1..], dir, i - 1);
      var k :| i - 1 <= k <= i && k < |list[1..]| && list[1..][k] == RemoveFirst(list[1..], dir)[i - 1] &&
               (k == i - 1 ==> forall m :: 0 <= m <= i - 1 ==> list[1..][m] != dir);
      assert list[k + 1] == RemoveFirst(list, dir)[i];
      if k + 1 == i {
        forall m | 0 <= m <= i ensures list[m] != dir { if m > 0 { assert list[1..][m - 1] == list[m]; } }
      }
    }
  }

  /** The later a directory was used, the further in front it stands. */
  ghost predicate ByLastUse(list: seq<string>, uses: seq<string>) {
    forall i, j :: 0 <= i < j < |list| ==> LastUse(uses, list[i]) >= LastUse(uses, list[j])
  }

  lemma RemoveKeepsByLastUse(list: seq<string>, dir: string, uses: seq<string>)
    requires ByLastUse(list, uses)
    ensures ByLastUse(RemoveFirst(list, dir), uses)
  {
    var r := RemoveFirst(list, dir);
    forall i, j | 0 <= i < j < |r| ensures LastUse(uses, r[i]) >= LastUse(uses, r[j]) {
      RemoveKeepsOrder(list, dir, i);
      RemoveKeepsOrder(list, dir, j);
      var a :| i <= a <= i + 1 && a < |list| && list[a] == r[i] && (a == i ==> forall m :: 0 <= m <= i ==> list[m] != dir);
      var b :| j <= b <= j + 1 && b < |list| && list[b] == r[j] && (b == j ==> forall m :: 0 <= m <= j ==> list[m] != dir);
    }
  }

  /** The full list holds exactly the directories used or loaded, the last used in front. */
  lemma {:induction false} FullListIsByLastUse(start: seq<string>, uses: seq<string>)
    requires Distinct(start) && "" !in start
    ensures ByLastUse(FullAfter(start, uses), uses)
    ensures forall x :: x in FullAfter(start, uses) <==> x in start || (x != "" && x in uses)
  {
    if uses != [] {
      var init, dir := uses[..|uses| - 1], uses[|uses| - 1];
      var full := FullAfter(start, init);
      FullListIsByLastUse(start, init);
      HistoryIsDistinct(start, init, 1);
      RemoveKeepsDistinct(full, dir);
      RemoveKeepsByLastUse(full, dir, init);
      assert uses == init + [dir];
      if dir == "" { SameOrder(full, init, dir); } else { SameOrder(RemoveFirst(full, dir), init, dir); }
      FrontIsLatest(RemoveFirst(full, dir), init, dir);
    }
  }

  lemma SameOrder(list: seq<string>, uses: seq<string>, dir: string)
    requires ByLastUse(list, uses) && dir !in list
    ensures ByLastUse(list, uses + [dir])
  {
    forall i | 0 <= i < |list| ensures LastUse(uses + [dir], list[i]) == LastUse(uses, list[i]) {
      assert (uses + [dir])[..|uses|] == uses;
    }
  }

  lemma FrontIsLatest(list: seq<string>, uses: seq<string>, dir: string)
    requires ByLastUse(list, uses) && dir !in list
    ensures ByLastUse([dir] + list, uses + [dir])
  {
    SameOrder(list, uses, dir);
    assert LastUse(uses + [dir], dir) == |uses|;
  }
}
