/** The comma-separated id lists behind the Feishu group modes (config/config.go). */
module CommaList {
  import opened Strings

  // ----- Items of a list -----

  /** strings.EqualFold on ASCII letters. */
  predicate EqualFold(a: string, b: string) {
    |a| == |b| && forall i :: 0 <= i < |a| ==> FoldChar(a[i]) == FoldChar(b[i])
  }

  function ItemsOf(parts: seq<string>): seq<string> {
    if parts == [] then []
    else
      var front, v := ItemsOf(parts[..|parts| - 1]), TrimSpace(parts[|parts| - 1]);
      if v == "" then front else front + [v]
  }

  /** The ids a list stands for, in order. */
  function Items(list: string): seq<string> {
    ItemsOf(Split(TrimSpace(list), ','))
  }

  predicate Contains(items: seq<string>, id: string) {
    exists i :: 0 <= i < |items| && EqualFold(items[i], id)
  }

  function Without(items: seq<string>, id: string): seq<string> {
    if items == [] then []
    else
      var front := Without(items[..|items| - 1], id);
      if EqualFold(items[|items| - 1], id) then front else front + [items[|items| - 1]]
  }

  /** The first occurrence of each item. */
  function Distinct(items: seq<string>): seq<string> {
    if items == [] then []
    else
      var d := Distinct(items[..|items| - 1]);
      if items[|items| - 1] in d then d else d + [items[|items| - 1]]
  }

  // ----- The two operations -----

  function Merged(current: string, item: string): (string, bool) {
    var c, id := TrimSpace(current), TrimSpace(item);
    if c == "*" || id == "" then (c, false)
    else if c == "" then (id, true)
    else if "*" in Items(c) then ("*", false)
    else
      var merged := Distinct(Items(c));
      if Contains(merged, id) then (Join(merged, ','), false)
      else if id == "*" then ("*", false)
      else (Join(merged + [id], ','), true)
  }

  function Removed(current: string, item: string): (string, bool) {
    var c, id := TrimSpace(current), TrimSpace(item);
    if c == "" || c == "*" || id == "" then (c, false)
    else (Join(Without(Items(c), id), ','), Contains(Items(c), id))
  }

  lemma ItemsSnoc(parts: seq<string>, i: nat)
    requires i < |parts|
    ensures ItemsOf(parts[..i + 1]) ==
            if TrimSpace(parts[i]) == "" then ItemsOf(parts[..i]) else ItemsOf(parts[..i]) + [TrimSpace(parts[i])]
  {
    assert parts[..i + 1][..i] == parts[..i];
  }

  lemma SnocLists(items: seq<string>, v: string, id: string)
    ensures Distinct(items + [v]) == if v in Distinct(items) then Distinct(items) else Distinct(items) + [v]
    ensures Without(items + [v], id) == if EqualFold(v, id) then Without(items, id) else Without(items, id) + [v]
    ensures Contains(items + [v], id) <==> Contains(items, id) || EqualFold(v, id)
  {
    assert (items + [v])[..|items|] == items;
    if Contains(items, id) {
      var i :| 0 <= i < |items| && EqualFold(items[i], id);
      assert EqualFold((items + [v])[i], id);
    }
    if EqualFold(v, id) { assert EqualFold((items + [v])[|items|], id); }
  }

  lemma {:induction false} DistinctSame(items: seq<string>, x: string)
    ensures x in Distinct(items) <==> x in items
  {
    if items != [] { DistinctSame(items[..|items| - 1], x); }
  }

  lemma TrimTwice(s: string)
    ensures TrimSpace(TrimSpace(s)) == TrimSpace(s)
  {
    TrimIsTrimmed(s);
    TrimOfTrimmed(TrimSpace(s));
  }

  method FindFold(items: seq<string>, id: string) returns (found: bool)
    ensures found == Contains(items, id)
  {
    found := false;
    for i := 0 to |items|
      invariant !Contains(items[..i], id)
    {
      if EqualFold(items[i], id) {
        return true;
      }
      assert items[..i + 1] == items[..i] + [items[i]];
      SnocLists(items[..i], items[i], id);
    }
    assert items[..|items|] == items;
  }

  /** The closure appendPart: `merged` and `seen` after one more part. */
  method AppendPart(merged: seq<string>, seen: set<string>, part: string) returns (newMerged: seq<string>, newSeen: set<string>)
    ensures newMerged == var v := TrimSpace(part);
                         if v == "" then merged else if v == "*" then ["*"] else if v in seen then merged else merged + [v]
    ensures newSeen == var v := TrimSpace(part); if v == "" || v == "*" || v in seen then seen else seen + {v}
  {
    newMerged, newSeen := merged, seen;
    var v := TrimSpace(part);
    if v == "" {
      return;
    }
    if v == "*" {
      newMerged := ["*"];
      return;
    }
    if v in seen {
      return;
    }
    newSeen := newSeen + {v};
    newMerged := newMerged + [v];
  }

  lemma NoParts(parts: seq<string>)
    ensures ItemsOf(parts[..0]) == [] && Distinct([]) == []
  {
  }

  /** The loop over the parts: the distinct items, or "*" alone when one of them is "*". */
  method MergeParts(parts: seq<string>) returns (merged: seq<string>, seen: set<string>)
    ensures "*" in ItemsOf(parts) ==> merged == ["*"]
    ensures "*" !in ItemsOf(parts) ==> merged == Distinct(ItemsOf(parts)) && forall v :: v in seen <==> v in merged
  {
    hide TrimSpace, ItemsOf, Distinct, EqualFold;
    merged, seen := [], {};
    NoParts(parts);
    for i := 0 to |parts|
      invariant "*" in ItemsOf(parts[..i]) ==> merged == ["*"]
      invariant "*" !in ItemsOf(parts[..i]) ==>
                  merged == Distinct(ItemsOf(parts[..i])) && forall v :: v in seen <==> v in merged
    {
      StarStays(parts, i);
      if "*" !in ItemsOf(parts[..i]) { DistinctSame(ItemsOf(parts[..i]), "*"); }
      if |merged| == 1 && merged[0] == "*" {
        return;
      }
      ItemsSnoc(parts, i);
      SnocLists(ItemsOf(parts[..i]), TrimSpace(parts[i]), "");
      merged, seen := AppendPart(merged, seen, parts[i]);
    }
    assert parts[..|parts|] == parts;
  }

  lemma {:induction false} StarStays(parts: seq<string>, i: nat)
    requires i <= |parts|
    ensures "*" in ItemsOf(parts[..i]) ==> "*" in ItemsOf(parts)
    decreases |parts| - i
  {
    if i < |parts| {
      ItemsSnoc(parts, i);
      StarStays(parts, i + 1);
    } else {
      assert parts[..i] == parts;
    }
  }

  method MergeCommaSeparatedValue(current: string, item: string) returns (value: string, added: bool)
    ensures (value, added) == Merged(current, item)
  {
    hide TrimSpace, Join, Split, ItemsOf, EqualFold;
    var c, id := TrimSpace(current), TrimSpace(item);
    TrimTwice(current);
    TrimTwice(item);
    if c == "*" || id == "" {
      return c, false;
    }
    if c == "" {
      return id, true;
    }
    var parts := Split(c, ',');
    assert Items(c) == ItemsOf(parts);
    var merged, seen := MergeParts(parts);
    DistinctSame(ItemsOf(parts), "*");
    if |merged| == 1 && merged[0] == "*" {
      return "*", false;
    }
    var found := FindFold(merged, id);
    if found {
      return Join(merged, ','), false;
    }
    SelfFold(id);
    assert id !in merged;
    merged, seen := AppendPart(merged, seen, id);
    if |merged| == 1 && merged[0] == "*" {
      return "*", false;
    }
    return Join(merged, ','), true;
  }

  lemma SelfFold(id: string)
    ensures EqualFold(id, id)
  {
  }

  method RemoveCommaSeparatedValue(current: string, item: string) returns (value: string, removed: bool)
    ensures (value, removed) == Removed(current, item)
  {
    hide TrimSpace, Join, Split, EqualFold;
    var c, id := TrimSpace(current), TrimSpace(item);
    TrimTwice(current);
    if c == "" || c == "*" || id == "" {
      return c, false;
    }
    var kept: seq<string> := [];
    removed := false;
    var parts := Split(c, ',');
    for i := 0 to |parts|
      invariant kept == Without(ItemsOf(parts[..i]), id) && removed == Contains(ItemsOf(parts[..i]), id)
    {
      ItemsSnoc(parts, i);
      SnocLists(ItemsOf(parts[..i]), TrimSpace(parts[i]), id);
      var part := TrimSpace(parts[i]);
      if part == "" {
        continue;
      }
      if EqualFold(part, id) {
        removed := true;
        continue;
      }
      kept := kept + [part];
    }
    assert parts[..|parts|] == parts;
    return Join(kept, ','), removed;
  }

  // ----- A joined list has the items it was joined from -----

  predicate IsItem(v: string) {
    v != "" && Trimmed(v) && ',' !in v
  }

  predicate AreItems(items: seq<string>) {
    forall i :: 0 <= i < |items| ==> IsItem(items[i])
  }

  lemma {:induction false} PartsGiveItems(parts: seq<string>)
    requires NoneContains(parts, ',')
    ensures AreItems(ItemsOf(parts))
  {
    hide TrimSpace;
    if parts != [] {
      PartsGiveItems(parts[..|parts| - 1]);
      TrimIsTrimmed(parts[|parts| - 1]);
    }
  }

  lemma ItemsAreItems(list: string)
    ensures AreItems(Items(list))
  {
    JoinSplit(TrimSpace(list), ',');
    PartsGiveItems(Split(TrimSpace(list), ','));
  }

  lemma {:induction false} ItemsOfItems(items: seq<string>)
    requires AreItems(items)
    ensures ItemsOf(items) == items
  {
    hide TrimSpace, IsSpace;
    if items != [] {
      var front, last := items[..|items| - 1], items[|items| - 1];
      assert IsItem(last);
      ItemsOfItems(front);
      TrimOfTrimmed(last);
      assert front + [last] == items;
    }
  }

  lemma {:induction false} JoinEnds(items: seq<string>)
    requires items != [] && AreItems(items)
    ensures var s := Join(items, ','); s != "" && !IsSpace(s[0]) && !IsSpace(s[|s| - 1])
  {
    assert IsItem(items[0]);
    if |items| > 1 { JoinEnds(items[1..]); }
  }

  lemma ItemsOfJoin(items: seq<string>)
    requires AreItems(items)
    ensures TrimSpace(Join(items, ',')) == Join(items, ',') && Items(Join(items, ',')) == items
    ensures Join(items, ',') == "" <==> items == []
  {
    if items == [] {
      EmptyItems();
    } else {
      JoinEnds(items);
      TrimOfTrimmed(Join(items, ','));
      assert NoneContains(items, ',');
      SplitJoin(items, ',');
      ItemsOfItems(items);
    }
  }

  lemma ItemsTrimmed(list: string)
    ensures Items(TrimSpace(list)) == Items(list)
  {
    hide ItemsOf, Split, TrimSpace;
    TrimTwice(list);
  }

  lemma EmptyItems()
    ensures TrimSpace("") == "" && Items("") == []
  {
    assert Split("", ',') == [""];
    assert [""][..0] == [];
  }

  lemma OneItem(id: string)
    requires IsItem(id)
    ensures TrimSpace(id) == id && Items(id) == [id]
  {
    ItemsOfJoin([id]);
  }

  /** A list that is "*" as a text has "*" as its one item, and the other way round. */
  lemma StarItems(list: string)
    ensures TrimSpace(list) == "*" ==> Items(list) == ["*"]
    ensures TrimSpace(list) == "" ==> Items(list) == []
  {
    if TrimSpace(list) == "*" {
      TrimTwice(list);
      OneItem("*");
    }
    if TrimSpace(list) == "" {
      EmptyItems();
    }
  }

  lemma {:induction false} WithoutItem(items: seq<string>, id: string)
    ensures !Contains(Without(items, id), id)
    ensures forall x :: x in Without(items, id) <==> x in items && !EqualFold(x, id)
    ensures AreItems(items) ==> AreItems(Without(items, id))
  {
    hide EqualFold, IsItem;
    if items != [] {
      var front, last := items[..|items| - 1], items[|items| - 1];
      WithoutItem(front, id);
      SnocLists(Without(front, id), last, id);
      assert forall x :: x in items <==> x in front || x == last;
    }
  }

  lemma {:induction false} DistinctItems(items: seq<string>)
    ensures AreItems(items) ==> AreItems(Distinct(items))
  {
    hide IsItem;
    if items != [] { DistinctItems(items[..|items| - 1]); }
  }

  lemma ContainsByFold(a: seq<string>, b: seq<string>, id: string)
    requires forall x :: x in a ==> x in b
    ensures Contains(a, id) ==> Contains(b, id)
  {
    if Contains(a, id) {
      var i :| 0 <= i < |a| && EqualFold(a[i], id);
      assert a[i] in b;
      var j :| 0 <= j < |b| && b[j] == a[i];
      assert EqualFold(b[j], id);
    }
  }

  // ----- What the items of a text are -----

  lemma {:induction false} JoinTwo(a: seq<string>, b: seq<string>)
    requires a != [] && b != []
    ensures Join(a + b, ',') == Join(a, ',') + "," + Join(b, ',')
  {
    if |a| == 1 {
      assert (a + b)[1..] == b;
    } else {
      assert (a + b)[1..] == a[1..] + b;
      JoinTwo(a[1..], b);
    }
  }

  lemma SplitTwo(a: string, b: string)
    ensures Split(a + "," + b, ',') == Split(a, ',') + Split(b, ',')
  {
    hide Split, Join;
    JoinSplit(a, ',');
    JoinSplit(b, ',');
    JoinTwo(Split(a, ','), Split(b, ','));
    SplitJoin(Split(a, ',') + Split(b, ','), ',');
  }

  lemma {:induction false} ItemsOfTwo(a: seq<string>, b: seq<string>)
    ensures ItemsOf(a + b) == ItemsOf(a) + ItemsOf(b)
  {
    hide TrimSpace;
    if b == [] {
      assert a + b == a;
    } else {
      assert (a + b)[..|a + b| - 1] == a + b[..|b| - 1];
      ItemsOfTwo(a, b[..|b| - 1]);
    }
  }

  /** A list without a comma has at most one item. */
  lemma ItemsOfPlain(s: string)
    requires ',' !in s
    ensures ItemsOf(Split(s, ',')) == if TrimSpace(s) == "" then [] else [TrimSpace(s)]
  {
    SplitFromPlain(s, ',', 0, 0);
    assert s[0..] == s && [s][..0] == [];
  }

  /** Where the first comma is, if there is one. */
  lemma {:induction false} FirstComma(s: string) returns (k: nat)
    requires ',' in s
    ensures k < |s| && s[k] == ',' && ',' !in s[..k]
  {
    if s[0] == ',' { return 0; }
    var i := FirstComma(s[1..]);
    assert s[1..][..i] == s[1..i + 1] && s[..i + 1] == [s[0]] + s[1..i + 1];
    return i + 1;
  }

  lemma TrimPlain(pre: string, s: string)
    requires AllSpace(pre)
    ensures TrimSpace(pre + s) == TrimSpace(s)
  {
    TrimLeftOfSpaces(pre, s);
  }

  lemma TrimPlainEnd(s: string, post: string)
    requires AllSpace(post)
    ensures TrimSpace(s + post) == TrimSpace(s)
  {
    var pre, end := TrimSplits(s);
    assert s + post == pre + TrimSpace(s) + (end + post);
    TrimUnique(pre, TrimSpace(s), end + post);
  }

  /** Blanks in front of a text, or behind it, are no part of its items. */
  lemma {:induction false} BlanksBefore(pre: string, s: string)
    requires AllSpace(pre)
    ensures ItemsOf(Split(pre + s, ',')) == ItemsOf(Split(s, ','))
  {
    hide Split, ItemsOf, TrimSpace;
    if ',' in s {
      var k := FirstComma(s);
      assert s == s[..k] + "," + s[k + 1..] && pre + s == (pre + s[..k]) + "," + s[k + 1..];
      SplitTwo(s[..k], s[k + 1..]);
      SplitTwo(pre + s[..k], s[k + 1..]);
      ItemsOfTwo(Split(s[..k], ','), Split(s[k + 1..], ','));
      ItemsOfTwo(Split(pre + s[..k], ','), Split(s[k + 1..], ','));
      BlanksBefore(pre, s[..k]);
    } else {
      ItemsOfPlain(s);
      ItemsOfPlain(pre + s);
      TrimPlain(pre, s);
    }
  }

  lemma {:induction false} BlanksBehind(s: string, post: string)
    requires AllSpace(post)
    ensures ItemsOf(Split(s + post, ',')) == ItemsOf(Split(s, ','))
    decreases |s|
  {
    hide Split, ItemsOf, TrimSpace;
    if ',' in s {
      var k := FirstComma(s);
      assert s == s[..k] + "," + s[k + 1..] && s + post == s[..k] + "," + (s[k + 1..] + post);
      SplitTwo(s[..k], s[k + 1..]);
      SplitTwo(s[..k], s[k + 1..] + post);
      ItemsOfTwo(Split(s[..k], ','), Split(s[k + 1..], ','));
      ItemsOfTwo(Split(s[..k], ','), Split(s[k + 1..] + post, ','));
      BlanksBehind(s[k + 1..], post);
    } else {
      ItemsOfPlain(s);
      ItemsOfPlain(s + post);
      TrimPlainEnd(s, post);
    }
  }

  lemma ItemsUntrimmed(s: string)
    ensures Items(s) == ItemsOf(Split(s, ','))
  {
    hide Split, ItemsOf, TrimSpace;
    var pre, post := TrimSplits(s);
    BlanksBefore(pre, TrimSpace(s));
    BlanksBehind(pre + TrimSpace(s), post);
  }

  /**
   The two laws that say what the items of any text are: commas part the items, and between commas the text without
   its blanks is the item, if anything is left.
   */
  lemma ItemsAre(a: string, b: string)
    ensures Items(a + "," + b) == Items(a) + Items(b)
    ensures ',' !in a ==> Items(a) == if TrimSpace(a) == "" then [] else [TrimSpace(a)]
  {
    hide Split, ItemsOf, TrimSpace;
    ItemsUntrimmed(a);
    ItemsUntrimmed(b);
    ItemsUntrimmed(a + "," + b);
    SplitTwo(a, b);
    ItemsOfTwo(Split(a, ','), Split(b, ','));
    if ',' !in a { ItemsOfPlain(a); }
  }

  function FirstIndex(items: seq<string>, x: string): nat {
    if items == [] || items[0] == x then 0 else 1 + FirstIndex(items[1..], x)
  }

  lemma {:induction false} FirstIndexSnoc(items: seq<string>, v: string, x: string)
    ensures x in items ==> FirstIndex(items + [v], x) == FirstIndex(items, x) < |items|
    ensures v !in items ==> FirstIndex(items + [v], v) == |items|
  {
    if items == [] {
      assert items + [v] == [v];
    } else {
      assert (items + [v])[1..] == items[1..] + [v];
      FirstIndexSnoc(items[1..], v, x);
    }
  }

  /** Every item once, in the order in which they first come. */
  lemma {:induction false} DistinctIs(items: seq<string>)
    ensures var d := Distinct(items);
            && (forall x :: x in d <==> x in items)
            && (forall i, j :: 0 <= i < j < |d| ==> FirstIndex(items, d[i]) < FirstIndex(items, d[j]))
  {
    hide FirstIndex;
    forall x ensures x in Distinct(items) <==> x in items { DistinctSame(items, x); }
    if items != [] {
      var front, v := items[..|items| - 1], items[|items| - 1];
      DistinctIs(front);
      assert items == front + [v];
      forall x ensures x in front ==> FirstIndex(items, x) == FirstIndex(front, x) < |front| { FirstIndexSnoc(front, v, x); }
      FirstIndexSnoc(front, v, v);
      DistinctSame(front, v);
    }
  }

  /** Equal up to case is equal in lower case. */
  lemma {:induction false} FoldIsLower(a: string, b: string)
    ensures EqualFold(a, b) <==> Lower(a) == Lower(b)
  {
    hide FoldChar;
    if a != "" && b != "" {
      FoldIsLower(a[1..], b[1..]);
      assert Lower(a)[1..] == Lower(a[1..]) && Lower(b)[1..] == Lower(b[1..]);
      assert EqualFold(a, b) <==> FoldChar(a[0]) == FoldChar(b[0]) && EqualFold(a[1..], b[1..]) by {
        if FoldChar(a[0]) == FoldChar(b[0]) && EqualFold(a[1..], b[1..]) {
          forall i | 0 <= i < |a| ensures FoldChar(a[i]) == FoldChar(b[i]) {
            if i > 0 { assert a[i] == a[1..][i - 1] && b[i] == b[1..][i - 1]; }
          }
        }
      }
    }
  }

  // ----- Removing and merging -----

  predicate CommaFree(id: string) {
    TrimSpace(id) != "" && ',' !in TrimSpace(id)
  }

  lemma {:induction false} WithoutTwo(a: seq<string>, b: seq<string>, id: string)
    ensures Without(a + b, id) == Without(a, id) + Without(b, id)
  {
    hide EqualFold;
    if b == [] {
      assert a + b == a;
    } else {
      assert (a + b)[..|a + b| - 1] == a + b[..|b| - 1];
      WithoutTwo(a, b[..|b| - 1], id);
    }
  }

  /** What is left are the items that are not the id in either case, in their order. */
  lemma WithoutIs(a: seq<string>, x: string, b: seq<string>, id: string)
    ensures Without([], id) == []
    ensures Without(a + [x] + b, id) == Without(a, id) + (if Lower(x) == Lower(id) then [] else [x]) + Without(b, id)
  {
    WithoutTwo(a + [x], b, id);
    assert (a + [x])[..|a|] == a;
    FoldIsLower(x, id);
  }

  /**
   After a removal the items that are left are written with commas between them; a list of "*" alone is left as it is,
   and so is every list when there is no id.
   */
  lemma RemovedText(current: string, item: string)
    ensures TrimSpace(item) == "" || TrimSpace(current) == "*" ==> Removed(current, item) == (TrimSpace(current), false)
    ensures TrimSpace(item) != "" && TrimSpace(current) != "*" ==>
              Removed(current, item).0 == Join(Without(Items(current), TrimSpace(item)), ',')
  {
    hide Join, Split, ItemsOf, TrimSpace, EqualFold;
    TrimTwice(current);
    ItemsTrimmed(current);
    if TrimSpace(current) == "" {
      StarItems(current);
      NothingWithout(TrimSpace(item));
      NothingJoined();
    }
  }

  lemma NothingJoined()
    ensures Join([], ',') == "" && forall id :: Join([id], ',') == id
  {
  }

  /** After a removal exactly the other items are left; a list of "*" alone is left as it is. */
  lemma RemovedItems(current: string, item: string)
    requires TrimSpace(item) != ""
    ensures Items(Removed(current, item).0) ==
            if TrimSpace(current) == "*" then ["*"] else Without(Items(current), TrimSpace(item))
  {
    var c, id := TrimSpace(current), TrimSpace(item);
    hide Without, Join, Split;
    TrimTwice(current);
    StarItems(current);
    StarItems(c);
    if c == "" {
      NothingWithout(id);
    } else if c != "*" {
      ItemsAreItems(current);
      WithoutItem(Items(current), id);
      ItemsOfJoin(Without(Items(current), id));
    }
  }

  /** A removal is reported exactly when the list, which is not "*" alone, holds the id in either case. */
  lemma RemovedFlag(current: string, item: string)
    ensures Removed(current, item).1 <==>
            TrimSpace(item) != "" && TrimSpace(current) != "*" && Contains(Items(current), TrimSpace(item))
  {
    hide Without, Join, Split, ItemsOf, TrimSpace;
    TrimTwice(current);
    StarItems(current);
    StarItems(TrimSpace(current));
  }

  lemma NothingWithout(id: string)
    ensures Without([], id) == []
  {
  }

  /** What merging leaves in the list, for lists without "*". */
  lemma MergedItems(current: string, item: string)
    requires CommaFree(item)
    ensures "*" in Items(current) ==> Merged(current, item) == ("*", false)
    ensures "*" !in Items(current) && TrimSpace(item) != "*" ==>
              && Merged(current, item).1 == !Contains(Items(current), TrimSpace(item))
              && Items(Merged(current, item).0) ==
                 Distinct(Items(current)) + (if Contains(Items(current), TrimSpace(item)) then [] else [TrimSpace(item)])
              && Merged(current, item).0 == Join(Items(Merged(current, item).0), ',')
  {
    var c, id := TrimSpace(current), TrimSpace(item);
    var d := Distinct(Items(current));
    hide Distinct, Contains, Join, Split;
    TrimTwice(current);
    TrimIsTrimmed(item);
    StarItems(current);
    ItemsAreItems(current);
    DistinctItems(Items(current));
    SameContains(Items(current), id);
    OneItem(id);
    ItemsOfJoin(d);
    assert AreItems(d + [id]);
    ItemsOfJoin(d + [id]);
    assert d + [] == d;
    NothingJoined();
    if c == "" { NothingContained(id); }
  }

  /** Merging "*" leaves "*" alone; it counts as added to a blank list only. */
  lemma MergedStar(current: string, item: string)
    requires TrimSpace(item) == "*"
    ensures Merged(current, item) == ("*", TrimSpace(current) == "")
  {
    hide Distinct, Join, Split, ItemsOf, TrimSpace;
    var c := TrimSpace(current);
    StarItems(current);
    DistinctSame(Items(c), "*");
    if Contains(Distinct(Items(c)), "*") {
      var i :| 0 <= i < |Distinct(Items(c))| && EqualFold(Distinct(Items(c))[i], "*");
      assert Distinct(Items(c))[i] == "*";
    }
  }

  lemma NothingContained(id: string)
    ensures !Contains([], id) && Distinct([]) == []
  {
  }

  lemma SameContains(items: seq<string>, id: string)
    ensures Contains(Distinct(items), id) <==> Contains(items, id)
  {
    forall x ensures x in Distinct(items) <==> x in items { DistinctSame(items, x); }
    ContainsByFold(items, Distinct(items), id);
    ContainsByFold(Distinct(items), items, id);
  }

  /** SetFeishuGroupMode: the list of the requested mode, then the list of the other mode. */
  function GroupMode(requested: string, other: string, id: string): (string, string) {
    (Merged(Removed(requested, id).0, id).0, Removed(other, id).0)
  }

  /**
   Group modes are exclusive: the other list never holds the id afterwards, the requested one holds it exactly
   when it had no "*", and every different id stays where it was, unless a "*" swallows the requested list.
   */
  lemma GroupModeIsExclusive(requested: string, other: string, id: string)
    requires CommaFree(id) && TrimSpace(id) != "*"
    ensures var (inList, outList) := GroupMode(requested, other, id);
            && !Contains(Items(outList), TrimSpace(id))
            && (Contains(Items(inList), TrimSpace(id)) <==> "*" !in Items(requested))
            && (forall x :: !EqualFold(x, TrimSpace(id)) ==> (x in Items(outList) <==> x in Items(other)))
            && ("*" !in Items(requested) ==>
                  forall x :: !EqualFold(x, TrimSpace(id)) ==> (x in Items(inList) <==> x in Items(requested)))
  {
    hide EqualFold, Merged, Removed, TrimSpace, ItemsOf, Without, Split;
    var key := TrimSpace(id);
    StarIsNoId(key);
    RemovedItems(other, id);
    RemovedItems(requested, id);
    StarItems(other);
    StarItems(requested);
    WithoutItem(Items(other), key);
    WithoutItem(Items(requested), key);
    MergedList(Removed(requested, id).0, id);
  }

  /** Merging an id into a list that does not hold it. */
  lemma MergedList(list: string, id: string)
    requires CommaFree(id) && TrimSpace(id) != "*"
    ensures "*" in Items(list) ==> Items(Merged(list, id).0) == ["*"] && !Contains(["*"], TrimSpace(id))
    ensures "*" !in Items(list) ==> Contains(Items(Merged(list, id).0), TrimSpace(id))
    ensures "*" !in Items(list) ==>
              forall x :: !EqualFold(x, TrimSpace(id)) ==> (x in Items(Merged(list, id).0) <==> x in Items(list))
  {
    hide EqualFold, Merged, TrimSpace, ItemsOf, Split, Distinct, Items;
    var key := TrimSpace(id);
    MergedItems(list, id);
    StarIsNoId(key);
    if "*" in Items(list) {
      OneItem("*");
    } else {
      forall x ensures x in Distinct(Items(list)) <==> x in Items(list) { DistinctSame(Items(list), x); }
      SameContains(Items(list), key);
      SelfFold(key);
      SnocLists(Distinct(Items(list)), key, key);
      assert Distinct(Items(list)) + [] == Distinct(Items(list));
    }
  }

  lemma StarIsNoId(key: string)
    requires key != "*" && key != ""
    ensures !EqualFold("*", key) && !Contains(["*"], key) && !Contains([], key)
  {
  }

  /** Merging the same id again changes nothing and reports that nothing was added. */
  lemma MergedTwice(current: string, id: string)
    requires CommaFree(id)
    ensures Merged(Merged(current, id).0, id) == (Merged(current, id).0, false)
  {
    var c, key := TrimSpace(current), TrimSpace(id);
    hide TrimSpace, Join, Split, ItemsOf, Distinct, Contains, EqualFold;
    TrimTwice(current);
    TrimIsTrimmed(id);
    StarMerged(id);
    SameContains(Items(c), key);
    if c == "" {
      MergedIntoEmpty(key, id);
    } else if c != "*" && "*" !in Items(c) {
      MergedAgain(Items(c), key, id, c);
    }
  }

  lemma StarMerged(id: string)
    ensures Merged("*", id) == ("*", false)
  {
    OneItem("*");
  }

  lemma MergedIntoEmpty(key: string, id: string)
    requires key == TrimSpace(id) && CommaFree(id) && IsItem(key)
    ensures Merged(key, id) == (key, false)
  {
    hide TrimSpace, Join, Split, ItemsOf, Distinct, EqualFold, Contains;
    if key == "*" { StarMerged(id); } else {
      OneItem(key);
      OneDistinct(key);
      MergedInto(key, key, id);
    }
  }

  lemma OneDistinct(key: string)
    ensures Distinct([key]) == [key] && Contains([key], key) && Join([key], ',') == key
  {
    SelfFold(key);
    assert EqualFold([key][0], key);
    assert [key][..0] == [];
  }

  lemma MergedAgain(items: seq<string>, key: string, id: string, list: string)
    requires key == TrimSpace(id) && CommaFree(id) && IsItem(key) && "*" !in items && items == Items(list)
    ensures Contains(Distinct(items), key) ==> Merged(Join(Distinct(items), ','), id) == (Join(Distinct(items), ','), false)
    ensures !Contains(Distinct(items), key) && key != "*" ==>
              Merged(Join(Distinct(items) + [key], ','), id) == (Join(Distinct(items) + [key], ','), false)
  {
    hide TrimSpace, Join, Split, ItemsOf, Distinct, EqualFold;
    var d := Distinct(items);
    ItemsAreItems(list);
    DistinctItems(items);
    DistinctTwice(items);
    DistinctSame(items, "*");
    SelfFold(key);
    SnocLists(d, key, key);
    if Contains(d, key) {
      ItemsOfJoin(d);
      MergedInto(Join(d, ','), key, id);
    } else if key != "*" {
      if key in d { HeldIsContained(d, key); }
      assert AreItems(d + [key]);
      ItemsOfJoin(d + [key]);
      MergedInto(Join(d + [key], ','), key, id);
    }
  }

  lemma HeldIsContained(items: seq<string>, id: string)
    requires id in items
    ensures Contains(items, id)
  {
    var i :| 0 <= i < |items| && items[i] == id;
    assert EqualFold(items[i], id);
  }

  /** Merging an id into the text of a list that holds it. */
  lemma MergedInto(text: string, key: string, id: string)
    requires TrimSpace(text) == text && text == Join(Items(text), ',') && Distinct(Items(text)) == Items(text)
    requires key == TrimSpace(id) && key != "" && Contains(Items(text), key) && "*" !in Items(text)
    ensures Merged(text, id) == (text, false)
  {
    hide TrimSpace, Join, Split, ItemsOf, Distinct, EqualFold, Contains;
    StarItems(text);
    HeldItems(Items(text), key);
  }

  lemma HeldItems(items: seq<string>, key: string)
    requires Contains(items, key)
    ensures items != []
  {
  }

  lemma {:induction false} DistinctTwice(items: seq<string>)
    ensures Distinct(Distinct(items)) == Distinct(items)
  {
    if items != [] {
      var d, last := Distinct(items[..|items| - 1]), items[|items| - 1];
      DistinctTwice(items[..|items| - 1]);
      SnocLists(d, last, "");
    }
  }

  // ----- Ids with a comma -----

  lemma CommaIsNoItem(items: seq<string>, id: string)
    requires AreItems(items) && ',' in id
    ensures !Contains(items, id)
  {
    var k :| 0 <= k < |id| && id[k] == ',';
    forall i | 0 <= i < |items| ensures !EqualFold(items[i], id) {
      assert IsItem(items[i]);
      assert k < |items[i]| ==> items[i][k] != ',';
    }
  }

  /** A text with a comma is never what merging an id with a comma into it gives. */
  lemma CommaIdIsAdded(text: string, id: string)
    requires ',' in text && ',' in TrimSpace(id)
    ensures Merged(text, id) != (text, false)
  {
    hide TrimSpace, Join, ItemsOf, Distinct, Contains;
    var c := TrimSpace(text);
    TrimTwice(text);
    ItemsAreItems(c);
    DistinctItems(Items(c));
    CommaIsNoItem(Distinct(Items(c)), TrimSpace(id));
  }

  lemma {:induction false} JoinHas(parts: seq<string>, ch: char)
    requires parts != [] && ch in parts[|parts| - 1]
    ensures ch in Join(parts, ',')
  {
    if |parts| > 1 { JoinHas(parts[1..], ch); }
  }

  lemma CommaIdStays(current: string, id: string)
    requires ',' in TrimSpace(id) && "*" !in Items(current)
    ensures ',' in Merged(current, id).0
  {
    hide TrimSpace, Join, Split, ItemsOf, Distinct, Contains;
    var c, key := TrimSpace(current), TrimSpace(id);
    TrimTwice(current);
    StarItems(current);
    if c != "" {
      var d := Distinct(Items(c));
      ItemsAreItems(c);
      DistinctItems(Items(c));
      CommaIsNoItem(d, key);
      JoinHas(d + [key], ',');
    }
  }

  /**
   Merging an id a second time changes nothing and reports that nothing was added, exactly when the id is blank, has
   no comma, or meets a "*" in the list.
   */
  lemma MergeTwiceIsOnce(current: string, id: string)
    ensures Merged(Merged(current, id).0, id) == (Merged(current, id).0, false) <==>
            ',' !in TrimSpace(id) || "*" in Items(current)
  {
    hide TrimSpace, Join, Split, ItemsOf, Distinct, Contains, EqualFold;
    var c, key := TrimSpace(current), TrimSpace(id);
    TrimTwice(current);
    if ',' !in key {
      if key != "" { MergedTwice(current, id); }
    } else if "*" in Items(current) {
      StarItems(current);
      StarMerged(id);
    } else {
      CommaIdStays(current, id);
      CommaIdIsAdded(Merged(current, id).0, id);
    }
  }

  /** An id with a comma in it is not recognised: a second merge adds it again. */
  lemma CommaIdGrows()
    ensures Merged("", "a,b") == ("a,b", true) && Merged("a,b", "a,b").1
  {
    hide TrimSpace, Split, ItemsOf, Join, Contains, Distinct;
    var items := ["a", "b"];
    CommaListText();
    TrimOfTrimmed("a,b");
    EmptyItems();
    ItemsOfJoin(items);
    TwoItems("a", "b", "a,b");
  }

  lemma CommaListText()
    ensures Join(["a", "b"], ',') == "a,b"
  {
    assert ["a", "b"][1..] == ["b"];
  }

  lemma TwoItems(a: string, b: string, id: string)
    requires a != b && |a| < |id| && |b| < |id|
    ensures Distinct([a, b]) == [a, b] && !Contains([a, b], id)
  {
    SnocLists([], a, id);
    SnocLists([a], b, id);
    assert [] + [a] == [a] && [a] + [b] == [a, b];
  }
}
