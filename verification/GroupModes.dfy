/** Sequences of group mode changes on the lists of one platform (config/config.go). */
module GroupModes {
  import opened Strings
  import opened CommaList

  /** The three list options: public_group_chats, the legacy allow_group_chats and admin_group_chats. */
  datatype Lists = Lists(publicList: string, legacy: string, adminList: string)

  /** The list that public groups are read from: the legacy option stands in for a blank one. */
  function PublicList(publicOption: string, legacyOption: string): string {
    if TrimSpace(publicOption) == "" then TrimSpace(legacyOption) else TrimSpace(publicOption)
  }

  function PublicRead(l: Lists): string {
    PublicList(l.publicList, l.legacy)
  }

  /** Both lists after the change of mode. */
  function NextLists(toPublic: bool, publicList: string, adminList: string, id: string): (string, string) {
    if toPublic then GroupMode(publicList, adminList, id)
    else var (inList, outList) := GroupMode(adminList, publicList, id); (outList, inList)
  }

  /** One call of SetFeishuGroupMode; the legacy option is never written. */
  function Set(l: Lists, id: string, toPublic: bool): Lists {
    var (p, a) := NextLists(toPublic, PublicRead(l), TrimSpace(l.adminList), TrimSpace(id));
    Lists(p, l.legacy, a)
  }

  predicate IsChatId(id: string) {
    CommaFree(id) && TrimSpace(id) != "*"
  }

  predicate InPublic(l: Lists, x: string) {
    Contains(Items(PublicRead(l)), x)
  }

  predicate InAdmin(l: Lists, x: string) {
    Contains(Items(l.adminList), x)
  }

  /** No id is in both modes, as a later call reads the lists; "*" is no id. */
  ghost predicate Exclusive(l: Lists) {
    forall x :: x != "*" ==> !(InPublic(l, x) && InAdmin(l, x))
  }

  // ----- What is in the lists afterwards -----

  lemma FoldTransitive(a: string, b: string, c: string)
    requires EqualFold(a, b)
    ensures EqualFold(a, c) <==> EqualFold(b, c)
    ensures EqualFold(b, a)
  {
  }

  lemma ContainsWithout(items: seq<string>, id: string, x: string)
    ensures Contains(Without(items, id), x) <==> Contains(items, x) && !EqualFold(x, id)
  {
    hide EqualFold, Without;
    WithoutItem(items, id);
    ContainsByFold(Without(items, id), items, x);
    if Contains(Without(items, id), x) {
      var i :| 0 <= i < |Without(items, id)| && EqualFold(Without(items, id)[i], x);
      FoldTransitive(Without(items, id)[i], x, id);
      assert Without(items, id)[i] in Without(items, id);
    }
    if Contains(items, x) && !EqualFold(x, id) {
      var i :| 0 <= i < |items| && EqualFold(items[i], x);
      FoldTransitive(items[i], x, id);
      assert items[i] in Without(items, id);
      var j :| 0 <= j < |Without(items, id)| && Without(items, id)[j] == items[i];
      assert EqualFold(Without(items, id)[j], x);
    }
  }

  lemma StarOnly(x: string)
    requires x != "*"
    ensures !Contains(["*"], x)
  {
  }

  lemma InRemoved(list: string, id: string, x: string)
    requires IsChatId(id) && x != "*"
    ensures Contains(Items(Removed(list, id).0), x) <==> Contains(Items(list), x) && !EqualFold(x, TrimSpace(id))
  {
    hide Removed, Without, Items, Contains, EqualFold;
    RemovedItems(list, id);
    StarItems(list);
    StarOnly(x);
    ContainsWithout(Items(list), TrimSpace(id), x);
  }

  lemma InMerged(list: string, id: string, x: string)
    requires IsChatId(id) && x != "*"
    ensures Contains(Items(Merged(list, id).0), x) <==>
            "*" !in Items(list) && (Contains(Items(list), x) || EqualFold(x, TrimSpace(id)))
  {
    hide Merged, Items, EqualFold, Distinct;
    var key := TrimSpace(id);
    MergedItems(list, id);
    if "*" in Items(list) {
      OneItem("*");
      StarOnly(x);
    } else {
      SameContains(Items(list), x);
      SnocLists(Distinct(Items(list)), key, x);
      assert Distinct(Items(list)) + [] == Distinct(Items(list));
      if EqualFold(key, x) { FoldTransitive(key, x, x); }
      if EqualFold(x, key) {
        FoldTransitive(x, key, key);
        if Contains(Items(list), key) { ContainsFolded(Items(list), key, x); }
      }
    }
  }

  lemma ContainsFolded(items: seq<string>, a: string, b: string)
    requires Contains(items, a) && EqualFold(b, a)
    ensures Contains(items, b)
  {
    hide EqualFold;
    var i :| 0 <= i < |items| && EqualFold(items[i], a);
    FoldTransitive(b, a, a);
    FoldTransitive(items[i], a, b);
    assert EqualFold(items[i], b);
  }

  lemma StarRemoved(list: string, id: string)
    requires IsChatId(id)
    ensures "*" in Items(Removed(list, id).0) <==> "*" in Items(list)
  {
    hide Removed, Without, Items, EqualFold;
    RemovedItems(list, id);
    StarItems(list);
    WithoutItem(Items(list), TrimSpace(id));
    StarIsNoId(TrimSpace(id));
  }

  /** The requested list takes the id in, unless a "*" swallows the list. */
  lemma InRequested(list: string, id: string, x: string)
    requires IsChatId(id) && x != "*"
    ensures Contains(Items(Merged(Removed(list, id).0, id).0), x) <==>
            "*" !in Items(list) && (Contains(Items(list), x) || EqualFold(x, TrimSpace(id)))
  {
    hide Removed, Merged, Items, Contains, EqualFold;
    StarRemoved(list, id);
    InRemoved(list, id, x);
    InMerged(Removed(list, id).0, id, x);
  }

  // ----- Which list is read afterwards -----

  /** Every item of the list is the id. */
  predicate OnlyHolds(list: string, id: string) {
    forall x :: x in Items(list) ==> EqualFold(x, TrimSpace(id))
  }

  lemma RemovedIsBlank(list: string, id: string)
    requires IsChatId(id)
    ensures TrimSpace(Removed(list, id).0) == "" <==> OnlyHolds(list, id)
  {
    var c, key := TrimSpace(list), TrimSpace(id);
    hide TrimSpace, EqualFold, ItemsOf, Split, Join;
    TrimTwice(list);
    StarItems(list);
    StarIsNoId(key);
    if c == "*" {
      assert Items(list)[0] == "*";
    } else if c != "" {
      ItemsAreItems(list);
      WithoutItem(Items(list), key);
      ItemsOfJoin(Without(Items(list), key));
      NoneLeft(Items(list), key);
    }
  }

  lemma NoneLeft(items: seq<string>, id: string)
    ensures Without(items, id) == [] <==> forall x :: x in items ==> EqualFold(x, id)
  {
    hide EqualFold;
    WithoutItem(items, id);
    if Without(items, id) != [] { assert Without(items, id)[0] in items; }
  }

  lemma MergedIsNotBlank(list: string, id: string)
    requires IsChatId(id)
    ensures TrimSpace(Merged(list, id).0) != ""
  {
    hide Merged, Items, EqualFold, TrimSpace, Distinct, Contains;
    MergedItems(list, id);
    StarItems(Merged(list, id).0);
    if "*" in Items(list) {
      OneItem("*");
    } else {
      NotEmptyMerge(Items(list), TrimSpace(id));
    }
  }

  lemma NotEmptyMerge(items: seq<string>, id: string)
    ensures Distinct(items) + (if Contains(items, id) then [] else [id]) != []
  {
    if Contains(items, id) {
      var i :| 0 <= i < |items| && EqualFold(items[i], id);
      DistinctSame(items, items[i]);
    }
  }

  lemma TrimmedItems(list: string)
    ensures Items(TrimSpace(list)) == Items(list)
  {
    TrimTwice(list);
  }

  // ----- One call -----

  /** The id goes back to the public groups: the written list is blank, and the legacy list that is read instead holds it. */
  predicate Returns(l: Lists, id: string, toPublic: bool) {
    !toPublic && OnlyHolds(PublicRead(l), id) && Contains(Items(l.legacy), TrimSpace(id))
  }

  lemma AfterSet(l: Lists, id: string, toPublic: bool, x: string)
    requires IsChatId(id) && x != "*"
    ensures var r, key := Set(l, id, toPublic), TrimSpace(id);
            && (toPublic ==>
                  && (InAdmin(r, x) <==> InAdmin(l, x) && !EqualFold(x, key))
                  && (InPublic(r, x) <==> "*" !in Items(PublicRead(l)) && (InPublic(l, x) || EqualFold(x, key))))
            && (!toPublic ==>
                  && (InAdmin(r, x) <==> "*" !in Items(l.adminList) && (InAdmin(l, x) || EqualFold(x, key)))
                  && (InPublic(r, x) <==> if OnlyHolds(PublicRead(l), id) then Contains(Items(l.legacy), x)
                                          else InPublic(l, x) && !EqualFold(x, key)))
  {
    var key, admin := TrimSpace(id), TrimSpace(l.adminList);
    var r := Set(l, id, toPublic);
    TrimTwice(id);
    TrimmedItems(l.adminList);
    TrimmedItems(r.publicList);
    TrimmedItems(l.legacy);
    hide TrimSpace, Items, Contains, Merged, Removed, EqualFold, OnlyHolds;
    if toPublic {
      InRequested(PublicRead(l), key, x);
      InRemoved(admin, key, x);
      MergedIsNotBlank(Removed(PublicRead(l), key).0, key);
    } else {
      InRequested(admin, key, x);
      InRemoved(PublicRead(l), key, x);
      RemovedIsBlank(PublicRead(l), key);
      SameOnly(PublicRead(l), id);
    }
  }

  lemma SameOnly(list: string, id: string)
    ensures OnlyHolds(list, TrimSpace(id)) <==> OnlyHolds(list, id)
  {
    TrimTwice(id);
  }

  /**
   One call, as the next call reads its result: the requested mode holds the id exactly when its list had no "*", and
   the other mode holds it exactly when it returns through the legacy list.
   */
  lemma SetIsExclusive(l: Lists, id: string, toPublic: bool)
    requires IsChatId(id)
    ensures var r, key := Set(l, id, toPublic), TrimSpace(id);
            if toPublic then (InPublic(r, key) <==> "*" !in Items(PublicRead(l))) && !InAdmin(r, key)
            else (InAdmin(r, key) <==> "*" !in Items(l.adminList)) && (InPublic(r, key) <==> Returns(l, id, toPublic))
  {
    hide Set, Items, InAdmin, InPublic, Contains, EqualFold, OnlyHolds;
    AfterSet(l, id, toPublic, TrimSpace(id));
    SelfFold(TrimSpace(id));
  }

  /** Some legacy id becomes public again while it is an admin group. */
  ghost predicate Resurrects(l: Lists, id: string, toPublic: bool) {
    && !toPublic && OnlyHolds(PublicRead(l), id) && "*" !in Items(l.adminList)
    && exists x :: x != "*" && Contains(Items(l.legacy), x) && (InAdmin(l, x) || EqualFold(x, TrimSpace(id)))
  }

  /** A call on exclusive lists leaves them exclusive exactly when it resurrects no legacy id. */
  lemma SetKeepsExclusive(l: Lists, id: string, toPublic: bool)
    requires IsChatId(id) && Exclusive(l)
    ensures Exclusive(Set(l, id, toPublic)) <==> !Resurrects(l, id, toPublic)
  {
    hide Set, InAdmin, InPublic, Contains, EqualFold, OnlyHolds, PublicRead, IsChatId, Items;
    var r := Set(l, id, toPublic);
    forall x | x != "*"
      ensures InPublic(r, x) && InAdmin(r, x) <==>
              !toPublic && OnlyHolds(PublicRead(l), id) && "*" !in Items(l.adminList) &&
              Contains(Items(l.legacy), x) && (InAdmin(l, x) || EqualFold(x, TrimSpace(id)))
    {
      AfterSet(l, id, toPublic, x);
    }
  }

  // ----- Sequences of calls -----

  datatype Call = Call(id: string, toPublic: bool)

  function Run(l: Lists, calls: seq<Call>): Lists {
    if calls == [] then l
    else var before := Run(l, calls[..|calls| - 1]); Set(before, calls[|calls| - 1].id, calls[|calls| - 1].toPublic)
  }

  ghost predicate ResurrectsAt(l: Lists, calls: seq<Call>, k: nat)
    requires k < |calls|
  {
    Resurrects(Run(l, calls[..k]), calls[k].id, calls[k].toPublic)
  }

  lemma RunSnoc(l: Lists, calls: seq<Call>, k: nat)
    requires k < |calls|
    ensures Run(l, calls[..k + 1]) == Set(Run(l, calls[..k]), calls[k].id, calls[k].toPublic)
  {
    assert calls[..k + 1][..k] == calls[..k];
  }

  /** Through any sequence of calls the lists stay exclusive up to the first call that resurrects a legacy id. */
  lemma {:induction false} RunIsExclusive(l: Lists, calls: seq<Call>, n: nat)
    requires Exclusive(l) && n <= |calls| && forall k :: 0 <= k < |calls| ==> IsChatId(calls[k].id)
    ensures (forall k :: 0 <= k <= n ==> Exclusive(Run(l, calls[..k]))) <==> (forall k: nat :: k < n ==> !ResurrectsAt(l, calls, k))
  {
    hide Set, Exclusive, Resurrects, IsChatId;
    if n == 0 {
      assert calls[..0] == [];
    } else {
      RunIsExclusive(l, calls, n - 1);
      RunSnoc(l, calls, n - 1);
      if Exclusive(Run(l, calls[..n - 1])) { SetKeepsExclusive(Run(l, calls[..n - 1]), calls[n - 1].id, calls[n - 1].toPublic); }
      assert (forall k: nat :: k < n ==> !ResurrectsAt(l, calls, k)) ==> !ResurrectsAt(l, calls, n - 1);
    }
  }

  lemma {:induction false} LegacyStays(l: Lists, calls: seq<Call>)
    ensures Run(l, calls).legacy == l.legacy
  {
    if calls != [] { LegacyStays(l, calls[..|calls| - 1]); }
  }

  /** Without an id in the legacy option the group modes stay exclusive for ever. */
  lemma NoLegacyIsExclusive(l: Lists, calls: seq<Call>)
    requires Exclusive(l) && forall k :: 0 <= k < |calls| ==> IsChatId(calls[k].id)
    requires forall x :: x in Items(l.legacy) ==> x == "*"
    ensures Exclusive(Run(l, calls))
  {
    hide Run, Set, Exclusive, IsChatId, Items, OnlyHolds;
    forall k: nat | k < |calls| ensures !ResurrectsAt(l, calls, k) {
      LegacyStays(l, calls[..k]);
      OnlyStars(Items(l.legacy));
    }
    RunIsExclusive(l, calls, |calls|);
    assert calls[..|calls|] == calls;
  }

  lemma OnlyStars(items: seq<string>)
    requires forall x :: x in items ==> x == "*"
    ensures forall x :: x != "*" ==> !Contains(items, x)
  {
    forall x | x != "*" ensures !Contains(items, x) {
      forall i | 0 <= i < |items| ensures !EqualFold(items[i], x) {
        assert items[i] in items;
        StarOnly(x);
        assert !EqualFold(["*"][0], x);
      }
    }
  }

  /**
   The condition is needed: with an id in the legacy list and no other list, two changes to admin write that id into
   the public list while it stays in the admin list.
   */
  lemma LegacyIdReturns(first: string, second: string)
    requires IsItem(first) && IsItem(second) && first != "*" && second != "*" && !EqualFold(first, second)
    ensures var start := Lists("", first, "");
            var end := Set(Set(start, first, false), second, false);
            Exclusive(start) && end.publicList == first && InAdmin(end, first) && !Exclusive(end)
  {
    var start := Lists("", first, "");
    var middle := Set(start, first, false);
    OneItem(first);
    OneItem(second);
    EmptyItems();
    StarIsNoId(first);
    RemoveOnly(first);
    RemoveOther(first, second);
    assert middle.publicList == "";
    AfterSet(start, first, false, first);
    SelfFold(first);
    AfterSet(middle, second, false, first);
    hide Items, Merged, Removed, TrimSpace, EqualFold, Contains;
    assert InAdmin(middle, first);
    assert middle.adminList == first;
    var end := Set(middle, second, false);
    assert end.publicList == first;
    assert InPublic(end, first);
  }

  lemma RemoveOnly(id: string)
    requires IsItem(id) && id != "*"
    ensures Removed(id, id).0 == "" && Merged(Removed("", id).0, id).0 == id
  {
    OneItem(id);
    EmptyItems();
    SelfFold(id);
    NoneLeft([id], id);
  }

  lemma RemoveOther(list: string, id: string)
    requires IsItem(list) && IsItem(id) && list != "*" && !EqualFold(list, id)
    ensures Removed(list, id).0 == list
  {
    OneItem(list);
    OneItem(id);
    SnocLists([], list, id);
    assert [] + [list] == [list];
    OneDistinct(list);
  }
}
