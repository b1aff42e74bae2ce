/** Message de-duplication over a time window (core/dedup.go). The clock is a parameter and does not go back. */
module Dedup {

  const TTL: real := 60.0

  function Pruned(seen: map<string, real>, now: real): map<string, real> {
    map k | k in seen && now - seen[k] <= TTL :: seen[k]
  }

  function Duplicate(seen: map<string, real>, id: string, now: real): bool {
    id != "" && id in Pruned(seen, now)
  }

  function After(seen: map<string, real>, id: string, now: real): map<string, real> {
    if id == "" then seen
    else if id in Pruned(seen, now) then Pruned(seen, now)
    else Pruned(seen, now)[id := now]
  }

  class MessageDedup {
    var seen: map<string, real>

    constructor ()
      ensures seen == map[]
    {
      seen := map[];
    }

    method IsDuplicate(msgID: string, now: real) returns (duplicate: bool)
      modifies this
      ensures duplicate == Duplicate(old(seen), msgID, now)
      ensures seen == After(old(seen), msgID, now)
    {
      if msgID == "" {
        return false;
      }
      var keys := seen.Keys;
      while keys != {}
        invariant keys <= seen.Keys <= old(seen).Keys
        invariant forall k :: k in seen ==> seen[k] == old(seen)[k]
        invariant forall k :: k in old(seen) && k !in keys ==> (k in seen <==> now - old(seen)[k] <= TTL)
        decreases |keys|
      {
        var k :| k in keys;
        keys := keys - {k};
        if now - seen[k] > TTL {
          seen := seen - {k};
        }
      }
      assert seen == Pruned(old(seen), now);
      if msgID in seen {
        return true;
      }
      seen := seen[msgID := now];
      duplicate := false;
    }
  }

  // ----- Whole histories -----

  datatype Call = Call(id: string, at: real)

  predicate InOrder(calls: seq<Call>) {
    forall i, j :: 0 <= i < j < |calls| ==> calls[i].at <= calls[j].at
  }

  function Run(calls: seq<Call>): map<string, real> {
    if calls == [] then map[]
    else After(Run(calls[..|calls| - 1]), calls[|calls| - 1].id, calls[|calls| - 1].at)
  }

  /** Call `i` was answered "not a duplicate" for a message with an id. */
  predicate Accepted(calls: seq<Call>, i: nat)
    requires i < |calls|
  {
    calls[i].id != "" && !Duplicate(Run(calls[..i]), calls[i].id, calls[i].at)
  }

  /** A message of that id was accepted among the first `n` calls, at most the window before `now`. */
  ghost predicate AcceptedLately(calls: seq<Call>, n: nat, id: string, now: real)
    requires n <= |calls|
  {
    exists i :: 0 <= i < n && Accepted(calls, i) && calls[i].id == id && now - calls[i].at <= 60.0
  }

  ghost predicate Remembers(seen: map<string, real>, calls: seq<Call>, n: nat)
    requires n <= |calls|
  {
    && (forall k :: k in seen ==> exists i :: 0 <= i < n && Accepted(calls, i) && calls[i] == Call(k, seen[k]))
    && (forall i :: 0 <= i < n && Accepted(calls, i) && calls[n - 1].at - calls[i].at <= TTL ==>
          calls[i].id in seen && seen[calls[i].id] >= calls[i].at)
  }

  lemma {:induction false} RunRemembers(calls: seq<Call>, n: nat)
    requires InOrder(calls) && n <= |calls|
    ensures Remembers(Run(calls[..n]), calls, n)
  {
    if n > 0 {
      RunRemembers(calls, n - 1);
      assert calls[..n][..n - 1] == calls[..n - 1];
      StepRemembers(Run(calls[..n - 1]), calls, n);
    }
  }

  lemma StepRemembers(seen: map<string, real>, calls: seq<Call>, n: nat)
    requires InOrder(calls) && 0 < n <= |calls| && seen == Run(calls[..n - 1]) && Remembers(seen, calls, n - 1)
    ensures Remembers(After(seen, calls[n - 1].id, calls[n - 1].at), calls, n)
  {
    hide Run;
    var c := calls[n - 1];
    var after := After(seen, c.id, c.at);
    forall k | k in after ensures exists i :: 0 <= i < n && Accepted(calls, i) && calls[i] == Call(k, after[k]) {
      if k in seen && after[k] == seen[k] {
        var i :| 0 <= i < n - 1 && Accepted(calls, i) && calls[i] == Call(k, seen[k]);
        assert calls[i] == Call(k, after[k]);
      } else {
        assert Accepted(calls, n - 1) && calls[n - 1] == Call(k, after[k]);
      }
    }
    forall i | 0 <= i < n && Accepted(calls, i) && calls[n - 1].at - calls[i].at <= TTL
      ensures calls[i].id in after && after[calls[i].id] >= calls[i].at
    {
      if i < n - 1 {
        assert calls[n - 2].at <= c.at;
        assert calls[i].id in seen && seen[calls[i].id] >= calls[i].at;
      }
    }
  }

  /** A message is called a duplicate exactly when its id was accepted at most 60 seconds before; one without an id never. */
  lemma DuplicateIffAcceptedLately(calls: seq<Call>, n: nat)
    requires InOrder(calls) && n < |calls|
    ensures Duplicate(Run(calls[..n]), calls[n].id, calls[n].at) <==>
            AcceptedLately(calls, n, calls[n].id, calls[n].at)
  {
    hide Run;
    RunRemembers(calls, n);
    var seen, c := Run(calls[..n]), calls[n];
    if Duplicate(seen, c.id, c.at) {
      var i :| 0 <= i < n && Accepted(calls, i) && calls[i] == Call(c.id, seen[c.id]);
      assert AcceptedLately(calls, n, c.id, c.at);
    }
    if AcceptedLately(calls, n, c.id, c.at) {
      var i :| 0 <= i < n && Accepted(calls, i) && calls[i].id == c.id && c.at - calls[i].at <= TTL;
      assert calls[n - 1].at <= c.at;
    }
  }

  /** Two acceptances of one id are more than the window apart. */
  lemma AcceptancesAreApart(calls: seq<Call>, i: nat, n: nat)
    requires InOrder(calls) && i < n < |calls| && Accepted(calls, i) && Accepted(calls, n) && calls[i].id == calls[n].id
    ensures calls[n].at - calls[i].at > 60.0
  {
    hide Run;
    DuplicateIffAcceptedLately(calls, n);
  }

  /** The table is pruned: after a call for a message with an id it holds acceptances of the last 60 seconds only. */
  lemma TableIsPruned(calls: seq<Call>, k: string)
    requires InOrder(calls) && calls != [] && calls[|calls| - 1].id != "" && k in Run(calls)
    ensures exists i :: 0 <= i < |calls| && Accepted(calls, i) && calls[i] == Call(k, Run(calls)[k]) &&
                        calls[|calls| - 1].at - calls[i].at <= 60.0
  {
    RunRemembers(calls, |calls|);
    assert calls[..|calls|] == calls;
  }
}
