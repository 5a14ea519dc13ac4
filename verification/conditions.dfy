// SetCondition of pkg/cond/cond.go: a list of conditions updated in place, kept newest
// first, that stands for a map from types to conditions.
module Conditions {

  datatype Condition = Condition(kind: string, status: string, time: int, reason: string, message: string)

  datatype Call = Call(kind: string, status: string, reason: string, message: string, now: int)

  predicate SameValues(c: Condition, call: Call) {
    c.status == call.status && c.reason == call.reason && c.message == call.message
  }

  function Fresh(call: Call): Condition { Condition(call.kind, call.status, call.now, call.reason, call.message) }

  // ---------------------------------------------------------------- the map

  // What one call does: nothing if it repeats the type's values, else a new entry now.
  function Apply(m: map<string, Condition>, call: Call): map<string, Condition> {
    if call.kind in m && SameValues(m[call.kind], call) then m else m[call.kind := Fresh(call)]
  }

  function Fold(calls: seq<Call>): map<string, Condition> {
    if calls == [] then map[] else Apply(Fold(calls[..|calls| - 1]), calls[|calls| - 1])
  }

  predicate SameCall(a: Call, b: Call) {
    a.kind == b.kind && a.status == b.status && a.reason == b.reason && a.message == b.message
  }

  // Call `i` is the call of the same type just before call `k`.
  predicate Before(calls: seq<Call>, i: int, k: int) {
    && 0 <= i < k < |calls| && calls[i].kind == calls[k].kind
    && forall j :: i < j < k ==> calls[j].kind != calls[k].kind
  }

  // `k` is the last call of its type that changed anything: every later call of the type
  // repeats it, and the call of the type before it (if any) was different.
  predicate LastChange(calls: seq<Call>, k: int) {
    && 0 <= k < |calls|
    && (forall j :: k < j < |calls| && calls[j].kind == calls[k].kind ==> SameCall(calls[j], calls[k]))
    && (forall i :: 0 <= i < k && Before(calls, i, k) ==> !SameCall(calls[i], calls[k]))
  }

  ghost predicate MadeByLastChange(calls: seq<Call>, c: Condition) {
    exists k :: LastChange(calls, k) && c == Fresh(calls[k])
  }

  // The condition has the values and the time of its type's last change.
  ghost predicate Explained(calls: seq<Call>, c: Condition) {
    exists k :: LastChange(calls, k)
      && c.kind == calls[k].kind && c.time == calls[k].now
      && c.status == calls[k].status && c.reason == calls[k].reason && c.message == calls[k].message
  }

  lemma {:induction false} FoldKeys(calls: seq<Call>)
    ensures forall t :: t in Fold(calls) <==> exists i :: 0 <= i < |calls| && calls[i].kind == t
  {
    if calls != [] {
      var before := calls[..|calls| - 1];
      FoldKeys(before);
      assert calls == before + [calls[|calls| - 1]];
    }
  }

  // The map holds, for exactly the types ever set, the values of the type's last call and
  // the time of its last call that changed anything.
  lemma FoldMeaning(calls: seq<Call>)
    ensures forall t :: t in Fold(calls) <==> exists i :: 0 <= i < |calls| && calls[i].kind == t
    ensures forall t :: t in Fold(calls) ==> Fold(calls)[t].kind == t && Explained(calls, Fold(calls)[t])
  {
    FoldKeys(calls);
    KindsMatch(calls);
    forall t | t in Fold(calls) ensures Explained(calls, Fold(calls)[t]) {
      FoldExplained(calls, t);
      var k :| LastChange(calls, k) && Fold(calls)[t] == Fresh(calls[k]);
    }
  }

  lemma {:induction false} FoldExplained(calls: seq<Call>, t: string)
    requires t in Fold(calls)
    ensures MadeByLastChange(calls, Fold(calls)[t])
  {
    var before := calls[..|calls| - 1];
    if t in Fold(before) {
      FoldExplained(before, t);
    }
    ExplainStep(calls, t);
  }

  lemma ExplainStep(calls: seq<Call>, t: string)
    requires |calls| > 0 && t in Fold(calls)
    requires t in Fold(calls[..|calls| - 1]) ==> MadeByLastChange(calls[..|calls| - 1], Fold(calls[..|calls| - 1])[t])
    ensures MadeByLastChange(calls, Fold(calls)[t])
  {
    var n := |calls| - 1;
    var before, call := calls[..n], calls[n];
    KindsMatch(before);
    hide LastChange;
    if t == call.kind && !(t in Fold(before) && SameValues(Fold(before)[t], call)) {
      FoldKeys(before);
      if t in Fold(before) {
        var k :| LastChange(before, k) && Fold(before)[t] == Fresh(before[k]);
        InRange(before, k);
        NewChange(calls, k);
      } else {
        NewChange(calls, 0);
      }
    } else {
      var k :| LastChange(before, k) && Fold(before)[t] == Fresh(before[k]);
      InRange(before, k);
      OldChange(calls, k);
    }
  }

  lemma InRange(calls: seq<Call>, k: int)
    requires LastChange(calls, k)
    ensures 0 <= k < |calls|
  {}

  lemma {:induction false} KindsMatch(calls: seq<Call>)
    ensures forall t :: t in Fold(calls) ==> Fold(calls)[t].kind == t
  {
    if calls != [] {
      KindsMatch(calls[..|calls| - 1]);
    }
  }

  lemma OldChange(calls: seq<Call>, k: int)
    requires |calls| > 0 && LastChange(calls[..|calls| - 1], k)
    requires var call := calls[|calls| - 1]; call.kind == calls[k].kind ==> SameCall(call, calls[k])
    ensures LastChange(calls, k)
  {
    var before := calls[..|calls| - 1];
    assert forall j :: 0 <= j < |before| ==> before[j] == calls[j];
  }

  // A call of a type never set before, or one that differs from the type's last change.
  lemma NewChange(calls: seq<Call>, k: int)
    requires |calls| > 0
    requires var before, call := calls[..|calls| - 1], calls[|calls| - 1];
      || (forall i :: 0 <= i < |before| ==> before[i].kind != call.kind)
      || (LastChange(before, k) && before[k].kind == call.kind && !SameCall(before[k], call))
    ensures LastChange(calls, |calls| - 1)
  {
    var n := |calls| - 1;
    var before, call := calls[..n], calls[n];
    forall i | 0 <= i < n && Before(calls, i, n) ensures !SameCall(calls[i], call) {
      assert before[i] == calls[i] && before[k] == calls[k];
      assert k <= i;
    }
  }

  // ---------------------------------------------------------------- the list

  // No type occurs twice.
  ghost predicate OnePerKind(xs: seq<Condition>) {
    forall i, j :: 0 <= i < j < |xs| ==> xs[i].kind != xs[j].kind
  }

  predicate NewestFirst(xs: seq<Condition>) {
    forall i, j :: 0 <= i < j < |xs| ==> xs[i].time >= xs[j].time
  }

  // The list stands for the map: one entry per type, and no others.
  ghost predicate Shows(xs: seq<Condition>, m: map<string, Condition>) {
    && OnePerKind(xs)
    && (forall i :: 0 <= i < |xs| ==> xs[i].kind in m && m[xs[i].kind] == xs[i])
    && (forall t :: t in m ==> m[t] in xs && m[t].kind == t)
  }

  // sort.Slice: some order with the newest first; entries of equal time may swap.
  method SortNewestFirst(xs: seq<Condition>) returns (ys: seq<Condition>)
    ensures multiset(ys) == multiset(xs) && NewestFirst(ys)
    ensures forall i, j :: 0 <= i < j < |ys| ==> ys[i].time >= ys[j].time
  {
    ys := [];
    for n := 0 to |xs|
      invariant multiset(ys) == multiset(xs[..n]) && NewestFirst(ys)
    {
      var i := FindPlace(ys, xs[n].time);
      InsertSorted(ys, i, xs[n]);
      assert xs[..n + 1] == xs[..n] + [xs[n]];
      ys := ys[..i] + [xs[n]] + ys[i..];
    }
    assert xs[..|xs|] == xs;
  }

  method FindPlace(ys: seq<Condition>, time: int) returns (i: nat)
    ensures i <= |ys| && forall k :: 0 <= k < i ==> ys[k].time >= time
    ensures i < |ys| ==> ys[i].time < time
  {
    i := 0;
    while i < |ys| && ys[i].time >= time
      invariant i <= |ys| && forall k :: 0 <= k < i ==> ys[k].time >= time
    {
      i := i + 1;
    }
  }

  lemma InsertSorted(ys: seq<Condition>, i: nat, x: Condition)
    requires i <= |ys| && NewestFirst(ys)
    requires forall k :: 0 <= k < i ==> ys[k].time >= x.time
    requires i < |ys| ==> ys[i].time < x.time
    ensures NewestFirst(ys[..i] + [x] + ys[i..]) && multiset(ys[..i] + [x] + ys[i..]) == multiset(ys) + multiset{x}
  {
    assert multiset(ys[..i] + [x] + ys[i..]) == multiset(ys) + multiset{x} by {
      assert ys == ys[..i] + ys[i..];
    }
    var zs := ys[..i] + [x] + ys[i..];
    assert forall a :: 0 <= a < |zs| ==> zs[a] == if a < i then ys[a] else if a == i then x else ys[a - 1];
  }

  lemma SortKeepsShown(xs: seq<Condition>, ys: seq<Condition>, m: map<string, Condition>)
    requires Shows(xs, m) && multiset(ys) == multiset(xs)
    ensures Shows(ys, m)
  {
    forall y | y in ys ensures y in xs { assert y in multiset(ys); }
    forall x | x in xs ensures x in ys { assert x in multiset(xs); }
    forall i, j | 0 <= i < j < |ys| ensures ys[i].kind != ys[j].kind {
      assert ys[i] in xs && ys[j] in xs;
      if ys[i] == ys[j] {
        Twice(ys, i, j);
        OnceEach(xs, ys[i]);
        assert false;
      }
    }
    forall i | 0 <= i < |ys| ensures ys[i].kind in m && m[ys[i].kind] == ys[i] {
      assert ys[i] in xs;
    }
  }

  lemma Twice(xs: seq<Condition>, i: nat, j: nat)
    requires i < j < |xs| && xs[i] == xs[j]
    ensures multiset(xs)[xs[i]] >= 2
  {
    assert xs == xs[..j] + xs[j..];
    assert xs[..j][i] == xs[i] && xs[j..][0] == xs[i];
    assert xs[i] in multiset(xs[..j]) && xs[i] in multiset(xs[j..]);
  }

  lemma {:induction false} OnceEach(xs: seq<Condition>, x: Condition)
    requires OnePerKind(xs)
    ensures multiset(xs)[x] <= 1
  {
    if xs != [] {
      OnceEach(xs[1..], x);
      assert xs == [xs[0]] + xs[1..];
      assert forall j :: 0 <= j < |xs[1..]| ==> xs[1..][j] == xs[j + 1];
      assert x == xs[0] ==> x !in xs[1..];
    }
  }

  class ConditionList {
    var conditions: seq<Condition>
    ghost var calls: seq<Call> // every call so far

    ghost predicate Valid()
      reads this
    {
      Shows(conditions, Fold(calls)) && NewestFirst(conditions)
    }

    constructor ()
      ensures Valid() && calls == []
    {
      conditions, calls := [], [];
    }

    // The list after the call shows the map of all calls, newest first.
    method SetCondition(kind: string, status: string, reason: string, message: string, now: int)
      requires Valid()
      modifies this
      ensures Valid() && calls == old(calls) + [Call(kind, status, reason, message, now)]
      ensures forall i, j :: 0 <= i < j < |conditions| ==>
        conditions[i].time >= conditions[j].time && conditions[i].kind != conditions[j].kind
      ensures forall t :: t in Fold(calls) <==> exists i :: 0 <= i < |conditions| && conditions[i].kind == t
      ensures forall i :: 0 <= i < |conditions| ==> conditions[i] == Fold(calls)[conditions[i].kind]
    {
      ghost var m := Fold(calls);
      ghost var call := Call(kind, status, reason, message, now);
      var existing := false;
      var i := 0;
      while i < |conditions|
        invariant i <= |conditions| && conditions == old(conditions) && !existing && calls == old(calls)
        invariant forall k :: 0 <= k < i ==> conditions[k].kind != kind
      {
        if conditions[i].kind == kind {
          existing := true;
          break;
        }
        i := i + 1;
      }
      if existing {
        var c := conditions[i];
        if c.status != status || c.reason != reason || c.message != message {
          conditions := conditions[i := c.(status := status, time := now, reason := reason, message := message)];
        }
        UpdateShown(old(conditions), m, i, call);
      } else {
        conditions := conditions + [Condition(kind, status, now, reason, message)];
        AppendShown(old(conditions), m, call);
      }
      var sorted := SortNewestFirst(conditions);
      SortKeepsShown(conditions, sorted, Apply(m, call));
      conditions := sorted;
      calls := calls + [call];
      assert calls[..|calls| - 1] == old(calls);
      ShownMeans(conditions, Fold(calls));
      hide Shows, NewestFirst;
    }
  }

  lemma ShownMeans(xs: seq<Condition>, m: map<string, Condition>)
    requires Shows(xs, m) && NewestFirst(xs)
    ensures forall i, j :: 0 <= i < j < |xs| ==> xs[i].time >= xs[j].time && xs[i].kind != xs[j].kind
    ensures forall t :: t in m <==> exists i :: 0 <= i < |xs| && xs[i].kind == t
    ensures forall i :: 0 <= i < |xs| ==> xs[i] == m[xs[i].kind]
  {}

  lemma UpdateShown(xs: seq<Condition>, m: map<string, Condition>, i: nat, call: Call)
    requires Shows(xs, m) && i < |xs| && xs[i].kind == call.kind
    ensures Shows(if SameValues(xs[i], call) then xs else xs[i := Fresh(call)], Apply(m, call))
  {
    var ys := xs[i := Fresh(call)];
    if !SameValues(xs[i], call) {
      forall t | t in Apply(m, call) ensures Apply(m, call)[t] in ys {
        if t == call.kind {
          assert ys[i] == Fresh(call);
        } else {
          var k :| 0 <= k < |xs| && xs[k] == m[t];
          assert ys[k] == m[t];
        }
      }
    }
  }

  lemma AppendShown(xs: seq<Condition>, m: map<string, Condition>, call: Call)
    requires Shows(xs, m) && forall k :: 0 <= k < |xs| ==> xs[k].kind != call.kind
    ensures Shows(xs + [Fresh(call)], Apply(m, call))
  {
    assert call.kind !in m;
    var ys := xs + [Fresh(call)];
    forall t | t in Apply(m, call) ensures Apply(m, call)[t] in ys {
      if t == call.kind {
        assert ys[|xs|] == Fresh(call);
      } else {
        var k :| 0 <= k < |xs| && xs[k] == m[t];
        assert ys[k] == m[t];
      }
    }
  }
}
