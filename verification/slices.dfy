// Go slices over shared backing arrays, and the two in-place moves of
// pkg/manager_packer/command.go, proved to be plain removal and insertion on sequences.
module Slices {

  // The first `len` elements of an array; the rest of the array is spare capacity.
  datatype Slice<!T> = Slice(a: array<T>, len: nat)

  predicate Valid<T>(s: Slice<T>) { s.len <= s.a.Length }

  function Elems<T>(s: Slice<T>): (xs: seq<T>)
    requires Valid(s)
    reads s.a
    ensures |xs| == s.len
  {
    s.a[..s.len]
  }

  // s[:n]
  function Prefix<T>(s: Slice<T>, n: nat): (r: Slice<T>)
    requires n <= s.len
  {
    Slice(s.a, n)
  }

  // append(s, xs...): in place while the capacity lasts, otherwise into a new array with
  // some spare room. The appended elements may lie in the same array: they are read before
  // any is written (Go copies overlapping windows as if through a buffer).
  method Append<T(0)>(s: Slice<T>, xs: seq<T>) returns (r: Slice<T>)
    requires Valid(s)
    modifies s.a
    ensures Valid(r) && Elems(r) == old(Elems(s)) + xs
    ensures s.len + |xs| <= s.a.Length ==> r.a == s.a
    ensures s.len + |xs| <= s.a.Length ==> s.a[s.len + |xs|..] == old(s.a[s.len + |xs|..])
    ensures s.len + |xs| > s.a.Length ==> fresh(r.a) && s.a[..] == old(s.a[..])
  {
    var n := s.len + |xs|;
    var b := s.a;
    if n > s.a.Length {
      var spare: int := *;
      b := new T[n + if spare < 0 then 0 else spare];
      forall i | 0 <= i < s.len {
        b[i] := s.a[i];
      }
    }
    assert b[..s.len] == old(Elems(s));
    for i := 0 to |xs|
      invariant b == s.a || fresh(b)
      invariant b[..s.len + i] == old(Elems(s)) + xs[..i]
      invariant b == s.a ==> s.a[n..] == old(s.a[n..])
      invariant b != s.a ==> s.a[..] == old(s.a[..])
    {
      b[s.len + i] := xs[i];
      assert b[..s.len + (i + 1)] == b[..s.len + i] + [xs[i]];
    }
    assert xs[..|xs|] == xs;
    r := Slice(b, n);
  }

  function Removed<T>(xs: seq<T>, i: nat): seq<T>
    requires i < |xs|
  {
    xs[..i] + xs[i + 1..]
  }

  function Inserted<T>(xs: seq<T>, i: nat, x: T): seq<T>
    requires i <= |xs|
  {
    xs[..i] + [x] + xs[i..]
  }

  function Moved<T>(xs: seq<T>, from: nat, to: nat): seq<T>
    requires from < |xs| && to < |xs|
  {
    Inserted(Removed(xs, from), to, xs[from])
  }

  // A move loses, duplicates and overwrites nothing: same elements, the moved one at its
  // new place, the others in their old order.
  lemma MoveConserves<T>(xs: seq<T>, from: nat, to: nat)
    requires from < |xs| && to < |xs|
    ensures multiset(Moved(xs, from, to)) == multiset(xs)
    ensures |Moved(xs, from, to)| == |xs| && Moved(xs, from, to)[to] == xs[from]
    ensures Removed(Moved(xs, from, to), to) == Removed(xs, from)
  {
    var rest := Removed(xs, from);
    assert multiset(rest) + multiset{xs[from]} == multiset(xs) by {
      assert xs == xs[..from] + [xs[from]] + xs[from + 1..];
    }
    assert xs == xs[..from] + [xs[from]] + xs[from + 1..];
    assert rest == rest[..to] + rest[to..];
    assert Moved(xs, from, to)[..to] == rest[..to] && Moved(xs, from, to)[to + 1..] == rest[to..];
  }

  // append(s[:i], append([x], s[i:]...)...)
  method InsertAt<T(0)>(s: Slice<T>, i: nat, x: T) returns (r: Slice<T>)
    requires Valid(s) && i <= s.len
    modifies s.a
    ensures Valid(r) && Elems(r) == Inserted(old(Elems(s)), i, x)
    ensures s.len < s.a.Length ==> r.a == s.a && s.a[s.len + 1..] == old(s.a[s.len + 1..])
    ensures s.len == s.a.Length ==> fresh(r.a) && s.a[..] == old(s.a[..])
  {
    var tail := [x] + s.a[i..s.len];
    assert Elems(Prefix(s, i)) == Elems(s)[..i] && s.a[i..s.len] == Elems(s)[i..];
    r := Append(Prefix(s, i), tail);
    assert old(Elems(s))[..i] + ([x] + old(Elems(s))[i..]) == Inserted(old(Elems(s)), i, x);
  }

  // The removal shifts the tail down and the insertion shifts it up again, all within the
  // slice's own window: the result is the same slice and its neighbours are not touched.
  method MoveCommandToIndex<T(0)>(s: Slice<T>, from: nat, to: nat) returns (r: Slice<T>)
    requires Valid(s) && from < s.len && to < s.len
    modifies s.a
    ensures r == s && Elems(r) == Moved(old(Elems(s)), from, to)
    ensures s.a[s.len..] == old(s.a[s.len..])
  {
    var cmd := s.a[from];
    assert Elems(Prefix(s, from)) == Elems(s)[..from] && s.a[from + 1..s.len] == Elems(s)[from + 1..];
    var t := Append(Prefix(s, from), s.a[from + 1..s.len]);
    assert Elems(t) == Removed(old(Elems(s)), from);
    assert s.a[s.len..] == s.a[s.len - 1..][1..] == old(s.a[s.len - 1..][1..]);
    r := InsertAt(t, to, cmd);
  }
}
