/** `np.sort` (ascending) and `[::-1]` on real vectors, with the facts the
    simplex projection and the percentile need. */
module Sorting {
  import opened Vectors

  predicate Ascending(s: Vector)
  {
    forall i, j :: 0 <= i < j < |s| ==> s[i] <= s[j]
  }

  predicate Descending(s: Vector)
  {
    forall i, j :: 0 <= i < j < |s| ==> s[i] >= s[j]
  }

  /** Inserts `x` in front of the first entry it does not exceed. */
  function Insert(x: real, s: Vector): (r: Vector)
    ensures multiset(r) == multiset(s) + multiset{x}
    ensures |r| == |s| + 1
  {
    if s == [] then [x]
    else if x <= s[0] then [x] + s
    else
      assert s == [s[0]] + s[1..];
      [s[0]] + Insert(x, s[1..])
  }

  lemma {:induction false} InsertAscending(x: real, s: Vector)
    requires Ascending(s)
    ensures Ascending(Insert(x, s))
  {
    if s != [] && x <= s[0] {
      ConsAscending(x, s);
    } else if s != [] {
      var rest := s[1..];
      assert forall i, j :: 0 <= i < j < |rest| ==> rest[i] == s[i + 1] && rest[j] == s[j + 1];
      InsertAscending(x, rest);
      var tail := Insert(x, rest);
      if rest != [] {
        InsertFirst(x, rest);
        assert s[0] <= s[1];
      }
      ConsAscending(s[0], tail);
    }
  }

  /** The first entry after an insertion is the smaller of `x` and the old first entry. */
  lemma InsertFirst(x: real, s: Vector)
    requires s != []
    ensures Insert(x, s)[0] == if x <= s[0] then x else s[0]
  {
  }

  /** Prepending a value no larger than the first entry keeps a vector ascending. */
  lemma ConsAscending(a: real, t: Vector)
    requires Ascending(t) && (t != [] ==> a <= t[0])
    ensures Ascending([a] + t)
  {
    var r := [a] + t;
    forall i, j | 0 <= i < j < |r| ensures r[i] <= r[j] {
      if i == 0 && j > 1 {
        assert t[0] <= t[j - 1];
      }
    }
  }

  /** `np.sort(s)`: an ascending permutation of `s`. */
  function Sort(s: Vector): (r: Vector)
    ensures Ascending(r)
    ensures multiset(r) == multiset(s)
    ensures |r| == |s|
  {
    if s == [] then []
    else
      assert s == [s[0]] + s[1..];
      InsertAscending(s[0], Sort(s[1..]));
      Insert(s[0], Sort(s[1..]))
  }

  /** `s[::-1]`. */
  function Reverse(s: Vector): (r: Vector)
    ensures |r| == |s|
    ensures forall i {:trigger r[i]} :: 0 <= i < |s| ==> r[i] == s[|s| - 1 - i]
  {
    if s == [] then [] else Reverse(s[1..]) + [s[0]]
  }

  lemma {:induction false} ReversePermutes(s: Vector)
    ensures multiset(Reverse(s)) == multiset(s)
  {
    if s != [] {
      ReversePermutes(s[1..]);
      assert s == [s[0]] + s[1..];
    }
  }

  /** `np.sort(s)[::-1]`: a descending permutation of `s`. */
  function SortDescending(s: Vector): (r: Vector)
    ensures Descending(r)
    ensures multiset(r) == multiset(s)
    ensures |r| == |s|
  {
    var up := Sort(s);
    ReversePermutes(up);
    Reverse(up)
  }

  /** Taking out the element at `k` leaves the rest of the multiset. */
  lemma RemoveAt(b: Vector, k: nat)
    requires k < |b|
    ensures b == b[..k] + [b[k]] + b[k + 1..]
    ensures multiset(b[..k] + b[k + 1..]) == multiset(b) - multiset{b[k]}
  {
    assert b == b[..k] + [b[k]] + b[k + 1..];
    assert multiset(b) == multiset(b[..k]) + multiset{b[k]} + multiset(b[k + 1..]);
  }
}
