/** Picking the elements of a sequence through a list of indices.

    Two things in the games are of this shape: the word spelled by the letter
    tiles a player has selected (the tiles' indices, in click order), and the
    randomised reorderings `[...xs].sort(() => Math.random() - 0.5)`, whose
    outcome is some permutation of the indices. The model takes that
    permutation as an input, so no random number generator is involved. */
module Selection {

  /** No element occurs twice. */
  predicate Distinct<T(==)>(s: seq<T>) {
    forall i, j :: 0 <= i < j < |s| ==> s[i] != s[j]
  }

  /** Every index in `p` addresses an element of a sequence of length `n`. */
  predicate InRange(p: seq<nat>, n: nat) {
    forall i :: 0 <= i < |p| ==> p[i] < n
  }

  /** `p` names every index below `n` exactly once. */
  predicate IsPermutation(p: seq<nat>, n: nat) {
    |p| == n && InRange(p, n) && Distinct(p) && forall v :: 0 <= v < n ==> v in p
  }

  /** The elements of `s` at the indices `p`, in the order of `p`. */
  function Select<T>(s: seq<T>, p: seq<nat>): seq<T>
    requires InRange(p, |s|)
  {
    seq(|p|, i requires 0 <= i < |p| => s[p[i]])
  }

  /** Removing position `k` from an index list whose entry there is the
      largest index `m` leaves an index list for the first `m` elements,
      and selecting through it is selecting through `p` with `s[m]` cut out. */
  lemma {:induction false} DropLast<T>(s: seq<T>, p: seq<nat>, k: nat)
    requires InRange(p, |s|) && Distinct(p)
    requires k < |p| && p[k] == |s| - 1
    ensures |s| > 0
    ensures InRange(p[..k] + p[k + 1..], |s| - 1) && Distinct(p[..k] + p[k + 1..])
    ensures multiset(Select(s, p))
         == multiset(Select(s[..|s| - 1], p[..k] + p[k + 1..])) + multiset{s[|s| - 1]}
  {
    var m := |s| - 1;
    var q := p[..k] + p[k + 1..];
    assert |q| == |p| - 1;
    forall i | 0 <= i < |q| ensures q[i] == p[if i < k then i else i + 1] {
    }
    forall i | 0 <= i < |q| ensures q[i] < m {
      var j := if i < k then i else i + 1;
      assert q[i] == p[j] && j != k;
    }
    forall i, j | 0 <= i < j < |q| ensures q[i] != q[j] {
      var i', j' := if i < k then i else i + 1, if j < k then j else j + 1;
      assert q[i] == p[i'] && q[j] == p[j'] && i' < j';
    }
    var a := Select(s, p);
    var b := Select(s[..m], q);
    var c := b[..k] + [s[m]] + b[k..];
    assert |a| == |c|;
    forall i | 0 <= i < |a| ensures a[i] == c[i] {
      if i < k {
        assert c[i] == b[i] == s[q[i]];
      } else if i > k {
        assert c[i] == b[i - 1] == s[q[i - 1]];
      }
    }
    assert a == c;
    calc {
      multiset(a);
      multiset(b[..k]) + multiset{s[m]} + multiset(b[k..]);
      { assert b == b[..k] + b[k..]; }
      multiset(b) + multiset{s[m]};
    }
  }

  /** Selecting through distinct indices never yields an element more often
      than the sequence holds it. */
  lemma {:induction false} SelectWithin<T>(s: seq<T>, p: seq<nat>)
    requires InRange(p, |s|) && Distinct(p)
    ensures multiset(Select(s, p)) <= multiset(s)
    decreases |s|
  {
    if |p| > 0 {
      assert p[0] < |s|;
      var m := |s| - 1;
      assert s == s[..m] + [s[m]];
      if m in p {
        var k :| 0 <= k < |p| && p[k] == m;
        DropLast(s, p, k);
        SelectWithin(s[..m], p[..k] + p[k + 1..]);
      } else {
        assert InRange(p, m);
        assert Select(s, p) == Select(s[..m], p);
        SelectWithin(s[..m], p);
      }
    }
  }

  /** Reordering through a permutation keeps exactly the same elements. */
  lemma {:induction false} PermutationKeepsElements<T>(s: seq<T>, p: seq<nat>)
    requires IsPermutation(p, |s|)
    ensures multiset(Select(s, p)) == multiset(s)
    decreases |s|
  {
    if |s| > 0 {
      var m := |s| - 1;
      assert m in p;
      var k :| 0 <= k < |p| && p[k] == m;
      DropLast(s, p, k);
      var q := p[..k] + p[k + 1..];
      forall v | 0 <= v < m ensures v in q {
        assert v in p;
        var i :| 0 <= i < |p| && p[i] == v;
        assert i != k;
        assert q[if i < k then i else i - 1] == v;
      }
      PermutationKeepsElements(s[..m], q);
      assert s == s[..m] + [s[m]];
    }
  }

  /** Selecting distinct positions of a duplicate-free sequence gives a
      duplicate-free sequence. */
  lemma SelectDistinct<T>(s: seq<T>, p: seq<nat>)
    requires InRange(p, |s|) && Distinct(p) && Distinct(s)
    ensures Distinct(Select(s, p))
  {
  }

  /** An element of a duplicate-free sequence occurs at most once. */
  lemma {:induction false} DistinctOnce<T>(s: seq<T>, x: T)
    requires Distinct(s)
    ensures multiset(s)[x] <= 1
  {
    if s != [] {
      assert s == [s[0]] + s[1..];
      DistinctOnce(s[1..], x);
      if s[0] == x {
        assert x !in s[1..];
      }
    }
  }

  /** `xs.filter(y => y !== x)`: every element other than `x`, in order. */
  function Without<T(==,!new)>(xs: seq<T>, x: T): (r: seq<T>)
    ensures forall y :: y in r <==> y in xs && y != x
    ensures x !in xs ==> r == xs
  {
    if xs == [] then []
    else (if xs[0] == x then [] else [xs[0]]) + Without(xs[1..], x)
  }

  /** Filtering keeps a sequence free of duplicates. */
  lemma {:induction false} WithoutDistinct<T(!new)>(xs: seq<T>, x: T)
    requires Distinct(xs)
    ensures Distinct(Without(xs, x))
  {
    if xs != [] {
      WithoutDistinct(xs[1..], x);
      var rest := Without(xs[1..], x);
      if xs[0] != x {
        assert xs[0] !in xs[1..];
        assert xs[0] !in rest;
        var r := [xs[0]] + rest;
        forall i, j | 0 <= i < j < |r| ensures r[i] != r[j] {
          if i == 0 {
            assert r[j] == rest[j - 1];
          } else {
            assert r[i] == rest[i - 1] && r[j] == rest[j - 1];
          }
        }
      }
    }
  }

  /** Filtering an index list keeps it within range. */
  lemma {:induction false} WithoutInRange(p: seq<nat>, x: nat, n: nat)
    requires InRange(p, n)
    ensures InRange(Without(p, x), n)
  {
    if p != [] {
      WithoutInRange(p[1..], x, n);
    }
  }
}
