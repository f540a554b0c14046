/** Sequence helpers shared by the models: distinctness, removal and first-occurrence
    deduplication (the insertion order of a JavaScript `Set`). */
module Seqs {

  ghost predicate Distinct<T>(s: seq<T>)
  {
    forall i, j | 0 <= i < j < |s| :: s[i] != s[j]
  }

  lemma DistinctAt<T>(s: seq<T>, i: nat, j: nat)
    requires Distinct(s) && i < j < |s|
    ensures s[i] != s[j]
  {
  }

  predicate Increasing(s: seq<int>)
  {
    forall i, j | 0 <= i < j < |s| :: s[i] < s[j]
  }

  /** `s` with every occurrence of `x` removed, the rest in order
      (`Set.prototype.delete`, `Map.prototype.delete` on the key order). */
  function Without<T(==)>(s: seq<T>, x: T): (r: seq<T>)
    ensures forall y | y in r :: y in s && y != x
    ensures forall y | y in s && y != x :: y in r
    ensures x !in s ==> r == s
    ensures Distinct(s) ==> Distinct(r)
    ensures Distinct(s) ==> |r| == |s| - (if x in s then 1 else 0)
  {
    if s == [] then []
    else if s[0] == x then Without(s[1..], x)
    else
      var t := Without(s[1..], x);
      assert Distinct(s) ==> Distinct(s[1..]) && s[0] !in s[1..] by {
        if Distinct(s) {
          forall k | 0 <= k < |s[1..]| ensures s[1..][k] != s[0] { assert s[1..][k] == s[k + 1]; }
        }
      }
      [s[0]] + t
  }

  /** Removing an element from a strictly increasing sequence keeps it strictly increasing. */
  lemma {:induction false} WithoutIncreasing(s: seq<int>, x: int)
    requires Increasing(s)
    ensures Increasing(Without(s, x))
  {
    if s != [] {
      assert Increasing(s[1..]);
      WithoutIncreasing(s[1..], x);
      var t := Without(s[1..], x);
      forall y | y in t ensures s[0] < y {
        IncreasingTail(s, y);
        IncreasingHead(s, y);
      }
      if s[0] != x {
        IncreasingCons(s[0], t);
      }
    }
  }

  /** A head below every element of a strictly increasing tail extends it. */
  lemma IncreasingCons(h: int, t: seq<int>)
    requires Increasing(t) && forall y | y in t :: h < y
    ensures Increasing([h] + t)
  {
    var r := [h] + t;
    forall i, j | 0 <= i < j < |r| ensures r[i] < r[j] {
      assert r[j] == t[j - 1] && t[j - 1] in t;
      if i > 0 { assert r[i] == t[i - 1]; }
    }
  }

  /** The tail of a strictly increasing sequence holds every element but the head. */
  lemma IncreasingTail(a: seq<int>, x: int)
    requires Increasing(a) && a != []
    ensures x in a[1..] <==> x in a && x != a[0]
  {
    if x in a && x != a[0] {
      var m :| 0 <= m < |a| && a[m] == x;
      assert a[1..][m - 1] == x;
    }
    if x in a[1..] {
      var k :| 0 <= k < |a[1..]| && a[1..][k] == x;
      assert a[k + 1] == x && a[0] < a[k + 1];
    }
  }

  /** The head of a non-empty strictly increasing sequence is its least element. */
  lemma IncreasingHead(a: seq<int>, x: int)
    requires Increasing(a) && x in a
    ensures a[0] <= x
  {
    var m :| 0 <= m < |a| && a[m] == x;
    assert m == 0 || a[0] < a[m];
  }

  /** The elements of `s` in order of first occurrence, each once: what
      repeated `Set.prototype.add` calls leave behind. */
  function Dedup<T(==)>(s: seq<T>): (r: seq<T>)
    ensures Distinct(r)
    ensures forall x | x in r :: x in s
    ensures forall x | x in s :: x in r
    ensures |r| <= |s|
  {
    if s == [] then []
    else
      var d := Dedup(s[..|s| - 1]);
      var last := s[|s| - 1];
      assert forall x | x in s :: x in s[..|s| - 1] || x == last;
      if last in d then d else d + [last]
  }

  /** `s` followed by the first `i` elements of `t`, appended one at a time. */
  function AppendPrefix<T>(s: seq<T>, t: seq<T>, i: nat): seq<T>
    requires i <= |t|
  {
    if i == 0 then s else AppendPrefix(s, t, i - 1) + [t[i - 1]]
  }

  lemma {:induction false} AppendPrefixIsConcat<T>(s: seq<T>, t: seq<T>, i: nat)
    requires i <= |t|
    ensures AppendPrefix(s, t, i) == s + t[..i]
  {
    if i > 0 {
      AppendPrefixIsConcat(s, t, i - 1);
      assert t[..i] == t[..i - 1] + [t[i - 1]];
    }
  }

  lemma ConcatAssoc<T>(a: seq<T>, b: seq<T>, c: seq<T>)
    ensures a + (b + c) == (a + b) + c
  {
  }

  lemma MapUnionAssoc<K, V>(a: map<K, V>, b: map<K, V>, c: map<K, V>)
    ensures (a + b) + c == a + (b + c)
  {
    var lhs, rhs := (a + b) + c, a + (b + c);
    assert lhs.Keys == rhs.Keys;
    forall k | k in lhs.Keys ensures lhs[k] == rhs[k] {
    }
  }
}
