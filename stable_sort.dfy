/** The stable sort that JavaScript's Array.prototype.sort performs when it is
    given a numeric comparator `(a, b) => key(a) - key(b)`: elements come out in
    ascending key order and elements with equal keys keep their input order.
    It is modelled as insertion sort, a stable sort, and its three defining
    properties are proved: the output is sorted, it is a permutation of the
    input, and equal keys keep their relative order. */
module StableSort {

  /** The keys of `s` never decrease from left to right. */
  ghost predicate SortedBy<T>(s: seq<T>, key: T -> real)
  {
    forall i, j :: 0 <= i < j < |s| ==> key(s[i]) <= key(s[j])
  }

  /** No element occurs twice in `s`. */
  ghost predicate NoDuplicates<T>(s: seq<T>)
  {
    forall i, j :: 0 <= i < j < |s| ==> s[i] != s[j]
  }

  /** The position of the first occurrence of `x` in `s`. */
  function IndexOf<T(==)>(s: seq<T>, x: T): (k: nat)
    requires x in s
    ensures k < |s| && s[k] == x
    ensures forall m :: 0 <= m < k ==> s[m] != x
  {
    if s[0] == x then 0 else 1 + IndexOf(s[1..], x)
  }

  /** Inserts `x` in front of the first element whose key is not smaller. */
  function Insert<T>(x: T, s: seq<T>, key: T -> real): seq<T>
  {
    if |s| == 0 || key(x) <= key(s[0]) then [x] + s
    else [s[0]] + Insert(x, s[1..], key)
  }

  /** Stable ascending sort of `s` by `key`. */
  function SortBy<T>(s: seq<T>, key: T -> real): seq<T>
  {
    if |s| == 0 then [] else Insert(s[0], SortBy(s[1..], key), key)
  }

  /** Where `Insert` puts `x`: after every element whose key is smaller. */
  function InsertPosition<T>(x: T, s: seq<T>, key: T -> real): (p: nat)
    ensures p <= |s|
    ensures forall k :: 0 <= k < p ==> key(s[k]) < key(x)
    ensures p < |s| ==> key(x) <= key(s[p])
  {
    if |s| == 0 || key(x) <= key(s[0]) then 0
    else 1 + InsertPosition(x, s[1..], key)
  }

  lemma {:induction false} InsertSplits<T>(x: T, s: seq<T>, key: T -> real)
    ensures Insert(x, s, key) == s[..InsertPosition(x, s, key)] + [x] + s[InsertPosition(x, s, key)..]
  {
    if |s| == 0 || key(x) <= key(s[0]) {
    } else {
      InsertSplits(x, s[1..], key);
      var p := InsertPosition(x, s[1..], key);
      assert s[1..][..p] == s[1..p + 1];
      assert s[1..][p..] == s[p + 1..];
      assert [s[0]] + s[1..p + 1] == s[..p + 1];
    }
  }

  lemma InsertSorted<T>(x: T, s: seq<T>, key: T -> real)
    requires SortedBy(s, key)
    ensures SortedBy(Insert(x, s, key), key)
    ensures multiset(Insert(x, s, key)) == multiset(s) + multiset{x}
  {
    InsertSplits(x, s, key);
    SplitSorted(x, s, key, InsertPosition(x, s, key));
    InsertPermutes(x, s, key);
  }

  lemma InsertPermutes<T>(x: T, s: seq<T>, key: T -> real)
    ensures multiset(Insert(x, s, key)) == multiset(s) + multiset{x}
  {
    InsertSplits(x, s, key);
    var p := InsertPosition(x, s, key);
    assert s == s[..p] + s[p..];
    assert multiset(s[..p] + [x] + s[p..]) == multiset(s[..p]) + multiset{x} + multiset(s[p..]);
  }

  /** Putting `x` between the elements of smaller key and the rest keeps a
      sorted sequence sorted. */
  lemma SplitSorted<T>(x: T, s: seq<T>, key: T -> real, p: nat)
    requires p <= |s| && SortedBy(s, key)
    requires forall k :: 0 <= k < p ==> key(s[k]) < key(x)
    requires p < |s| ==> key(x) <= key(s[p])
    ensures SortedBy(s[..p] + [x] + s[p..], key)
  {
    var r := s[..p] + [x] + s[p..];
    assert |r| == |s| + 1;
    assert forall k :: 0 <= k < p ==> r[k] == s[k];
    assert r[p] == x;
    assert forall k :: p < k < |r| ==> r[k] == s[k - 1];
    forall i, j | 0 <= i < j < |r| ensures key(r[i]) <= key(r[j]) {
      if j < p {
        assert key(s[i]) <= key(s[j]);
      } else if j == p {
        assert key(s[i]) < key(x);
      } else if i < p {
        assert key(s[i]) < key(x) <= key(s[p]) <= key(s[j - 1]);
      } else if i == p {
        assert key(x) <= key(s[p]) <= key(s[j - 1]);
      } else {
        assert key(s[i - 1]) <= key(s[j - 1]);
      }
    }
  }

  /** `SortBy` yields an ascending permutation of its input. */
  lemma {:induction false} SortByIsSortedPermutation<T>(s: seq<T>, key: T -> real)
    ensures SortedBy(SortBy(s, key), key)
    ensures multiset(SortBy(s, key)) == multiset(s)
    ensures |SortBy(s, key)| == |s|
  {
    if |s| > 0 {
      SortByIsSortedPermutation(s[1..], key);
      InsertSorted(s[0], SortBy(s[1..], key), key);
      assert s == [s[0]] + s[1..];
    }
    assert |multiset(SortBy(s, key))| == |SortBy(s, key)|;
  }

  /** Every element of the result comes from the input, and back. */
  lemma SortByMembership<T>(s: seq<T>, key: T -> real)
    ensures forall x :: x in SortBy(s, key) <==> x in s
  {
    SortByIsSortedPermutation(s, key);
    forall x ensures x in SortBy(s, key) <==> x in s {
      assert x in SortBy(s, key) <==> x in multiset(SortBy(s, key));
      assert x in s <==> x in multiset(s);
    }
  }

  /** Element-wise reading of `InsertSplits`. */
  lemma InsertAt<T>(x: T, s: seq<T>, key: T -> real)
    ensures |Insert(x, s, key)| == |s| + 1
    ensures forall k :: 0 <= k < InsertPosition(x, s, key) ==> Insert(x, s, key)[k] == s[k]
    ensures Insert(x, s, key)[InsertPosition(x, s, key)] == x
    ensures forall k :: InsertPosition(x, s, key) < k <= |s| ==> Insert(x, s, key)[k] == s[k - 1]
  {
    InsertSplits(x, s, key);
  }

  /** Facts about the tail of a sequence without duplicates. */
  lemma TailOfNoDuplicates<T>(s: seq<T>)
    requires |s| > 0 && NoDuplicates(s)
    ensures s[0] !in s[1..]
    ensures NoDuplicates(s[1..])
    ensures forall x :: x in s[1..] ==> IndexOf(s, x) == 1 + IndexOf(s[1..], x)
  {
    forall m | 0 <= m < |s[1..]| ensures s[1..][m] != s[0] { assert s[1..][m] == s[m + 1]; }
    forall a, b | 0 <= a < b < |s[1..]| ensures s[1..][a] != s[1..][b] {
      assert s[1..][a] == s[a + 1] && s[1..][b] == s[b + 1];
    }
  }

  /** Stability: two elements with equal keys appear in the output in the order
      in which they appear in the input. */
  lemma {:induction false} SortByIsStable<T>(s: seq<T>, key: T -> real, i: nat, j: nat)
    requires NoDuplicates(s)
    requires i < j < |SortBy(s, key)|
    requires key(SortBy(s, key)[i]) == key(SortBy(s, key)[j])
    ensures SortBy(s, key)[i] in s && SortBy(s, key)[j] in s
    ensures IndexOf(s, SortBy(s, key)[i]) < IndexOf(s, SortBy(s, key)[j])
  {
    var rest := SortBy(s[1..], key);
    var x := s[0];
    var r := SortBy(s, key);
    assert r == Insert(x, rest, key);
    InsertAt(x, rest, key);
    SortByMembership(s[1..], key);
    SortByMembership(s, key);
    TailOfNoDuplicates(s);
    var p := InsertPosition(x, rest, key);
    if i == p {
      assert r[j] == rest[j - 1];
      assert r[j] in s[1..];
    } else if j == p {
      assert false;
    } else {
      var i' := if i < p then i else i - 1;
      var j' := if j < p then j else j - 1;
      assert r[i] == rest[i'] && r[j] == rest[j'];
      SortByIsStable(s[1..], key, i', j');
    }
  }

  /** The head of the sorted output is the EARLIEST input element of least key:
      it has the least key, and every input element before it has a strictly
      larger key. */
  lemma SortByHeadIsFirstMinimum<T>(s: seq<T>, key: T -> real)
    requires |s| > 0
    requires NoDuplicates(s)
    ensures |SortBy(s, key)| == |s|
    ensures SortBy(s, key)[0] in s
    ensures forall k :: 0 <= k < |s| ==> key(SortBy(s, key)[0]) <= key(s[k])
    ensures forall k :: 0 <= k < IndexOf(s, SortBy(s, key)[0]) ==> key(SortBy(s, key)[0]) < key(s[k])
  {
    var r := SortBy(s, key);
    SortByIsSortedPermutation(s, key);
    SortByMembership(s, key);
    forall k | 0 <= k < |s| ensures key(r[0]) <= key(s[k]) {
      assert s[k] in r;
      var m := IndexOf(r, s[k]);
      assert m == 0 || key(r[0]) <= key(r[m]);
    }
    forall k | 0 <= k < IndexOf(s, r[0]) ensures key(r[0]) < key(s[k]) {
      if key(s[k]) <= key(r[0]) {
        assert s[k] in r;
        var m := IndexOf(r, s[k]);
        assert m != 0;
        assert key(r[0]) == key(r[m]);
        assert IndexOf(s, s[k]) <= k;
        SortByIsStable(s, key, 0, m);
        assert false;
      }
    }
  }
}
