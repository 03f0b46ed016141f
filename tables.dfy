/** Tables as sequences of rows, and the three query shapes the views use on them:
    `.filter(...)`, `.filter(...).count()` and `.filter(...).first()`. */
module Tables {
  import opened Common

  /** `queryset.filter(p)`: the rows satisfying `p`, in table order. */
  function Filter<T(==,!new)>(s: seq<T>, p: T -> bool): (r: seq<T>)
    ensures |r| <= |s|
    ensures forall x :: x in r <==> x in s && p(x)
    ensures forall i :: 0 <= i < |r| ==> p(r[i])
    ensures multiset(r) <= multiset(s)
  {
    if s == [] then []
    else
      assert s == [s[0]] + s[1..];
      (if p(s[0]) then [s[0]] else []) + Filter(s[1..], p)
  }

  lemma {:induction false} FilterAppend<T(!new)>(s: seq<T>, t: seq<T>, p: T -> bool)
    ensures Filter(s + t, p) == Filter(s, p) + Filter(t, p)
  {
    if s == [] {
      assert s + t == t;
    } else {
      assert (s + t)[1..] == s[1..] + t;
      FilterAppend(s[1..], t, p);
    }
  }

  /** Filtering keeps every row exactly when every row satisfies the predicate. */
  lemma {:induction false} FilterKeepsAll<T(!new)>(s: seq<T>, p: T -> bool)
    ensures (forall i :: 0 <= i < |s| ==> p(s[i])) <==> Filter(s, p) == s
  {
    if s != [] {
      FilterKeepsAll(s[1..], p);
      if Filter(s, p) == s {
        assert |Filter(s[1..], p)| <= |s| - 1;
        assert p(s[0]);
        assert Filter(s[1..], p) == s[1..];
      }
    }
  }

  /** `.filter(p).count()`. */
  function Count<T(==,!new)>(s: seq<T>, p: T -> bool): (n: nat)
    ensures n <= |s|
    ensures n == 0 <==> forall i :: 0 <= i < |s| ==> !p(s[i])
  {
    var r := Filter(s, p);
    assert r == [] ==> forall i :: 0 <= i < |s| ==> !p(s[i]) by {
      if r == [] {
        forall i | 0 <= i < |s| ensures !p(s[i]) {
          assert s[i] in s;
        }
      }
    }
    assert r != [] ==> r[0] in s && p(r[0]);
    |r|
  }

  lemma CountAppend<T(!new)>(s: seq<T>, x: T, p: T -> bool)
    ensures Count(s + [x], p) == Count(s, p) + (if p(x) then 1 else 0)
  {
    FilterAppend(s, [x], p);
  }

  /** `.filter(p).first()`: the position of the first row satisfying `p`. */
  function FindFirst<T>(s: seq<T>, p: T -> bool): (r: Option<nat>)
    ensures r.Some? ==> r.value < |s| && p(s[r.value]) && forall k :: 0 <= k < r.value ==> !p(s[k])
    ensures r.None? ==> forall k :: 0 <= k < |s| ==> !p(s[k])
  {
    if s == [] then None
    else if p(s[0]) then Some(0)
    else match FindFirst(s[1..], p)
      case None => None
      case Some(k) => Some(k + 1)
  }

  /** `row.delete()`: the table without the row at position `k`, others in order. */
  function RemoveAt<T>(s: seq<T>, k: nat): (r: seq<T>)
    requires k < |s|
    ensures |r| == |s| - 1
    ensures forall i :: 0 <= i < k ==> r[i] == s[i]
    ensures forall i :: k <= i < |r| ==> r[i] == s[i + 1]
  {
    s[..k] + s[k + 1..]
  }

  /** No two rows carry the same key. */
  ghost predicate UniqueKeys<T, K>(s: seq<T>, key: T -> K) {
    forall i, j :: 0 <= i < |s| && 0 <= j < |s| && key(s[i]) == key(s[j]) ==> i == j
  }

  /** A uniqueness constraint survives any `.filter(...)`. */
  lemma {:induction false} FilterKeepsUniqueKeys<T(!new), K>(s: seq<T>, key: T -> K, p: T -> bool)
    requires UniqueKeys(s, key)
    ensures UniqueKeys(Filter(s, p), key)
  {
    if s != [] {
      var t := s[1..];
      assert UniqueKeys(t, key) by {
        forall i, j | 0 <= i < |t| && 0 <= j < |t| && key(t[i]) == key(t[j]) ensures i == j {
          assert t[i] == s[i + 1] && t[j] == s[j + 1];
        }
      }
      FilterKeepsUniqueKeys(t, key, p);
      var rest := Filter(t, p);
      assert Filter(s, p) == (if p(s[0]) then [s[0]] else []) + rest;
      if p(s[0]) {
        var r := [s[0]] + rest;
        forall i | 0 <= i < |rest| ensures key(rest[i]) != key(s[0]) {
          assert rest[i] in t;
          var k :| 0 <= k < |t| && t[k] == rest[i];
          assert s[k + 1] == rest[i];
        }
        forall i, j | 0 <= i < |r| && 0 <= j < |r| && key(r[i]) == key(r[j]) ensures i == j {
          assert i > 0 ==> r[i] == rest[i - 1];
          assert j > 0 ==> r[j] == rest[j - 1];
        }
      }
    }
  }

  lemma RemoveAtKeepsUniqueKeys<T, K>(s: seq<T>, key: T -> K, k: nat)
    requires UniqueKeys(s, key) && k < |s|
    ensures UniqueKeys(RemoveAt(s, k), key)
  {
    var r := RemoveAt(s, k);
    forall i, j | 0 <= i < |r| && 0 <= j < |r| && key(r[i]) == key(r[j]) ensures i == j {
      assert r[i] == s[if i < k then i else i + 1] && r[j] == s[if j < k then j else j + 1];
    }
  }

  lemma AppendKeepsUniqueKeys<T, K>(s: seq<T>, key: T -> K, x: T)
    requires UniqueKeys(s, key) && forall i :: 0 <= i < |s| ==> key(s[i]) != key(x)
    ensures UniqueKeys(s + [x], key)
  {
    var r := s + [x];
    assert forall i :: 0 <= i < |s| ==> r[i] == s[i];
  }

  lemma UpdateKeepsUniqueKeys<T, K>(s: seq<T>, key: T -> K, k: nat, x: T)
    requires UniqueKeys(s, key) && k < |s| && forall i :: 0 <= i < |s| && i != k ==> key(s[i]) != key(x)
    ensures UniqueKeys(s[k := x], key)
  {
  }

  lemma RemoveAtMembers<T>(s: seq<T>, k: nat)
    requires k < |s|
    ensures forall x :: x in RemoveAt(s, k) ==> x in s
  {
    var r := RemoveAt(s, k);
    forall x | x in r ensures x in s {
      var i :| 0 <= i < |r| && r[i] == x;
      assert s[if i < k then i else i + 1] == x;
    }
  }

  /** Two sequences with the same elements, counted, have the same members. */
  lemma SameMembers<T>(a: seq<T>, b: seq<T>)
    requires multiset(a) == multiset(b)
    ensures forall x :: x in a <==> x in b
  {
    forall x ensures x in a <==> x in b {
      assert x in a <==> x in multiset(a);
      assert x in b <==> x in multiset(b);
    }
  }
}
