/**
 A JavaScript `Set` as the sector selector uses it: a collection without
 duplicates that remembers insertion order, so that `Array.from` lists the
 elements in the order they were first added. It is represented by a
 duplicate-free sequence.
 */
module OrderedSet {

  /** No element occurs twice. */
  predicate NoDup<T(==,!new)>(s: seq<T>) {
    forall i, j :: 0 <= i < j < |s| ==> s[i] != s[j]
  }

  /** In `v`, the first occurrence of `a` comes before every occurrence of `b`. */
  predicate FirstSeenBefore<T(==,!new)>(v: seq<T>, a: T, b: T) {
    forall k :: 0 <= k < |v| && v[k] == b ==> a in v[..k]
  }

  /** `set.add(x)`: a new element goes to the end; an existing one keeps its place. */
  function Add<T(==,!new)>(s: seq<T>, x: T): (r: seq<T>)
    ensures NoDup(s) ==> NoDup(r)
    ensures forall y :: y in r <==> y in s || y == x
    ensures s <= r && |r| <= |s| + 1
  {
    if x in s then s else s + [x]
  }

  /** `set.delete(x)`: the other elements keep their relative order. */
  function Delete<T(==,!new)>(s: seq<T>, x: T): (r: seq<T>)
    ensures forall y :: y in r <==> y in s && y != x
    ensures x !in s ==> r == s
    ensures |r| <= |s|
  {
    if |s| == 0 then []
    else if s[0] == x then Delete(s[1..], x)
    else [s[0]] + Delete(s[1..], x)
  }

  /** `new Set(v)`: every element of `v` once, in order of first occurrence. */
  function FromArray<T(==,!new)>(v: seq<T>): (r: seq<T>)
    ensures NoDup(r)
    ensures forall y :: y in r <==> y in v
    ensures |r| <= |v|
  {
    if |v| == 0 then [] else Add(FromArray(v[..|v| - 1]), v[|v| - 1])
  }

  /** Deleting from a duplicate-free sequence keeps it duplicate-free. */
  lemma {:induction false} DeleteKeepsNoDup<T(!new)>(s: seq<T>, x: T)
    requires NoDup(s)
    ensures NoDup(Delete(s, x))
  {
    if |s| > 0 {
      DeleteKeepsNoDup(s[1..], x);
      if s[0] != x {
        assert s[0] !in s[1..] by {
          forall k | 0 <= k < |s[1..]| ensures s[1..][k] != s[0] {
            assert s[1..][k] == s[k + 1];
          }
        }
        var rest := Delete(s[1..], x);
        forall i, j | 0 <= i < j < |[s[0]] + rest| ensures ([s[0]] + rest)[i] != ([s[0]] + rest)[j] {
          if i == 0 {
            assert ([s[0]] + rest)[j] == rest[j - 1];
          } else {
            assert ([s[0]] + rest)[i] == rest[i - 1];
            assert ([s[0]] + rest)[j] == rest[j - 1];
          }
        }
      }
    }
  }

  /** Deleting the element at position `k` of a duplicate-free sequence cuts out exactly that position. */
  lemma {:induction false} DeleteCutsOut<T(!new)>(s: seq<T>, k: int)
    requires NoDup(s) && 0 <= k < |s|
    ensures Delete(s, s[k]) == s[..k] + s[k + 1..]
  {
    if k == 0 {
      assert s[0] !in s[1..] by {
        forall m | 0 <= m < |s[1..]| ensures s[1..][m] != s[0] {
          assert s[1..][m] == s[m + 1];
        }
      }
      assert Delete(s[1..], s[0]) == s[1..];
    } else {
      var t := s[1..];
      assert NoDup(t) by {
        forall i, j | 0 <= i < j < |t| ensures t[i] != t[j] {
          assert t[i] == s[i + 1] && t[j] == s[j + 1];
        }
      }
      assert t[k - 1] == s[k];
      DeleteCutsOut(t, k - 1);
      assert s[0] != s[k];
      calc {
        Delete(s, s[k]);
        [s[0]] + Delete(t, s[k]);
        [s[0]] + (t[..k - 1] + t[k..]);
        { assert [s[0]] + t[..k - 1] == s[..k]; assert t[k..] == s[k + 1..]; }
        s[..k] + s[k + 1..];
      }
    }
  }

  /** An element of `d[..k] + d[k + 1..]` sits at the same place in `d`, or one further on past `k`. */
  lemma CutPosition<T(!new)>(d: seq<T>, k: int, i: int)
    requires 0 <= k < |d| && 0 <= i < |d| - 1
    ensures (d[..k] + d[k + 1..])[i] == d[if i < k then i else i + 1]
  {
  }

  /** Deleting a present element and appending it again gives back the Set exactly when it was already last. */
  lemma DeleteThenAppendIffLast<T(!new)>(s: seq<T>, x: T)
    requires NoDup(s) && x in s
    ensures Delete(s, x) + [x] == s <==> s[|s| - 1] == x
  {
    var k := |s| - 1;
    var moved := Delete(s, x) + [x];
    assert moved[|moved| - 1] == x;
    if s[k] == x {
      DeleteCutsOut(s, k);
      assert s[..k] + s[k + 1..] == s[..k];
    }
  }

  /** Deleting an element that was just appended to a sequence without it gives back the sequence. */
  lemma {:induction false} DeleteUndoesAppend<T(!new)>(s: seq<T>, x: T)
    requires x !in s
    ensures Delete(s + [x], x) == s
  {
    if |s| == 0 {
      assert Delete([x], x) == Delete([x][1..], x);
      assert [x][1..] == [];
    } else {
      assert (s + [x])[1..] == s[1..] + [x];
      DeleteUndoesAppend(s[1..], x);
      assert (s + [x])[0] == s[0];
      assert [s[0]] + s[1..] == s;
    }
  }

  /** `new Set(v)` is the identity exactly on arrays without duplicates. */
  lemma {:induction false} FromArrayIdentityIffNoDup<T(!new)>(v: seq<T>)
    ensures FromArray(v) == v <==> NoDup(v)
  {
    if NoDup(v) && |v| > 0 {
      var n := |v| - 1;
      var p := v[..n];
      assert NoDup(p) by {
        forall i, j | 0 <= i < j < |p| ensures p[i] != p[j] {
          assert p[i] == v[i] && p[j] == v[j];
        }
      }
      FromArrayIdentityIffNoDup(p);
      assert v[n] !in p by {
        forall k | 0 <= k < |p| ensures p[k] != v[n] {
          assert p[k] == v[k];
        }
      }
      assert p + [v[n]] == v;
    }
  }

  /** Copying a Set (`new Set(set)`) changes nothing. */
  lemma FromArrayIdempotent<T(!new)>(v: seq<T>)
    ensures FromArray(FromArray(v)) == FromArray(v)
  {
    FromArrayIdentityIffNoDup(FromArray(v));
  }

  /** `FirstSeenBefore` in a prefix carries over to the whole array when `b` does not occur later. */
  lemma ExtendFirstSeenBefore<T(!new)>(v: seq<T>, a: T, b: T)
    requires |v| > 0 && b in v[..|v| - 1] && a in v[..|v| - 1]
    requires FirstSeenBefore(v[..|v| - 1], a, b)
    ensures FirstSeenBefore(v, a, b)
  {
    var p := v[..|v| - 1];
    forall k | 0 <= k < |v| && v[k] == b ensures a in v[..k] {
      if k < |p| {
        assert v[k] == p[k];
        assert v[..k] == p[..k];
      } else {
        assert v[..k] == p;
      }
    }
  }

  /** `new Set(v)` lists its elements in the order of their first occurrence in `v`. */
  lemma {:induction false} FromArrayFollowsFirstOccurrence<T(!new)>(v: seq<T>, i: int, j: int)
    requires 0 <= i < j < |FromArray(v)|
    ensures FirstSeenBefore(v, FromArray(v)[i], FromArray(v)[j])
  {
    var n := |v| - 1;
    var p := v[..n];
    var rp := FromArray(p);
    var r := FromArray(v);
    assert r == Add(rp, v[n]);
    assert r[i] in rp && r[i] in p by {
      assert r[i] == rp[i];
    }
    if j < |rp| {
      assert r[j] == rp[j];
      FromArrayFollowsFirstOccurrence(p, i, j);
      ExtendFirstSeenBefore(v, r[i], r[j]);
    } else {
      assert v[n] !in rp && r[j] == v[n];
      assert v[n] !in p;
      forall k | 0 <= k < n ensures v[k] != v[n] {
        assert v[k] == p[k];
      }
      forall k | 0 <= k < |v| && v[k] == r[j] ensures r[i] in v[..k] {
        assert k == n;
        assert v[..k] == p;
      }
    }
  }

  /** Deleting from `new Set(v)` keeps the remaining elements in first-occurrence order. */
  lemma DeleteFollowsFirstOccurrence<T(!new)>(v: seq<T>, x: T, i: int, j: int)
    requires 0 <= i < j < |Delete(FromArray(v), x)|
    ensures FirstSeenBefore(v, Delete(FromArray(v), x)[i], Delete(FromArray(v), x)[j])
  {
    var d := FromArray(v);
    if x in d {
      var k :| 0 <= k < |d| && d[k] == x;
      DeleteCutsOut(d, k);
      CutPosition(d, k, i);
      CutPosition(d, k, j);
      FromArrayFollowsFirstOccurrence(v, if i < k then i else i + 1, if j < k then j else j + 1);
    } else {
      FromArrayFollowsFirstOccurrence(v, i, j);
    }
  }
}
