/** The array operations the store is built from, for the one predicate shape
    it uses: compare a string key of each element (an id or a foreign key)
    with a given id. `FindIndex` is `findIndex(x => key(x) === id)`,
    `Matching` is `filter(x => key(x) === id)` and `Without` is
    `filter(x => key(x) !== id)`. */
module Sequences {
  import opened Records

  /** `i` is the first position whose key is `id`. */
  ghost predicate IsFirst<T>(s: seq<T>, key: T -> string, id: string, i: int)
  {
    0 <= i < |s| && key(s[i]) == id && forall j :: 0 <= j < i ==> key(s[j]) != id
  }

  /** No element has key `id`. */
  ghost predicate Absent<T>(s: seq<T>, key: T -> string, id: string)
  {
    forall j :: 0 <= j < |s| ==> key(s[j]) != id
  }

  /** No two elements share a key. */
  ghost predicate UniqueKeys<T>(s: seq<T>, key: T -> string)
  {
    forall i, j :: 0 <= i < j < |s| ==> key(s[i]) != key(s[j])
  }

  /** `findIndex`: the first position with key `id`, `None` for the source's -1. */
  function FindIndex<T>(s: seq<T>, key: T -> string, id: string): (r: Option<nat>)
    ensures r.Some? ==> IsFirst(s, key, id, r.value)
    ensures r.None? ==> Absent(s, key, id)
  {
    if |s| == 0 then None
    else if key(s[0]) == id then Some(0)
    else match FindIndex(s[1..], key, id)
      case None => None
      case Some(i) => Some(i + 1)
  }

  /** `find` followed by `obj ? name(obj) : sentinel`: the name of the first
      element with key `id`, or the sentinel when the key dangles. */
  function LookupName<T>(s: seq<T>, key: T -> string, name: T -> string, id: string, sentinel: string): (r: string)
    ensures Absent(s, key, id) ==> r == sentinel
    ensures forall i :: IsFirst(s, key, id, i) ==> r == name(s[i])
  {
    match FindIndex(s, key, id)
    case Some(i) => name(s[i])
    case None => sentinel
  }

  /** Exactly one of the two cases of `LookupName` applies. */
  lemma FirstOrAbsent<T>(s: seq<T>, key: T -> string, id: string)
    ensures Absent(s, key, id) <==> !exists i :: IsFirst(s, key, id, i)
  {
    var r := FindIndex(s, key, id);
    if r.Some? {
      assert IsFirst(s, key, id, r.value);
    }
  }

  /** `filter(x => key(x) !== id)`. */
  function Without<T>(s: seq<T>, key: T -> string, id: string): (r: seq<T>)
    ensures |r| <= |s|
    ensures forall i :: 0 <= i < |r| ==> r[i] in s && key(r[i]) != id
    ensures forall i :: 0 <= i < |s| && key(s[i]) != id ==> s[i] in r
  {
    if |s| == 0 then []
    else if key(s[0]) == id then Without(s[1..], key, id)
    else [s[0]] + Without(s[1..], key, id)
  }

  /** `filter(x => key(x) === id)`. */
  function Matching<T>(s: seq<T>, key: T -> string, id: string): (r: seq<T>)
    ensures |r| <= |s|
    ensures forall i :: 0 <= i < |r| ==> r[i] in s && key(r[i]) == id
    ensures forall i :: 0 <= i < |s| && key(s[i]) == id ==> s[i] in r
  {
    if |s| == 0 then []
    else if key(s[0]) == id then [s[0]] + Matching(s[1..], key, id)
    else Matching(s[1..], key, id)
  }

  /** `Without` filters element by element: on a concatenation it is the
      concatenation of the parts, so it keeps the relative order of what
      it keeps. */
  lemma {:induction false} WithoutAppend<T>(a: seq<T>, b: seq<T>, key: T -> string, id: string)
    ensures Without(a + b, key, id) == Without(a, key, id) + Without(b, key, id)
  {
    if |a| == 0 {
      assert a + b == b;
    } else {
      assert (a + b)[1..] == a[1..] + b;
      WithoutAppend(a[1..], b, key, id);
    }
  }

  /** The same for `Matching`. */
  lemma {:induction false} MatchingAppend<T>(a: seq<T>, b: seq<T>, key: T -> string, id: string)
    ensures Matching(a + b, key, id) == Matching(a, key, id) + Matching(b, key, id)
  {
    if |a| == 0 {
      assert a + b == b;
    } else {
      assert (a + b)[1..] == a[1..] + b;
      MatchingAppend(a[1..], b, key, id);
    }
  }

  /** Removing an id that no element carries changes nothing. */
  lemma {:induction false} WithoutAbsent<T>(s: seq<T>, key: T -> string, id: string)
    requires Absent(s, key, id)
    ensures Without(s, key, id) == s
  {
    if |s| > 0 {
      assert key(s[0]) != id;
      assert Absent(s[1..], key, id) by {
        forall j | 0 <= j < |s[1..]| ensures key(s[1..][j]) != id {
          assert s[1..][j] == s[j + 1];
        }
      }
      WithoutAbsent(s[1..], key, id);
      assert [s[0]] + s[1..] == s;
    }
  }

  /** Removing the same id twice is removing it once. */
  lemma WithoutIdempotent<T>(s: seq<T>, key: T -> string, id: string)
    ensures Without(Without(s, key, id), key, id) == Without(s, key, id)
  {
    var r := Without(s, key, id);
    assert Absent(r, key, id) by {
      forall j | 0 <= j < |r| ensures key(r[j]) != id {
        assert r[j] in r;
      }
    }
    WithoutAbsent(r, key, id);
  }

  /** `Matching` and `Without` split the sequence: every element goes to
      exactly one side, with its multiplicity. */
  lemma {:induction false} MatchingWithoutPartition<T>(s: seq<T>, key: T -> string, id: string)
    ensures multiset(Matching(s, key, id)) + multiset(Without(s, key, id)) == multiset(s)
    ensures |Matching(s, key, id)| + |Without(s, key, id)| == |s|
  {
    if |s| > 0 {
      MatchingWithoutPartition(s[1..], key, id);
      assert [s[0]] + s[1..] == s;
      assert multiset(s) == multiset([s[0]]) + multiset(s[1..]);
    }
  }

  /** Removing the elements with key `id` does not change which elements
      have another key `other`, nor their order. */
  lemma {:induction false} MatchingWithoutOther<T>(s: seq<T>, key: T -> string, id: string, other: string)
    requires id != other
    ensures Matching(Without(s, key, id), key, other) == Matching(s, key, other)
  {
    if |s| > 0 {
      MatchingWithoutOther(s[1..], key, id, other);
      if key(s[0]) != id {
        var w := Without(s[1..], key, id);
        assert ([s[0]] + w)[1..] == w;
      }
    }
  }

  /** Everything with key `id` is gone after removing `id`. */
  lemma MatchingWithoutEmpty<T>(s: seq<T>, key: T -> string, id: string)
    ensures Matching(Without(s, key, id), key, id) == []
  {
    var r := Without(s, key, id);
    assert Absent(r, key, id) by {
      forall j | 0 <= j < |r| ensures key(r[j]) != id {
        assert r[j] in r;
      }
    }
    MatchingAbsent(r, key, id);
  }

  /** Keeping an id that no element carries keeps nothing. */
  lemma {:induction false} MatchingAbsent<T>(s: seq<T>, key: T -> string, id: string)
    requires Absent(s, key, id)
    ensures Matching(s, key, id) == []
  {
    if |s| > 0 {
      assert key(s[0]) != id;
      assert Absent(s[1..], key, id) by {
        forall j | 0 <= j < |s[1..]| ensures key(s[1..][j]) != id {
          assert s[1..][j] == s[j + 1];
        }
      }
      MatchingAbsent(s[1..], key, id);
    }
  }

  /** Appending an element whose key is new keeps the keys unique. */
  lemma AppendKeepsUnique<T>(s: seq<T>, key: T -> string, x: T)
    requires UniqueKeys(s, key) && Absent(s, key, key(x))
    ensures UniqueKeys(s + [x], key)
  {
  }

  /** Filtering, on any key, keeps the keys unique. */
  lemma {:induction false} WithoutKeepsUnique<T>(s: seq<T>, key: T -> string, filterKey: T -> string, id: string)
    requires UniqueKeys(s, key)
    ensures UniqueKeys(Without(s, filterKey, id), key)
  {
    if |s| > 0 {
      var t := s[1..];
      assert UniqueKeys(t, key) by {
        forall i, j | 0 <= i < j < |t| ensures key(t[i]) != key(t[j]) {
          assert t[i] == s[i + 1] && t[j] == s[j + 1];
        }
      }
      WithoutKeepsUnique(t, key, filterKey, id);
      if filterKey(s[0]) != id {
        var w := Without(t, filterKey, id);
        forall j | 0 <= j < |w| ensures key(s[0]) != key(w[j]) {
          assert w[j] in t;
          var k :| 0 <= k < |t| && t[k] == w[j];
          assert t[k] == s[k + 1];
        }
        assert forall i, j :: 0 < i < j < |[s[0]] + w| ==> ([s[0]] + w)[i] == w[i - 1] && ([s[0]] + w)[j] == w[j - 1];
      }
    }
  }

  /** With unique keys, removing a present id removes exactly one element. */
  lemma {:induction false} WithoutUniqueRemovesOne<T>(s: seq<T>, key: T -> string, id: string, i: nat)
    requires UniqueKeys(s, key) && i < |s| && key(s[i]) == id
    ensures |Without(s, key, id)| == |s| - 1
  {
    var t := s[1..];
    if i == 0 {
      assert Absent(t, key, id) by {
        forall j | 0 <= j < |t| ensures key(t[j]) != id {
          assert t[j] == s[j + 1];
        }
      }
      WithoutAbsent(t, key, id);
    } else {
      assert UniqueKeys(t, key) by {
        forall a, b | 0 <= a < b < |t| ensures key(t[a]) != key(t[b]) {
          assert t[a] == s[a + 1] && t[b] == s[b + 1];
        }
      }
      assert t[i - 1] == s[i];
      WithoutUniqueRemovesOne(t, key, id, i - 1);
    }
  }
}
