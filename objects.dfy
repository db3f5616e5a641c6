/**
 * JavaScript objects and `Map`s as they are used by the core: a sequence of
 * entries in insertion order, where `key` reads the key of an entry, and the object spread
 * `{ ...a, ...b }` that builds the inputs of the shader functions.
 */
module Objects {
  import opened Wrappers

  predicate DistinctKeys<K(==), T>(s: seq<T>, key: T -> K) {
    forall i, j :: 0 <= i < j < |s| ==> key(s[i]) != key(s[j])
  }

  predicate HasKey<K(==), T>(s: seq<T>, key: T -> K, k: K) {
    exists i :: 0 <= i < |s| && key(s[i]) == k
  }

  /** `object[k]`: the entry with key `k`, if any. */
  function Get<K(==), T>(s: seq<T>, key: T -> K, k: K): (r: Option<T>)
    ensures r.Some? <==> HasKey(s, key, k)
    ensures r.Some? ==> key(r.value) == k && r.value in s
  {
    if |s| == 0 then None
    else if key(s[0]) == k then Some(s[0])
    else
      var r := Get(s[1..], key, k);
      assert HasKey(s, key, k) ==> HasKey(s[1..], key, k) by {
        if HasKey(s, key, k) {
          var i :| 0 <= i < |s| && key(s[i]) == k;
          assert s[1..][i - 1] == s[i];
        }
      }
      assert r.Some? ==> HasKey(s, key, k) by {
        if r.Some? {
          var i :| 0 <= i < |s[1..]| && key(s[1..][i]) == k;
          assert s[i + 1] == s[1..][i];
        }
      }
      r
  }

  /** `object[key(x)] = x`: an existing key keeps its place, a new key goes last. */
  function Put<K(==), T>(s: seq<T>, key: T -> K, x: T): (r: seq<T>)
  {
    if |s| == 0 then [x]
    else if key(s[0]) == key(x) then [x] + s[1..]
    else [s[0]] + Put(s[1..], key, x)
  }

  /** A key the object lacks is appended: `Map.set` of a new key puts it last. */
  lemma {:induction false} PutAbsent<K, T>(s: seq<T>, key: T -> K, x: T)
    requires !HasKey(s, key, key(x))
    ensures Put(s, key, x) == s + [x]
  {
    if |s| > 0 {
      HasKeyCons(s[0], s[1..], key, key(x));
      assert [s[0]] + s[1..] == s;
      PutAbsent(s[1..], key, x);
      assert [s[0]] + (s[1..] + [x]) == s + [x];
    }
  }

  /** `{ ...a, ...b }`: the entries of `b` put into `a` in order. */
  function Spread<K(==), T>(a: seq<T>, b: seq<T>, key: T -> K): seq<T>
    decreases |b|
  {
    if |b| == 0 then a else Spread(Put(a, key, b[0]), b[1..], key)
  }

  lemma {:induction false} PutGet<K, T>(s: seq<T>, key: T -> K, x: T, k: K)
    ensures Get(Put(s, key, x), key, k) == if k == key(x) then Some(x) else Get(s, key, k)
  {
    if |s| > 0 && key(s[0]) != key(x) {
      PutGet(s[1..], key, x, k);
      assert ([s[0]] + Put(s[1..], key, x))[1..] == Put(s[1..], key, x);
    } else if |s| > 0 {
      assert ([x] + s[1..])[1..] == s[1..];
    }
  }

  /** A spread reads a key from the right operand when it has the key, and from the left one otherwise. */
  lemma {:induction false} SpreadGet<K, T>(a: seq<T>, b: seq<T>, key: T -> K, k: K)
    requires DistinctKeys(b, key)
    ensures Get(Spread(a, b, key), key, k) == if HasKey(b, key, k) then Get(b, key, k) else Get(a, key, k)
    decreases |b|
  {
    if |b| > 0 {
      assert DistinctKeys(b[1..], key) by {
        forall i, j | 0 <= i < j < |b[1..]|
          ensures key(b[1..][i]) != key(b[1..][j])
        {
          assert b[1..][i] == b[i + 1] && b[1..][j] == b[j + 1];
        }
      }
      SpreadGet(Put(a, key, b[0]), b[1..], key, k);
      PutGet(a, key, b[0], k);
      HasKeyCons(b[0], b[1..], key, k);
      assert [b[0]] + b[1..] == b;
      if HasKey(b[1..], key, k) {
        var i :| 0 <= i < |b[1..]| && key(b[1..][i]) == k;
        assert b[i + 1] == b[1..][i];
      }
    }
  }

  lemma {:induction false} PutKeepsDistinct<K, T>(s: seq<T>, key: T -> K, x: T)
    requires DistinctKeys(s, key)
    ensures DistinctKeys(Put(s, key, x), key)
    ensures forall k :: HasKey(Put(s, key, x), key, k) <==> HasKey(s, key, k) || k == key(x)
  {
    if |s| > 0 && key(s[0]) != key(x) {
      var rest := Put(s[1..], key, x);
      assert DistinctKeys(s[1..], key) by {
        forall i, j | 0 <= i < j < |s[1..]|
          ensures key(s[1..][i]) != key(s[1..][j])
        {
          assert s[1..][i] == s[i + 1] && s[1..][j] == s[j + 1];
        }
      }
      PutKeepsDistinct(s[1..], key, x);
      var r := [s[0]] + rest;
      forall k
        ensures HasKey(r, key, k) <==> HasKey(s, key, k) || k == key(x)
      {
        HasKeyCons(s[0], rest, key, k);
        HasKeyCons(s[0], s[1..], key, k);
        assert [s[0]] + s[1..] == s;
      }
      forall j | 0 < j < |r|
        ensures key(r[0]) != key(r[j])
      {
        assert HasKey(rest, key, key(r[j])) by {
          assert rest[j - 1] == r[j];
        }
        if HasKey(s[1..], key, key(r[j])) {
          var i :| 0 <= i < |s[1..]| && key(s[1..][i]) == key(r[j]);
          assert s[i + 1] == s[1..][i];
        }
      }
    } else if |s| > 0 {
      var r := [x] + s[1..];
      forall k
        ensures HasKey(r, key, k) <==> HasKey(s, key, k) || k == key(x)
      {
        HasKeyCons(x, s[1..], key, k);
        HasKeyCons(s[0], s[1..], key, k);
        assert [s[0]] + s[1..] == s;
      }
    } else {
      forall k
        ensures HasKey([x], key, k) <==> k == key(x)
      {
        assert [x][0] == x;
      }
    }
  }

  lemma HasKeyCons<K, T>(x: T, s: seq<T>, key: T -> K, k: K)
    ensures HasKey([x] + s, key, k) <==> key(x) == k || HasKey(s, key, k)
  {
    if HasKey(s, key, k) {
      var i :| 0 <= i < |s| && key(s[i]) == k;
      assert ([x] + s)[i + 1] == s[i];
    }
    if HasKey([x] + s, key, k) && key(x) != k {
      var i :| 0 <= i < |[x] + s| && key(([x] + s)[i]) == k;
      assert s[i - 1] == ([x] + s)[i];
    }
    assert ([x] + s)[0] == x;
  }

  /** The spread of two objects is an object: no key twice. */
  lemma {:induction false} SpreadKeepsDistinct<K, T>(a: seq<T>, b: seq<T>, key: T -> K)
    requires DistinctKeys(a, key)
    ensures DistinctKeys(Spread(a, b, key), key)
    decreases |b|
  {
    if |b| > 0 {
      PutKeepsDistinct(a, key, b[0]);
      SpreadKeepsDistinct(Put(a, key, b[0]), b[1..], key);
    }
  }

  lemma {:induction false} PutKeepsPlaces<K, T>(s: seq<T>, key: T -> K, x: T)
    ensures |s| <= |Put(s, key, x)| <= |s| + 1
    ensures forall i :: 0 <= i < |s| ==> key(Put(s, key, x)[i]) == key(s[i])
  {
    if |s| > 0 && key(s[0]) != key(x) {
      PutKeepsPlaces(s[1..], key, x);
      var r := Put(s, key, x);
      forall i | 0 < i < |s|
        ensures key(r[i]) == key(s[i])
      {
        assert r[i] == Put(s[1..], key, x)[i - 1];
        assert s[i] == s[1..][i - 1];
      }
    }
  }

  /** The left operand's keys keep their places at the front of a spread. */
  lemma {:induction false} SpreadKeepsPlaces<K, T>(a: seq<T>, b: seq<T>, key: T -> K)
    ensures |a| <= |Spread(a, b, key)| <= |a| + |b|
    ensures forall i :: 0 <= i < |a| ==> key(Spread(a, b, key)[i]) == key(a[i])
    decreases |b|
  {
    if |b| > 0 {
      PutKeepsPlaces(a, key, b[0]);
      SpreadKeepsPlaces(Put(a, key, b[0]), b[1..], key);
    }
  }

  /** `map.delete(k)`: every entry with key `k` leaves, the others keep their order. */
  function Remove<K(==), T>(s: seq<T>, key: T -> K, k: K): seq<T>
  {
    if |s| == 0 then []
    else if key(s[0]) == k then Remove(s[1..], key, k)
    else [s[0]] + Remove(s[1..], key, k)
  }

  /** `Array.from(map.keys())`. */
  function Keys<K(==), T>(s: seq<T>, key: T -> K): (r: seq<K>)
    ensures |r| == |s|
    ensures forall i :: 0 <= i < |s| ==> r[i] == key(s[i])
  {
    if |s| == 0 then [] else [key(s[0])] + Keys(s[1..], key)
  }

  lemma {:induction false} RemoveGet<K, T>(s: seq<T>, key: T -> K, k: K, j: K)
    ensures Get(Remove(s, key, k), key, j) == if j == k then None else Get(s, key, j)
  {
    if |s| > 0 {
      RemoveGet(s[1..], key, k, j);
      if key(s[0]) != k {
        assert ([s[0]] + Remove(s[1..], key, k))[1..] == Remove(s[1..], key, k);
      }
    }
  }
}
