/**
 * Python 2's ordering of byte strings (lexicographic, a proper prefix first)
 * and the sorted list of a dictionary's keys that `items.sort()` produces
 * when, as for a dictionary, no key occurs twice.
 */
module Ordering {

  /** `a < b` on Python 2 byte strings. */
  predicate Less(a: string, b: string) {
    if |a| == 0 then |b| > 0
    else if |b| == 0 then false
    else if a[0] == b[0] then Less(a[1..], b[1..])
    else a[0] < b[0]
  }

  lemma {:induction false} LessIrreflexive(a: string)
    ensures !Less(a, a)
  {
    if |a| > 0 {
      LessIrreflexive(a[1..]);
    }
  }

  lemma {:induction false} LessAsymmetric(a: string, b: string)
    requires Less(a, b)
    ensures !Less(b, a)
  {
    if |a| > 0 && |b| > 0 && a[0] == b[0] {
      LessAsymmetric(a[1..], b[1..]);
    }
  }

  lemma {:induction false} LessTransitive(a: string, b: string, c: string)
    requires Less(a, b) && Less(b, c)
    ensures Less(a, c)
  {
    if |a| > 0 && |b| > 0 && |c| > 0 && a[0] == b[0] && b[0] == c[0] {
      LessTransitive(a[1..], b[1..], c[1..]);
    }
  }

  /** Any two different strings are ordered one way or the other. */
  lemma {:induction false} LessTotal(a: string, b: string)
    requires a != b
    ensures Less(a, b) || Less(b, a)
  {
    if |a| > 0 && |b| > 0 && a[0] == b[0] {
      assert a == [a[0]] + a[1..] && b == [b[0]] + b[1..];
      LessTotal(a[1..], b[1..]);
    }
  }

  /** `m` is the smallest element of `keys`. */
  ghost predicate IsLeast(m: string, keys: set<string>) {
    m in keys && forall k :: k in keys && k != m ==> Less(m, k)
  }

  lemma {:induction false} LeastExists(keys: set<string>)
    requires keys != {}
    ensures exists m :: IsLeast(m, keys)
    decreases |keys|
  {
    var x :| x in keys;
    if keys != {x} {
      var rest := keys - {x};
      LeastExists(rest);
      var m :| IsLeast(m, rest);
      if Less(m, x) {
        assert IsLeast(m, keys);
      } else {
        LessTotal(m, x);
        forall k | k in keys && k != x
          ensures Less(x, k)
        {
          if k != m {
            LessTransitive(x, m, k);
          }
        }
        assert IsLeast(x, keys);
      }
    } else {
      assert IsLeast(x, keys);
    }
  }

  lemma LeastUnique(m: string, n: string, keys: set<string>)
    requires IsLeast(m, keys) && IsLeast(n, keys)
    ensures m == n
  {
    if m != n {
      LessAsymmetric(m, n);
    }
  }

  ghost function Least(keys: set<string>): (m: string)
    requires keys != {}
    ensures IsLeast(m, keys)
  {
    LeastExists(keys);
    var m :| IsLeast(m, keys);
    m
  }

  /** Strictly increasing: sorted, and no element twice. */
  ghost predicate StrictlySorted(s: seq<string>) {
    forall i, j :: 0 <= i < j < |s| ==> Less(s[i], s[j])
  }

  /** The keys in increasing order: what sorting a dictionary's items arranges them by. */
  ghost function SortedKeys(keys: set<string>): seq<string>
    decreases |keys|
  {
    if keys == {} then [] else [Least(keys)] + SortedKeys(keys - {Least(keys)})
  }

  /** The sorted keys are exactly the keys, each once, in strictly increasing order. */
  lemma {:induction false} SortedKeysSpec(keys: set<string>)
    ensures |SortedKeys(keys)| == |keys|
    ensures forall k :: k in SortedKeys(keys) <==> k in keys
    ensures StrictlySorted(SortedKeys(keys))
    decreases |keys|
  {
    if keys != {} {
      var m := Least(keys);
      var rest := keys - {m};
      SortedKeysSpec(rest);
      var s := SortedKeys(keys);
      assert s == [m] + SortedKeys(rest);
      forall i, j | 0 <= i < j < |s|
        ensures Less(s[i], s[j])
      {
        if i == 0 {
          assert s[j] in rest;
        } else {
          assert s[i] == SortedKeys(rest)[i - 1] && s[j] == SortedKeys(rest)[j - 1];
        }
      }
    }
  }

  /** A strictly sorted sequence holds as many distinct keys as it is long. */
  lemma {:induction false} SortedElementsCard(s: seq<string>)
    requires StrictlySorted(s)
    ensures |(set k | k in s)| == |s|
  {
    if |s| > 0 {
      var init := s[..|s| - 1];
      var last := s[|s| - 1];
      assert StrictlySorted(init);
      SortedElementsCard(init);
      assert (set k | k in s) == (set k | k in init) + {last};
      if last in init {
        var i :| 0 <= i < |init| && init[i] == last;
        LessIrreflexive(last);
      }
    }
  }

  /** A prefix of a strictly sorted sequence holds its smallest elements. */
  lemma SortedPrefixSmallest(s: seq<string>, end: nat)
    requires StrictlySorted(s) && end <= |s|
    ensures forall x, y :: x in s[..end] && y in s && y !in s[..end] ==> Less(x, y)
  {
    forall x, y | x in s[..end] && y in s && y !in s[..end]
      ensures Less(x, y)
    {
      var i :| 0 <= i < end && s[i] == x;
      var j :| 0 <= j < |s| && s[j] == y;
      assert j >= end;
    }
  }

  /** The smallest of a non-empty set of keys, by a scan over the set. */
  method SmallestKey(keys: set<string>) returns (m: string)
    requires keys != {}
    ensures IsLeast(m, keys)
  {
    m :| m in keys;
    var rest := keys - {m};
    while rest != {}
      invariant rest <= keys && m in keys && m !in rest
      invariant forall k :: k in keys - rest && k != m ==> Less(m, k)
      decreases |rest|
    {
      var k :| k in rest;
      if Less(k, m) {
        forall j | j in keys - rest && j != k
          ensures Less(k, j)
        {
          if j != m {
            LessTransitive(k, m, j);
          }
        }
        m := k;
      } else {
        LessTotal(k, m);
      }
      rest := rest - {k};
    }
  }

  /** The sorted keys start with the smallest key. */
  lemma SortedKeysUnfold(keys: set<string>, k: string)
    requires IsLeast(k, keys)
    ensures SortedKeys(keys) == [k] + SortedKeys(keys - {k})
  {
    LeastUnique(k, Least(keys), keys);
  }

  /** `sorted(keys)`, by repeatedly taking the smallest remaining key. */
  method SortKeys(keys: set<string>) returns (items: seq<string>)
    ensures items == SortedKeys(keys)
  {
    items := [];
    var remaining := keys;
    while remaining != {}
      invariant items + SortedKeys(remaining) == SortedKeys(keys)
      decreases |remaining|
    {
      var k := SmallestKey(remaining);
      SortedKeysUnfold(remaining, k);
      items := items + [k];
      remaining := remaining - {k};
    }
  }
}
