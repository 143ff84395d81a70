/** Ordering by name. The converters sort attributes and nested blocks by
    name with Go's `<` on strings, which compares byte by byte; here a string
    is a sequence of characters compared character by character, which
    orders byte strings the same way. */
module Ordering {

  /** Strict lexicographic order on strings. */
  predicate Below(a: string, b: string)
  {
    if |a| == 0 then |b| > 0
    else |b| > 0 && (a[0] < b[0] || (a[0] == b[0] && Below(a[1..], b[1..])))
  }

  lemma {:induction false} BelowIrreflexive(a: string)
    ensures !Below(a, a)
  {
    if |a| > 0 {
      BelowIrreflexive(a[1..]);
    }
  }

  lemma {:induction false} BelowTransitive(a: string, b: string, c: string)
    requires Below(a, b) && Below(b, c)
    ensures Below(a, c)
  {
    if |a| > 0 && a[0] == b[0] && b[0] == c[0] {
      BelowTransitive(a[1..], b[1..], c[1..]);
    }
  }

  lemma {:induction false} BelowTotal(a: string, b: string)
    ensures a == b || Below(a, b) || Below(b, a)
  {
    if |a| > 0 && |b| > 0 && a[0] == b[0] {
      BelowTotal(a[1..], b[1..]);
      if a[1..] == b[1..] {
        assert a == [a[0]] + a[1..] && b == [b[0]] + b[1..];
      }
    }
  }

  lemma BelowAsymmetric(a: string, b: string)
    requires Below(a, b)
    ensures !Below(b, a)
  {
    if Below(b, a) {
      BelowTransitive(a, b, a);
      BelowIrreflexive(a);
    }
  }

  /** Every later element is strictly above every earlier one. */
  predicate StrictlySorted(s: seq<string>)
  {
    forall i, j :: 0 <= i < j < |s| ==> Below(s[i], s[j])
  }

  /** The keys of `s`, element by element. */
  function KeysOf<T>(s: seq<T>, key: T -> string): (ks: seq<string>)
    ensures |ks| == |s|
    ensures forall i :: 0 <= i < |s| ==> ks[i] == key(s[i])
  {
    if s == [] then [] else [key(s[0])] + KeysOf(s[1..], key)
  }

  /** `s` ordered strictly by `key`, as the converters leave their lists. */
  predicate StrictlySortedBy<T>(s: seq<T>, key: T -> string)
  {
    forall i, j :: 0 <= i < j < |s| ==> Below(key(s[i]), key(s[j]))
  }

  /** No two elements of `s` share a key. */
  predicate DistinctKeys<T>(s: seq<T>, key: T -> string)
  {
    forall i, j :: 0 <= i < j < |s| ==> key(s[i]) != key(s[j])
  }

  lemma LeastExists(ks: set<string>)
    requires ks != {}
    ensures exists k :: k in ks && forall j :: j in ks && j != k ==> Below(k, j)
    decreases ks
  {
    var x :| x in ks;
    var rest := ks - {x};
    if rest == {} {
      assert ks == {x};
    } else {
      LeastExists(rest);
      var y :| y in rest && forall j :: j in rest && j != y ==> Below(y, j);
      BelowTotal(x, y);
      if Below(x, y) {
        forall j | j in ks && j != x ensures Below(x, j) {
          if j != y { BelowTransitive(x, y, j); }
        }
      } else {
        assert forall j :: j in ks && j != y ==> Below(y, j);
      }
    }
  }

  /** The elements of `ks` in ascending order: the order in which the
      converters emit the entries of a Go map once sorted by name. */
  ghost function SortedKeys(ks: set<string>): (r: seq<string>)
    ensures StrictlySorted(r)
    ensures forall k :: k in r <==> k in ks
    ensures |r| == |ks|
    decreases ks
  {
    if ks == {} then []
    else
      LeastExists(ks);
      var k :| k in ks && forall j :: j in ks && j != k ==> Below(k, j);
      [k] + SortedKeys(ks - {k})
  }

  lemma HeadIsElement(s: seq<string>)
    ensures s != [] ==> s[0] in s
  {
  }

  /** Two strictly sorted sequences with the same elements are equal: the
      sorted order of a set of names is unique. */
  lemma {:induction false} SortedUnique(a: seq<string>, b: seq<string>)
    requires StrictlySorted(a) && StrictlySorted(b)
    requires forall x :: x in a <==> x in b
    ensures a == b
    decreases |a|
  {
    if |a| == 0 {
      if b != [] {
        HeadIsElement(b);
        assert false;
      }
    } else {
      assert a[0] in b;
      assert |b| > 0;
      if a[0] != b[0] {
        assert b[0] in a;
        var i :| 0 <= i < |a| && a[i] == b[0];
        var j :| 0 <= j < |b| && b[j] == a[0];
        assert Below(a[0], b[0]);
        assert Below(b[0], a[0]);
        BelowAsymmetric(a[0], b[0]);
      }
      forall x | x in a[1..] ensures x in b[1..] {
        var i :| 1 <= i < |a| && a[i] == x;
        BelowIrreflexive(x);
        assert x != b[0];
        assert x in b;
        var k :| 0 <= k < |b| && b[k] == x;
        assert b[1..][k - 1] == x;
      }
      forall x | x in b[1..] ensures x in a[1..] {
        var i :| 1 <= i < |b| && b[i] == x;
        BelowIrreflexive(x);
        assert x != a[0];
        assert x in a;
        var k :| 0 <= k < |a| && a[k] == x;
        assert a[1..][k - 1] == x;
      }
      SortedUnique(a[1..], b[1..]);
      assert a == [a[0]] + a[1..] && b == [b[0]] + b[1..];
    }
  }

  /** A sequence strictly sorted by `key` whose keys are exactly `names`
      lists them in the order of `SortedKeys(names)`. */
  lemma SortedByIsCanonical<T>(s: seq<T>, key: T -> string, names: set<string>)
    requires StrictlySortedBy(s, key)
    requires forall x :: x in s ==> key(x) in names
    requires forall n :: n in names ==> exists x :: x in s && key(x) == n
    ensures |s| == |SortedKeys(names)|
    ensures forall i :: 0 <= i < |s| ==> key(s[i]) == SortedKeys(names)[i]
  {
    var ks := KeysOf(s, key);
    forall n | n in ks ensures n in names {
      var i :| 0 <= i < |ks| && ks[i] == n;
      assert s[i] in s;
    }
    forall n | n in names ensures n in ks {
      var x :| x in s && key(x) == n;
      var i :| 0 <= i < |s| && s[i] == x;
      assert ks[i] == n;
    }
    SortedUnique(ks, SortedKeys(names));
  }

  /** Insert `x` into `r` at the place its key calls for. */
  method InsertByKey<T>(r: seq<T>, x: T, key: T -> string) returns (out: seq<T>)
    requires StrictlySortedBy(r, key)
    requires forall y :: y in r ==> key(y) != key(x)
    ensures multiset(out) == multiset(r) + multiset{x}
    ensures StrictlySortedBy(out, key)
  {
    var j := 0;
    while j < |r| && Below(key(r[j]), key(x))
      invariant 0 <= j <= |r|
      invariant forall p :: 0 <= p < j ==> Below(key(r[p]), key(x))
    {
      j := j + 1;
    }
    out := r[..j] + [x] + r[j..];
    assert r == r[..j] + r[j..];
    InsertionKeepsOrder(r, x, key, j);
  }

  /** Placing `x` after the elements below it and before the rest keeps a
      strictly sorted sequence strictly sorted. */
  lemma InsertionKeepsOrder<T>(r: seq<T>, x: T, key: T -> string, j: nat)
    requires StrictlySortedBy(r, key)
    requires forall y :: y in r ==> key(y) != key(x)
    requires j <= |r|
    requires forall p :: 0 <= p < j ==> Below(key(r[p]), key(x))
    requires j < |r| ==> !Below(key(r[j]), key(x))
    ensures StrictlySortedBy(r[..j] + [x] + r[j..], key)
  {
    forall q | j <= q < |r| ensures Below(key(x), key(r[q])) {
      assert r[j] in r;
      BelowTotal(key(x), key(r[j]));
      if q > j {
        BelowTransitive(key(x), key(r[j]), key(r[q]));
      }
    }
    var out := r[..j] + [x] + r[j..];
    forall p, q | 0 <= p < q < |out| ensures Below(key(out[p]), key(out[q])) {
      if q < j {
        assert out[p] == r[p] && out[q] == r[q];
      } else if q == j {
        assert out[p] == r[p] && out[q] == x;
      } else if p < j {
        assert out[p] == r[p] && out[q] == r[q - 1];
        BelowTransitive(key(r[p]), key(x), key(r[q - 1]));
      } else if p == j {
        assert out[p] == x && out[q] == r[q - 1];
      } else {
        assert out[p] == r[p - 1] && out[q] == r[q - 1];
      }
    }
  }

  /** Sort `s` by `key`; the keys must be distinct, as the names of a Go map are. */
  method SortBy<T>(s: seq<T>, key: T -> string) returns (r: seq<T>)
    requires DistinctKeys(s, key)
    ensures multiset(r) == multiset(s)
    ensures StrictlySortedBy(r, key)
  {
    r := [];
    for i := 0 to |s|
      invariant multiset(r) == multiset(s[..i])
      invariant StrictlySortedBy(r, key)
    {
      forall y | y in r ensures key(y) != key(s[i]) {
        assert y in multiset(s[..i]);
        var p :| 0 <= p < i && s[p] == y;
      }
      r := InsertByKey(r, s[i], key);
      assert s[..i + 1] == s[..i] + [s[i]];
    }
    assert s[..|s|] == s;
  }

  /** Sequences with the same multiset hold the same elements. */
  lemma SameElements<T>(s: seq<T>, r: seq<T>)
    requires multiset(r) == multiset(s)
    ensures forall x :: x in r <==> x in s
  {
    forall x ensures x in r <==> x in s {
      assert x in r <==> x in multiset(r);
      assert x in s <==> x in multiset(s);
    }
  }
}
