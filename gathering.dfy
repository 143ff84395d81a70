/** Converting every entry of a Go map and listing the results sorted by
    name, as the framework converter does for attributes and blocks: the
    specification of the result, and the loop invariant that connects an
    append-then-sort loop to it. */
module Gathering {
  import opened Outcomes
  import opened Ordering

  /** The results of converting every entry of a map, listed in name order;
      a failure when some entry fails. Which failure is reported depends on
      the map's iteration order and is left open here. */
  ghost function Gathered<T>(outcomes: map<string, Result<T>>): Result<seq<T>>
  {
    if exists k :: k in outcomes && outcomes[k].Failure? then
      var k :| k in outcomes && outcomes[k].Failure?;
      Failure(outcomes[k].error)
    else
      var ks := SortedKeys(outcomes.Keys);
      Success(seq(|ks|, i requires 0 <= i < |ks| => outcomes[ks[i]].value))
  }

  /** `items` holds, once each, the converted entries named in `done`, all
      of which succeeded. */
  ghost predicate Collected<T>(outcomes: map<string, Result<T>>, done: set<string>, items: seq<T>, key: T -> string)
  {
    done <= outcomes.Keys &&
    (forall k :: k in done ==> outcomes[k].Success?) &&
    (forall x :: x in items ==> key(x) in done && outcomes[key(x)] == Success(x)) &&
    (forall k :: k in done ==> exists x :: x in items && key(x) == k) &&
    DistinctKeys(items, key)
  }

  lemma CollectedInitially<T>(outcomes: map<string, Result<T>>, key: T -> string)
    ensures Collected(outcomes, {}, [], key)
  {
  }

  /** Appending the next successful entry keeps the invariant. */
  lemma CollectStep<T>(outcomes: map<string, Result<T>>, done: set<string>, items: seq<T>, key: T -> string,
    k: string, x: T)
    requires Collected(outcomes, done, items, key)
    requires k in outcomes && k !in done && outcomes[k] == Success(x) && key(x) == k
    ensures Collected(outcomes, done + {k}, items + [x], key)
  {
    var items' := items + [x];
    forall i, j | 0 <= i < j < |items'| ensures key(items'[i]) != key(items'[j]) {
      if j == |items| {
        assert items[i] in items;
      }
    }
    forall k' | k' in done + {k} ensures exists y :: y in items' && key(y) == k' {
      if k' == k {
        assert items'[|items|] == x;
      } else {
        var y :| y in items && key(y) == k';
        assert y in items';
      }
    }
  }

  /** One failing entry makes the whole gathering fail. */
  lemma GatheredFails<T>(outcomes: map<string, Result<T>>, k: string)
    requires k in outcomes && outcomes[k].Failure?
    ensures Gathered(outcomes).Failure?
  {
  }

  /** Every entry collected and the list then sorted by name: the result
      is exactly the gathered one. */
  lemma {:induction false} GatheredSorted<T>(outcomes: map<string, Result<T>>, items: seq<T>, sorted: seq<T>,
    key: T -> string)
    requires Collected(outcomes, outcomes.Keys, items, key)
    requires forall x :: x in sorted <==> x in items
    requires StrictlySortedBy(sorted, key)
    ensures Gathered(outcomes) == Success(sorted)
  {
    var ks := SortedKeys(outcomes.Keys);
    forall n | n in outcomes.Keys ensures exists x :: x in sorted && key(x) == n {
      var x :| x in items && key(x) == n;
      assert x in sorted;
    }
    SortedByIsCanonical(sorted, key, outcomes.Keys);
    ListedInOrder(outcomes, sorted, key);
  }

  lemma ListedInOrder<T>(outcomes: map<string, Result<T>>, sorted: seq<T>, key: T -> string)
    requires forall k :: k in outcomes ==> outcomes[k].Success?
    requires forall x :: x in sorted ==> key(x) in outcomes && outcomes[key(x)] == Success(x)
    requires |sorted| == |SortedKeys(outcomes.Keys)|
    requires forall i :: 0 <= i < |sorted| ==> key(sorted[i]) == SortedKeys(outcomes.Keys)[i]
    ensures Gathered(outcomes) == Success(sorted)
  {
    GatheredInOrder(outcomes);
    var g := Gathered(outcomes).value;
    var ks := SortedKeys(outcomes.Keys);
    forall i | 0 <= i < |sorted| ensures sorted[i] == g[i] {
      assert sorted[i] in sorted;
      assert g[i] == outcomes[ks[i]].value;
    }
    assert |sorted| == |g|;
    assert sorted == g;
  }

  /** When every entry succeeds, the gathering lists their results in
      name order. */
  lemma GatheredInOrder<T>(outcomes: map<string, Result<T>>)
    requires forall k :: k in outcomes ==> outcomes[k].Success?
    ensures Gathered(outcomes).Success?
    ensures |Gathered(outcomes).value| == |SortedKeys(outcomes.Keys)|
    ensures forall i :: 0 <= i < |SortedKeys(outcomes.Keys)| ==>
      SortedKeys(outcomes.Keys)[i] in outcomes &&
      Gathered(outcomes).value[i] == outcomes[SortedKeys(outcomes.Keys)[i]].value
  {
  }

  /** A successful gathering lists one result per entry, each under its
      own name, strictly sorted by name. */
  lemma GatheredContents<T>(outcomes: map<string, Result<T>>, key: T -> string)
    requires forall k :: k in outcomes && outcomes[k].Success? ==> key(outcomes[k].value) == k
    requires Gathered(outcomes).Success?
    ensures StrictlySortedBy(Gathered(outcomes).value, key)
    ensures forall x :: x in Gathered(outcomes).value ==> key(x) in outcomes && outcomes[key(x)] == Success(x)
    ensures forall k :: k in outcomes ==> exists x :: x in Gathered(outcomes).value && key(x) == k
    ensures |Gathered(outcomes).value| == |outcomes|
  {
    var ks := SortedKeys(outcomes.Keys);
    var items := Gathered(outcomes).value;
    assert forall i :: 0 <= i < |items| ==> key(items[i]) == ks[i] && ks[i] in outcomes;
    forall x | x in items ensures key(x) in outcomes && outcomes[key(x)] == Success(x) {
      var i :| 0 <= i < |items| && items[i] == x;
    }
    forall k | k in outcomes ensures exists x :: x in items && key(x) == k {
      var i :| 0 <= i < |ks| && ks[i] == k;
      assert items[i] in items;
    }
  }
}
