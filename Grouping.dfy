/**
 * Grouping a list of ids into per-domain lists, the loop that the option
 * builders of the configuration flow and the search selector each run: a
 * Python dict from a domain to the ids in it, in input order, plus the ids
 * that have no domain. Also the sum of a count map.
 */
module Grouping {
  import opened Wrappers
  import opened SeqFacts
  import opened Text
  import opened Sorting

  /** The ids whose key is `Some(d)`, in input order: the list the dict holds under `d`. */
  function Select(items: seq<string>, key: string -> Option<string>, d: string): (r: seq<string>)
    ensures |r| <= |items|
  {
    if items == [] then []
    else
      var p, x := items[..|items| - 1], items[|items| - 1];
      SplitLast(items);
      Select(p, key, d) + (if key(x) == Some(d) then [x] else [])
  }

  /** The ids that have no key, in input order. */
  function Unkeyed(items: seq<string>, key: string -> Option<string>): (r: seq<string>)
    ensures |r| <= |items|
  {
    if items == [] then []
    else
      var p, x := items[..|items| - 1], items[|items| - 1];
      SplitLast(items);
      Unkeyed(p, key) + (if key(x) == None then [x] else [])
  }

  /** Every id in the group of `d` is an input id whose key is `d`. */
  lemma {:induction false} SelectMembers(items: seq<string>, key: string -> Option<string>, d: string)
    ensures forall x :: x in Select(items, key, d) ==> x in items && key(x) == Some(d)
  {
    if items != [] {
      var p, x := items[..|items| - 1], items[|items| - 1];
      SelectMembers(p, key, d);
      SplitLast(items);
    }
  }

  /** The keys in order of first appearance: the key order of the Python dict. */
  function KeysInOrder(items: seq<string>, key: string -> Option<string>): (r: seq<string>)
    ensures Distinct(r)
  {
    if items == [] then []
    else
      var p, x := items[..|items| - 1], items[|items| - 1];
      var ks := KeysInOrder(p, key);
      if key(x).Some? && key(x).value !in ks then ks + [key(x).value] else ks
  }

  /** A domain is a key exactly when some id falls into its group. */
  lemma {:induction false} KeysInOrderMembers(items: seq<string>, key: string -> Option<string>)
    ensures forall d :: d in KeysInOrder(items, key) <==> Select(items, key, d) != []
  {
    if items != [] {
      var p, x := items[..|items| - 1], items[|items| - 1];
      KeysInOrderMembers(p, key);
      SplitLast(items);
      SnocFacts(p, x, key);
    }
  }

  /** The dict the grouping loop builds: each key mapped to its ids, in input order. */
  ghost function GroupsOf(items: seq<string>, key: string -> Option<string>): map<string, seq<string>> {
    if items == [] then map[]
    else
      var groups, x := GroupsOf(items[..|items| - 1], key), items[|items| - 1];
      match key(x)
      case Some(d) => groups[d := (if d in groups then groups[d] else []) + [x]]
      case None => groups
  }

  /** The dict holds exactly the keys seen, and under each key the group of that key. */
  lemma {:induction false} GroupsOfFacts(items: seq<string>, key: string -> Option<string>)
    ensures forall d :: d in GroupsOf(items, key) <==> d in KeysInOrder(items, key)
    ensures forall d :: d in GroupsOf(items, key) ==> GroupsOf(items, key)[d] == Select(items, key, d)
  {
    if items != [] {
      var p, x := items[..|items| - 1], items[|items| - 1];
      GroupsOfFacts(p, key);
      KeysInOrderMembers(p, key);
      SplitLast(items);
      SnocFacts(p, x, key);
    }
  }

  /**
   * The grouping loop: `groups[d]` gets every id whose key is `d`, in input
   * order, `keys` the domains in the order the dict received them, and `rest`
   * the ids without a domain.
   */
  method GroupByDomain(items: seq<string>, key: string -> Option<string>)
    returns (keys: seq<string>, groups: map<string, seq<string>>, rest: seq<string>)
    ensures keys == KeysInOrder(items, key)
    ensures forall d :: d in groups <==> d in keys
    ensures forall d :: d in groups ==> groups[d] == Select(items, key, d)
    ensures rest == Unkeyed(items, key)
  {
    keys, groups, rest := [], map[], [];
    var k := 0;
    while k < |items|
      invariant 0 <= k <= |items|
      invariant keys == KeysInOrder(items[..k], key)
      invariant groups == GroupsOf(items[..k], key)
      invariant rest == Unkeyed(items[..k], key)
    {
      var x := items[k];
      TakeSnoc(items, k);
      SnocFacts(items[..k], x, key);
      GroupsOfSnoc(items[..k], x, key);
      match key(x) {
        case Some(d) =>
          GroupsOfKey(items[..k], key, d);
          var group := if d in groups then groups[d] else [];
          if d !in groups {
            keys := keys + [d];
          }
          groups := groups[d := group + [x]];
        case None =>
          rest := rest + [x];
      }
      k := k + 1;
    }
    TakeAll(items);
    GroupsOfFacts(items, key);
  }

  lemma GroupsOfKey(items: seq<string>, key: string -> Option<string>, d: string)
    ensures d in GroupsOf(items, key) <==> d in KeysInOrder(items, key)
  {
    GroupsOfFacts(items, key);
  }

  lemma GroupsOfSnoc(p: seq<string>, x: string, key: string -> Option<string>)
    ensures GroupsOf(p + [x], key)
         == match key(x)
            case Some(d) => GroupsOf(p, key)[d := (if d in GroupsOf(p, key) then GroupsOf(p, key)[d] else []) + [x]]
            case None => GroupsOf(p, key)
  {
    FrontOfSnoc(p, x);
  }

  /** With a key that every id has, no id is left without a group. */
  lemma {:induction false} UnkeyedOfTotalKey(items: seq<string>, key: string -> Option<string>)
    requires forall x :: key(x).Some?
    ensures Unkeyed(items, key) == []
  {
    if items != [] {
      UnkeyedOfTotalKey(items[..|items| - 1], key);
    }
  }

  /** How appending one id changes the groups, the key order and the ungrouped ids. */
  lemma SnocFacts(p: seq<string>, x: string, key: string -> Option<string>)
    ensures forall d {:trigger Select(p + [x], key, d)} ::
              Select(p + [x], key, d) == Select(p, key, d) + (if key(x) == Some(d) then [x] else [])
    ensures KeysInOrder(p + [x], key)
         == if key(x).Some? && key(x).value !in KeysInOrder(p, key) then KeysInOrder(p, key) + [key(x).value] else KeysInOrder(p, key)
    ensures Unkeyed(p + [x], key) == Unkeyed(p, key) + (if key(x) == None then [x] else [])
  {
    FrontOfSnoc(p, x);
  }

  /** The ids of the groups of `ds`, taken together. */
  ghost function Gathered(items: seq<string>, key: string -> Option<string>, ds: seq<string>): multiset<string>
  {
    if ds == [] then multiset{}
    else Gathered(items, key, ds[..|ds| - 1]) + multiset(Select(items, key, ds[|ds| - 1]))
  }

  lemma {:induction false} GatheredEmpty(key: string -> Option<string>, ds: seq<string>)
    ensures Gathered([], key, ds) == multiset{}
  {
    if ds != [] {
      GatheredEmpty(key, ds[..|ds| - 1]);
    }
  }

  lemma {:induction false} GatheredStep(p: seq<string>, x: string, key: string -> Option<string>, ds: seq<string>)
    requires Distinct(ds)
    ensures Gathered(p + [x], key, ds)
         == Gathered(p, key, ds) + (if key(x).Some? && key(x).value in ds then multiset{x} else multiset{})
  {
    if ds != [] {
      var q, e := ds[..|ds| - 1], ds[|ds| - 1];
      SplitLast(ds);
      GatheredStep(p, x, key, q);
      FrontOfSnoc(p, x);
      if key(x) == Some(e) {
        assert e !in q;
      }
    }
  }

  /**
   * Every id lands in exactly one place: in the group of its key when the
   * domains `ds` cover all keys, or among the ids without a key.
   */
  lemma {:induction false} GatheredAll(items: seq<string>, key: string -> Option<string>, ds: seq<string>)
    requires Distinct(ds)
    requires forall d :: d in KeysInOrder(items, key) ==> d in ds
    ensures Gathered(items, key, ds) + multiset(Unkeyed(items, key)) == multiset(items)
    decreases |items|
  {
    if items == [] {
      GatheredEmpty(key, ds);
    } else {
      var p, x := items[..|items| - 1], items[|items| - 1];
      SplitLast(items);
      KeysSnoc(p, x, key);
      UnkeyedSnoc(p, x, key);
      GatheredAll(p, key, ds);
      GatheredStep(p, x, key, ds);
      assert multiset(items) == multiset(p) + multiset{x};
      if key(x).Some? {
        assert key(x).value in KeysInOrder(items, key);
      }
    }
  }

  lemma KeysSnoc(p: seq<string>, x: string, key: string -> Option<string>)
    ensures KeysInOrder(p + [x], key)
         == if key(x).Some? && key(x).value !in KeysInOrder(p, key) then KeysInOrder(p, key) + [key(x).value] else KeysInOrder(p, key)
  {
    FrontOfSnoc(p, x);
  }

  lemma UnkeyedSnoc(p: seq<string>, x: string, key: string -> Option<string>)
    ensures Unkeyed(p + [x], key) == Unkeyed(p, key) + (if key(x) == None then [x] else [])
  {
    FrontOfSnoc(p, x);
  }

  /** A domain is among the sorted keys exactly when some id falls into its group. */
  lemma SortedKeysMembers(items: seq<string>, key: string -> Option<string>)
    ensures forall d :: d in Sort(KeysInOrder(items, key)) <==> Select(items, key, d) != []
  {
    var keys := KeysInOrder(items, key);
    forall d ensures d in Sort(keys) <==> d in keys {
      assert d in Sort(keys) <==> d in multiset(Sort(keys));
    }
    KeysInOrderMembers(items, key);
  }

  /** The keys in ascending order are distinct, cover every key, and gather every keyed id. */
  lemma SortedKeysFacts(items: seq<string>, key: string -> Option<string>)
    ensures StrictlySorted(Sort(KeysInOrder(items, key)))
    ensures Distinct(Sort(KeysInOrder(items, key)))
    ensures forall d :: d in Sort(KeysInOrder(items, key)) <==> Select(items, key, d) != []
    ensures Gathered(items, key, Sort(KeysInOrder(items, key))) + multiset(Unkeyed(items, key)) == multiset(items)
  {
    var keys := KeysInOrder(items, key);
    SortDistinct(keys);
    DistinctPermutation(keys, Sort(keys));
    forall d ensures d in Sort(keys) <==> d in keys {
      assert d in Sort(keys) <==> d in multiset(Sort(keys));
    }
    KeysInOrderMembers(items, key);
    GatheredAll(items, key, Sort(keys));
  }

  /** The count map of the keys `ds`: each one mapped to the size of its group. */
  ghost function CountsOf(items: seq<string>, key: string -> Option<string>, ds: seq<string>): map<string, nat> {
    if ds == [] then map[]
    else CountsOf(items, key, ds[..|ds| - 1])[ds[|ds| - 1] := |Select(items, key, ds[|ds| - 1])|]
  }

  /** For distinct keys, the count map has exactly those keys, the group sizes as values, and their sum. */
  lemma {:induction false} CountsOfFacts(items: seq<string>, key: string -> Option<string>, ds: seq<string>)
    requires Distinct(ds)
    ensures forall d :: d in CountsOf(items, key, ds) <==> d in ds
    ensures forall d :: d in CountsOf(items, key, ds) ==> CountsOf(items, key, ds)[d] == |Select(items, key, d)|
    ensures SumValues(CountsOf(items, key, ds)) == |Gathered(items, key, ds)|
  {
    if ds != [] {
      var q, e := ds[..|ds| - 1], ds[|ds| - 1];
      SplitLast(ds);
      CountsOfFacts(items, key, q);
      SumValuesAdd(CountsOf(items, key, q), e, |Select(items, key, e)|);
    }
  }

  /** The sum of the values of a count map. */
  ghost function SumValues(m: map<string, nat>): nat
    decreases |m|
  {
    if m == map[] then 0
    else
      var k :| k in m;
      assert (m - {k}).Keys == m.Keys - {k};
      m[k] + SumValues(m - {k})
  }

  /** The sum does not depend on which key is taken out first. */
  lemma {:induction false} SumValuesRemove(m: map<string, nat>, k: string)
    requires k in m
    ensures SumValues(m) == m[k] + SumValues(m - {k})
    decreases |m|
  {
    var k' :| k' in m && SumValues(m) == m[k'] + SumValues(m - {k'});
    if k' != k {
      assert (m - {k'}).Keys == m.Keys - {k'};
      assert (m - {k}).Keys == m.Keys - {k};
      SumValuesRemove(m - {k'}, k);
      SumValuesRemove(m - {k}, k');
      assert m - {k'} - {k} == m - {k} - {k'};
    }
  }

  lemma SumValuesAdd(m: map<string, nat>, k: string, n: nat)
    requires k !in m
    ensures SumValues(m[k := n]) == SumValues(m) + n
  {
    SumValuesRemove(m[k := n], k);
    assert m[k := n] - {k} == m;
  }
}
