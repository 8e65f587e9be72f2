/**
 * The pure helpers and list builders of config_flow.py: the numbered filter
 * labels and the index parsed back from a label, the grouped option list of
 * `_create_grouped_options`, the two domain organisers and the sorted
 * domains and entities of `_domains_and_entities`.
 */
module ConfigOptions {
  import opened Wrappers
  import opened SeqFacts
  import opened Text
  import opened Sorting
  import opened Grouping
  import opened Selector

  // ---------------------------------------------------------------- filters

  /**
   * A field of a filter as `str()` renders it inside a label: the text of a
   * value, or "None" for a field the form left out. The thresholds are
   * floats in the source; here they are their rendered text.
   */
  function Render(v: Option<string>): string {
    match v
    case Some(t) => t
    case None => "None"
  }

  /** One entry of the filter list: entity id, unit and the two thresholds. */
  datatype FilterConf = FilterConf(entityId: Option<string>, unit: Option<string>, above: Option<string>, below: Option<string>)

  /** `_filter_str`: the label of the filter at position `index`, numbered from 1. */
  function FilterStr(index: nat, f: FilterConf): string
  {
    NatToString(index + 1) + ". " + Render(f.entityId) + ", unit: " + Render(f.unit)
      + ", above: " + Render(f.above) + ", below: " + Render(f.below)
  }

  /** The labels of a filter list, one per position, as the form offers them. */
  function FilterLabels(filters: seq<FilterConf>): (r: seq<string>)
    ensures |r| == |filters|
  {
    if filters == [] then []
    else FilterLabels(filters[..|filters| - 1]) + [FilterStr(|filters| - 1, filters[|filters| - 1])]
  }

  /** The label at position `i` is the label of the filter there. */
  lemma {:induction false} FilterLabelsAt(filters: seq<FilterConf>, i: nat)
    requires i < |filters|
    ensures FilterLabels(filters)[i] == FilterStr(i, filters[i])
  {
    var n := |filters| - 1;
    if i < n {
      FilterLabelsAt(filters[..n], i);
    }
  }

  /**
   * `int(label.split(".")[0]) - 1`: the list position a selected label
   * names. Only plain ASCII digits are read, which is all a label built by
   * `FilterStr` holds before its first dot; None stands for any other text
   * (Python's `int` would also accept signs, spaces and other digits, but
   * such text never reaches it, since the form accepts only its own labels).
   */
  function FilterIndex(text: string): (r: Option<int>)
    ensures r.Some? ==> r.value >= -1
  {
    match ParseNat(BeforeFirstDot(text))
    case Some(n) => Some(n - 1)
    case None => None
  }

  /** A label parses back to the position it was rendered for, whatever the entity id contains. */
  lemma FilterIndexOfFilterStr(index: nat, f: FilterConf)
    ensures FilterIndex(FilterStr(index, f)) == Some(index)
  {
    var number := NatToString(index + 1);
    var rest := " " + Render(f.entityId) + ", unit: " + Render(f.unit)
      + ", above: " + Render(f.above) + ", below: " + Render(f.below);
    assert FilterStr(index, f) == number + "." + rest;
    assert '.' !in number;
    BeforeFirstDotOfJoin(number, rest);
    ParseNatToString(index + 1);
  }

  /**
   * `[self.filters[i] for i in selected_indices]`: the filters the selected
   * labels name. The form only accepts labels it offered.
   */
  function PickFilters(filters: seq<FilterConf>, labels: seq<string>): (r: seq<FilterConf>)
    requires forall l :: l in labels ==> l in FilterLabels(filters)
    ensures |r| == |labels|
  {
    if labels == [] then []
    else
      LabelIndex(filters, labels[0]);
      assert forall l :: l in labels[1..] ==> l in labels;
      [filters[FilterIndex(labels[0]).value]] + PickFilters(filters, labels[1..])
  }

  /** An offered label parses to a position in the list. */
  lemma LabelIndex(filters: seq<FilterConf>, l: string)
    requires l in FilterLabels(filters)
    ensures FilterIndex(l).Some? && 0 <= FilterIndex(l).value < |filters|
  {
    var offered := FilterLabels(filters);
    var i :| 0 <= i < |offered| && offered[i] == l;
    FilterLabelsAt(filters, i);
    FilterIndexOfFilterStr(i, filters[i]);
  }

  /** Each selected label yields the filter it was rendered for. */
  lemma {:induction false} PickFiltersFacts(filters: seq<FilterConf>, labels: seq<string>)
    requires forall l :: l in labels ==> l in FilterLabels(filters)
    ensures forall k, i :: 0 <= k < |labels| && 0 <= i < |filters| && labels[k] == FilterStr(i, filters[i]) ==>
              PickFilters(filters, labels)[k] == filters[i]
  {
    forall k, i | 0 <= k < |labels| && 0 <= i < |filters| && labels[k] == FilterStr(i, filters[i])
      ensures PickFilters(filters, labels)[k] == filters[i]
    {
      PickFiltersAt(filters, labels, k);
      FilterIndexOfFilterStr(i, filters[i]);
    }
  }

  /** The `k`-th picked filter is the one at the position the `k`-th label parses to. */
  lemma {:induction false} PickFiltersAt(filters: seq<FilterConf>, labels: seq<string>, k: nat)
    requires forall l :: l in labels ==> l in FilterLabels(filters)
    requires k < |labels|
    ensures FilterIndex(labels[k]).Some? && 0 <= FilterIndex(labels[k]).value < |filters|
    ensures PickFilters(filters, labels)[k] == filters[FilterIndex(labels[k]).value]
    decreases k
  {
    var tail := labels[1..];
    assert forall l :: l in tail ==> l in labels;
    LabelIndex(filters, labels[k]);
    if k > 0 {
      assert labels[k] == tail[k - 1];
      PickFiltersAt(filters, tail, k - 1);
    }
  }

  // --------------------------------------------------- _create_grouped_options

  /** The group of an id in `_create_grouped_options`: its domain when it has a dot, none otherwise. */
  function GroupKey(item: string): Option<string> {
    if HasDot(item) then Some(BeforeFirstDot(item)) else None
  }

  /** The disabled header that opens the group of `domain`. */
  function GroupHeader(domain: string): SelectOption {
    SelectOption("__" + domain + "__", Rule + " " + Upper(domain) + " " + Rule, true, [])
  }

  /** The disabled separator before the ids without a domain. */
  function OtherSeparator(): SelectOption {
    SelectOption("__other__", Rule + " OTHER " + Rule, true, [])
  }

  /** A grouped id: its full id as value, its name indented as label. */
  function NamedOption(item: string): SelectOption {
    SelectOption(item, "  " + NameOf(item), false, [])
  }

  function NamedOptions(members: seq<string>): (r: seq<SelectOption>)
    ensures |r| == |members|
  {
    if members == [] then [] else NamedOptions(members[..|members| - 1]) + [NamedOption(members[|members| - 1])]
  }

  function PlainOptions(xs: seq<string>): (r: seq<SelectOption>)
    ensures |r| == |xs|
  {
    if xs == [] then [] else PlainOptions(xs[..|xs| - 1]) + [Plain(xs[|xs| - 1])]
  }

  /** The members of the group of `d`, sorted. */
  function GroupMembers(items: seq<string>, d: string): seq<string> {
    Sort(Select(items, GroupKey, d))
  }

  /** The headers and sorted members of the groups `ds`, one group after the other. */
  function GroupSections(items: seq<string>, ds: seq<string>): (r: seq<SelectOption>)
    ensures ds == [] <==> r == []
  {
    if ds == [] then []
    else
      var e := ds[|ds| - 1];
      GroupSections(items, ds[..|ds| - 1]) + ([GroupHeader(e)] + NamedOptions(GroupMembers(items, e)))
  }

  /** The ids without a domain, sorted, after the separator when groups precede them. */
  function OtherPart(items: seq<string>, afterGroups: bool): seq<SelectOption> {
    var others := Unkeyed(items, GroupKey);
    if others == [] then []
    else (if afterGroups then [OtherSeparator()] else []) + PlainOptions(Sort(others))
  }

  /** The list `_create_grouped_options` returns. */
  function GroupedOptions(items: seq<string>, groupByDomain: bool): seq<SelectOption> {
    if !groupByDomain then PlainOptions(Sort(items))
    else
      var ds := Sort(KeysInOrder(items, GroupKey));
      GroupSections(items, ds) + OtherPart(items, ds != [])
  }

  lemma {:induction false} PlainOptionsFacts(xs: seq<string>)
    ensures Selectable(PlainOptions(xs)) == xs
    ensures Headers(PlainOptions(xs)) == []
    ensures forall o :: o in PlainOptions(xs) ==> o.labelText == o.value && !o.disabled
  {
    if xs != [] {
      var q := xs[..|xs| - 1];
      PlainOptionsFacts(q);
      SelectableSnoc(PlainOptions(q), Plain(xs[|xs| - 1]));
      SplitLast(xs);
    }
  }

  lemma {:induction false} NamedOptionsFacts(members: seq<string>)
    ensures Selectable(NamedOptions(members)) == members
    ensures Headers(NamedOptions(members)) == []
    ensures forall o :: o in NamedOptions(members) ==> o.labelText == "  " + NameOf(o.value) && !o.disabled
  {
    if members != [] {
      var q := members[..|members| - 1];
      NamedOptionsFacts(q);
      SelectableSnoc(NamedOptions(q), NamedOption(members[|members| - 1]));
      SplitLast(members);
    }
  }

  /** One group: its header, then its members. */
  lemma GroupBlockFacts(e: string, members: seq<string>)
    ensures Selectable([GroupHeader(e)] + NamedOptions(members)) == members
    ensures Headers([GroupHeader(e)] + NamedOptions(members)) == ["__" + e + "__"]
  {
    NamedOptionsFacts(members);
    SelectableAppend([GroupHeader(e)], NamedOptions(members));
  }

  /** The groups offer the members of the groups `ds`. */
  lemma {:induction false} GroupSectionsMembers(items: seq<string>, ds: seq<string>)
    ensures multiset(Selectable(GroupSections(items, ds))) == Gathered(items, GroupKey, ds)
  {
    if ds != [] {
      var q, e := ds[..|ds| - 1], ds[|ds| - 1];
      var block := [GroupHeader(e)] + NamedOptions(GroupMembers(items, e));
      GroupSectionsMembers(items, q);
      GroupBlockFacts(e, GroupMembers(items, e));
      SelectableAppend(GroupSections(items, q), block);
    }
  }

  /** The groups open with one header each, in the order of `ds`. */
  lemma {:induction false} GroupSectionsHeaders(items: seq<string>, ds: seq<string>)
    ensures Headers(GroupSections(items, ds)) == HeaderValues(ds)
  {
    if ds != [] {
      var q, e := ds[..|ds| - 1], ds[|ds| - 1];
      var block := [GroupHeader(e)] + NamedOptions(GroupMembers(items, e));
      GroupSectionsHeaders(items, q);
      GroupBlockFacts(e, GroupMembers(items, e));
      SelectableAppend(GroupSections(items, q), block);
    }
  }

  /** Without grouping the list is the sorted ids, each its own label, and no header. */
  lemma UngroupedOptionsFacts(items: seq<string>)
    ensures Selectable(GroupedOptions(items, false)) == Sort(items)
    ensures Headers(GroupedOptions(items, false)) == []
    ensures forall o :: o in GroupedOptions(items, false) ==> o.labelText == o.value
  {
    PlainOptionsFacts(Sort(items));
  }

  /** The separator is a disabled entry. */
  lemma SeparatorFacts()
    ensures Selectable([OtherSeparator()]) == []
    ensures Headers([OtherSeparator()]) == ["__other__"]
  {
    assert [OtherSeparator()][1..] == [];
  }

  /** The ungrouped ids are offered in ascending order. */
  lemma OtherPartMembers(items: seq<string>, afterGroups: bool)
    ensures Selectable(OtherPart(items, afterGroups)) == Sort(Unkeyed(items, GroupKey))
  {
    var others := Unkeyed(items, GroupKey);
    if others != [] {
      var sep := if afterGroups then [OtherSeparator()] else [];
      PlainOptionsFacts(Sort(others));
      SeparatorFacts();
      SelectableAppend(sep, PlainOptions(Sort(others)));
    }
  }

  /** The separator comes before the ungrouped ids exactly when groups precede them. */
  lemma OtherPartHeaders(items: seq<string>, afterGroups: bool)
    ensures Headers(OtherPart(items, afterGroups))
         == if afterGroups && Unkeyed(items, GroupKey) != [] then ["__other__"] else []
  {
    var others := Unkeyed(items, GroupKey);
    if others != [] {
      var sep := if afterGroups then [OtherSeparator()] else [];
      PlainOptionsFacts(Sort(others));
      SeparatorFacts();
      SelectableAppend(sep, PlainOptions(Sort(others)));
    }
  }

  /** The list splits into the groups and the ungrouped ids. */
  lemma GroupedOptionsSplit(items: seq<string>)
    ensures Selectable(GroupedOptions(items, true))
         == Selectable(GroupSections(items, Sort(KeysInOrder(items, GroupKey)))) + Sort(Unkeyed(items, GroupKey))
    ensures Headers(GroupedOptions(items, true))
         == Headers(GroupSections(items, Sort(KeysInOrder(items, GroupKey))))
            + (if Sort(KeysInOrder(items, GroupKey)) != [] && Unkeyed(items, GroupKey) != [] then ["__other__"] else [])
  {
    var ds := Sort(KeysInOrder(items, GroupKey));
    OtherPartMembers(items, ds != []);
    OtherPartHeaders(items, ds != []);
    SelectableAppend(GroupSections(items, ds), OtherPart(items, ds != []));
  }

  /** With grouping every id is offered exactly as often as it occurs. */
  lemma GroupedOptionsMembers(items: seq<string>)
    ensures multiset(Selectable(GroupedOptions(items, true))) == multiset(items)
  {
    var ds := Sort(KeysInOrder(items, GroupKey));
    GroupedOptionsSplit(items);
    SortedKeysFacts(items, GroupKey);
    GroupSectionsMembers(items, ds);
  }

  /**
   * With grouping there is one header per domain, in ascending order, and the
   * `__other__` separator follows them exactly when there are both dotted and
   * undotted ids.
   */
  lemma GroupedOptionsHeaders(items: seq<string>)
    ensures Headers(GroupedOptions(items, true))
         == HeaderValues(Sort(KeysInOrder(items, GroupKey)))
            + (if SomeDotted(items) && SomeUndotted(items) then ["__other__"] else [])
  {
    var ds := Sort(KeysInOrder(items, GroupKey));
    GroupedOptionsSplit(items);
    GroupSectionsHeaders(items, ds);
    KeyedExists(items);
    UnkeyedExists(items);
  }

  /** Some input id has a dot. */
  predicate SomeDotted(items: seq<string>) {
    exists x :: x in items && HasDot(x)
  }

  /** Some input id has no dot. */
  predicate SomeUndotted(items: seq<string>) {
    exists x :: x in items && !HasDot(x)
  }

  /** Some id has a dot exactly when some group exists. */
  lemma KeyedExists(items: seq<string>)
    ensures SomeDotted(items) <==> Sort(KeysInOrder(items, GroupKey)) != []
  {
    SortedKeysMembers(items, GroupKey);
    if x :| x in items && HasDot(x) {
      KeyedMember(items, x);
      assert BeforeFirstDot(x) in Sort(KeysInOrder(items, GroupKey));
    }
    if Sort(KeysInOrder(items, GroupKey)) != [] {
      var d := Sort(KeysInOrder(items, GroupKey))[0];
      SelectMembers(items, GroupKey, d);
      var x := Select(items, GroupKey, d)[0];
      assert x in items && HasDot(x);
    }
  }

  /** Some id has no dot exactly when some id is left ungrouped. */
  lemma UnkeyedExists(items: seq<string>)
    ensures SomeUndotted(items) <==> Unkeyed(items, GroupKey) != []
  {
    UnkeyedMembers(items);
    if Unkeyed(items, GroupKey) != [] {
      assert Unkeyed(items, GroupKey)[0] in Unkeyed(items, GroupKey);
    }
  }

  /** A dotted input id is in the group of its domain. */
  lemma {:induction false} KeyedMember(items: seq<string>, x: string)
    requires x in items && HasDot(x)
    ensures x in Select(items, GroupKey, BeforeFirstDot(x))
  {
    var p, y := items[..|items| - 1], items[|items| - 1];
    SplitLast(items);
    SnocFacts(p, y, GroupKey);
    if x != y {
      KeyedMember(p, x);
    }
  }

  /** The ungrouped ids are exactly the undotted input ids. */
  lemma {:induction false} UnkeyedMembers(items: seq<string>)
    ensures forall x :: x in Unkeyed(items, GroupKey) <==> x in items && !HasDot(x)
  {
    if items != [] {
      var p, y := items[..|items| - 1], items[|items| - 1];
      SplitLast(items);
      SnocFacts(p, y, GroupKey);
      UnkeyedMembers(p);
    }
  }

  /**
   * The members of a group all carry its domain, and ascending full ids are
   * ascending names: sorting a group by full id, as the model does, orders
   * it as the source's sort by name.
   */
  lemma GroupSortedByName(items: seq<string>, d: string)
    ensures forall x :: x in GroupMembers(items, d) ==> HasDot(x) && BeforeFirstDot(x) == d
    ensures NamesAscending(GroupMembers(items, d))
  {
    var members := GroupMembers(items, d);
    SelectMembers(items, GroupKey, d);
    forall x | x in members ensures HasDot(x) && BeforeFirstDot(x) == d {
      assert x in multiset(members);
      assert GroupKey(x) == Some(d);
    }
    forall i, j | 0 <= i < j < |members|
      ensures Le(AfterFirstDot(members[i]), AfterFirstDot(members[j]))
    {
      SameDomainOrder(members[i], members[j]);
    }
  }

  /** Ids that all have a dot, in ascending order of the part after it. */
  ghost predicate NamesAscending(s: seq<string>) {
    (forall x :: x in s ==> HasDot(x)) &&
    forall i, j :: 0 <= i < j < |s| ==> Le(AfterFirstDot(s[i]), AfterFirstDot(s[j]))
  }

  /** The loop over one group: its header, then one option per member. */
  method AppendNamedOptions(options: seq<SelectOption>, members: seq<string>) returns (r: seq<SelectOption>)
    ensures r == options + NamedOptions(members)
  {
    r := options;
    var j := 0;
    while j < |members|
      invariant 0 <= j <= |members|
      invariant r == options + NamedOptions(members[..j])
    {
      var item := members[j];
      TakeSnoc(members, j);
      FrontOfSnoc(members[..j], item);
      ConcatAssoc(options, NamedOptions(members[..j]), [NamedOption(item)]);
      r := r + [NamedOption(item)];
      j := j + 1;
    }
    TakeAll(members);
  }

  /** The loop over the ungrouped ids: one option per id, its own label. */
  method AppendPlainOptions(options: seq<SelectOption>, xs: seq<string>) returns (r: seq<SelectOption>)
    ensures r == options + PlainOptions(xs)
  {
    r := options;
    var j := 0;
    while j < |xs|
      invariant 0 <= j <= |xs|
      invariant r == options + PlainOptions(xs[..j])
    {
      var item := xs[j];
      TakeSnoc(xs, j);
      FrontOfSnoc(xs[..j], item);
      ConcatAssoc(options, PlainOptions(xs[..j]), [Plain(item)]);
      r := r + [Plain(item)];
      j := j + 1;
    }
    TakeAll(xs);
  }

  lemma GroupSectionsStep(items: seq<string>, ds: seq<string>, e: string, group: seq<string>)
    requires group == Select(items, GroupKey, e)
    ensures (GroupSections(items, ds) + [GroupHeader(e)]) + NamedOptions(Sort(group)) == GroupSections(items, ds + [e])
  {
    FrontOfSnoc(ds, e);
    ConcatAssoc(GroupSections(items, ds), [GroupHeader(e)], NamedOptions(Sort(group)));
  }

  lemma OtherPartStep(items: seq<string>, options: seq<SelectOption>, afterGroups: bool, others: seq<string>)
    requires others == Unkeyed(items, GroupKey) && others != []
    ensures (options + (if afterGroups then [OtherSeparator()] else [])) + PlainOptions(Sort(others))
         == options + OtherPart(items, afterGroups)
  {
    ConcatAssoc(options, if afterGroups then [OtherSeparator()] else [], PlainOptions(Sort(others)));
  }

  /** `_create_grouped_options`. */
  method CreateGroupedOptions(items: seq<string>, groupByDomain: bool) returns (options: seq<SelectOption>)
    ensures options == GroupedOptions(items, groupByDomain)
  {
    if !groupByDomain {
      return PlainOptions(Sort(items));
    }
    var keys, grouped, otherItems := GroupByDomain(items, GroupKey);
    var domains := Sort(keys);
    options := [];
    var i := 0;
    while i < |domains|
      invariant 0 <= i <= |domains|
      invariant options == GroupSections(items, domains[..i])
    {
      var domain := domains[i];
      SortMember(keys, i);
      options := options + [GroupHeader(domain)];
      options := AppendNamedOptions(options, Sort(grouped[domain]));
      GroupSectionsStep(items, domains[..i], domain, grouped[domain]);
      TakeSnoc(domains, i);
      i := i + 1;
    }
    TakeAll(domains);
    if otherItems != [] {
      ghost var before := options;
      if options != [] {
        options := options + [OtherSeparator()];
      }
      options := AppendPlainOptions(options, Sort(otherItems));
      OtherPartStep(items, before, before != [], otherItems);
    }
  }

  // ------------------------------------------- _organize_services / _entities

  /** The groups of `ds`, each sorted, one after the other. */
  function Flattened(items: seq<string>, key: string -> Option<string>, ds: seq<string>): seq<string> {
    if ds == [] then []
    else Flattened(items, key, ds[..|ds| - 1]) + Sort(Select(items, key, ds[|ds| - 1]))
  }

  /** Ordered by group first, then by id: groups in the order of strictly ascending keys, each sorted. */
  ghost predicate GroupOrdered(key: string -> Option<string>, s: seq<string>) {
    forall i, j :: 0 <= i < j < |s| ==>
      key(s[i]).Some? && key(s[j]).Some? &&
      (Lt(key(s[i]).value, key(s[j]).value) || (key(s[i]) == key(s[j]) && Le(s[i], s[j])))
  }

  lemma {:induction false} FlattenedMembers(items: seq<string>, key: string -> Option<string>, ds: seq<string>)
    ensures multiset(Flattened(items, key, ds)) == Gathered(items, key, ds)
    ensures forall x :: x in Flattened(items, key, ds) ==> key(x).Some? && key(x).value in ds
  {
    if ds != [] {
      var q, e := ds[..|ds| - 1], ds[|ds| - 1];
      FlattenedMembers(items, key, q);
      SelectMembers(items, key, e);
      forall x | x in Sort(Select(items, key, e)) ensures key(x) == Some(e) {
        assert x in multiset(Sort(Select(items, key, e)));
      }
      SplitLast(ds);
    }
  }

  /** With strictly ascending keys, the flattened groups are ordered by group, then by id. */
  lemma {:induction false} FlattenedOrdered(items: seq<string>, key: string -> Option<string>, ds: seq<string>)
    requires StrictlySorted(ds)
    ensures GroupOrdered(key, Flattened(items, key, ds))
  {
    if ds != [] {
      var q, e := ds[..|ds| - 1], ds[|ds| - 1];
      var front, back := Flattened(items, key, q), Sort(Select(items, key, e));
      FlattenedOrdered(items, key, q);
      FlattenedMembers(items, key, q);
      SelectMembers(items, key, e);
      forall x | x in back ensures key(x) == Some(e) {
        assert x in multiset(back);
      }
      forall x | x in front ensures Lt(key(x).value, e) {
        var m :| 0 <= m < |q| && q[m] == key(x).value;
        assert ds[m] == q[m];
      }
      GroupOrderedAppend(key, front, back, e);
    }
  }

  /** A sorted group whose keys all exceed those before it extends an ordered list. */
  lemma GroupOrderedAppend(key: string -> Option<string>, front: seq<string>, back: seq<string>, e: string)
    requires GroupOrdered(key, front) && Sorted(back)
    requires forall x :: x in front ==> key(x).Some? && Lt(key(x).value, e)
    requires forall x :: x in back ==> key(x) == Some(e)
    ensures GroupOrdered(key, front + back)
  {
    var s := front + back;
    forall i, j | 0 <= i < j < |s|
      ensures key(s[i]).Some? && key(s[j]).Some? &&
              (Lt(key(s[i]).value, key(s[j]).value) || (key(s[i]) == key(s[j]) && Le(s[i], s[j])))
    {
      if j < |front| {
        assert s[i] == front[i] && s[j] == front[j];
      } else if i >= |front| {
        assert s[i] == back[i - |front|] && s[j] == back[j - |front|];
      } else {
        assert s[i] == front[i] && s[j] == back[j - |front|];
      }
    }
  }

  lemma FlattenedStep(items: seq<string>, key: string -> Option<string>, ds: seq<string>, e: string)
    ensures Flattened(items, key, ds) + Sort(Select(items, key, e)) == Flattened(items, key, ds + [e])
  {
    FrontOfSnoc(ds, e);
  }

  /** One more domain of `ds` extends the flattened prefix by that domain's sorted group. */
  lemma FlattenedAdvance(items: seq<string>, key: string -> Option<string>, ds: seq<string>, i: nat)
    requires i < |ds|
    ensures Flattened(items, key, ds[..i]) + Sort(Select(items, key, ds[i])) == Flattened(items, key, ds[..i + 1])
  {
    FlattenedStep(items, key, ds[..i], ds[i]);
    TakeSnoc(ds, i);
  }

  /** One more domain of `ds` records the size of that domain's group. */
  lemma CountsAdvance(items: seq<string>, key: string -> Option<string>, ds: seq<string>, i: nat)
    requires i < |ds|
    ensures CountsOf(items, key, ds[..i])[ds[i] := |Select(items, key, ds[i])|] == CountsOf(items, key, ds[..i + 1])
  {
    TakeSnoc(ds, i);
    FrontOfSnoc(ds[..i], ds[i]);
  }

  /** `_organize_services`: the services grouped by domain ("other" for undotted ones), each group sorted. */
  method OrganizeServices(services: seq<string>) returns (result: seq<string>)
    ensures result == Flattened(services, DomainOrOther, SortedDomains(services))
  {
    var keys, domainServices, _ := GroupByDomain(services, DomainOrOther);
    var domains := Sort(keys);
    result := [];
    var i := 0;
    while i < |domains|
      invariant 0 <= i <= |domains|
      invariant result == Flattened(services, DomainOrOther, domains[..i])
    {
      var domain := domains[i];
      SortMember(keys, i);
      FlattenedAdvance(services, DomainOrOther, domains, i);
      result := result + Sort(domainServices[domain]);
      i := i + 1;
    }
    TakeAll(domains);
  }

  /** The organised services are a permutation of the input, ordered by domain, then by id. */
  lemma OrganizedServicesFacts(services: seq<string>)
    ensures multiset(Flattened(services, DomainOrOther, SortedDomains(services))) == multiset(services)
    ensures GroupOrdered(DomainOrOther, Flattened(services, DomainOrOther, SortedDomains(services)))
  {
    SortedDomainsFacts(services);
    FlattenedMembers(services, DomainOrOther, SortedDomains(services));
    FlattenedOrdered(services, DomainOrOther, SortedDomains(services));
  }

  /** The domain of an entity in `_organize_entities_with_counts`: `entity.split(".")[0]`, the whole id when undotted. */
  function EntityDomain(entity: string): Option<string> {
    Some(BeforeFirstDot(entity))
  }

  function EntityDomains(entities: seq<string>): seq<string> {
    Sort(KeysInOrder(entities, EntityDomain))
  }

  /** `_organize_entities_with_counts`: the entities grouped by domain and sorted, and the size of each domain. */
  method OrganizeEntitiesWithCounts(entities: seq<string>) returns (result: seq<string>, counts: map<string, nat>)
    ensures result == Flattened(entities, EntityDomain, EntityDomains(entities))
    ensures counts == CountsOf(entities, EntityDomain, EntityDomains(entities))
  {
    var keys, domainEntities, _ := GroupByDomain(entities, EntityDomain);
    var domains := Sort(keys);
    result := [];
    counts := map[];
    var i := 0;
    while i < |domains|
      invariant 0 <= i <= |domains|
      invariant result == Flattened(entities, EntityDomain, domains[..i])
      invariant counts == CountsOf(entities, EntityDomain, domains[..i])
    {
      var domain := domains[i];
      SortMember(keys, i);
      FlattenedAdvance(entities, EntityDomain, domains, i);
      CountsAdvance(entities, EntityDomain, domains, i);
      result := result + Sort(domainEntities[domain]);
      counts := counts[domain := |domainEntities[domain]|];
      i := i + 1;
    }
    TakeAll(domains);
  }

  /**
   * The organised entities are a permutation of the input, ordered by domain,
   * then by id; each domain of an entity is counted, with the number of
   * entities in it, and the counts add up to the number of entities.
   */
  lemma OrganizedEntitiesFacts(entities: seq<string>)
    ensures multiset(Flattened(entities, EntityDomain, EntityDomains(entities))) == multiset(entities)
    ensures GroupOrdered(EntityDomain, Flattened(entities, EntityDomain, EntityDomains(entities)))
    ensures forall d :: d in CountsOf(entities, EntityDomain, EntityDomains(entities)) <==> Select(entities, EntityDomain, d) != []
    ensures forall d :: d in CountsOf(entities, EntityDomain, EntityDomains(entities)) ==>
              CountsOf(entities, EntityDomain, EntityDomains(entities))[d] == |Select(entities, EntityDomain, d)|
    ensures SumValues(CountsOf(entities, EntityDomain, EntityDomains(entities))) == |entities|
  {
    var ds := EntityDomains(entities);
    SortedKeysFacts(entities, EntityDomain);
    UnkeyedOfTotalKey(entities, EntityDomain);
    FlattenedMembers(entities, EntityDomain, ds);
    FlattenedOrdered(entities, EntityDomain, ds);
    CountsOfFacts(entities, EntityDomain, ds);
  }

  // ---------------------------------------------------- _domains_and_entities

  /**
   * The sorted entities and domains of `_domains_and_entities`. `remote` is
   * the set of entity names of the live connection, or None when the
   * connection is not available.
   */
  method DomainsAndEntities(remote: Option<set<string>>, includes: seq<string>, excludes: seq<string>)
    returns (domains: seq<string>, entities: seq<string>)
    ensures StrictlySorted(entities)
    ensures forall e :: e in entities <==> (remote.Some? && e in remote.value) || e in includes || e in excludes
    ensures StrictlySorted(domains)
    ensures forall d :: d in domains <==> exists e :: e in entities && HasDot(e) && BeforeFirstDot(e) == d
  {
    var includeEntities, excludeEntities := set e | e in includes, set e | e in excludes;
    var allEntities := match remote
      case Some(names) => names + includeEntities + excludeEntities
      case None => includeEntities + excludeEntities;
    entities := SortedElements(allEntities);
    domains := SortedElements(set e | e in allEntities && HasDot(e) :: BeforeFirstDot(e));
  }
}
