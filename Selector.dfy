/**
 * The search-enabled select lists of search_selector.py: the selector
 * configuration, the list of options grouped by domain with a header per
 * domain and search metadata per item, and the list of domains with their
 * entity counts.
 */
module Selector {
  import opened Wrappers
  import opened SeqFacts
  import opened Text
  import opened Sorting
  import opened Grouping

  /**
   * One entry of a select list. A header or hint is `disabled`; a missing
   * `search_terms` field is the empty sequence.
   */
  datatype SelectOption = SelectOption(value: string, labelText: string, disabled: bool, searchTerms: seq<string>)

  /** The `{"select": {...}}` configuration handed to the host's selector. */
  datatype SelectorConfig = SelectorConfig(options: seq<SelectOption>, multiple: bool, mode: string, customValue: bool, sort: bool)

  /** An option whose value is also its label, as plain lists show them. */
  function Plain(item: string): SelectOption {
    SelectOption(item, item, false, [])
  }

  /** The values of the options that can be selected, in list order. */
  function Selectable(options: seq<SelectOption>): (r: seq<string>)
    ensures |r| <= |options|
  {
    if options == [] then []
    else (if options[0].disabled then [] else [options[0].value]) + Selectable(options[1..])
  }

  /** The values of the disabled entries (hint, headers, separators), in list order. */
  function Headers(options: seq<SelectOption>): (r: seq<string>)
    ensures |r| <= |options|
  {
    if options == [] then []
    else (if options[0].disabled then [options[0].value] else []) + Headers(options[1..])
  }

  lemma {:induction false} SelectableAppend(a: seq<SelectOption>, b: seq<SelectOption>)
    ensures Selectable(a + b) == Selectable(a) + Selectable(b)
    ensures Headers(a + b) == Headers(a) + Headers(b)
  {
    if a == [] {
      assert a + b == b;
    } else {
      var h := if a[0].disabled then [] else [a[0].value];
      var hh := if a[0].disabled then [a[0].value] else [];
      assert (a + b)[0] == a[0];
      assert (a + b)[1..] == a[1..] + b;
      SelectableAppend(a[1..], b);
      assert Selectable(a + b) == h + Selectable(a[1..] + b);
      assert Headers(a + b) == hh + Headers(a[1..] + b);
      ConcatAssoc(h, Selectable(a[1..]), Selectable(b));
      ConcatAssoc(hh, Headers(a[1..]), Headers(b));
    }
  }

  /** Appending one option adds its value to the selectable values or to the headers. */
  lemma SelectableSnoc(front: seq<SelectOption>, o: SelectOption)
    ensures Selectable(front + [o]) == Selectable(front) + (if o.disabled then [] else [o.value])
    ensures Headers(front + [o]) == Headers(front) + (if o.disabled then [o.value] else [])
  {
    assert Selectable([o]) == (if o.disabled then [] else [o.value]) by {
      assert [o][1..] == [];
    }
    assert Headers([o]) == (if o.disabled then [o.value] else []) by {
      assert [o][1..] == [];
    }
    SelectableAppend(front, [o]);
  }

  /** `create_searchable_selector`: the options unchanged under a fixed configuration. */
  function CreateSearchableSelector(options: seq<SelectOption>, selected: Option<seq<string>>, placeholder: string): (r: SelectorConfig)
    ensures r.options == options
    ensures r.multiple && r.mode == "dropdown" && !r.customValue && !r.sort
  {
    SelectorConfig(options, true, "dropdown", false, false)
  }

  /** The preselected values and the placeholder do not reach the configuration. */
  lemma SelectorIgnoresSelection(options: seq<SelectOption>, s1: Option<seq<string>>, p1: string, s2: Option<seq<string>>, p2: string)
    ensures CreateSearchableSelector(options, s1, p1) == CreateSearchableSelector(options, s2, p2)
  {
  }

  const SearchHintValue: string := "__search_hint__"

  function SearchHint(): SelectOption {
    SelectOption(SearchHintValue, "\U{1F50D} Type to search...", true, [])
  }

  /** The bucket of an id: the text before its first dot, or "other" for an id without a dot. */
  function DomainOrOther(item: string): Option<string> {
    Some(if HasDot(item) then BeforeFirstDot(item) else "other")
  }

  /** The part after the first dot, or the whole id when it has none. */
  function NameOf(item: string): string {
    if HasDot(item) then AfterFirstDot(item) else item
  }

  /** The friendly name an optional lookup gives; "" stands for None and for an empty answer. */
  function Friendly(getFriendlyName: Option<string -> string>, item: string): string {
    match getFriendlyName
    case Some(f) => f(item)
    case None => ""
  }

  const Rule: string := "\U{2501}\U{2501}\U{2501}"

  function HeaderLabel(domain: string, count: nat, showCounts: bool): string {
    Rule + " " + Upper(domain) + (if showCounts then " (" + NatToString(count) + " items) " + Rule else " " + Rule)
  }

  function DomainHeader(domain: string, count: nat, showCounts: bool): SelectOption {
    SelectOption("__" + domain + "__", HeaderLabel(domain, count, showCounts), true, [])
  }

  /** The option of one id in bucket `domain`, with its search terms. */
  function ItemOption(item: string, domain: string, friendly: string): SelectOption {
    var name := NameOf(item);
    SelectOption(
      item,
      "  " + name + (if friendly != "" && friendly != name then " (" + friendly + ")" else ""),
      false,
      [Lower(item), Lower(name), Lower(domain), if friendly != "" then Lower(friendly) else ""])
  }

  function ItemOptions(members: seq<string>, domain: string, getFriendlyName: Option<string -> string>): (r: seq<SelectOption>)
    ensures |r| == |members|
  {
    if members == [] then []
    else
      var last := members[|members| - 1];
      ItemOptions(members[..|members| - 1], domain, getFriendlyName)
        + [ItemOption(last, domain, Friendly(getFriendlyName, last))]
  }

  /** The header of `domain` followed by its ids in ascending order. */
  function Section(items: seq<string>, domain: string, showCounts: bool, getFriendlyName: Option<string -> string>): seq<SelectOption> {
    var members := Sort(Select(items, DomainOrOther, domain));
    [DomainHeader(domain, |members|, showCounts)] + ItemOptions(members, domain, getFriendlyName)
  }

  /** The sections of the domains `ds`, one after the other. */
  function Sections(items: seq<string>, ds: seq<string>, showCounts: bool, getFriendlyName: Option<string -> string>): seq<SelectOption> {
    if ds == [] then []
    else Sections(items, ds[..|ds| - 1], showCounts, getFriendlyName) + Section(items, ds[|ds| - 1], showCounts, getFriendlyName)
  }

  /** The domains of `items` in ascending order: `sorted(domain_items.keys())`. */
  function SortedDomains(items: seq<string>): seq<string> {
    Sort(KeysInOrder(items, DomainOrOther))
  }

  /** The item options of `members` offer exactly `members`, in order, and no header. */
  lemma {:induction false} ItemOptionsFacts(members: seq<string>, domain: string, g: Option<string -> string>)
    ensures Selectable(ItemOptions(members, domain, g)) == members
    ensures Headers(ItemOptions(members, domain, g)) == []
    ensures forall o :: o in ItemOptions(members, domain, g) ==>
              o.value in members && o == ItemOption(o.value, domain, Friendly(g, o.value))
  {
    ItemOptionsValues(members, domain, g);
    ItemOptionsShape(members, domain, g);
  }

  lemma {:induction false} ItemOptionsValues(members: seq<string>, domain: string, g: Option<string -> string>)
    ensures Selectable(ItemOptions(members, domain, g)) == members
    ensures Headers(ItemOptions(members, domain, g)) == []
  {
    if members != [] {
      var p, last := members[..|members| - 1], members[|members| - 1];
      var front, lastOption := ItemOptions(p, domain, g), ItemOption(last, domain, Friendly(g, last));
      ItemOptionsValues(p, domain, g);
      assert ItemOptions(members, domain, g) == front + [lastOption];
      SelectableSnoc(front, lastOption);
      SplitLast(members);
    }
  }

  lemma {:induction false} ItemOptionsShape(members: seq<string>, domain: string, g: Option<string -> string>)
    ensures forall o :: o in ItemOptions(members, domain, g) ==>
              o.value in members && o == ItemOption(o.value, domain, Friendly(g, o.value))
  {
    if members != [] {
      var p, last := members[..|members| - 1], members[|members| - 1];
      ItemOptionsShape(p, domain, g);
      SplitLast(members);
    }
  }

  /** The header values `__d__` of the domains `ds`, in order. */
  function HeaderValues(ds: seq<string>): (r: seq<string>)
    ensures |r| == |ds|
    ensures forall k :: 0 <= k < |ds| ==> r[k] == "__" + ds[k] + "__"
  {
    if ds == [] then [] else HeaderValues(ds[..|ds| - 1]) + ["__" + ds[|ds| - 1] + "__"]
  }

  lemma SectionFacts(items: seq<string>, e: string, showCounts: bool, g: Option<string -> string>)
    ensures Selectable(Section(items, e, showCounts, g)) == Sort(Select(items, DomainOrOther, e))
    ensures Headers(Section(items, e, showCounts, g)) == ["__" + e + "__"]
    ensures forall o :: o in Section(items, e, showCounts, g) && !o.disabled ==>
              o == ItemOption(o.value, e, Friendly(g, o.value)) && DomainOrOther(o.value) == Some(e)
  {
    var members := Sort(Select(items, DomainOrOther, e));
    var header := DomainHeader(e, |members|, showCounts);
    ItemOptionsFacts(members, e, g);
    SelectableAppend([header], ItemOptions(members, e, g));
    SelectMembers(items, DomainOrOther, e);
    forall o | o in ItemOptions(members, e, g) ensures DomainOrOther(o.value) == Some(e) {
      assert o.value in multiset(members);
    }
  }

  /**
   * A section opens with the disabled header `__d__`, labelled with the
   * upper-cased domain and, when counts are shown, the number of ids in it.
   */
  lemma SectionHeader(items: seq<string>, e: string, showCounts: bool, g: Option<string -> string>)
    ensures var h := Section(items, e, showCounts, g)[0];
            h.value == "__" + e + "__" && h.disabled
            && h.labelText == Rule + " " + Upper(e)
                              + (if showCounts then " (" + NatToString(|Select(items, DomainOrOther, e)|) + " items) " + Rule
                                 else " " + Rule)
  {
    SortLength(Select(items, DomainOrOther, e));
  }

  /**
   * An id's option is selectable, has the id as value, its name as label
   * with the friendly name added only when there is one that differs from
   * the name, and four lower-cased search terms.
   */
  lemma ItemOptionFacts(item: string, domain: string, friendly: string)
    ensures var o := ItemOption(item, domain, friendly);
            !o.disabled && o.value == item
            && IsPrefix("  " + NameOf(item), o.labelText)
            && (o.labelText == "  " + NameOf(item) <==> friendly == "" || friendly == NameOf(item))
            && |o.searchTerms| == 4
            && o.searchTerms[0] == Lower(item) && o.searchTerms[1] == Lower(NameOf(item))
            && o.searchTerms[2] == Lower(domain)
            && (friendly == "" ==> o.searchTerms[3] == "")
            && (friendly != "" ==> o.searchTerms[3] == Lower(friendly))
            && (friendly != "" && friendly != NameOf(item) ==> o.labelText == "  " + NameOf(item) + " (" + friendly + ")")
  {
    var name := "  " + NameOf(item);
    var suffix := if friendly != "" && friendly != NameOf(item) then " (" + friendly + ")" else "";
    var o := ItemOption(item, domain, friendly);
    assert o.labelText == name + suffix;
    PrefixOfConcat(name, suffix);
    if friendly != "" && friendly != NameOf(item) {
      assert |suffix| > 0;
    } else {
      assert name + suffix == name;
    }
  }

  lemma PrefixOfConcat(a: string, b: string)
    ensures IsPrefix(a, a + b)
    ensures a + b == a <==> b == ""
  {
    assert (a + b)[..|a|] == a;
    if a + b == a {
      assert |b| == 0;
    }
  }

  /**
   * What the sections of the domains `ds` contain: one header `__d__` per
   * domain in the given order, and every id of those domains exactly once as
   * a selectable option that its id determines.
   */
  lemma {:induction false} SectionsFacts(items: seq<string>, ds: seq<string>, showCounts: bool, g: Option<string -> string>)
    ensures multiset(Selectable(Sections(items, ds, showCounts, g))) == Gathered(items, DomainOrOther, ds)
    ensures Headers(Sections(items, ds, showCounts, g)) == HeaderValues(ds)
    ensures forall o :: o in Sections(items, ds, showCounts, g) && !o.disabled ==>
              o == ItemOption(o.value, DomainOrOther(o.value).value, Friendly(g, o.value))
  {
    if ds != [] {
      var q, e := ds[..|ds| - 1], ds[|ds| - 1];
      SectionsFacts(items, q, showCounts, g);
      SectionFacts(items, e, showCounts, g);
      var front, back := Sections(items, q, showCounts, g), Section(items, e, showCounts, g);
      SelectableAppend(front, back);
      assert Sections(items, ds, showCounts, g) == front + back;
      assert Gathered(items, DomainOrOther, ds) == Gathered(items, DomainOrOther, q) + multiset(Select(items, DomainOrOther, e));
      assert HeaderValues(ds) == HeaderValues(q) + ["__" + e + "__"];
    }
  }

  /** Every id has a bucket, so the sorted buckets are distinct, cover every id, and gather all ids. */
  lemma SortedDomainsFacts(items: seq<string>)
    ensures StrictlySorted(SortedDomains(items))
    ensures Distinct(SortedDomains(items))
    ensures forall d :: d in SortedDomains(items) <==> Select(items, DomainOrOther, d) != []
    ensures Gathered(items, DomainOrOther, SortedDomains(items)) == multiset(items)
  {
    SortedKeysFacts(items, DomainOrOther);
    UnkeyedOfTotalKey(items, DomainOrOther);
  }

  /**
   * The list `organize_options_by_domain` returns: the search hint, then per
   * domain in ascending order a header followed by that domain's ids in
   * ascending order.
   */
  function OrganizedOptions(items: seq<string>, getFriendlyName: Option<string -> string>, showCounts: bool): seq<SelectOption> {
    [SearchHint()] + Sections(items, SortedDomains(items), showCounts, getFriendlyName)
  }

  /**
   * The organised list starts with the hint, offers every input id exactly as
   * often as it occurs, has one header per domain in ascending order, and
   * each selectable option is the one its id determines.
   */
  lemma OrganizedOptionsFacts(items: seq<string>, g: Option<string -> string>, showCounts: bool)
    ensures OrganizedOptions(items, g, showCounts)[0] == SearchHint()
    ensures multiset(Selectable(OrganizedOptions(items, g, showCounts))) == multiset(items)
    ensures Headers(OrganizedOptions(items, g, showCounts)) == [SearchHintValue] + HeaderValues(SortedDomains(items))
    ensures forall o :: o in OrganizedOptions(items, g, showCounts) && !o.disabled ==>
              o == ItemOption(o.value, DomainOrOther(o.value).value, Friendly(g, o.value))
  {
    var sections := Sections(items, SortedDomains(items), showCounts, g);
    SortedDomainsFacts(items);
    SectionsFacts(items, SortedDomains(items), showCounts, g);
    SelectableAppend([SearchHint()], sections);
  }

  /** One pass of the domain loop: the header and the sorted ids of `e` go after the sections of `ds`. */
  lemma SectionsStep(items: seq<string>, ds: seq<string>, e: string, group: seq<string>, showCounts: bool,
                     g: Option<string -> string>, options: seq<SelectOption>, counts: map<string, nat>)
    requires options == [SearchHint()] + Sections(items, ds, showCounts, g)
    requires counts == CountsOf(items, DomainOrOther, ds)
    requires group == Select(items, DomainOrOther, e)
    ensures (options + [DomainHeader(e, |Sort(group)|, showCounts)]) + ItemOptions(Sort(group), e, g)
         == [SearchHint()] + Sections(items, ds + [e], showCounts, g)
    ensures counts[e := |Sort(group)|] == CountsOf(items, DomainOrOther, ds + [e])
  {
    SortLength(group);
    var header, entries := [DomainHeader(e, |Sort(group)|, showCounts)], ItemOptions(Sort(group), e, g);
    FrontOfSnoc(ds, e);
    assert Section(items, e, showCounts, g) == header + entries;
    calc {
      (options + header) + entries;
      { ConcatAssoc(options, header, entries); }
      options + Section(items, e, showCounts, g);
      { ConcatAssoc([SearchHint()], Sections(items, ds, showCounts, g), Section(items, e, showCounts, g)); }
      [SearchHint()] + Sections(items, ds + [e], showCounts, g);
    }
  }

  /** The inner loop of `organize_options_by_domain`: one option per id of a domain, appended in order. */
  method AppendItemOptions(options: seq<SelectOption>, members: seq<string>, domain: string, getFriendlyName: Option<string -> string>)
    returns (r: seq<SelectOption>)
    ensures r == options + ItemOptions(members, domain, getFriendlyName)
  {
    r := options;
    var j := 0;
    while j < |members|
      invariant 0 <= j <= |members|
      invariant r == options + ItemOptions(members[..j], domain, getFriendlyName)
    {
      var item := members[j];
      var next := ItemOption(item, domain, Friendly(getFriendlyName, item));
      TakeSnoc(members, j);
      FrontOfSnoc(members[..j], item);
      ConcatAssoc(options, ItemOptions(members[..j], domain, getFriendlyName), [next]);
      r := r + [next];
      j := j + 1;
    }
    TakeAll(members);
  }

  lemma OrganizedDone(items: seq<string>, counts: map<string, nat>)
    requires counts == CountsOf(items, DomainOrOther, SortedDomains(items))
    ensures forall d :: d in counts <==> Select(items, DomainOrOther, d) != []
    ensures forall d :: d in counts ==> counts[d] == |Select(items, DomainOrOther, d)|
    ensures SumValues(counts) == |items|
  {
    SortedDomainsFacts(items);
    CountsOfFacts(items, DomainOrOther, SortedDomains(items));
  }

  /**
   * `organize_options_by_domain`: the organised list, and the number of ids
   * per domain.
   */
  method OrganizeOptionsByDomain(items: seq<string>, getFriendlyName: Option<string -> string>, showCounts: bool)
    returns (options: seq<SelectOption>, counts: map<string, nat>)
    ensures options == OrganizedOptions(items, getFriendlyName, showCounts)
    ensures forall d :: d in counts <==> Select(items, DomainOrOther, d) != []
    ensures forall d :: d in counts ==> counts[d] == |Select(items, DomainOrOther, d)|
    ensures SumValues(counts) == |items|
  {
    var keys, groups, _ := GroupByDomain(items, DomainOrOther);
    var domains := Sort(keys);
    options := [SearchHint()];
    counts := map[];
    var i := 0;
    while i < |domains|
      invariant 0 <= i <= |domains|
      invariant options == [SearchHint()] + Sections(items, domains[..i], showCounts, getFriendlyName)
      invariant counts == CountsOf(items, DomainOrOther, domains[..i])
    {
      var domain := domains[i];
      SortMember(keys, i);
      var itemsInDomain := Sort(groups[domain]);
      ghost var before, countsBefore := options, counts;
      counts := counts[domain := |itemsInDomain|];
      options := options + [DomainHeader(domain, counts[domain], showCounts)];
      options := AppendItemOptions(options, itemsInDomain, domain, getFriendlyName);
      SectionsStep(items, domains[..i], domain, groups[domain], showCounts, getFriendlyName, before, countsBefore);
      TakeSnoc(domains, i);
      i := i + 1;
    }
    TakeAll(domains);
    OrganizedDone(items, counts);
  }

  /** `create_service_search_selector`: the organised services, with counts in the headers and no friendly names. */
  method CreateServiceSearchSelector(services: seq<string>, selected: Option<seq<string>>) returns (r: SelectorConfig)
    ensures r.options == OrganizedOptions(services, None, true)
    ensures r.multiple && r.mode == "dropdown" && !r.customValue && !r.sort
  {
    var options, _ := OrganizeOptionsByDomain(services, None, true);
    r := CreateSearchableSelector(options, selected, "Search services... (e.g. 'light.turn' or 'automation')");
  }

  /** `create_entity_search_selector`: the organised entities, with counts in the headers and the given friendly names. */
  method CreateEntitySearchSelector(entities: seq<string>, selected: Option<seq<string>>, getFriendlyName: Option<string -> string>)
    returns (r: SelectorConfig)
    ensures r.options == OrganizedOptions(entities, getFriendlyName, true)
    ensures r.multiple && r.mode == "dropdown" && !r.customValue && !r.sort
  {
    var options, _ := OrganizeOptionsByDomain(entities, getFriendlyName, true);
    r := CreateSearchableSelector(options, selected, "Search entities... (e.g. 'living room' or 'sensor.temp')");
  }

  function DomainSearchHint(): SelectOption {
    SelectOption(SearchHintValue, "\U{1F50D} Type to search domains...", true, [])
  }

  /** `entity_counts.get(domain, 0)`. */
  function CountOrZero(counts: map<string, int>, domain: string): int {
    if domain in counts then counts[domain] else 0
  }

  /** The option of one domain: its name, with its entity count in the label. */
  function DomainOption(domain: string, counts: map<string, int>): SelectOption {
    SelectOption(domain, domain + " (" + IntToString(CountOrZero(counts, domain)) + " entities)", false, [Lower(domain)])
  }

  function DomainOptions(ds: seq<string>, counts: map<string, int>): (r: seq<SelectOption>)
    ensures |r| == |ds|
  {
    if ds == [] then [] else DomainOptions(ds[..|ds| - 1], counts) + [DomainOption(ds[|ds| - 1], counts)]
  }

  /** The k-th domain option is the option of the k-th domain. */
  lemma {:induction false} DomainOptionsAt(ds: seq<string>, counts: map<string, int>)
    ensures forall k :: 0 <= k < |ds| ==> DomainOptions(ds, counts)[k] == DomainOption(ds[k], counts)
  {
    if ds != [] {
      var q, e := ds[..|ds| - 1], ds[|ds| - 1];
      var front := DomainOptions(q, counts);
      DomainOptionsAt(q, counts);
      assert DomainOptions(ds, counts) == front + [DomainOption(e, counts)];
      forall k | 0 <= k < |ds| ensures DomainOptions(ds, counts)[k] == DomainOption(ds[k], counts) {
        if k < |q| {
          assert DomainOptions(ds, counts)[k] == front[k];
          assert ds[k] == q[k];
        }
      }
    }
  }

  /** The domain options offer exactly `ds`, in order, and no header. */
  lemma {:induction false} DomainOptionsValues(ds: seq<string>, counts: map<string, int>)
    ensures Selectable(DomainOptions(ds, counts)) == ds
    ensures Headers(DomainOptions(ds, counts)) == []
  {
    if ds != [] {
      var q, e := ds[..|ds| - 1], ds[|ds| - 1];
      var last := DomainOption(e, counts);
      DomainOptionsValues(q, counts);
      assert DomainOptions(ds, counts) == DomainOptions(q, counts) + [last];
      SelectableSnoc(DomainOptions(q, counts), last);
      SplitLast(ds);
    }
  }

  /**
   * `create_domain_search_selector`: after the hint, one option per domain in
   * ascending order, labelled with its count (0 when the map has none).
   */
  method CreateDomainSearchSelector(domains: seq<string>, entityCounts: map<string, int>, selected: Option<seq<string>>)
    returns (r: SelectorConfig)
    ensures r.options == [DomainSearchHint()] + DomainOptions(Sort(domains), entityCounts)
    ensures r.multiple && r.mode == "dropdown" && !r.customValue && !r.sort
  {
    var sortedDomains := Sort(domains);
    var options := [DomainSearchHint()];
    var i := 0;
    while i < |sortedDomains|
      invariant 0 <= i <= |sortedDomains|
      invariant options == [DomainSearchHint()] + DomainOptions(sortedDomains[..i], entityCounts)
    {
      var domain := sortedDomains[i];
      var count := CountOrZero(entityCounts, domain);
      TakeSnoc(sortedDomains, i);
      FrontOfSnoc(sortedDomains[..i], domain);
      ConcatAssoc([DomainSearchHint()], DomainOptions(sortedDomains[..i], entityCounts), [DomainOption(domain, entityCounts)]);
      options := options + [SelectOption(domain, domain + " (" + IntToString(count) + " entities)", false, [Lower(domain)])];
      i := i + 1;
    }
    TakeAll(sortedDomains);
    r := CreateSearchableSelector(options, selected, "Search domains... (e.g. 'light' or 'sensor')");
  }

  /**
   * The domain selector offers each given domain as often as it is given, in
   * ascending order, after the hint; the option at position k + 1 is the one
   * of the k-th smallest domain, labelled with its count.
   */
  lemma DomainSelectorFacts(domains: seq<string>, entityCounts: map<string, int>)
    ensures Headers([DomainSearchHint()] + DomainOptions(Sort(domains), entityCounts)) == [SearchHintValue]
    ensures Selectable([DomainSearchHint()] + DomainOptions(Sort(domains), entityCounts)) == Sort(domains)
    ensures multiset(Sort(domains)) == multiset(domains) && Sorted(Sort(domains))
    ensures forall k :: 0 <= k < |Sort(domains)| ==>
              DomainOptions(Sort(domains), entityCounts)[k].labelText
              == Sort(domains)[k] + " (" + IntToString(CountOrZero(entityCounts, Sort(domains)[k])) + " entities)"
  {
    DomainOptionsAt(Sort(domains), entityCounts);
    DomainOptionsValues(Sort(domains), entityCounts);
    SelectableAppend([DomainSearchHint()], DomainOptions(Sort(domains), entityCounts));
  }
}
