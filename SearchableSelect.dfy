/**
 * The state of the `SearchableSelect` web component of
 * frontend/searchable-select.js: the option list, the selected values and
 * the search term, with the operations the widget's buttons, checkboxes and
 * search box run on them. The selection is a JavaScript `Set`, which keeps
 * its members in insertion order; here it is a sequence without repeats.
 */
module SearchableSelect {
  import opened Wrappers
  import opened SeqFacts
  import opened Text
  import opened Sorting
  import opened Selector

  // ------------------------------------------------------------- selection

  /** `set.delete(v)`: the members other than `v`, in order. */
  function Remove(s: seq<string>, v: string): (r: seq<string>)
    ensures |r| <= |s|
  {
    if s == [] then []
    else (if s[0] == v then [] else [s[0]]) + Remove(s[1..], v)
  }

  /** `set.add(v)`: appended at the end unless already a member. */
  function Add(s: seq<string>, v: string): seq<string> {
    if v in s then s else s + [v]
  }

  /** `toggleItem`: drop a member, add a non-member. */
  function Toggled(s: seq<string>, v: string): seq<string> {
    if v in s then Remove(s, v) else Add(s, v)
  }

  /** `new Set(values)`: the values in order of first occurrence. */
  function Dedup(values: seq<string>): (r: seq<string>)
    decreases |values|
  {
    if values == [] then []
    else Add(Dedup(values[..|values| - 1]), values[|values| - 1])
  }

  lemma {:induction false} RemoveFacts(s: seq<string>, v: string)
    ensures forall x :: x in Remove(s, v) <==> x in s && x != v
    ensures Distinct(s) ==> Distinct(Remove(s, v))
  {
    if s != [] {
      RemoveFacts(s[1..], v);
      if Distinct(s) {
        var r := Remove(s, v);
        var head := if s[0] == v then [] else [s[0]];
        assert r == head + Remove(s[1..], v);
        assert Distinct(s[1..]);
        assert s[0] !in s[1..];
        forall i, j | 0 <= i < j < |r| ensures r[i] != r[j] {
          if i < |head| {
            assert r[j] == Remove(s[1..], v)[j - |head|];
          } else {
            assert r[i] == Remove(s[1..], v)[i - |head|] && r[j] == Remove(s[1..], v)[j - |head|];
          }
        }
      }
    }
  }

  lemma AddFacts(s: seq<string>, v: string)
    ensures forall x :: x in Add(s, v) <==> x in s || x == v
    ensures Distinct(s) ==> Distinct(Add(s, v))
    ensures IsPrefixOf(s, Add(s, v))
  {
  }

  /** `s` is an initial part of `t`: the members already there keep their places. */
  ghost predicate IsPrefixOf(s: seq<string>, t: seq<string>) {
    |s| <= |t| && t[..|s|] == s
  }

  /**
   * Toggling flips the membership of `v` and of nothing else, keeps the
   * selection free of repeats, and toggling twice gives back the same
   * members (a re-added value moves to the end).
   */
  lemma ToggleFacts(s: seq<string>, v: string)
    requires Distinct(s)
    ensures Distinct(Toggled(s, v))
    ensures v in Toggled(s, v) <==> v !in s
    ensures forall x :: x != v ==> (x in Toggled(s, v) <==> x in s)
    ensures forall x :: x in Toggled(Toggled(s, v), v) <==> x in s
  {
    RemoveFacts(s, v);
    AddFacts(s, v);
    RemoveFacts(Add(s, v), v);
    AddFacts(Remove(s, v), v);
  }

  /** The set built from a list holds each of its values exactly once. */
  lemma {:induction false} DedupFacts(values: seq<string>)
    ensures Distinct(Dedup(values))
    ensures forall x :: x in Dedup(values) <==> x in values
  {
    if values != [] {
      var p, x := values[..|values| - 1], values[|values| - 1];
      DedupFacts(p);
      AddFacts(Dedup(p), x);
      assert values == p + [x];
    }
  }

  /** Building the set from a list without repeats keeps the list as it is: setter after getter changes nothing. */
  lemma {:induction false} DedupOfDistinct(values: seq<string>)
    requires Distinct(values)
    ensures Dedup(values) == values
  {
    if values != [] {
      var p, x := values[..|values| - 1], values[|values| - 1];
      assert Distinct(p);
      DedupOfDistinct(p);
      assert x !in p;
      assert p + [x] == values;
    }
  }

  // --------------------------------------------------------------- filtering

  /**
   * An option stays visible under a non-empty search term when it is
   * disabled (a header) or its lower-cased label, its lower-cased value or
   * one of its search terms contains the term.
   */
  predicate Matches(o: SelectOption, term: string) {
    o.disabled
    || Contains(Lower(o.labelText), term)
    || Contains(Lower(o.value), term)
    || exists t :: t in o.searchTerms && Contains(t, term)
  }

  function FilterMatching(items: seq<SelectOption>, term: string): (r: seq<SelectOption>)
    ensures |r| <= |items|
  {
    if items == [] then []
    else (if Matches(items[0], term) then [items[0]] else []) + FilterMatching(items[1..], term)
  }

  /** `getFilteredItems`: every option while the term is empty, the matching ones otherwise. */
  function Filtered(items: seq<SelectOption>, term: string): seq<SelectOption> {
    if term == "" then items else FilterMatching(items, term)
  }

  /** `a` is `b` with some entries left out, the rest in their order. */
  predicate Subsequence(a: seq<SelectOption>, b: seq<SelectOption>)
    decreases |b|
  {
    if a == [] then true
    else if b == [] then false
    else (a[0] == b[0] && Subsequence(a[1..], b[1..])) || Subsequence(a, b[1..])
  }

  lemma {:induction false} SubsequenceRefl(a: seq<SelectOption>)
    ensures Subsequence(a, a)
  {
    if a != [] {
      SubsequenceRefl(a[1..]);
    }
  }

  /**
   * The filter keeps the options in order, drops none that match, and keeps
   * none that does not: headers always stay, and other options stay exactly
   * when the term occurs in their label, value or search terms.
   */
  lemma {:induction false} FilterMatchingFacts(items: seq<SelectOption>, term: string)
    ensures Subsequence(FilterMatching(items, term), items)
    ensures forall o :: o in FilterMatching(items, term) <==> o in items && Matches(o, term)
  {
    if items != [] {
      FilterMatchingFacts(items[1..], term);
      assert items == [items[0]] + items[1..];
      if Matches(items[0], term) {
        assert FilterMatching(items, term)[1..] == FilterMatching(items[1..], term);
      } else {
        assert FilterMatching(items, term) == FilterMatching(items[1..], term);
      }
    }
  }

  /** With an empty term every option is visible, as it is; otherwise the matching ones, in order. */
  lemma FilteredFacts(items: seq<SelectOption>, term: string)
    ensures term == "" ==> Filtered(items, term) == items
    ensures Subsequence(Filtered(items, term), items)
    ensures term != "" ==> forall o :: o in Filtered(items, term) <==> o in items && Matches(o, term)
  {
    SubsequenceRefl(items);
    FilterMatchingFacts(items, term);
  }

  /** The values `selectAll` adds: those of the enabled visible options, in list order. */
  function EnabledValues(items: seq<SelectOption>): (r: seq<string>)
    ensures |r| <= |items|
  {
    if items == [] then []
    else EnabledValues(items[..|items| - 1])
         + (if items[|items| - 1].disabled then [] else [items[|items| - 1].value])
  }

  /** The selection after adding `values` one after another. */
  function AddAll(s: seq<string>, values: seq<string>): seq<string>
    decreases |values|
  {
    if values == [] then s
    else Add(AddAll(s, values[..|values| - 1]), values[|values| - 1])
  }

  /**
   * `selectAll` keeps every earlier member where it was, adds the value of
   * every enabled visible option, and adds nothing else.
   */
  lemma {:induction false} AddAllFacts(s: seq<string>, values: seq<string>)
    requires Distinct(s)
    ensures Distinct(AddAll(s, values))
    ensures IsPrefixOf(s, AddAll(s, values))
    ensures forall x :: x in AddAll(s, values) <==> x in s || x in values
  {
    if values != [] {
      var p, v := values[..|values| - 1], values[|values| - 1];
      AddAllFacts(s, p);
      AddFacts(AddAll(s, p), v);
      assert values == p + [v];
    }
  }

  /** One more visible option adds its value, unless it is disabled. */
  lemma SelectAllStep(start: seq<string>, visible: seq<SelectOption>, k: nat)
    requires k < |visible|
    ensures AddAll(start, EnabledValues(visible[..k + 1]))
         == if visible[k].disabled then AddAll(start, EnabledValues(visible[..k]))
            else Add(AddAll(start, EnabledValues(visible[..k])), visible[k].value)
  {
    TakeSnoc(visible, k);
    FrontOfSnoc(visible[..k], visible[k]);
    var before := EnabledValues(visible[..k]);
    if !visible[k].disabled {
      assert EnabledValues(visible[..k + 1]) == before + [visible[k].value];
      FrontOfSnoc(before, visible[k].value);
    } else {
      assert EnabledValues(visible[..k + 1]) == before + [];
      assert before + [] == before;
    }
  }

  lemma {:induction false} EnabledValuesMembers(items: seq<SelectOption>)
    ensures forall x :: x in EnabledValues(items) <==> exists o :: o in items && !o.disabled && o.value == x
  {
    if items != [] {
      var p, o := items[..|items| - 1], items[|items| - 1];
      EnabledValuesMembers(p);
      assert items == p + [o];
    }
  }

  // ------------------------------------------------------------- the widget

  class Widget {
    /** `_items`: the options shown, headers included. */
    var items: seq<SelectOption>
    /** `_selected`: the selected values in insertion order. */
    var selection: seq<string>
    /** `_searchTerm`: the lower-cased text of the search box. */
    var searchTerm: string

    ghost predicate Valid()
      reads this
    {
      Distinct(selection)
    }

    constructor()
      ensures Valid()
      ensures items == [] && selection == [] && searchTerm == ""
    {
      items, selection, searchTerm := [], [], "";
    }

    /** The `items` setter: a missing list is an empty one. */
    method SetItems(value: Option<seq<SelectOption>>)
      modifies this
      ensures items == value.GetOr([])
      ensures selection == old(selection) && searchTerm == old(searchTerm)
    {
      items := value.GetOr([]);
    }

    /** The `selected` setter: a set built from the list, a missing list being an empty one. */
    method SetSelected(value: Option<seq<string>>)
      modifies this
      ensures Valid()
      ensures selection == Dedup(value.GetOr([]))
      ensures items == old(items) && searchTerm == old(searchTerm)
    {
      DedupFacts(value.GetOr([]));
      selection := Dedup(value.GetOr([]));
    }

    /** The `selected` getter: each selected value once, in insertion order. */
    function Selected(): (r: seq<string>)
      reads this
      requires Valid()
      ensures Distinct(r)
      ensures forall v :: v in r <==> v in selection
      ensures Dedup(r) == r
    {
      DedupOfDistinct(selection);
      selection
    }

    /** The search box's input handler. */
    method SetSearchTerm(input: string)
      modifies this
      ensures searchTerm == Lower(input)
      ensures Lower(searchTerm) == searchTerm
      ensures items == old(items) && selection == old(selection)
    {
      LowerIdempotent(input);
      searchTerm := Lower(input);
    }

    /** `getFilteredItems`. */
    function FilteredItems(): seq<SelectOption>
      reads this
    {
      Filtered(items, searchTerm)
    }

    method ToggleItem(value: string)
      requires Valid()
      modifies this
      ensures Valid()
      ensures selection == Toggled(old(selection), value)
      ensures value in selection <==> value !in old(selection)
      ensures forall x :: x != value ==> (x in selection <==> x in old(selection))
      ensures items == old(items) && searchTerm == old(searchTerm)
    {
      ToggleFacts(selection, value);
      if value in selection {
        selection := Remove(selection, value);
      } else {
        selection := selection + [value];
      }
    }

    method SelectNone()
      modifies this
      ensures Valid()
      ensures selection == []
      ensures items == old(items) && searchTerm == old(searchTerm)
    {
      selection := [];
    }

    /** Adds the value of every enabled option the search leaves visible. */
    method SelectAll()
      requires Valid()
      modifies this
      ensures Valid()
      ensures selection == AddAll(old(selection), EnabledValues(Filtered(items, searchTerm)))
      ensures IsPrefixOf(old(selection), selection)
      ensures forall x :: x in selection <==>
                x in old(selection) || exists o :: o in Filtered(items, searchTerm) && !o.disabled && o.value == x
      ensures items == old(items) && searchTerm == old(searchTerm)
    {
      var visibleItems := FilteredItems();
      ghost var start := selection;
      var k := 0;
      while k < |visibleItems|
        invariant 0 <= k <= |visibleItems|
        invariant selection == AddAll(start, EnabledValues(visibleItems[..k]))
        invariant items == old(items) && searchTerm == old(searchTerm)
      {
        var item := visibleItems[k];
        if !item.disabled {
          selection := Add(selection, item.value);
        }
        SelectAllStep(start, visibleItems, k);
        k := k + 1;
      }
      TakeAll(visibleItems);
      AddAllFacts(start, EnabledValues(visibleItems));
      EnabledValuesMembers(visibleItems);
    }
  }
}
