/**
 * The menu page of src/pages/Menu/Menu.jsx: loading the item list from the
 * service and filtering it by the selected category.
 */
module MenuPage {
  import opened Wrappers
  import opened Js
  import opened Net

  /** The category that selects every item. */
  const All := "all"

  /** `item.category === selected`. */
  predicate InCategory(item: Json, selected: string)
  {
    Get(item, "category") == JStr(selected)
  }

  /** `items.filter(item => item.category === selected)` over items that are not `null`. */
  function Matching(items: seq<Json>, selected: string): seq<Json>
  {
    if items == [] then []
    else (if InCategory(items[0], selected) then [items[0]] else []) + Matching(items[1..], selected)
  }

  /**
   * `filteredItems`: the whole list for "all"; otherwise the items of the
   * selected category. Reading `category` of a `null` item throws a
   * `TypeError`.
   */
  function FilteredItems(items: seq<Json>, selected: string): (r: Result<seq<Json>>)
    ensures selected == All ==> r == Ok(items)
    ensures selected != All ==> (r.Ok? <==> JNull !in items)
    ensures r.Err? ==> r.error == NullPropertyRead
  {
    if selected == All then Ok(items)
    else if JNull in items then Err(NullPropertyRead)
    else Ok(Matching(items, selected))
  }

  /** `xs` is `ys` with some elements dropped, the rest kept in order. */
  predicate IsSubsequence(xs: seq<Json>, ys: seq<Json>)
    decreases |ys|
  {
    if xs == [] then true
    else if ys == [] then false
    else (xs[0] == ys[0] && IsSubsequence(xs[1..], ys[1..])) || IsSubsequence(xs, ys[1..])
  }

  lemma {:induction false} SubsequenceLength(xs: seq<Json>, ys: seq<Json>)
    requires IsSubsequence(xs, ys)
    ensures |xs| <= |ys|
    decreases |ys|
  {
    if xs != [] {
      if xs[0] == ys[0] && IsSubsequence(xs[1..], ys[1..]) {
        SubsequenceLength(xs[1..], ys[1..]);
      } else {
        SubsequenceLength(xs, ys[1..]);
      }
    }
  }

  /** The filtered list keeps the original order: it is a subsequence of the items. */
  lemma {:induction false} MatchingIsSubsequence(items: seq<Json>, selected: string)
    ensures IsSubsequence(Matching(items, selected), items)
    ensures |Matching(items, selected)| <= |items|
    decreases |items|
  {
    if items != [] {
      MatchingIsSubsequence(items[1..], selected);
      var rest := Matching(items[1..], selected);
      if InCategory(items[0], selected) {
        assert Matching(items, selected) == [items[0]] + rest;
        assert ([items[0]] + rest)[1..] == rest;
      } else {
        assert Matching(items, selected) == rest;
      }
    }
    SubsequenceLength(Matching(items, selected), items);
  }

  /**
   * The filtered list holds every item of the category as often as the
   * list does, and nothing else.
   */
  lemma {:induction false} MatchingCounts(items: seq<Json>, selected: string, x: Json)
    ensures multiset(Matching(items, selected))[x] == if InCategory(x, selected) then multiset(items)[x] else 0
    decreases |items|
  {
    if items != [] {
      MatchingCounts(items[1..], selected, x);
      assert items == [items[0]] + items[1..];
      assert multiset(items) == multiset([items[0]]) + multiset(items[1..]);
      var head := if InCategory(items[0], selected) then [items[0]] else [];
      assert multiset(Matching(items, selected)) == multiset(head) + multiset(Matching(items[1..], selected));
    }
  }

  /**
   * For any selection other than "all", and no `null` item, the result is
   * exactly the items of that category, in their original order.
   */
  lemma FilteredItemsExact(items: seq<Json>, selected: string)
    requires selected != All && JNull !in items
    ensures var r := FilteredItems(items, selected);
      && r.Ok? && IsSubsequence(r.value, items) && |r.value| <= |items|
      && (forall x :: multiset(r.value)[x] == if InCategory(x, selected) then multiset(items)[x] else 0)
  {
    MatchingIsSubsequence(items, selected);
    forall x ensures multiset(Matching(items, selected))[x] == if InCategory(x, selected) then multiset(items)[x] else 0 {
      MatchingCounts(items, selected, x);
    }
  }

  /** The request `loadItems` sends: a plain `GET` with the default fetch options. */
  const AllItemsRequest := Request("GET", "/api/all_items", map[], NoBody, "same-origin")

  /**
   * `Array.isArray(data) ? data : []`, where a failed fetch or an unparsable
   * body lands in the `catch` block and also yields the empty list. The
   * status is not looked at.
   */
  function Normalise(outcome: Result<Response>): (items: seq<Json>)
    ensures items != [] ==> outcome.Ok? && outcome.value.json == Some(JArr(items))
    ensures outcome.Ok? && outcome.value.json.Some? && outcome.value.json.value.JArr? ==>
      items == outcome.value.json.value.elems
  {
    if outcome.Err? then []
    else match outcome.value.json
      case Some(JArr(elems)) => elems
      case _ => []
  }

  /** The page's state. */
  class Menu {
    var selectedCategory: string
    var coffeeItems: seq<Json>
    var loading: bool

    constructor ()
      ensures selectedCategory == All && coffeeItems == [] && loading
    {
      selectedCategory := All;
      coffeeItems := [];
      loading := true;
    }

    /** The items on display. */
    function Visible(): Result<seq<Json>>
      reads this
    {
      FilteredItems(coffeeItems, selectedCategory)
    }

    /** A category button: selects its category; the list is left as it is. */
    method Select(category: string)
      modifies this
      ensures selectedCategory == category && coffeeItems == old(coffeeItems) && loading == old(loading)
      ensures Visible() == FilteredItems(coffeeItems, category)
    {
      selectedCategory := category;
    }

    /** `loadItems()`: fetch the list, keep it only if it is an array, and stop loading either way. */
    method LoadItems(net: Network)
      modifies this, net
      ensures net.sent == old(net.sent) + [AllItemsRequest]
      ensures coffeeItems == Normalise(net.respond(net.sent))
      ensures !loading && selectedCategory == old(selectedCategory)
    {
      loading := true;
      var outcome := net.Fetch(AllItemsRequest);
      if outcome.Err? || outcome.value.json.None? {
        coffeeItems := [];
      } else {
        var data := outcome.value.json.value;
        coffeeItems := if data.JArr? then data.elems else [];
      }
      loading := false;
    }
  }
}
