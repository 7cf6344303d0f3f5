/**
 * The filtering state of `FilterableRecycleAdapter`
 * (recycler/src/main/java/in/windrunner/android_toolbox/adapter/FilterableRecycleAdapter.kt):
 * the unfiltered item list, the last query remembered, and the list filter
 * that keeps, in order, the items matching a query.
 */
module FilterableAdapter {
  import opened Optional

  /** `FilterableItem.isMatchFilter` as items inherit it: every item matches every query. */
  function DefaultIsMatchFilter<T>(item: T, query: Option<string>): bool {
    true
  }

  /** `xs` is `ys` with some elements left out, the rest in their order. */
  ghost predicate IsSubsequence<T>(xs: seq<T>, ys: seq<T>)
    decreases |ys|
  {
    if ys == [] then xs == []
    else
      || (xs != [] && xs[0] == ys[0] && IsSubsequence(xs[1..], ys[1..]))
      || IsSubsequence(xs, ys[1..])
  }

  /** `items.filter { it.isMatchFilter(query) }`: only matching items, never more than there were. */
  function FilterItems<T>(items: seq<T>, query: Option<string>, isMatch: (T, Option<string>) -> bool)
    : (r: seq<T>)
    ensures |r| <= |items|
    ensures forall i :: 0 <= i < |r| ==> isMatch(r[i], query)
  {
    if items == [] then []
    else
      var rest := FilterItems(items[1..], query, isMatch);
      if isMatch(items[0], query) then [items[0]] + rest else rest
  }

  /** The filter keeps the items in their original order. */
  lemma {:induction false} FilterIsSubsequence<T>(items: seq<T>, query: Option<string>, isMatch: (T, Option<string>) -> bool)
    ensures IsSubsequence(FilterItems(items, query, isMatch), items)
  {
    if items != [] {
      FilterIsSubsequence(items[1..], query, isMatch);
      var rest := FilterItems(items[1..], query, isMatch);
      if isMatch(items[0], query) {
        assert ([items[0]] + rest)[1..] == rest;
      }
    }
  }

  /** Every matching item is kept as often as it occurs, every other one dropped. */
  lemma {:induction false} FilterCounts<T>(items: seq<T>, query: Option<string>, isMatch: (T, Option<string>) -> bool)
    ensures var r := FilterItems(items, query, isMatch);
      && multiset(r) <= multiset(items)
      && forall x :: x in items ==> multiset(r)[x] == if isMatch(x, query) then multiset(items)[x] else 0
  {
    if items != [] {
      FilterCounts(items[1..], query, isMatch);
      var rest := FilterItems(items[1..], query, isMatch);
      assert items == [items[0]] + items[1..];
      assert multiset(items) == multiset{items[0]} + multiset(items[1..]);
      var r := FilterItems(items, query, isMatch);
      if isMatch(items[0], query) {
        assert r == [items[0]] + rest;
        assert multiset(r) == multiset{items[0]} + multiset(rest);
      } else {
        assert r == rest;
      }
      forall x | x in items
        ensures multiset(r)[x] == if isMatch(x, query) then multiset(items)[x] else 0
      {
        if x != items[0] {
          assert x in items[1..];
        }
      }
    }
  }

  /** With the default match every item is kept. */
  lemma {:induction false} DefaultFilterKeepsAll<T>(items: seq<T>, query: Option<string>)
    ensures FilterItems(items, query, DefaultIsMatchFilter) == items
  {
    if items != [] {
      DefaultFilterKeepsAll(items[1..], query);
      assert items == [items[0]] + items[1..];
    }
  }

  /** Filtering what has been filtered with the same query changes nothing. */
  lemma {:induction false} FilterIdempotent<T>(items: seq<T>, query: Option<string>, isMatch: (T, Option<string>) -> bool)
    ensures FilterItems(FilterItems(items, query, isMatch), query, isMatch) == FilterItems(items, query, isMatch)
  {
    if items != [] {
      FilterIdempotent(items[1..], query, isMatch);
      var rest := FilterItems(items[1..], query, isMatch);
      if isMatch(items[0], query) {
        assert ([items[0]] + rest)[1..] == rest;
      }
    }
  }

  class FilterableRecycleAdapter<T> {
    /** `isMatchFilter` of the adapter's item type. */
    const isMatchFilter: (T, Option<string>) -> bool
    var nonFilteredList: seq<T>
    var lastFilterQuery: string
    /** The constraint most recently handed to `filterInstance.filter`, if any. */
    ghost var requestedQuery: Option<string>

    constructor (isMatchFilter: (T, Option<string>) -> bool)
      ensures this.isMatchFilter == isMatchFilter
      ensures nonFilteredList == [] && lastFilterQuery == "" && requestedQuery == None
    {
      this.isMatchFilter := isMatchFilter;
      nonFilteredList := [];
      lastFilterQuery := "";
      requestedQuery := None;
    }

    /**
     * `setNewItems`: replace the unfiltered list by `list` and filter again with
     * the remembered query.
     */
    method SetNewItems(list: seq<T>)
      modifies this
      ensures nonFilteredList == list
      ensures lastFilterQuery == old(lastFilterQuery)
      ensures requestedQuery == Some(old(lastFilterQuery))
      ensures PerformFiltering(requestedQuery) == FilterItems(list, Some(old(lastFilterQuery)), isMatchFilter)
    {
      nonFilteredList := [];
      nonFilteredList := nonFilteredList + list;
      Filter(None);
    }

    /**
     * `filter(query)`: a non-null query replaces the remembered one, a null one
     * keeps it; the filter then runs with the remembered query.
     */
    method Filter(query: Option<string>)
      modifies this`lastFilterQuery, this`requestedQuery
      ensures lastFilterQuery == if query.Some? then query.value else old(lastFilterQuery)
      ensures requestedQuery == Some(lastFilterQuery)
    {
      var newQuery := if query.Some? then query.value else lastFilterQuery;
      lastFilterQuery := newQuery;
      requestedQuery := Some(newQuery);
    }

    /**
     * `ListFilter.performFiltering`: the matching items of the unfiltered list,
     * in order; the list itself is only read.
     */
    function PerformFiltering(constraint: Option<string>): (r: seq<T>)
      reads this
      ensures IsSubsequence(r, nonFilteredList)
      ensures forall i :: 0 <= i < |r| ==> isMatchFilter(r[i], constraint)
      ensures forall x :: x in nonFilteredList ==>
        multiset(r)[x] == if isMatchFilter(x, constraint) then multiset(nonFilteredList)[x] else 0
    {
      FilterIsSubsequence(nonFilteredList, constraint, isMatchFilter);
      FilterCounts(nonFilteredList, constraint, isMatchFilter);
      FilterItems(nonFilteredList, constraint, isMatchFilter)
    }
  }
}
