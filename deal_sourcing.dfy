/** The industry chips and the search flag of `src/routes/DealSourcing.tsx`. */
module DealSourcing {
  import opened Seqs

  function OtherTest(x: string): string -> bool {
    y => y != x
  }

  /** `toggleFilter(x)`: a selected filter is removed (every occurrence), an
      unselected one is appended. */
  function ToggleFilter(selected: seq<string>, x: string): seq<string> {
    if x in selected then Filter(selected, OtherTest(x)) else selected + [x]
  }

  predicate NoDuplicates(s: seq<string>) {
    forall i, j :: 0 <= i < j < |s| ==> s[i] != s[j]
  }

  /** Toggling a selected filter removes all of its occurrences and keeps
      every copy of each other filter, in order. */
  lemma ToggleOffRemoves(selected: seq<string>, x: string)
    requires x in selected
    ensures x !in ToggleFilter(selected, x)
    ensures IsSubsequence(ToggleFilter(selected, x), selected)
    ensures forall y :: y != x ==> (y in ToggleFilter(selected, x) <==> y in selected)
    ensures multiset(ToggleFilter(selected, x)) == multiset(selected)[x := 0]
  {
    FilterIsSubsequence(selected, OtherTest(x));
    FilterMultiset(selected, OtherTest(x));
    assert forall y :: multiset(ToggleFilter(selected, x))[y] == multiset(selected)[x := 0][y];
    forall y | y != x && y in selected ensures y in ToggleFilter(selected, x) {
      var i :| 0 <= i < |selected| && selected[i] == y;
    }
  }

  /** Toggling an unselected filter appends it at the end. */
  lemma ToggleOnAppends(selected: seq<string>, x: string)
    requires x !in selected
    ensures ToggleFilter(selected, x) == selected + [x]
  {
  }

  /** Toggling an unselected filter twice restores the list. */
  lemma ToggleTwiceRestores(selected: seq<string>, x: string)
    requires x !in selected
    ensures ToggleFilter(ToggleFilter(selected, x), x) == selected
  {
    var on := selected + [x];
    assert x in on;
    FilterAppend(selected, [x], OtherTest(x));
    FilterKeepsAll(selected, OtherTest(x));
    assert Filter([x], OtherTest(x)) == [];
  }

  /** A list without duplicates stays without duplicates. */
  lemma {:induction false} FilterKeepsNoDuplicates(s: seq<string>, p: string -> bool)
    requires NoDuplicates(s)
    ensures NoDuplicates(Filter(s, p))
    decreases |s|
  {
    if s != [] {
      FilterKeepsNoDuplicates(s[1..], p);
      if p(s[0]) {
        var r := Filter(s, p);
        assert r == [s[0]] + Filter(s[1..], p);
        assert s[0] !in s[1..];
        assert s[0] !in Filter(s[1..], p);
      }
    }
  }

  lemma ToggleKeepsNoDuplicates(selected: seq<string>, x: string)
    requires NoDuplicates(selected)
    ensures NoDuplicates(ToggleFilter(selected, x))
  {
    if x in selected {
      FilterKeepsNoDuplicates(selected, OtherTest(x));
    }
  }

  /** The page state this part of the page changes. */
  class DealSourcingPage {
    var selectedFilters: seq<string>
    var isSearching: bool

    constructor ()
      ensures selectedFilters == [] && !isSearching
    {
      selectedFilters := [];
      isSearching := false;
    }

    method Toggle(x: string)
      modifies this
      ensures selectedFilters == ToggleFilter(old(selectedFilters), x)
      ensures isSearching == old(isSearching)
    {
      selectedFilters := ToggleFilter(selectedFilters, x);
    }

    /** `handleSearch` before its delay. */
    method BeginSearch()
      modifies this
      ensures isSearching && selectedFilters == old(selectedFilters)
    {
      isSearching := true;
    }

    /** `handleSearch` after its delay. */
    method EndSearch()
      modifies this
      ensures !isSearching && selectedFilters == old(selectedFilters)
    {
      isSearching := false;
    }

    /** The whole of `handleSearch`: the flag goes up and comes down, nothing else changes. */
    method HandleSearch()
      modifies this
      ensures !isSearching && selectedFilters == old(selectedFilters)
    {
      BeginSearch();
      EndSearch();
    }
  }
}
