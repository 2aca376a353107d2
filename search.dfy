/**
 * The search dialog (src/components/dashboard/SearchDialog.jsx): a
 * case-insensitive substring filter over five fixed destinations, the
 * "No results found." state, and the click that closes the dialog, clears the
 * query and navigates to the item's route.
 *
 * Lower-casing is ASCII only (see `Text`).  Navigation is recorded as the list
 * of routes passed to `navigate`.
 */
module Search {
  import Text

  /** The names of `items`, in declaration order. */
  const Items: seq<string> := ["Dashboard", "Tasks", "Users", "Profile", "Account"]

  /** The filter's test: the lower-cased name includes the lower-cased query. */
  predicate Matches(name: string, query: string) {
    Text.Contains(Text.Lower(name), Text.Lower(query))
  }

  /** `items.filter(...)`: the matching items, in their original order. */
  function Filter(items: seq<string>, query: string): (r: seq<string>)
    ensures |r| <= |items|
    ensures forall x :: x in r <==> x in items && Matches(x, query)
    ensures forall x {:trigger multiset(r)[x]} :: multiset(r)[x] == if Matches(x, query) then multiset(items)[x] else 0
    decreases |items|
  {
    if items == [] then []
    else
      assert items == [items[0]] + items[1..];
      var rest := Filter(items[1..], query);
      if Matches(items[0], query) then [items[0]] + rest else rest
  }

  /** `sub` is `s` with some elements dropped and the rest kept in order. */
  predicate IsSubsequence(sub: seq<string>, s: seq<string>)
    decreases |s|
  {
    if sub == [] then true
    else if s == [] then false
    else (sub[0] == s[0] && IsSubsequence(sub[1..], s[1..])) || IsSubsequence(sub, s[1..])
  }

  /** The filter keeps the order of `items`: its result is a subsequence of them. */
  lemma {:induction false} FilterIsSubsequence(items: seq<string>, query: string)
    ensures IsSubsequence(Filter(items, query), items)
    decreases |items|
  {
    if items != [] {
      FilterIsSubsequence(items[1..], query);
      var rest := Filter(items[1..], query);
      if Matches(items[0], query) {
        assert ([items[0]] + rest)[1..] == rest;
      } else if rest != [] {
        assert IsSubsequence(rest, items[1..]);
      }
    }
  }

  /** The empty query is included in every name, so it keeps every item in order. */
  lemma {:induction false} EmptyQueryKeepsAll(items: seq<string>)
    ensures Filter(items, "") == items
    decreases |items|
  {
    if items != [] {
      EmptyQueryKeepsAll(items[1..]);
      Text.ContainsEmpty(Text.Lower(items[0]));
      assert Text.Lower("") == "";
      assert [items[0]] + items[1..] == items;
    }
  }

  /** Queries with the same lower-case form give the same result. */
  lemma {:induction false} FilterCaseInsensitive(items: seq<string>, q1: string, q2: string)
    requires Text.Lower(q1) == Text.Lower(q2)
    ensures Filter(items, q1) == Filter(items, q2)
    decreases |items|
  {
    if items != [] {
      FilterCaseInsensitive(items[1..], q1, q2);
    }
  }

  /** In particular, a query and its lower-case form give the same result. */
  lemma FilterIgnoresQueryCase(items: seq<string>, query: string)
    ensures Filter(items, query) == Filter(items, Text.Lower(query))
  {
    Text.LowerIdempotent(query);
    FilterCaseInsensitive(items, query, Text.Lower(query));
  }

  /** A name without the letter 't' in either case cannot match a query starting with "t". */
  lemma NoTNoMatch(name: string, query: string)
    requires Text.Lower(query) != [] && Text.Lower(query)[0] == 't'
    requires forall i :: 0 <= i < |name| ==> name[i] != 't' && name[i] != 'T'
    ensures !Matches(name, query)
  {
    if Matches(name, query) {
      Text.ContainsFirstChar(Text.Lower(name), Text.Lower(query));
    }
  }

  /** "account" has its only 't' last, so it does not include a query lower-casing to "ta". */
  lemma AccountDoesNotMatchTa(query: string)
    requires Text.Lower(query) == "ta"
    ensures !Matches("Account", query)
  {
    var lowered := Text.Lower("Account");
    assert forall i :: 0 <= i < |lowered| - 1 ==> lowered[i] != 't' by {
      forall i | 0 <= i < |lowered| - 1
        ensures lowered[i] != 't'
      {
        assert lowered[i] == Text.LowerChar("Account"[i]);
      }
    }
    forall i
      ensures !Text.OccursAt(lowered, "ta", i)
    {
      if 0 <= i && i + 2 <= |lowered| {
        assert lowered[i..i + 2][0] == lowered[i] != 't';
      }
    }
    Text.ContainsIff(lowered, "ta");
  }

  /** Of the five names, only "Tasks" matches a query that lower-cases to "ta". */
  lemma OnlyTasksMatchesTa(query: string)
    requires Text.Lower(query) == "ta"
    ensures Matches(Items[1], query)
    ensures forall j :: 0 <= j < |Items| && j != 1 ==> !Matches(Items[j], query)
  {
    assert "ta" <= Text.Lower("Tasks") by {
      assert Text.Lower("Tasks")[..2] == "ta";
    }
    NoTNoMatch("Dashboard", query);
    NoTNoMatch("Users", query);
    NoTNoMatch("Profile", query);
    AccountDoesNotMatchTa(query);
  }

  /** A list in which nothing matches filters to nothing. */
  lemma {:induction false} FilterNoneMatch(items: seq<string>, query: string)
    requires forall x :: x in items ==> !Matches(x, query)
    ensures Filter(items, query) == []
    decreases |items|
  {
    if items != [] {
      assert items[0] in items;
      FilterNoneMatch(items[1..], query);
    }
  }

  /** A list in which exactly the item at `k` matches filters to that item alone. */
  lemma {:induction false} FilterSingleMatch(items: seq<string>, query: string, k: nat)
    requires k < |items| && Matches(items[k], query)
    requires forall j :: 0 <= j < |items| && j != k ==> !Matches(items[j], query)
    ensures Filter(items, query) == [items[k]]
    decreases |items|
  {
    if k == 0 {
      FilterNoneMatch(items[1..], query);
    } else {
      FilterSingleMatch(items[1..], query, k - 1);
      assert !Matches(items[0], query);
    }
  }

  /**
   * "ta", "TA", "Ta" and "tA" all select "Tasks" alone: no other name contains
   * a 't' followed by an 'a'.
   */
  lemma TaSelectsOnlyTasks(query: string)
    requires Text.Lower(query) == "ta"
    ensures Filter(Items, query) == ["Tasks"]
  {
    OnlyTasksMatchesTa(query);
    FilterSingleMatch(Items, query, 1);
  }

  /** Both "ta" and "TA" lower-case to "ta", so both select only "Tasks". */
  lemma TaQueriesLowerToTa()
    ensures Text.Lower("ta") == "ta" && Text.Lower("TA") == "ta"
    ensures Filter(Items, "ta") == ["Tasks"] && Filter(Items, "TA") == ["Tasks"]
  {
    assert Text.Lower("ta") == "ta" && Text.Lower("TA") == "ta";
    TaSelectsOnlyTasks("ta");
    TaSelectsOnlyTasks("TA");
  }

  /** What the list area shows. */
  datatype ResultsView = Listing(names: seq<string>) | NoResults

  /** `filteredItems.length > 0 ? <list> : "No results found."` */
  function View(query: string): (v: ResultsView)
    ensures v.NoResults? <==> forall x :: x in Items ==> !Matches(x, query)
    ensures v.Listing? ==> v.names == Filter(Items, query) && v.names != []
  {
    var found := Filter(Items, query);
    EmptyIffNoneMatch(Items, query);
    if |found| > 0 then Listing(found) else NoResults
  }

  /** The filter comes back empty exactly when no item matches. */
  lemma EmptyIffNoneMatch(items: seq<string>, query: string)
    ensures Filter(items, query) == [] <==> forall x :: x in items ==> !Matches(x, query)
  {
    var found := Filter(items, query);
    if found != [] {
      assert found[0] in found;
    }
  }

  /** The route an item navigates to: "/" and the lower-cased name. */
  function RouteOf(name: string): (route: string)
    ensures |route| == |name| + 1 && route[0] == '/'
    ensures route[1..] == Text.Lower(name)
  {
    "/" + Text.Lower(name)
  }

  /** `route` is "/" followed by `name` lower-cased character by character. */
  lemma RouteIs(name: string, route: string)
    requires |route| == |name| + 1 && route[0] == '/'
    requires forall i :: 0 <= i < |name| ==> route[i + 1] == Text.LowerChar(name[i])
    ensures RouteOf(name) == route
  {
    assert route[1..] == Text.Lower(name);
  }

  /** The five destinations and their routes. */
  lemma ItemRoutes()
    ensures RouteOf("Dashboard") == "/dashboard"
    ensures RouteOf("Tasks") == "/tasks"
    ensures RouteOf("Users") == "/users"
    ensures RouteOf("Profile") == "/profile"
    ensures RouteOf("Account") == "/account"
  {
    RouteIs("Dashboard", "/dashboard");
    RouteIs("Tasks", "/tasks");
    RouteIs("Users", "/users");
    RouteIs("Profile", "/profile");
    RouteIs("Account", "/account");
  }

  /** No two destinations share a route. */
  lemma ItemRoutesDistinct()
    ensures forall i, j :: 0 <= i < j < |Items| ==> RouteOf(Items[i]) != RouteOf(Items[j])
  {
    ItemRoutes();
  }

  /** The search state: the dialog's `open`, the query, and the routes navigated to so far. */
  datatype SearchState = SearchState(open: bool, searchQuery: string, navigations: seq<string>)

  /**
   * Clicking the item at `index` of the list: close, clear the query, and
   * navigate to the item's route.  Only a listed item can be clicked.
   */
  function Select(s: SearchState, index: nat): (r: SearchState)
    requires index < |Filter(Items, s.searchQuery)|
    ensures !r.open && r.searchQuery == ""
    ensures r.navigations == s.navigations + [RouteOf(Filter(Items, s.searchQuery)[index])]
    ensures Filter(Items, s.searchQuery)[index] in Items
    ensures View(r.searchQuery) == Listing(Items)
  {
    EmptyQueryKeepsAll(Items);
    var item := Filter(Items, s.searchQuery)[index];
    SearchState(false, "", s.navigations + [RouteOf(item)])
  }

  /** The `SearchCommand` component. */
  class SearchCommand {
    var open: bool
    var searchQuery: string
    var navigations: seq<string>

    function State(): SearchState
      reads this
    {
      SearchState(open, searchQuery, navigations)
    }

    constructor ()
      ensures State() == SearchState(false, "", [])
    {
      open, searchQuery, navigations := false, "", [];
    }

    /** `filteredItems`, recomputed on each render. */
    function FilteredItems(): (r: seq<string>)
      reads this
      ensures forall x :: x in r <==> x in Items && Matches(x, searchQuery)
    {
      Filter(Items, searchQuery)
    }

    /** The "Search" button. */
    method OnSearchClick()
      modifies this
      ensures State() == old(State()).(open := true)
    {
      open := true;
    }

    /** The dialog's `onOpenChange`, which is `setOpen`; closing keeps the query. */
    method OnOpenChange(value: bool)
      modifies this
      ensures State() == old(State()).(open := value)
    {
      open := value;
    }

    /** The input's `onChange`. */
    method OnQueryChange(value: string)
      modifies this
      ensures State() == old(State()).(searchQuery := value)
    {
      searchQuery := value;
    }

    /** The `onClick` of the listed item at `index`. */
    method OnItemClick(index: nat)
      requires index < |FilteredItems()|
      modifies this
      ensures State() == Select(old(State()), index)
    {
      ghost var before := State();
      var item := FilteredItems()[index];
      open, searchQuery, navigations := false, "", navigations + [RouteOf(item)];
      assert State() == SearchState(false, "", before.navigations + [RouteOf(item)]);
    }
  }
}
