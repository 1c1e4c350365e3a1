/** The checklist screen's state (`ChecklistViewModel.kt`): a copy of the store's
    items, the search text and category the user picked, and the derived list
    shown on screen, filtered and ordered with open tasks first and, among them,
    the most urgent first. */
module Checklist {

  import opened Optional
  import opened Text
  import opened Collections
  import opened Models
  import opened Data

  // ---------------------------------------------------------------- ordering

  /** `compareBy { it.isCompleted }.thenByDescending { it.priority.ordinal }`:
      `a` may come before `b`. */
  predicate InOrder(a: ChecklistItem, b: ChecklistItem) {
    (!a.isCompleted && b.isCompleted) ||
    (a.isCompleted == b.isCompleted && Ordinal(a.priority) >= Ordinal(b.priority))
  }

  /** The comparator as one integer key: open before done, then HIGH before LOW. */
  function Rank(item: ChecklistItem): (r: int)
    ensures 0 <= r < 6
    ensures r < 3 <==> !item.isCompleted
  {
    (if item.isCompleted then 3 else 0) + (2 - Ordinal(item.priority))
  }

  /** Comparing ranks is the comparator: ascending rank is the sort order, and
      equal ranks are exactly the ties the stable sort keeps in input order. */
  lemma RankIsComparator(a: ChecklistItem, b: ChecklistItem)
    ensures Rank(a) <= Rank(b) <==> InOrder(a, b)
    ensures Rank(a) == Rank(b) <==> a.isCompleted == b.isCompleted && a.priority == b.priority
  {
    PriorityOrder(a.priority, b.priority);
  }

  /** `sortedWith(..)` on the checklist comparator: a stable sort. */
  function SortTasks(items: seq<ChecklistItem>): (r: seq<ChecklistItem>)
    ensures multiset(r) == multiset(items)
    ensures forall i, j :: 0 <= i < j < |r| ==> InOrder(r[i], r[j])
    ensures forall k :: WithKey(r, Rank, k) == WithKey(items, Rank, k)
  {
    var r := SortBy(items, Rank);
    assert forall i, j :: 0 <= i < j < |r| ==> InOrder(r[i], r[j]) by {
      forall i, j | 0 <= i < j < |r|
        ensures InOrder(r[i], r[j])
      {
        RankIsComparator(r[i], r[j]);
      }
    }
    r
  }

  /** A list in checklist order that keeps the input's order among ties is
      `SortTasks` of the input: the order on screen is fully determined. */
  lemma SortTasksUnique(items: seq<ChecklistItem>, r: seq<ChecklistItem>)
    requires forall i, j :: 0 <= i < j < |r| ==> InOrder(r[i], r[j])
    requires forall k :: WithKey(r, Rank, k) == WithKey(items, Rank, k)
    ensures r == SortTasks(items)
  {
    forall i, j | 0 <= i < j < |r|
      ensures Rank(r[i]) <= Rank(r[j])
    {
      RankIsComparator(r[i], r[j]);
    }
    StableSortUnique(items, r, Rank);
  }

  // ---------------------------------------------------------------- filtering

  /** The filter of `applyFilters` for an already lower-cased `query`: the query
      is empty or occurs in the lower-cased title or description, and the
      category is `"All"` or the item's own. */
  predicate Matches(item: ChecklistItem, query: string, category: string) {
    && (|query| == 0 || Contains(Lower(item.title), query) || Contains(Lower(item.description), query))
    && (category == ALL || item.category == category)
  }

  function Matcher(query: string, category: string): ChecklistItem -> bool {
    (item: ChecklistItem) => Matches(item, query, category)
  }

  /** `applyFilters()`: the matching items, each as often as in `items`, in
      checklist order, ties in their original order. */
  function FilterTasks(items: seq<ChecklistItem>, searchQuery: string, category: string): (r: seq<ChecklistItem>)
    ensures forall x :: x in r <==> x in items && Matches(x, Lower(searchQuery), category)
    ensures forall x :: multiset(r)[x] == if Matches(x, Lower(searchQuery), category) then multiset(items)[x] else 0
    ensures forall i, j :: 0 <= i < j < |r| ==> InOrder(r[i], r[j])
    ensures forall k :: WithKey(r, Rank, k) == WithKey(Keep(items, Matcher(Lower(searchQuery), category)), Rank, k)
  {
    var kept := Keep(items, Matcher(Lower(searchQuery), category));
    var r := SortTasks(kept);
    assert forall x :: multiset(r)[x] == if Matches(x, Lower(searchQuery), category) then multiset(items)[x] else 0 by {
      forall x
        ensures multiset(r)[x] == if Matches(x, Lower(searchQuery), category) then multiset(items)[x] else 0
      {
        KeepMultiplicity(items, Matcher(Lower(searchQuery), category), x);
      }
    }
    assert forall x :: x in r <==> x in kept by {
      forall x ensures x in r <==> x in kept {
        assert x in r <==> x in multiset(r);
      }
    }
    r
  }

  /** Filtering the shown list again with the same settings changes nothing. */
  lemma FilterTasksIdempotent(items: seq<ChecklistItem>, searchQuery: string, category: string)
    ensures FilterTasks(FilterTasks(items, searchQuery, category), searchQuery, category) ==
            FilterTasks(items, searchQuery, category)
  {
    FilterSortIdempotent(items, Matcher(Lower(searchQuery), category), Rank);
  }

  /** With no search text and the category `"All"`, every item is shown. */
  lemma FilterNothing(items: seq<ChecklistItem>)
    ensures multiset(FilterTasks(items, "", ALL)) == multiset(items)
    ensures FilterTasks(items, "", ALL) == SortTasks(items)
  {
    KeepAll(items, Matcher(Lower(""), ALL));
  }

  /** A completed HIGH task goes after the open ones, and an open HIGH task
      before an open LOW one. */
  lemma SortExample()
    ensures var done := ChecklistItem("a", "Book Venue", isCompleted := true, priority := HIGH);
      var low := ChecklistItem("b", "Book Florist", priority := LOW);
      var high := ChecklistItem("c", "Hire Photographer", priority := HIGH);
      SortTasks([done, low, high]) == [high, low, done]
  {
    var done := ChecklistItem("a", "Book Venue", isCompleted := true, priority := HIGH);
    var low := ChecklistItem("b", "Book Florist", priority := LOW);
    var high := ChecklistItem("c", "Hire Photographer", priority := HIGH);
    var s, r := [done, low, high], [high, low, done];
    assert Rank(high) == 0 && Rank(low) == 2 && Rank(done) == 3;
    forall k ensures WithKey(r, Rank, k) == WithKey(s, Rank, k) {
      WithKeyThree(high, low, done, Rank, k);
      WithKeyThree(done, low, high, Rank, k);
    }
    SortTasksUnique(s, r);
  }

  lemma WithKeyThree<T(!new)>(a: T, b: T, c: T, key: T -> int, k: int)
    ensures WithKey([a, b, c], key, k) ==
      (if key(a) == k then [a] else []) + (if key(b) == k then [b] else []) + (if key(c) == k then [c] else [])
  {
    WithKeyCons(c, [], key, k);
    WithKeyCons(b, [c], key, k);
    WithKeyCons(a, [b, c], key, k);
    assert [a] + ([b] + ([c] + [])) == [a, b, c];
  }

  // ---------------------------------------------------------------- categories, stats

  function CategoryOf(items: seq<ChecklistItem>): (cs: seq<string>)
    ensures |cs| == |items|
    ensures forall i :: 0 <= i < |items| ==> cs[i] == items[i].category
  {
    seq(|items|, i requires 0 <= i < |items| => items[i].category)
  }

  /** `getCategories()`: `"All"`, then every item category once, in increasing order. */
  function Categories(items: seq<ChecklistItem>): (r: seq<string>)
    ensures |r| >= 1 && r[0] == ALL
    ensures StrictlyIncreasing(r[1..])
    ensures forall c :: c in r[1..] <==> exists item :: item in items && item.category == c
  {
    var cs := CategoryOf(items);
    var sorted := SortedDistinct(cs);
    assert forall c :: c in cs <==> exists item :: item in items && item.category == c by {
      forall c ensures c in cs <==> exists item :: item in items && item.category == c {
        if c in cs {
          var i :| 0 <= i < |cs| && cs[i] == c;
          assert items[i] in items;
        }
      }
    }
    assert ([ALL] + sorted)[1..] == sorted;
    [ALL] + sorted
  }

  function IsDone(item: ChecklistItem): bool {
    item.isCompleted
  }

  /** `getCompletionStats()`: (number of completed items, number of items). */
  function CompletionStats(items: seq<ChecklistItem>): (r: (nat, nat))
    ensures r.0 <= r.1 == |items|
    ensures r.0 == |Keep(items, IsDone)|
    ensures r.0 == 0 <==> forall x :: x in items ==> !x.isCompleted
    ensures r.0 == r.1 <==> forall x :: x in items ==> x.isCompleted
  {
    CountIsKeepLength(items, IsDone);
    (Count(items, IsDone), |items|)
  }

  // ---------------------------------------------------------------- toggling

  function Flipped(item: ChecklistItem): (r: ChecklistItem)
    ensures r.isCompleted == !item.isCompleted
    ensures r.(isCompleted := item.isCompleted) == item
  {
    item.(isCompleted := !item.isCompleted)
  }

  /** `toggleItemCompletion(itemId)` on the store's list: the first item with that
      id is stored again with its completion flipped; an unknown id changes nothing. */
  function Toggle(items: seq<ChecklistItem>, id: string): (r: seq<ChecklistItem>)
    ensures |r| == |items|
    ensures forall i :: 0 <= i < |items| ==>
      r[i] == if i == IndexOfFirst(items, HasId(id)) then Flipped(items[i]) else items[i]
  {
    var found := Find(items, HasId(id));
    if found.None? then items
    else
      var index := IndexOfFirst(items, HasId(id));
      assert forall i :: 0 <= i < |items| ==>
        (i == index <==> items[i].id == id && forall j :: 0 <= j < i ==> items[j].id != id);
      Updated(items, Flipped(found.value))
  }

  /** Toggling the same id twice gives the list back. */
  lemma ToggleTwice(items: seq<ChecklistItem>, id: string)
    ensures Toggle(Toggle(items, id), id) == items
  {
    var once := Toggle(items, id);
    var index := IndexOfFirst(items, HasId(id));
    forall i | 0 <= i < |once|
      ensures HasId(id)(once[i]) == HasId(id)(items[i])
    {
    }
    SameIndexOfFirst(items, once, HasId(id));
  }

  /** Sequences that agree, position by position, on `p` have the same first index. */
  lemma {:induction false} SameIndexOfFirst<T(!new)>(a: seq<T>, b: seq<T>, p: T -> bool)
    requires |a| == |b|
    requires forall i :: 0 <= i < |a| ==> p(a[i]) == p(b[i])
    ensures IndexOfFirst(a, p) == IndexOfFirst(b, p)
  {
    if |a| > 0 && !p(a[0]) {
      SameIndexOfFirst(a[1..], b[1..], p);
    }
  }

  // ---------------------------------------------------------------- the view model

  class ChecklistViewModel {
    const store: DataManager
    var checklistItems: seq<ChecklistItem>
    var filteredItems: seq<ChecklistItem>
    var selectedCategory: string
    var searchQuery: string
    var isLoading: bool

    /** The shown list is always the filter of the loaded one. */
    ghost predicate Valid()
      reads this
    {
      filteredItems == FilterTasks(checklistItems, searchQuery, selectedCategory)
    }

    /** `init { loadChecklistItems() }` with the category `"All"` and no search text. */
    constructor (store: DataManager)
      ensures this.store == store
      ensures Valid() && !isLoading
      ensures selectedCategory == ALL && searchQuery == ""
      ensures checklistItems == store.checklistItems
    {
      this.store := store;
      selectedCategory := ALL;
      searchQuery := "";
      checklistItems := store.checklistItems;
      filteredItems := FilterTasks(store.checklistItems, "", ALL);
      isLoading := false;
    }

    /** Copies the store's items and recomputes the shown list. */
    method LoadChecklistItems()
      modifies this
      ensures Valid() && !isLoading
      ensures checklistItems == store.checklistItems
      ensures selectedCategory == old(selectedCategory) && searchQuery == old(searchQuery)
    {
      isLoading := true;
      checklistItems := store.GetChecklistItems();
      ApplyFilters();
      isLoading := false;
    }

    method ApplyFilters()
      modifies this`filteredItems
      ensures Valid()
    {
      filteredItems := FilterTasks(checklistItems, searchQuery, selectedCategory);
    }

    /** A new open item with the given fields is appended to the store; `id`
        stands for its fresh UUID. */
    method AddChecklistItem(id: string, title: string, description: string, category: string, priority: Priority)
      requires store.Valid()
      modifies this, store`checklistItems
      ensures store.Valid()
      ensures Valid() && !isLoading
      ensures store.checklistItems == old(store.checklistItems) +
        [ChecklistItem(id, title, description := description, category := category, priority := priority)]
      ensures checklistItems == store.checklistItems
      ensures selectedCategory == old(selectedCategory) && searchQuery == old(searchQuery)
    {
      var newItem := ChecklistItem(id, title, description := description, category := category, priority := priority);
      store.AddChecklistItem(newItem);
      LoadChecklistItems();
    }

    method UpdateChecklistItem(item: ChecklistItem)
      requires store.Valid()
      modifies this, store`checklistItems
      ensures store.Valid()
      ensures Valid() && !isLoading
      ensures store.checklistItems == Updated(old(store.checklistItems), item)
      ensures checklistItems == store.checklistItems
      ensures selectedCategory == old(selectedCategory) && searchQuery == old(searchQuery)
    {
      store.UpdateChecklistItem(item);
      LoadChecklistItems();
    }

    /** The item is looked up in this screen's copy; when the copy is the store's
        list, the store ends up as `Toggle` of it. An id not in the copy changes
        nothing at all. */
    method ToggleItemCompletion(itemId: string)
      requires store.Valid()
      modifies this, store`checklistItems
      ensures store.Valid()
      ensures Find(old(checklistItems), HasId(itemId)).None? ==>
        store.checklistItems == old(store.checklistItems) && checklistItems == old(checklistItems) &&
        filteredItems == old(filteredItems) && isLoading == old(isLoading)
      ensures Find(old(checklistItems), HasId(itemId)).Some? ==>
        && store.checklistItems == Updated(old(store.checklistItems), Flipped(Find(old(checklistItems), HasId(itemId)).value))
        && checklistItems == store.checklistItems
        && Valid() && !isLoading
      ensures old(checklistItems) == old(store.checklistItems) ==>
        store.checklistItems == Toggle(old(store.checklistItems), itemId)
      ensures selectedCategory == old(selectedCategory) && searchQuery == old(searchQuery)
    {
      var item := Find(checklistItems, HasId(itemId));
      if item.Some? {
        var updatedItem := Flipped(item.value);
        store.UpdateChecklistItem(updatedItem);
        LoadChecklistItems();
      }
    }

    method DeleteChecklistItem(itemId: string)
      requires store.Valid()
      modifies this, store`checklistItems
      ensures store.Valid()
      ensures Valid() && !isLoading
      ensures store.checklistItems == WithoutId(old(store.checklistItems), itemId)
      ensures checklistItems == store.checklistItems
      ensures selectedCategory == old(selectedCategory) && searchQuery == old(searchQuery)
    {
      store.DeleteChecklistItem(itemId);
      LoadChecklistItems();
    }

    method SetSearchQuery(query: string)
      modifies this`searchQuery, this`filteredItems
      ensures searchQuery == query && Valid()
    {
      searchQuery := query;
      ApplyFilters();
    }

    method SetSelectedCategory(category: string)
      modifies this`selectedCategory, this`filteredItems
      ensures selectedCategory == category && Valid()
    {
      selectedCategory := category;
      ApplyFilters();
    }

    function GetCategories(): seq<string>
      reads this
    {
      Categories(checklistItems)
    }

    function GetCompletionStats(): (nat, nat)
      reads this
    {
      CompletionStats(checklistItems)
    }
  }
}
