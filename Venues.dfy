/** The venue screen's state (`VenueViewModel.kt`): the catalogue, the search
    text, location, budget and capacity filters, and the derived list shown on
    screen, best rated first. Budgets and capacities are read out of the
    venues' display strings ("₹2,00,000 - ₹5,00,000", "200-500 guests"). */
module Venues {

  import opened Optional
  import opened Text
  import opened Collections
  import opened Models
  import opened Data

  /** What `extractBudgetFromRange` answers when it finds no number, and the
      budget filter's initial value. */
  const BUDGET_FALLBACK: (int, int) := (0, 1000000)

  /** What `extractCapacityFromRange` answers when it finds no number, and the
      capacity filter's initial value. */
  const CAPACITY_FALLBACK: (int, int) := (0, 1000)

  // ---------------------------------------------------------------- parsing ranges

  predicate IsBudgetChar(c: char) {
    IsDigit(c) || c == ','
  }

  predicate IsCapacityChar(c: char) {
    IsDigit(c) || c == '-'
  }

  predicate NotComma(c: char) {
    c != ','
  }

  predicate IsNonEmpty(s: string) {
    |s| > 0
  }

  /** `.map { it.replace(",", "").trim() }.filter { it.isNotEmpty() }`. */
  function BudgetTokens(parts: seq<string>): (tokens: seq<string>)
    ensures |tokens| <= |parts|
    ensures forall i :: 0 <= i < |tokens| ==> |tokens[i]| > 0
  {
    if |parts| == 0 then []
    else
      var t := Trim(Keep(parts[0], NotComma));
      (if |t| > 0 then [t] else []) + BudgetTokens(parts[1..])
  }

  /** `.mapNotNull { it.toIntOrNull() }`: the tokens that are `Int`s, as numbers. */
  function IntsOf(tokens: seq<string>): (ns: seq<int>)
    ensures |ns| <= |tokens|
    ensures forall i :: 0 <= i < |ns| ==> INT_MIN <= ns[i] <= INT_MAX
    ensures (forall i :: 0 <= i < |tokens| ==> AllDigits(tokens[i])) ==> forall i :: 0 <= i < |ns| ==> ns[i] >= 0
    ensures forall t :: t in tokens && ToIntOrNull(t).Some? ==> ToIntOrNull(t).value in ns
    ensures forall n :: n in ns ==> exists t :: t in tokens && ToIntOrNull(t) == Some(n)
  {
    if |tokens| == 0 then []
    else
      var rest := IntsOf(tokens[1..]);
      assert forall t :: t in tokens ==> t == tokens[0] || t in tokens[1..];
      match ToIntOrNull(tokens[0])
      case None => rest
      case Some(n) => [n] + rest
  }

  /** `mapNotNull` keeps the tokens' order: the numbers of two runs of tokens
      are the numbers of the first, then those of the second. */
  lemma {:induction false} IntsOfAppend(a: seq<string>, b: seq<string>)
    ensures IntsOf(a + b) == IntsOf(a) + IntsOf(b)
    decreases |a|
  {
    if |a| > 0 {
      assert (a + b)[1..] == a[1..] + b;
      IntsOfAppend(a[1..], b);
    } else {
      assert a + b == b;
    }
  }

  /** Each token contributes its number where it stands, or nothing when it is
      not an `Int`. */
  lemma IntsOfInPlace(before: seq<string>, t: string, after: seq<string>)
    ensures IntsOf(before + [t] + after) ==
      IntsOf(before) + (if ToIntOrNull(t).Some? then [ToIntOrNull(t).value] else []) + IntsOf(after)
  {
    IntsOfAppend(before + [t], after);
    IntsOfAppend(before, [t]);
    assert [t][1..] == [];
  }

  /** The first two numbers, the only one twice, or the fallback. */
  function RangeOf(numbers: seq<int>, fallback: (int, int)): (int, int) {
    if |numbers| >= 2 then (numbers[0], numbers[1])
    else if |numbers| == 1 then (numbers[0], numbers[0])
    else fallback
  }

  /** `extractBudgetFromRange`: every character but digits and commas is dropped
      (the dash between the two amounts included), the rest is split at `-`,
      commas removed, trimmed, and read as `Int`s. */
  function ExtractBudget(priceRange: string): (r: (int, int))
    ensures r == BUDGET_FALLBACK || 0 <= r.0 == r.1 <= INT_MAX
    ensures r.0 < r.1 ==> r == BUDGET_FALLBACK
    ensures var d := Keep(priceRange, IsDigit);
      r == if |d| > 0 && DecimalValue(d) <= INT_MAX then (DecimalValue(d) as int, DecimalValue(d) as int)
           else BUDGET_FALLBACK
  {
    BudgetIsDigitRun(priceRange);
    var numbers := IntsOf(BudgetTokens(Split(Keep(priceRange, IsBudgetChar), '-')));
    RangeOf(numbers, BUDGET_FALLBACK)
  }

  /** What the budget parser actually computes: all the digits of the price
      range read as one number, which a range like "₹2,00,000 - ₹5,00,000"
      makes larger than `Int.MAX_VALUE`, so that the fallback is used. */
  lemma BudgetIsDigitRun(priceRange: string)
    ensures var d := Keep(priceRange, IsDigit);
      IntsOf(BudgetTokens(Split(Keep(priceRange, IsBudgetChar), '-'))) ==
        if |d| > 0 && DecimalValue(d) <= INT_MAX then [DecimalValue(d) as int] else []
  {
    var kept := Keep(priceRange, IsBudgetChar);
    var d := Keep(priceRange, IsDigit);
    assert Split(kept, '-') == [kept] by {
      assert !IsBudgetChar('-');
    }
    assert Trim(Keep(kept, NotComma)) == d by {
      KeepKeep(priceRange, IsBudgetChar, NotComma, IsDigit);
      assert forall i :: 0 <= i < |d| ==> !IsWhitespace(d[i]) by {
        forall i | 0 <= i < |d| ensures !IsWhitespace(d[i]) {
          assert d[i] in d;
        }
      }
      TrimNoWhitespace(d);
    }
    BudgetTokensOne(kept);
    assert AllDigits(d) by {
      forall i | 0 <= i < |d| ensures IsDigit(d[i]) {
        assert d[i] in d;
      }
    }
    IntsOfOne(d);
  }

  lemma BudgetTokensOne(part: string)
    ensures var t := Trim(Keep(part, NotComma));
      BudgetTokens([part]) == if |t| > 0 then [t] else []
  {
    assert [part][1..] == [];
  }

  lemma IntsOfOne(token: string)
    requires AllDigits(token)
    ensures IntsOf(if |token| > 0 then [token] else []) ==
      if |token| > 0 && DecimalValue(token) <= INT_MAX then [DecimalValue(token) as int] else []
  {
    if |token| > 0 {
      assert [token][1..] == [];
    }
  }

  /** `extractCapacityFromRange`: every character but digits and `-` is dropped,
      the rest split at `-`, and the non-empty pieces read as `Int`s. */
  function ExtractCapacity(capacity: string): (r: (int, int))
    ensures 0 <= r.0 <= INT_MAX && 0 <= r.1 <= INT_MAX
  {
    var parts := Split(Keep(capacity, IsCapacityChar), '-');
    var tokens := Keep(parts, IsNonEmpty);
    assert forall i :: 0 <= i < |tokens| ==> AllDigits(tokens[i]) by {
      forall i, j | 0 <= i < |tokens| && 0 <= j < |tokens[i]|
        ensures IsDigit(tokens[i][j])
      {
        assert tokens[i] in parts;
        var k :| 0 <= k < |parts| && parts[k] == tokens[i];
        assert tokens[i][j] in parts[k];
        assert tokens[i][j] in Keep(capacity, IsCapacityChar) && tokens[i][j] != '-';
      }
    }
    RangeOf(IntsOf(tokens), CAPACITY_FALLBACK)
  }

  /** A capacity whose digits and dashes read `<low>-<high>`, whatever other
      text surrounds them ("200-500 guests", "200 - 500"), is the range from
      low to high. */
  lemma CapacityRoundTrip(capacity: string, low: string, high: string)
    requires Keep(capacity, IsCapacityChar) == low + "-" + high
    requires |low| > 0 && AllDigits(low) && DecimalValue(low) <= INT_MAX
    requires |high| > 0 && AllDigits(high) && DecimalValue(high) <= INT_MAX
    ensures ExtractCapacity(capacity) == (DecimalValue(low) as int, DecimalValue(high) as int)
  {
    SplitTwo(low, high);
    KeepAll([low, high], IsNonEmpty);
    IntsOfTwo(low, high);
  }

  /** Only the first two numbers count: digits and dashes reading
      `<low>-<high>-<rest>` ("100-200-300") give the range from low to high. */
  lemma CapacityFirstTwo(capacity: string, low: string, high: string, rest: string)
    requires Keep(capacity, IsCapacityChar) == low + "-" + high + "-" + rest
    requires |low| > 0 && AllDigits(low) && DecimalValue(low) <= INT_MAX
    requires |high| > 0 && AllDigits(high) && DecimalValue(high) <= INT_MAX
    ensures ExtractCapacity(capacity) == (DecimalValue(low) as int, DecimalValue(high) as int)
  {
    var tail := Keep(Split(rest, '-'), IsNonEmpty);
    var tokens := Keep(Split(low + "-" + high + "-" + rest, '-'), IsNonEmpty);
    assert tokens == [low, high] + tail by {
      TokensOfThree(low, high, rest);
    }
    assert IntsOf(tokens) == [DecimalValue(low) as int, DecimalValue(high) as int] + IntsOf(tail) by {
      IntsOfAppend([low, high], tail);
      IntsOfTwo(low, high);
    }
  }

  lemma TokensOfThree(low: string, high: string, rest: string)
    requires |low| > 0 && AllDigits(low) && |high| > 0 && AllDigits(high)
    ensures Keep(Split(low + "-" + high + "-" + rest, '-'), IsNonEmpty) ==
      [low, high] + Keep(Split(rest, '-'), IsNonEmpty)
  {
    DigitsHaveNoDash(low);
    DigitsHaveNoDash(high);
    assert Split(low + "-" + high + "-" + rest, '-') == [low, high] + Split(rest, '-') by {
      assert low + "-" + high + "-" + rest == low + ['-'] + (high + ['-'] + rest);
      SplitPrefix(low, '-', high + ['-'] + rest);
      SplitPrefix(high, '-', rest);
    }
    KeepAppend([low, high], Split(rest, '-'), IsNonEmpty);
    KeepAll([low, high], IsNonEmpty);
  }

  /** A number too large for an `Int` is dropped by `toIntOrNull`, so digits
      and dashes reading `<big>-<n>` ("99999999999-500") give n twice. */
  lemma CapacitySkipsOverflow(capacity: string, big: string, n: string)
    requires Keep(capacity, IsCapacityChar) == big + "-" + n
    requires |big| > 0 && AllDigits(big) && DecimalValue(big) > INT_MAX
    requires |n| > 0 && AllDigits(n) && DecimalValue(n) <= INT_MAX
    ensures ExtractCapacity(capacity) == (DecimalValue(n) as int, DecimalValue(n) as int)
  {
    SplitTwo(big, n);
    KeepAll([big, n], IsNonEmpty);
    assert ToIntOrNull(big) == None;
    assert [big, n][1..] == [n];
    IntsOfOne(n);
  }

  lemma DigitsHaveNoDash(s: string)
    requires AllDigits(s)
    ensures '-' !in s
  {
    assert forall i :: 0 <= i < |s| ==> s[i] != '-';
  }

  lemma SplitTwo(low: string, high: string)
    requires AllDigits(low) && AllDigits(high)
    ensures Split(low + "-" + high, '-') == [low, high]
  {
    DigitsHaveNoDash(low);
    DigitsHaveNoDash(high);
    assert low + "-" + high == low + ['-'] + high;
    SplitPrefix(low, '-', high);
  }

  lemma CapacityCharsKept(low: string, high: string, suffix: string)
    requires AllDigits(low) && AllDigits(high)
    requires forall c :: c in suffix ==> !IsCapacityChar(c)
    ensures Keep(low + "-" + high + suffix, IsCapacityChar) == low + "-" + high
  {
    var s := low + "-" + high;
    assert forall c :: c in s ==> IsCapacityChar(c) by {
      forall c | c in s ensures IsCapacityChar(c) {
        if c in low {
          var i :| 0 <= i < |low| && low[i] == c;
        } else if c in high {
          var i :| 0 <= i < |high| && high[i] == c;
        }
      }
    }
    KeepAppend(s, suffix, IsCapacityChar);
    KeepNone(suffix, IsCapacityChar);
    KeepAll(s, IsCapacityChar);
  }

  lemma IntsOfTwo(low: string, high: string)
    requires |low| > 0 && AllDigits(low) && DecimalValue(low) <= INT_MAX
    requires |high| > 0 && AllDigits(high) && DecimalValue(high) <= INT_MAX
    ensures IntsOf([low, high]) == [DecimalValue(low) as int, DecimalValue(high) as int]
  {
    assert [low, high][1..] == [high];
    assert [high][1..] == [];
  }

  /** A capacity with no digit at all ("to be confirmed") reads as the
      fallback (0, 1000): only dashes survive, and they split into empty
      pieces. */
  lemma CapacityNoNumber(capacity: string)
    requires forall c :: c in capacity ==> !IsDigit(c)
    ensures ExtractCapacity(capacity) == CAPACITY_FALLBACK
  {
    var kept := Keep(capacity, IsCapacityChar);
    var parts := Split(kept, '-');
    assert forall i :: 0 <= i < |parts| ==> parts[i] == "" by {
      forall i | 0 <= i < |parts| ensures parts[i] == "" {
        assert forall c :: c in parts[i] ==> c in kept && c != '-';
        HeadIsMember(parts[i]);
      }
    }
    assert Keep(parts, IsNonEmpty) == [] by {
      KeepNone(parts, IsNonEmpty);
    }
  }

  lemma HeadIsMember(s: string)
    ensures |s| > 0 ==> s[0] in s
  {
  }

  /** A capacity with a single number among its digits and dashes
      ("500 guests", "Up to 500") reads as that number twice. */
  lemma CapacityOneNumber(capacity: string, n: string)
    requires Keep(capacity, IsCapacityChar) == n
    requires |n| > 0 && AllDigits(n) && DecimalValue(n) <= INT_MAX
    ensures ExtractCapacity(capacity) == (DecimalValue(n) as int, DecimalValue(n) as int)
  {
    DigitsHaveNoDash(n);
    KeepAll([n], IsNonEmpty);
    IntsOfOne(n);
  }

  /** The catalogue's first capacity, "200-500 guests", is the range 200 to 500. */
  lemma CapacitySample()
    ensures ExtractCapacity("200" + "-" + "500" + " guests") == (200, 500)
  {
    assert DecimalValue("200") == 200 by {
      assert "200"[..2] == "20" && "20"[..1] == "2" && "2"[..0] == "";
    }
    assert DecimalValue("500") == 500 by {
      assert "500"[..2] == "50" && "50"[..1] == "5" && "5"[..0] == "";
    }
    CapacityCharsKept("200", "500", " guests");
    CapacityRoundTrip("200" + "-" + "500" + " guests", "200", "500");
  }

  /** A price range with eleven digits or more, the first not 0, makes a
      number above `Int.MAX_VALUE`, so its budget is the fallback. */
  lemma LongDigitRunFallsBack(priceRange: string)
    requires var d := Keep(priceRange, IsDigit); |d| >= 11 && d[0] != '0'
    ensures ExtractBudget(priceRange) == BUDGET_FALLBACK
  {
    var d := Keep(priceRange, IsDigit);
    assert AllDigits(d) by {
      forall i | 0 <= i < |d| ensures IsDigit(d[i]) {
        assert d[i] in d;
      }
    }
    DecimalValueAtLeast(d);
    Pow10Monotone(10, |d| - 1);
    assert Pow10(10) == 10000000000;
    BudgetIsDigitRun(priceRange);
  }

  /** The catalogue's price ranges are written "₹<low> - ₹<high>" with the
      amounts in digits and commas ("₹2,00,000 - ₹5,00,000"). Whenever the two
      amounts have eleven digits or more together, the whole range is read as
      one overlong number and the budget is the fallback, not (low, high). */
  lemma RupeeRangeFallsBack(low: string, high: string)
    requires var d := Keep(low, IsDigit); |d| > 0 && d[0] != '0'
    requires |Keep(low, IsDigit)| + |Keep(high, IsDigit)| >= 11
    ensures ExtractBudget("₹" + low + " - ₹" + high) == BUDGET_FALLBACK
  {
    RangeDigits("₹", low, " - ₹", high);
    LongDigitRunFallsBack("₹" + low + " - ₹" + high);
  }

  /** The digits of `<pre><low><mid><high>`, with no digit in `pre` or `mid`. */
  lemma RangeDigits(pre: string, low: string, mid: string, high: string)
    requires forall c :: c in pre ==> !IsDigit(c)
    requires forall c :: c in mid ==> !IsDigit(c)
    ensures Keep(pre + low + mid + high, IsDigit) == Keep(low, IsDigit) + Keep(high, IsDigit)
  {
    var a := pre + low;
    var b := a + mid;
    assert Keep(pre, IsDigit) == [] by {
      KeepNone(pre, IsDigit);
    }
    assert Keep(mid, IsDigit) == [] by {
      KeepNone(mid, IsDigit);
    }
    assert Keep(a, IsDigit) == Keep(low, IsDigit) by {
      KeepAppend(pre, low, IsDigit);
    }
    assert Keep(b, IsDigit) == Keep(low, IsDigit) by {
      KeepAppend(a, mid, IsDigit);
    }
    KeepAppend(b, high, IsDigit);
  }

  // ---------------------------------------------------------------- filtering

  /** The filter of `applyFilters` for an already lower-cased `query`: the
      search text, the location (case-insensitively, `"All"` for any), and the
      budget and capacity ranges, which a venue passes when its own range
      overlaps them. */
  predicate VenueMatches(v: Venue, query: string, location: string, budget: (int, int), capacity: (int, int)) {
    && (|query| == 0 || Contains(Lower(v.name), query) || Contains(Lower(v.location), query) ||
        Contains(Lower(v.description), query))
    && (location == ALL || Contains(Lower(v.location), Lower(location)))
    && ExtractBudget(v.priceRange).0 <= budget.1 && ExtractBudget(v.priceRange).1 >= budget.0
    && ExtractCapacity(v.capacity).0 <= capacity.1 && ExtractCapacity(v.capacity).1 >= capacity.0
  }

  function VenueMatcher(query: string, location: string, budget: (int, int), capacity: (int, int)): Venue -> bool {
    (v: Venue) => VenueMatches(v, query, location, budget, capacity)
  }

  /** `sortedByDescending { it.rating }` sorts ascending on the negated rating. */
  function NegRating(v: Venue): int {
    -v.rating
  }

  /** `applyFilters()`: the matching venues, each as often as in `venues`, best
      rated first, equally rated ones in catalogue order. */
  function FilterVenues(venues: seq<Venue>, searchQuery: string, location: string,
                        budget: (int, int), capacity: (int, int)): (r: seq<Venue>)
    ensures forall v :: v in r <==> v in venues && VenueMatches(v, Lower(searchQuery), location, budget, capacity)
    ensures forall v :: (multiset(r)[v] ==
      if VenueMatches(v, Lower(searchQuery), location, budget, capacity) then multiset(venues)[v] else 0)
    ensures forall i, j :: 0 <= i < j < |r| ==> r[i].rating >= r[j].rating
    ensures forall k :: (WithKey(r, NegRating, k) ==
      WithKey(Keep(venues, VenueMatcher(Lower(searchQuery), location, budget, capacity)), NegRating, k))
  {
    var p := VenueMatcher(Lower(searchQuery), location, budget, capacity);
    var kept := Keep(venues, p);
    var r := SortBy(kept, NegRating);
    assert forall v :: (multiset(r)[v] ==
      if VenueMatches(v, Lower(searchQuery), location, budget, capacity) then multiset(venues)[v] else 0) by {
      forall v ensures multiset(r)[v] ==
        if VenueMatches(v, Lower(searchQuery), location, budget, capacity) then multiset(venues)[v] else 0
      {
        KeepMultiplicity(venues, p, v);
      }
    }
    assert forall v :: v in r <==> v in kept by {
      forall v ensures v in r <==> v in kept {
        assert v in r <==> v in multiset(r);
      }
    }
    assert forall i, j :: 0 <= i < j < |r| ==> NegRating(r[i]) <= NegRating(r[j]);
    r
  }

  /** Filtering the shown list again with the same settings changes nothing. */
  lemma FilterVenuesIdempotent(venues: seq<Venue>, searchQuery: string, location: string,
                               budget: (int, int), capacity: (int, int))
    ensures FilterVenues(FilterVenues(venues, searchQuery, location, budget, capacity),
                         searchQuery, location, budget, capacity) ==
            FilterVenues(venues, searchQuery, location, budget, capacity)
  {
    FilterSortIdempotent(venues, VenueMatcher(Lower(searchQuery), location, budget, capacity), NegRating);
  }

  /** After `clearFilters()`, a venue is shown exactly when its budget starts at
      most at 1000000 and its capacity at most at 1000. */
  lemma ClearedFiltersShow(venues: seq<Venue>, v: Venue)
    requires v in venues
    ensures v in FilterVenues(venues, "", ALL, BUDGET_FALLBACK, CAPACITY_FALLBACK) <==>
      ExtractBudget(v.priceRange).0 <= 1000000 && ExtractCapacity(v.capacity).0 <= 1000
  {
    var budget, capacity := ExtractBudget(v.priceRange), ExtractCapacity(v.capacity);
    var matches := VenueMatches(v, Lower(""), ALL, BUDGET_FALLBACK, CAPACITY_FALLBACK);
    assert matches <==> budget.0 <= 1000000 && capacity.0 <= 1000 by {
      assert |Lower("")| == 0;
      assert budget.1 >= 0 && capacity.1 >= 0;
    }
    var shown := FilterVenues(venues, "", ALL, BUDGET_FALLBACK, CAPACITY_FALLBACK);
    assert v in shown <==> matches;
  }

  // ---------------------------------------------------------------- locations

  /** `location.split(",")[0].trim()`: the city part of a location. */
  function Region(location: string): (r: string)
    ensures ',' !in r
  {
    Trim(Split(location, ',')[0])
  }

  /** A location without a comma has itself, trimmed, as its region. */
  lemma RegionOfCity(location: string)
    requires ',' !in location
    ensures Region(location) == Trim(location)
  {
  }

  /** The region is the trimmed text before the first comma, whatever follows. */
  lemma RegionBeforeComma(city: string, rest: string)
    requires ',' !in city
    ensures Region(city + [','] + rest) == Trim(city)
  {
    SplitPrefix(city, ',', rest);
  }

  function RegionsOf(venues: seq<Venue>): (rs: seq<string>)
    ensures |rs| == |venues|
    ensures forall i :: 0 <= i < |venues| ==> rs[i] == Region(venues[i].location)
  {
    seq(|venues|, i requires 0 <= i < |venues| => Region(venues[i].location))
  }

  /** `getLocations()`: `"All"`, then every venue's region once, in increasing order. */
  function Locations(venues: seq<Venue>): (r: seq<string>)
    ensures |r| >= 1 && r[0] == ALL
    ensures StrictlyIncreasing(r[1..])
    ensures forall c :: c in r[1..] <==> exists v :: v in venues && Region(v.location) == c
  {
    var rs := RegionsOf(venues);
    var sorted := SortedDistinct(rs);
    assert forall c :: c in rs <==> exists v :: v in venues && Region(v.location) == c by {
      forall c ensures c in rs <==> exists v :: v in venues && Region(v.location) == c {
        if c in rs {
          var i :| 0 <= i < |rs| && rs[i] == c;
          assert venues[i] in venues;
        }
      }
    }
    assert ([ALL] + sorted)[1..] == sorted;
    [ALL] + sorted
  }

  // ---------------------------------------------------------------- the view model

  class VenueViewModel {
    const store: DataManager
    var venues: seq<Venue>
    var filteredVenues: seq<Venue>
    var searchQuery: string
    var selectedLocation: string
    var budgetRange: (int, int)
    var capacityRange: (int, int)
    var isLoading: bool
    var showFilters: bool

    /** The shown list is always the filter of the loaded catalogue. */
    ghost predicate Valid()
      reads this
    {
      filteredVenues == FilterVenues(venues, searchQuery, selectedLocation, budgetRange, capacityRange)
    }

    /** `init { loadVenues() }` with every filter at its initial value. */
    constructor (store: DataManager)
      ensures this.store == store
      ensures Valid() && !isLoading && !showFilters
      ensures venues == store.venues
      ensures searchQuery == "" && selectedLocation == ALL
      ensures budgetRange == BUDGET_FALLBACK && capacityRange == CAPACITY_FALLBACK
    {
      this.store := store;
      searchQuery := "";
      selectedLocation := ALL;
      budgetRange := BUDGET_FALLBACK;
      capacityRange := CAPACITY_FALLBACK;
      showFilters := false;
      venues := store.GetVenues();
      filteredVenues := FilterVenues(store.venues, "", ALL, BUDGET_FALLBACK, CAPACITY_FALLBACK);
      isLoading := false;
    }

    method LoadVenues()
      modifies this
      ensures Valid() && !isLoading
      ensures venues == store.venues
      ensures searchQuery == old(searchQuery) && selectedLocation == old(selectedLocation)
      ensures budgetRange == old(budgetRange) && capacityRange == old(capacityRange)
      ensures showFilters == old(showFilters)
    {
      isLoading := true;
      venues := store.GetVenues();
      ApplyFilters();
      isLoading := false;
    }

    method ApplyFilters()
      modifies this`filteredVenues
      ensures Valid()
    {
      filteredVenues := FilterVenues(venues, searchQuery, selectedLocation, budgetRange, capacityRange);
    }

    method SetSearchQuery(query: string)
      modifies this`searchQuery, this`filteredVenues
      ensures searchQuery == query && Valid()
    {
      searchQuery := query;
      ApplyFilters();
    }

    method SetSelectedLocation(location: string)
      modifies this`selectedLocation, this`filteredVenues
      ensures selectedLocation == location && Valid()
    {
      selectedLocation := location;
      ApplyFilters();
    }

    method SetBudgetRange(minBudget: int, maxBudget: int)
      modifies this`budgetRange, this`filteredVenues
      ensures budgetRange == (minBudget, maxBudget) && Valid()
    {
      budgetRange := (minBudget, maxBudget);
      ApplyFilters();
    }

    method SetCapacityRange(minCapacity: int, maxCapacity: int)
      modifies this`capacityRange, this`filteredVenues
      ensures capacityRange == (minCapacity, maxCapacity) && Valid()
    {
      capacityRange := (minCapacity, maxCapacity);
      ApplyFilters();
    }

    method ToggleFilters()
      modifies this`showFilters
      ensures showFilters == !old(showFilters)
    {
      showFilters := !showFilters;
    }

    /** Every filter back to its initial value; the panel stays as it is. */
    method ClearFilters()
      modifies this`searchQuery, this`selectedLocation, this`budgetRange, this`capacityRange, this`filteredVenues
      ensures searchQuery == "" && selectedLocation == ALL
      ensures budgetRange == BUDGET_FALLBACK && capacityRange == CAPACITY_FALLBACK
      ensures Valid()
    {
      searchQuery := "";
      selectedLocation := ALL;
      budgetRange := BUDGET_FALLBACK;
      capacityRange := CAPACITY_FALLBACK;
      ApplyFilters();
    }

    function GetLocations(): seq<string>
      reads this
    {
      Locations(venues)
    }

    function GetVenueById(id: string): Option<Venue>
      reads this
    {
      VenueById(venues, id)
    }
  }
}
