# Wedding planner core, modelled in Dafny

This project models the core of an Android wedding-planner app written in
Kotlin. That core is the in-memory store `DataManager` and the three view
models behind its screens:

- `ChecklistViewModel`: wedding tasks with search, a category picker, a sort
  order and completion statistics.
- `VenueViewModel`: the venue catalogue with search, a location picker,
  budget and capacity ranges parsed out of display strings, and sorting by
  rating.
- `AuthViewModel`: sign-in and registration with their error messages.

Modules:

- `Optional`: the `Option` type that stands for Kotlin's nullable values.
- `Text`: the string operations the app relies on. These are lower-casing,
  `contains`, `isBlank`, `trim`, `split`, `toIntOrNull` and a
  lexicographic order by code point that stands for the one `sorted()` uses.
- `Collections`: `filter`, `count`, `indexOfFirst`/`find`, and a stable sort
  by an integer key. The stable sort stands for both `sortedWith` and
  `sortedByDescending`.
- `Models`: the data classes of `Models.kt` with their default values.
- `Data`: the `DataManager` object. It is a class whose `users`,
  `currentUser` and `checklistItems` fields are reassigned by its methods.
- `Checklist`, `Venues` and `Auth`: each view model. The pure part
  (filtering, sorting, facets, statistics, range parsing, validation) is a
  set of functions with proved contracts. The screen state is a class with
  a `Valid()` invariant. For the checklist and the venues, it says the
  displayed list is always the filter of the loaded list under the current
  criteria. For sign-in, it says the screen shows someone as signed in
  exactly when it holds a logged-in user.

The sort orders are specified by what they promise:

- The result is a permutation of the input.
- It is ordered by the source comparator.
- Items that compare equal keep their relative order. This is stated per
  key with `WithKey`.

`StableSortUnique` shows that these three properties determine the result.

The budget parser `extractBudgetFromRange` (VenueViewModel.kt:112-124)
keeps only digits and commas, so the `-` between the two amounts is gone
before `split("-")` runs. A price such as "₹2,00,000 - ₹5,00,000" therefore
becomes one 12-digit number, which `toIntOrNull` rejects, and the result is
the fallback (0, 1000000). `ExtractBudget` states what the parser returns
for every price, and `RupeeRangeFallsBack` proves the fallback for every
price of that form.

## Model

| member | source | states |
|---|---|---|
| Models.PriorityOrder | app/src/main/java/com/datawaves/weddingplanner/Models.kt:24-26 | priorities are ordered LOW < MEDIUM < HIGH by ordinal, and ordinals are distinct |
| Models.UserDefaults | app/src/main/java/com/datawaves/weddingplanner/Models.kt:6-12 | a user built from id and e-mail has an empty phone number and name and is not logged in |
| Models.ChecklistItemDefaults | app/src/main/java/com/datawaves/weddingplanner/Models.kt:14-22 | a new checklist item is incomplete, in category "General", of MEDIUM priority, with empty description and due date |
| Models.VenueDefaults | app/src/main/java/com/datawaves/weddingplanner/Models.kt:28-40 | a venue's optional fields default to empty text and a zero rating |
| Models.VenueFilterDefaults | app/src/main/java/com/datawaves/weddingplanner/Models.kt:42-48 | the default filter spans budgets and capacities from 0 to Int.MAX_VALUE with no location |
| Data.UserByEmail | app/src/main/java/com/datawaves/weddingplanner/DataManager.kt:207 | finds a user exactly when one has the e-mail, and returns the first such user |
| Data.WithoutEmail | app/src/main/java/com/datawaves/weddingplanner/DataManager.kt:210 | removeIf keeps exactly the users with another e-mail |
| Data.WithoutEmailOne | app/src/main/java/com/datawaves/weddingplanner/DataManager.kt:210-211 | with distinct e-mails, removal keeps them distinct and drops exactly one user when the e-mail is present |
| Data.Updated | app/src/main/java/com/datawaves/weddingplanner/DataManager.kt:236-241 | replaces exactly the first item with the same id; the list is unchanged when the id is absent |
| Data.WithoutId | app/src/main/java/com/datawaves/weddingplanner/DataManager.kt:243-245 | keeps exactly the items with another id, each as often as before; the list is unchanged when the id is absent |
| Data.WithoutIdInPlace | app/src/main/java/com/datawaves/weddingplanner/DataManager.kt:243-245 | each item is dropped where it stands when it has the id and kept there otherwise, so the other items keep their order |
| Data.VenueById | app/src/main/java/com/datawaves/weddingplanner/DataManager.kt:250 | finds a venue exactly when one has the id, and returns the first such venue |
| Data.DefaultChecklistItems | app/src/main/java/com/datawaves/weddingplanner/DataManager.kt:13-74 | the ten default tasks, each with its given id and not completed |
| Data.SampleVenues | app/src/main/java/com/datawaves/weddingplanner/DataManager.kt:78-189 | the ten sample venues, each with its given id |
| Data.DataManager.constructor | app/src/main/java/com/datawaves/weddingplanner/DataManager.kt:8-78 | no users and nobody signed in; the default tasks and sample venues are loaded |
| Data.DataManager.RegisterUser | app/src/main/java/com/datawaves/weddingplanner/DataManager.kt:190-204 | succeeds exactly when the e-mail is new; then appends the logged-in user and makes them current, otherwise changes nothing |
| Data.DataManager.LoginUser | app/src/main/java/com/datawaves/weddingplanner/DataManager.kt:206-214 | succeeds exactly when the e-mail is known; then replaces that record with a logged-in copy at the end and makes it current, otherwise changes nothing |
| Data.DataManager.GetCurrentUser | app/src/main/java/com/datawaves/weddingplanner/DataManager.kt:216 | the current user, when there is one, is a stored, logged-in user |
| Data.DataManager.LogoutUser | app/src/main/java/com/datawaves/weddingplanner/DataManager.kt:218-225 | clears the current user; their record is removed and a logged-out copy is appended at the end |
| Data.DataManager.IsUserLoggedIn | app/src/main/java/com/datawaves/weddingplanner/DataManager.kt:227 | true exactly when someone is signed in |
| Data.DataManager.AddChecklistItem | app/src/main/java/com/datawaves/weddingplanner/DataManager.kt:232-234 | appends the item and keeps the store's `Valid()` |
| Data.DataManager.UpdateChecklistItem | app/src/main/java/com/datawaves/weddingplanner/DataManager.kt:236-241 | the task list becomes Updated of the old list, and the store's `Valid()` is kept |
| Data.DataManager.DeleteChecklistItem | app/src/main/java/com/datawaves/weddingplanner/DataManager.kt:243-245 | the task list becomes WithoutId of the old list, and the store's `Valid()` is kept |
| Checklist.RankIsComparator | app/src/main/java/com/datawaves/weddingplanner/ChecklistViewModel.kt:96-99 | the integer rank orders items exactly as "incomplete first, then higher priority first", and ties exactly on equal completion and priority |
| Checklist.SortTasks | app/src/main/java/com/datawaves/weddingplanner/ChecklistViewModel.kt:96-99 | a permutation, ordered by the comparator, with equal-ranked items in their original order |
| Checklist.SortTasksUnique | app/src/main/java/com/datawaves/weddingplanner/ChecklistViewModel.kt:96-99 | any ordered, order-preserving rearrangement is the sorted list |
| Checklist.SortExample | app/src/main/java/com/datawaves/weddingplanner/ChecklistViewModel.kt:96-99 | a completed HIGH task, a LOW task and a HIGH task sort to HIGH, LOW, completed |
| Checklist.FilterTasks | app/src/main/java/com/datawaves/weddingplanner/ChecklistViewModel.kt:88-101 | an item is shown exactly when it matches the lower-cased query in title or description and the category; multiplicities are kept; the result is sorted stably |
| Checklist.FilterTasksIdempotent | app/src/main/java/com/datawaves/weddingplanner/ChecklistViewModel.kt:83-101 | applying the filters twice gives the same list as once |
| Checklist.FilterNothing | app/src/main/java/com/datawaves/weddingplanner/ChecklistViewModel.kt:88-95 | with an empty query and "All", every task is shown, in sorted order |
| Checklist.Categories | app/src/main/java/com/datawaves/weddingplanner/ChecklistViewModel.kt:104-108 | "All" first, then exactly the tasks' categories, strictly increasing, without repeats |
| Checklist.CompletionStats | app/src/main/java/com/datawaves/weddingplanner/ChecklistViewModel.kt:110-115 | (completed, total) with completed the number of done tasks; 0 exactly when none is done, equal to total exactly when all are |
| Checklist.Flipped | app/src/main/java/com/datawaves/weddingplanner/ChecklistViewModel.kt:63 | the copy differs from the item only in its negated completion flag |
| Checklist.Toggle | app/src/main/java/com/datawaves/weddingplanner/ChecklistViewModel.kt:58-65 | flips exactly the first task with the id and leaves the others as they were |
| Checklist.ToggleTwice | app/src/main/java/com/datawaves/weddingplanner/ChecklistViewModel.kt:58-65 | toggling a task twice restores the list |
| Checklist.ChecklistViewModel.constructor | app/src/main/java/com/datawaves/weddingplanner/ChecklistViewModel.kt:30-32 | loads the store's tasks with no query and "All" selected, and shows their filter |
| Checklist.ChecklistViewModel.LoadChecklistItems | app/src/main/java/com/datawaves/weddingplanner/ChecklistViewModel.kt:34-42 | reloads the store's tasks, keeps the criteria, refreshes the shown list, ends not loading |
| Checklist.ChecklistViewModel.ApplyFilters | app/src/main/java/com/datawaves/weddingplanner/ChecklistViewModel.kt:83-101 | the shown list becomes FilterTasks of the loaded tasks under the current criteria |
| Checklist.ChecklistViewModel.AddChecklistItem | app/src/main/java/com/datawaves/weddingplanner/ChecklistViewModel.kt:44-53 | the store gains the new task at the end and stays `Valid()`, and the screen reloads it |
| Checklist.ChecklistViewModel.UpdateChecklistItem | app/src/main/java/com/datawaves/weddingplanner/ChecklistViewModel.kt:54-57 | the store's task with that id is replaced and the store stays `Valid()`, and the screen reloads |
| Checklist.ChecklistViewModel.ToggleItemCompletion | app/src/main/java/com/datawaves/weddingplanner/ChecklistViewModel.kt:58-65 | an unknown id changes nothing; otherwise the store stores the flipped task; with the screen in step with the store this is Toggle; the store stays `Valid()` |
| Checklist.ChecklistViewModel.DeleteChecklistItem | app/src/main/java/com/datawaves/weddingplanner/ChecklistViewModel.kt:66-71 | the store drops the tasks with that id and stays `Valid()`, and the screen reloads |
| Checklist.ChecklistViewModel.SetSearchQuery | app/src/main/java/com/datawaves/weddingplanner/ChecklistViewModel.kt:73-76 | sets the query and refreshes the shown list |
| Checklist.ChecklistViewModel.SetSelectedCategory | app/src/main/java/com/datawaves/weddingplanner/ChecklistViewModel.kt:78-81 | sets the category and refreshes the shown list |
| Venues.IntsOf | app/src/main/java/com/datawaves/weddingplanner/VenueViewModel.kt:117 | every token that reads as an Int contributes its number, and every number comes from such a token; values lie in Int's range |
| Venues.IntsOfAppend | app/src/main/java/com/datawaves/weddingplanner/VenueViewModel.kt:117 | the numbers of two runs of tokens are those of the first followed by those of the second |
| Venues.IntsOfInPlace | app/src/main/java/com/datawaves/weddingplanner/VenueViewModel.kt:117 | each token contributes its number where it stands, or nothing when toIntOrNull gives null |
| Venues.ExtractBudget | app/src/main/java/com/datawaves/weddingplanner/VenueViewModel.kt:112-124 | the result is (v, v) with v the number formed by all digits of the price when there is one that fits in an Int, and the fallback (0, 1000000) otherwise; so a range lo < hi only ever comes from the fallback |
| Venues.BudgetIsDigitRun | app/src/main/java/com/datawaves/weddingplanner/VenueViewModel.kt:113-117 | the parse pipeline yields exactly the number formed by all digits of the price, or nothing when there are none or it overflows |
| Venues.LongDigitRunFallsBack | app/src/main/java/com/datawaves/weddingplanner/VenueViewModel.kt:112-124 | a price with eleven or more significant digits falls back to (0, 1000000) |
| Venues.RupeeRangeFallsBack | app/src/main/java/com/datawaves/weddingplanner/VenueViewModel.kt:112-124 | a "₹low - ₹high" price whose amounts have eleven or more digits together falls back to (0, 1000000) |
| Venues.ExtractCapacity | app/src/main/java/com/datawaves/weddingplanner/VenueViewModel.kt:126-139 | both bounds lie in 0..Int.MAX_VALUE |
| Venues.CapacityNoNumber | app/src/main/java/com/datawaves/weddingplanner/VenueViewModel.kt:126-139 | a capacity without any digit reads as the fallback (0, 1000) |
| Venues.CapacityOneNumber | app/src/main/java/com/datawaves/weddingplanner/VenueViewModel.kt:126-139 | when the digits and dashes kept are a single number n that fits an `Int` ("500 guests", "Up to 500"), the capacity is (n, n) |
| Venues.CapacityRoundTrip | app/src/main/java/com/datawaves/weddingplanner/VenueViewModel.kt:126-139 | when the digits and dashes kept read "low-high", both fitting an `Int` ("200-500 guests", "200 - 500"), the capacity is (low, high) |
| Venues.CapacityFirstTwo | app/src/main/java/com/datawaves/weddingplanner/VenueViewModel.kt:126-139 | when the digits and dashes kept read "low-high-rest" ("100-200-300"), the capacity is (low, high): later numbers are ignored |
| Venues.CapacitySkipsOverflow | app/src/main/java/com/datawaves/weddingplanner/VenueViewModel.kt:126-139 | when the digits and dashes kept read "big-n" with big above `Int.MAX_VALUE` ("99999999999-500"), big is dropped and the capacity is (n, n) |
| Venues.CapacitySample | app/src/main/java/com/datawaves/weddingplanner/VenueViewModel.kt:126-139 | "200-500 guests" parses to (200, 500) |
| Venues.FilterVenues | app/src/main/java/com/datawaves/weddingplanner/VenueViewModel.kt:85-110 | a venue is shown exactly when it matches query, location, budget overlap and capacity overlap; multiplicities are kept; ratings are non-increasing and ties keep catalogue order |
| Venues.FilterVenuesIdempotent | app/src/main/java/com/datawaves/weddingplanner/VenueViewModel.kt:85-110 | applying the filters twice gives the same list as once |
| Venues.ClearedFiltersShow | app/src/main/java/com/datawaves/weddingplanner/VenueViewModel.kt:77-83 | after clearing, a venue is shown exactly when its parsed budget and capacity overlap the default ranges |
| Venues.Region | app/src/main/java/com/datawaves/weddingplanner/VenueViewModel.kt:144 | the region holds no comma |
| Venues.RegionBeforeComma | app/src/main/java/com/datawaves/weddingplanner/VenueViewModel.kt:144 | the region of "city,rest" is the trimmed city, whatever follows the first comma |
| Venues.RegionOfCity | app/src/main/java/com/datawaves/weddingplanner/VenueViewModel.kt:144 | a location without a comma is its own region, trimmed |
| Venues.Locations | app/src/main/java/com/datawaves/weddingplanner/VenueViewModel.kt:141-147 | "All" first, then exactly the venues' regions, strictly increasing, without repeats |
| Venues.VenueViewModel.constructor | app/src/main/java/com/datawaves/weddingplanner/VenueViewModel.kt:39-41 | loads the store's venues with cleared criteria and shows their filter |
| Venues.VenueViewModel.LoadVenues | app/src/main/java/com/datawaves/weddingplanner/VenueViewModel.kt:43-51 | reloads the venues, keeps every criterion, refreshes the shown list |
| Venues.VenueViewModel.ApplyFilters | app/src/main/java/com/datawaves/weddingplanner/VenueViewModel.kt:85-110 | the shown list becomes FilterVenues of the venues under the current criteria |
| Venues.VenueViewModel.SetSearchQuery | app/src/main/java/com/datawaves/weddingplanner/VenueViewModel.kt:53-56 | sets the query and refreshes the shown list |
| Venues.VenueViewModel.SetSelectedLocation | app/src/main/java/com/datawaves/weddingplanner/VenueViewModel.kt:58-61 | sets the location and refreshes the shown list |
| Venues.VenueViewModel.SetBudgetRange | app/src/main/java/com/datawaves/weddingplanner/VenueViewModel.kt:63-66 | sets the budget range and refreshes the shown list |
| Venues.VenueViewModel.SetCapacityRange | app/src/main/java/com/datawaves/weddingplanner/VenueViewModel.kt:68-71 | sets the capacity range and refreshes the shown list |
| Venues.VenueViewModel.ToggleFilters | app/src/main/java/com/datawaves/weddingplanner/VenueViewModel.kt:73-75 | negates the filter panel flag and nothing else |
| Venues.VenueViewModel.ClearFilters | app/src/main/java/com/datawaves/weddingplanner/VenueViewModel.kt:77-83 | resets query, location, budget (0, 1000000) and capacity (0, 1000), and refreshes the shown list |
| Auth.IsValidPhoneNumber | app/src/main/java/com/datawaves/weddingplanner/AuthViewModel.kt:122-124 | a valid phone number is never blank and holds no whitespace |
| Auth.PhoneNumberRule | app/src/main/java/com/datawaves/weddingplanner/AuthViewModel.kt:86-89 | once e-mail and name pass, a blank phone number is accepted, a non-blank one with a non-digit or under ten characters gets "Please enter a valid phone number", and an accepted one is blank or ten or more digits |
| Auth.LoginError | app/src/main/java/com/datawaves/weddingplanner/AuthViewModel.kt:45-53 | no error exactly when the e-mail is non-blank and valid; a blank e-mail gets "Email cannot be empty", a non-blank invalid one "Please enter a valid email address" |
| Auth.RegisterError | app/src/main/java/com/datawaves/weddingplanner/AuthViewModel.kt:76-89 | no error exactly when e-mail and name are non-blank, the e-mail is valid and the phone is blank or valid; otherwise the message of the first failing check: missing fields, then invalid e-mail, then invalid phone |
| Auth.AuthViewModel.constructor | app/src/main/java/com/datawaves/weddingplanner/AuthViewModel.kt:27-37 | takes the store's current user and signed-in state, with no error |
| Auth.AuthViewModel.Login | app/src/main/java/com/datawaves/weddingplanner/AuthViewModel.kt:39-68 | an invalid address is refused with its message; an unknown one with "User not found"; a known one is signed in through the store; loading ends false |
| Auth.AuthViewModel.Register | app/src/main/java/com/datawaves/weddingplanner/AuthViewModel.kt:70-104 | invalid input is refused with its message; a taken address with "User already exists"; otherwise the new user is stored and signed in |
| Auth.AuthViewModel.Logout | app/src/main/java/com/datawaves/weddingplanner/AuthViewModel.kt:106-112 | nobody is signed in afterwards, and the store keeps a logged-out copy of the user |
| Auth.AuthViewModel.ClearError | app/src/main/java/com/datawaves/weddingplanner/AuthViewModel.kt:114-116 | the error message is cleared |
| Text.Lower | app/src/main/java/com/datawaves/weddingplanner/ChecklistViewModel.kt:85 | same length, each capital A-Z becomes its small letter, every other character unchanged |
| Text.ContainsAt | app/src/main/java/com/datawaves/weddingplanner/ChecklistViewModel.kt:90 | contains holds exactly when the query occurs at some position |
| Text.Trim | app/src/main/java/com/datawaves/weddingplanner/VenueViewModel.kt:144 | the result is a slice of the input with only whitespace around it, has no whitespace at either end, and is empty exactly for blank text |
| Text.TrimIdempotent | app/src/main/java/com/datawaves/weddingplanner/VenueViewModel.kt:144 | trimming twice is trimming once |
| Text.Split | app/src/main/java/com/datawaves/weddingplanner/VenueViewModel.kt:144 | at least one part, none containing the separator, each made of characters of the input |
| Text.JoinSplit | app/src/main/java/com/datawaves/weddingplanner/VenueViewModel.kt:144 | joining the parts of a split restores the text |
| Text.SplitJoin | app/src/main/java/com/datawaves/weddingplanner/VenueViewModel.kt:144 | splitting separator-free parts after joining them gives the parts back |
| Text.ToIntOrNull | app/src/main/java/com/datawaves/weddingplanner/VenueViewModel.kt:117 | a digit string gives its value exactly when it fits in an Int; empty text gives nothing |
| Text.DecimalValueAtLeast | app/src/main/java/com/datawaves/weddingplanner/VenueViewModel.kt:117 | n digits without a leading zero denote at least 10^(n-1) |
| Text.LessTransitive | app/src/main/java/com/datawaves/weddingplanner/ChecklistViewModel.kt:106 | the string order used by sorted() is transitive |
| Text.LessTotal | app/src/main/java/com/datawaves/weddingplanner/ChecklistViewModel.kt:106 | the string order is total |
| Text.SortedDistinct | app/src/main/java/com/datawaves/weddingplanner/ChecklistViewModel.kt:106 | distinct().sorted() holds exactly the input's strings, strictly increasing |
| Text.StrictlyIncreasingUnique | app/src/main/java/com/datawaves/weddingplanner/ChecklistViewModel.kt:106 | two strictly increasing lists with the same elements are equal |
| Collections.Keep | app/src/main/java/com/datawaves/weddingplanner/ChecklistViewModel.kt:88 | filter keeps exactly the elements that satisfy the predicate |
| Collections.KeepMultiplicity | app/src/main/java/com/datawaves/weddingplanner/ChecklistViewModel.kt:88 | filter keeps every copy of a passing element and none of a failing one |
| Collections.KeepKeep | app/src/main/java/com/datawaves/weddingplanner/ChecklistViewModel.kt:88 | filtering by p and then q equals filtering by both |
| Collections.CountIsKeepLength | app/src/main/java/com/datawaves/weddingplanner/ChecklistViewModel.kt:112 | count equals the length of the filtered list |
| Collections.IndexOfFirst | app/src/main/java/com/datawaves/weddingplanner/DataManager.kt:237 | -1 exactly when no element matches, otherwise the first matching index |
| Collections.Find | app/src/main/java/com/datawaves/weddingplanner/ChecklistViewModel.kt:61 | nothing exactly when no element matches, otherwise the element at the first matching index |
| Collections.SortBy | app/src/main/java/com/datawaves/weddingplanner/VenueViewModel.kt:107 | a permutation, sorted by the key, with equal-key elements in their original order |
| Collections.StableSortUnique | app/src/main/java/com/datawaves/weddingplanner/VenueViewModel.kt:107 | any sorted, order-preserving rearrangement equals the stable sort |
| Collections.SortBySorted | app/src/main/java/com/datawaves/weddingplanner/VenueViewModel.kt:107 | sorting a sorted list leaves it unchanged |
| Collections.FilterSortIdempotent | app/src/main/java/com/datawaves/weddingplanner/VenueViewModel.kt:92-107 | filter-then-sort applied to its own output changes nothing |

## Left out

- The e-mail syntax check (`android.util.Patterns.EMAIL_ADDRESS`) is a platform regex. It is a predicate given to `AuthViewModel` at construction and to `LoginError`/`RegisterError`.
- Random UUIDs for new users, tasks and venues are id parameters chosen by the caller.
- The venue rating is a `Float` in the source. The model uses an integer number of tenths, which keeps the order the sort uses.
- `isBlank` and `trim` use Kotlin's JVM whitespace: Java's whitespace characters and every Unicode space, line and paragraph separator (`Text.IsWhitespace`).
- Text.Less: compares characters by Unicode code point. Kotlin's `String.compareTo` compares UTF-16 code units, so the two orders differ only when a character above U+FFFF, stored as a surrogate pair, is compared with one in U+E000–U+FFFF (for example "😀" U+1F600 sorts after "！" U+FF01 here and before it on the JVM). `Checklist.Categories` and `Venues.Locations` inherit this difference.
- Text.Lower: lower-cases A-Z only; letters outside ASCII, which Kotlin's `lowercase()` also maps, are left as they are.
- Auth.IsValidPhoneNumber: accepts the ASCII digits 0-9 only; Kotlin's `isDigit()` also accepts other Unicode decimal digits. The budget and capacity parsers see ASCII digits only, because their regular expressions drop every other character first.
- The `catch` branches of `login` and `register` ("Login failed…", "Registration failed…") are not modelled: nothing in the modelled code throws.
- Coroutines (`viewModelScope.launch`) and `StateFlow` are modelled as synchronous methods and plain fields. Interleavings of concurrent launches are not modelled.
- The Compose screens (`AuthScreen.kt`, `ChecklistScreen.kt`, `HomeScreen.kt`, `VenueListScreen.kt`), `MainActivity.kt` and the theme are not part of this model.
- Data.DefaultChecklistItems: keeps titles, categories, priorities and completion; the default tasks' descriptions and due dates are left empty. The search also reads descriptions, so a query that matches only a default task's description finds that task in the app but not in the model (for example "dance" and "Plan Sangeet Event").
- Data.SampleVenues: keeps name, location, price range, capacity and rating; descriptions, amenities, image URLs and contact details of the sample venues are left empty, so a search that would match only a sample description is not reproduced.
- The budget fallback for the sample catalogue is proved for the general "₹low - ₹high" form (`RupeeRangeFallsBack`), not by evaluating each sample string.
- `getChecklistItems`, `getVenues`, `getCategories`, `getCompletionStats`, `getLocations` and `getVenueById` in the store and view models are plain reads of the functions above and carry no contract of their own.
