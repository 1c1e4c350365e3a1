/** The records of the app (`Models.kt`). Kotlin's default arguments become
    default values of the datatype constructors; the random UUID that `id`
    defaults to is not modelled, so `id` is always given explicitly. */
module Models {

  import opened Text

  /** The entry of the category and location pickers that selects everything. */
  const ALL: string := "All"

  datatype User = User(
    id: string,
    email: string,
    phoneNumber: string := "",
    name: string := "",
    isLoggedIn: bool := false)

  /** Declared `LOW, MEDIUM, HIGH`, so that is also the order of the ordinals. */
  datatype Priority = LOW | MEDIUM | HIGH

  /** `Priority.ordinal`: the position in the declaration. */
  function Ordinal(p: Priority): (n: nat)
    ensures n < 3
  {
    match p
    case LOW => 0
    case MEDIUM => 1
    case HIGH => 2
  }

  datatype ChecklistItem = ChecklistItem(
    id: string,
    title: string,
    description: string := "",
    isCompleted: bool := false,
    category: string := "General",
    priority: Priority := MEDIUM,
    dueDate: string := "")

  /** `rating` is a `Float` in the app; it is only compared, so it is kept here as
      an integer in tenths (4.8 is 48). */
  datatype Venue = Venue(
    id: string,
    name: string,
    location: string,
    priceRange: string,
    capacity: string,
    description: string := "",
    amenities: seq<string> := [],
    imageUrl: string := "",
    rating: int := 0,
    contactNumber: string := "",
    email: string := "")

  datatype VenueFilter = VenueFilter(
    minBudget: int := 0,
    maxBudget: int := INT_MAX,
    minCapacity: int := 0,
    maxCapacity: int := INT_MAX,
    location: string := "")

  /** The ordinal is a strictly increasing bijection onto 0, 1, 2. */
  lemma PriorityOrder(p: Priority, q: Priority)
    ensures Ordinal(LOW) < Ordinal(MEDIUM) < Ordinal(HIGH)
    ensures Ordinal(p) == Ordinal(q) <==> p == q
  {
  }

  lemma UserDefaults(id: string, email: string)
    ensures var u := User(id, email);
      u.phoneNumber == "" && u.name == "" && !u.isLoggedIn
  {
  }

  lemma ChecklistItemDefaults(id: string, title: string)
    ensures var c := ChecklistItem(id, title);
      c.description == "" && !c.isCompleted && c.category == "General" &&
      c.priority == MEDIUM && c.dueDate == ""
  {
  }

  lemma VenueDefaults(id: string, name: string, location: string, priceRange: string, capacity: string)
    ensures var v := Venue(id, name, location, priceRange, capacity);
      v.description == "" && v.amenities == [] && v.imageUrl == "" && v.rating == 0 &&
      v.contactNumber == "" && v.email == ""
  {
  }

  lemma VenueFilterDefaults()
    ensures var f := VenueFilter();
      f.minBudget == 0 && f.maxBudget == INT_MAX && f.minCapacity == 0 &&
      f.maxCapacity == INT_MAX && f.location == ""
  {
  }
}
