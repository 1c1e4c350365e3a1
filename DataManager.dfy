/** The app's in-memory store (`DataManager.kt`): a registry of users with the
    one that is signed in, the checklist, and the fixed venue catalogue.
    The Kotlin singleton becomes one `DataManager` object that the view models
    share. */
module Data {

  import opened Optional
  import opened Collections
  import opened Models

  // ---------------------------------------------------------------- users

  function EmailOf(u: User): string {
    u.email
  }

  function HasEmailIn(email: string): User -> bool {
    (u: User) => u.email == email
  }

  function NotEmail(email: string): User -> bool {
    (u: User) => u.email != email
  }

  /** `users.any { it.email == email }`. */
  predicate HasEmail(users: seq<User>, email: string) {
    exists u :: u in users && u.email == email
  }

  /** `users.find { it.email == email }`: the first user registered with `email`. */
  function UserByEmail(users: seq<User>, email: string): (r: Option<User>)
    ensures r.None? <==> !HasEmail(users, email)
    ensures r.Some? ==> r.value.email == email && exists i :: (0 <= i < |users| && users[i] == r.value &&
      forall j :: 0 <= j < i ==> users[j].email != email)
  {
    Find(users, HasEmailIn(email))
  }

  /** `users.removeIf { it.email == email }`, on a copy. */
  function WithoutEmail(users: seq<User>, email: string): (r: seq<User>)
    ensures forall u :: u in r <==> u in users && u.email != email
  {
    Keep(users, NotEmail(email))
  }

  /** With unique emails, removing a registered email removes exactly one record
      and leaves the remaining emails unique. */
  lemma {:induction false} WithoutEmailOne(users: seq<User>, email: string)
    requires DistinctBy(users, EmailOf)
    ensures DistinctBy(WithoutEmail(users, email), EmailOf)
    ensures |WithoutEmail(users, email)| == if HasEmail(users, email) then |users| - 1 else |users|
  {
    KeepDistinctBy(users, NotEmail(email), EmailOf);
    if |users| > 0 {
      var rest := users[1..];
      assert users == [users[0]] + rest;
      assert DistinctBy(rest, EmailOf);
      if users[0].email == email {
        forall u | u in rest
          ensures u.email != email
        {
          var j :| 0 <= j < |rest| && rest[j] == u;
          assert users[j + 1] == u;
        }
        KeepAll(rest, NotEmail(email));
        assert WithoutEmail(users, email) == rest;
      } else {
        WithoutEmailOne(rest, email);
        assert HasEmail(users, email) <==> HasEmail(rest, email);
        assert WithoutEmail(users, email) == [users[0]] + WithoutEmail(rest, email);
      }
    } else {
      assert !HasEmail(users, email);
    }
  }

  // ---------------------------------------------------------------- checklist

  function HasId(id: string): ChecklistItem -> bool {
    (c: ChecklistItem) => c.id == id
  }

  function NotId(id: string): ChecklistItem -> bool {
    (c: ChecklistItem) => c.id != id
  }

  /** `checklistItems[indexOfFirst { it.id == item.id }] = item` when there is such an index. */
  function Updated(items: seq<ChecklistItem>, item: ChecklistItem): (r: seq<ChecklistItem>)
    ensures |r| == |items|
    ensures (forall x :: x in items ==> x.id != item.id) ==> r == items
    ensures forall i :: 0 <= i < |items| ==>
      r[i] == if items[i].id == item.id && forall j :: 0 <= j < i ==> items[j].id != item.id
              then item else items[i]
  {
    var index := IndexOfFirst(items, HasId(item.id));
    assert forall i :: 0 <= i < |items| ==>
      (i == index <==> items[i].id == item.id && forall j :: 0 <= j < i ==> items[j].id != item.id) by {
      forall i | 0 <= i < |items|
        ensures i == index <==> items[i].id == item.id && forall j :: 0 <= j < i ==> items[j].id != item.id
      {
        if index == -1 {
          assert items[i] in items;
        } else if i > index {
          assert items[index].id == item.id;
        }
      }
    }
    if index != -1 then items[index := item] else items
  }

  /** `checklistItems.removeIf { it.id == itemId }`, on a copy. */
  function WithoutId(items: seq<ChecklistItem>, id: string): (r: seq<ChecklistItem>)
    ensures forall x :: x in r <==> x in items && x.id != id
    ensures forall x :: multiset(r)[x] == if x.id != id then multiset(items)[x] else 0
    ensures (forall x :: x in items ==> x.id != id) ==> r == items
  {
    var r := Keep(items, NotId(id));
    assert forall x :: multiset(r)[x] == if x.id != id then multiset(items)[x] else 0 by {
      forall x ensures multiset(r)[x] == if x.id != id then multiset(items)[x] else 0 {
        KeepMultiplicity(items, NotId(id), x);
      }
    }
    if forall x :: x in items ==> x.id != id then
      KeepAll(items, NotId(id));
      r
    else r
  }

  /** `removeIf` works in place: each item is dropped where it stands when it
      has the id, and kept there otherwise, so the others keep their order. */
  lemma WithoutIdInPlace(before: seq<ChecklistItem>, x: ChecklistItem, after: seq<ChecklistItem>, id: string)
    ensures WithoutId(before + [x] + after, id) ==
      WithoutId(before, id) + (if x.id == id then [] else [x]) + WithoutId(after, id)
  {
    KeepAppend(before + [x], after, NotId(id));
    KeepAppend(before, [x], NotId(id));
    assert Keep([x], NotId(id)) == if x.id == id then [] else [x] by {
      assert [x][1..] == [];
    }
  }

  // ---------------------------------------------------------------- venues

  /** `venues.find { it.id == id }`: the first venue with that id, or null. */
  function VenueById(venues: seq<Venue>, id: string): (r: Option<Venue>)
    ensures r.None? <==> forall v :: v in venues ==> v.id != id
    ensures r.Some? ==> r.value.id == id && exists i :: (0 <= i < |venues| && venues[i] == r.value &&
      forall j :: 0 <= j < i ==> venues[j].id != id)
  {
    Find(venues, (v: Venue) => v.id == id)
  }

  // ---------------------------------------------------------------- sample data

  /** The ten checklist items the store starts with; `ids` stand for their UUIDs.
      Descriptions are not part of this model (see README). */
  function DefaultChecklistItems(ids: seq<string>): (items: seq<ChecklistItem>)
    requires |ids| == 10
    ensures |items| == 10
    ensures forall i :: 0 <= i < 10 ==> items[i].id == ids[i] && !items[i].isCompleted
  {
    [ ChecklistItem(ids[0], "Book Wedding Venue", category := "Venue", priority := HIGH),
      ChecklistItem(ids[1], "Hire Wedding Photographer", category := "Photography", priority := HIGH),
      ChecklistItem(ids[2], "Select Catering Service", category := "Catering", priority := HIGH),
      ChecklistItem(ids[3], "Plan Mehendi Ceremony", category := "Ceremonies", priority := MEDIUM),
      ChecklistItem(ids[4], "Plan Sangeet Event", category := "Ceremonies", priority := MEDIUM),
      ChecklistItem(ids[5], "Book Honeymoon Package", category := "Travel", priority := MEDIUM),
      ChecklistItem(ids[6], "Order Wedding Invitations", category := "Invitations", priority := HIGH),
      ChecklistItem(ids[7], "Wedding Dress Shopping", category := "Attire", priority := HIGH),
      ChecklistItem(ids[8], "Book Florist", category := "Decoration", priority := MEDIUM),
      ChecklistItem(ids[9], "Arrange Transportation", category := "Transportation", priority := MEDIUM) ]
  }

  /** The fixed venue catalogue; `ids` stand for the venues' UUIDs. Only the
      fields the search and the filters read are kept (see README). */
  function SampleVenues(ids: seq<string>): (venues: seq<Venue>)
    requires |ids| == 10
    ensures |venues| == 10
    ensures forall i :: 0 <= i < 10 ==> venues[i].id == ids[i]
  {
    [ Venue(ids[0], "Royal Palace Gardens", "Mumbai, Maharashtra", "₹2,00,000 - ₹5,00,000", "200-500 guests", rating := 48),
      Venue(ids[1], "Sunset Beach Resort", "Goa", "₹3,00,000 - ₹8,00,000", "150-300 guests", rating := 49),
      Venue(ids[2], "Heritage Haveli", "Rajasthan", "₹1,50,000 - ₹4,00,000", "100-400 guests", rating := 47),
      Venue(ids[3], "Crystal Banquet Hall", "Delhi", "₹1,00,000 - ₹3,00,000", "250-600 guests", rating := 45),
      Venue(ids[4], "Garden Paradise Resort", "Kerala", "₹2,50,000 - ₹6,00,000", "100-350 guests", rating := 48),
      Venue(ids[5], "Metropolitan Grand Hotel", "Bangalore", "₹1,80,000 - ₹4,50,000", "200-500 guests", rating := 46),
      Venue(ids[6], "Hillside Manor", "Shimla, Himachal Pradesh", "₹1,20,000 - ₹3,50,000", "80-250 guests", rating := 44),
      Venue(ids[7], "Urban Rooftop Venue", "Pune, Maharashtra", "₹90,000 - ₹2,50,000", "100-300 guests", rating := 43),
      Venue(ids[8], "Riverside Retreat", "Rishikesh, Uttarakhand", "₹1,60,000 - ₹4,20,000", "120-280 guests", rating := 47),
      Venue(ids[9], "Desert Oasis Resort", "Jaisalmer, Rajasthan", "₹2,20,000 - ₹5,50,000", "150-400 guests", rating := 49) ]
  }

  // ---------------------------------------------------------------- the store

  class DataManager {
    var users: seq<User>
    var currentUser: Option<User>
    var checklistItems: seq<ChecklistItem>
    const venues: seq<Venue>

    /** Emails are unique, and the signed-in user is a registered, logged-in record. */
    ghost predicate Valid()
      reads this
    {
      && DistinctBy(users, EmailOf)
      && (currentUser.Some? ==> currentUser.value in users && currentUser.value.isLoggedIn)
    }

    /** The store as the app starts: no users, the default checklist, the catalogue. */
    constructor (itemIds: seq<string>, venueIds: seq<string>)
      requires |itemIds| == 10 && |venueIds| == 10
      ensures Valid()
      ensures users == [] && currentUser == None
      ensures checklistItems == DefaultChecklistItems(itemIds)
      ensures venues == SampleVenues(venueIds)
    {
      users := [];
      currentUser := None;
      checklistItems := DefaultChecklistItems(itemIds);
      venues := SampleVenues(venueIds);
    }

    /** Adds a logged-in user and signs them in, unless the email is taken. */
    method RegisterUser(id: string, email: string, phoneNumber: string, name: string) returns (ok: bool)
      requires Valid()
      modifies this`users, this`currentUser
      ensures Valid()
      ensures ok <==> !old(HasEmail(users, email))
      ensures !ok ==> users == old(users) && currentUser == old(currentUser)
      ensures ok ==> users == old(users) + [User(id, email, phoneNumber, name, true)]
      ensures ok ==> currentUser == Some(User(id, email, phoneNumber, name, true))
    {
      if HasEmail(users, email) {
        return false;
      }
      var newUser := User(id, email, phoneNumber := phoneNumber, name := name, isLoggedIn := true);
      users := users + [newUser];
      currentUser := Some(newUser);
      ok := true;
    }

    /** Signs in the user registered with `email`: the record is marked logged in
        and moved to the end of the registry. */
    method LoginUser(email: string) returns (ok: bool)
      requires Valid()
      modifies this`users, this`currentUser
      ensures Valid()
      ensures ok <==> old(HasEmail(users, email))
      ensures !ok ==> users == old(users) && currentUser == old(currentUser)
      ensures ok ==> var u := old(UserByEmail(users, email)).value.(isLoggedIn := true);
        && currentUser == Some(u)
        && users == old(WithoutEmail(users, email)) + [u]
        && |users| == old(|users|)
    {
      var user := UserByEmail(users, email);
      if user.Some? {
        var u := user.value.(isLoggedIn := true);
        WithoutEmailOne(users, email);
        currentUser := Some(u);
        users := WithoutEmail(users, email) + [u];
        ok := true;
      } else {
        ok := false;
      }
    }

    /** Signs out: the former current user's record is stored with `isLoggedIn = false`. */
    method LogoutUser()
      requires Valid()
      modifies this`users, this`currentUser
      ensures Valid()
      ensures currentUser == None && !IsUserLoggedIn()
      ensures old(currentUser).None? ==> users == old(users)
      ensures old(currentUser).Some? ==> var u := old(currentUser).value;
        && users == old(WithoutEmail(users, u.email)) + [u.(isLoggedIn := false)]
        && |users| == old(|users|)
    {
      if currentUser.Some? {
        var user := currentUser.value;
        var updatedUser := user.(isLoggedIn := false);
        WithoutEmailOne(users, user.email);
        users := WithoutEmail(users, user.email) + [updatedUser];
      }
      currentUser := None;
    }

    /** `getCurrentUser()`: in a valid store, a registered, logged-in user or none. */
    function GetCurrentUser(): (u: Option<User>)
      reads this
      ensures Valid() && u.Some? ==> u.value in users && u.value.isLoggedIn
    {
      currentUser
    }

    /** `currentUser?.isLoggedIn == true`; in a valid store, whether someone is signed in. */
    function IsUserLoggedIn(): (b: bool)
      reads this
      ensures Valid() ==> (b <==> currentUser.Some?)
    {
      currentUser.Some? && currentUser.value.isLoggedIn
    }

    /** `getChecklistItems()` returns a copy; a Dafny sequence is already a value. */
    function GetChecklistItems(): seq<ChecklistItem>
      reads this
    {
      checklistItems
    }

    method AddChecklistItem(item: ChecklistItem)
      requires Valid()
      modifies this`checklistItems
      ensures Valid()
      ensures checklistItems == old(checklistItems) + [item]
    {
      checklistItems := checklistItems + [item];
    }

    /** Replaces the first item whose id is `item.id`; an unknown id changes nothing. */
    method UpdateChecklistItem(item: ChecklistItem)
      requires Valid()
      modifies this`checklistItems
      ensures Valid()
      ensures checklistItems == Updated(old(checklistItems), item)
    {
      var index := IndexOfFirst(checklistItems, HasId(item.id));
      if index != -1 {
        checklistItems := checklistItems[index := item];
      }
    }

    /** Removes every item with id `itemId`, keeping the others in order. */
    method DeleteChecklistItem(itemId: string)
      requires Valid()
      modifies this`checklistItems
      ensures Valid()
      ensures checklistItems == WithoutId(old(checklistItems), itemId)
    {
      checklistItems := WithoutId(checklistItems, itemId);
    }

    function GetVenues(): seq<Venue> {
      venues
    }

    function GetVenueById(id: string): Option<Venue> {
      VenueById(venues, id)
    }
  }
}
