/** The sign-in screen's state (`AuthViewModel.kt`): who is signed in, the
    error message to show, and the checks `login` and `register` make before
    they ask the store. The e-mail syntax check (Android's `EMAIL_ADDRESS`
    pattern) is not modelled; it is a predicate given at construction. */
module Auth {

  import opened Optional
  import opened Text
  import opened Models
  import opened Data

  const EMPTY_EMAIL: string := "Email cannot be empty"
  const INVALID_EMAIL: string := "Please enter a valid email address"
  const USER_NOT_FOUND: string := "User not found. Please register first."
  const MISSING_FIELDS: string := "Email and name are required"
  const INVALID_PHONE: string := "Please enter a valid phone number"
  const USER_EXISTS: string := "User already exists. Please login instead."

  /** `isValidPhoneNumber`: at least ten characters, all digits; such a
      number is never blank and holds no whitespace at all. */
  function IsValidPhoneNumber(phoneNumber: string): (ok: bool)
    ensures ok ==> !IsBlank(phoneNumber)
    ensures ok ==> forall i :: 0 <= i < |phoneNumber| ==> !IsWhitespace(phoneNumber[i])
  {
    var ok := |phoneNumber| >= 10 && AllDigits(phoneNumber);
    if ok then
      assert !IsWhitespace(phoneNumber[0]);
      ok
    else ok
  }

  /** The message `login` shows before asking the store, if any: the checks
      run in order and the first failing one wins. */
  function LoginError(email: string, isValidEmail: string -> bool): (r: Option<string>)
    ensures r.None? <==> !IsBlank(email) && isValidEmail(email)
    ensures IsBlank(email) ==> r == Some(EMPTY_EMAIL)
    ensures !IsBlank(email) && !isValidEmail(email) ==> r == Some(INVALID_EMAIL)
  {
    if IsBlank(email) then Some(EMPTY_EMAIL)
    else if !isValidEmail(email) then Some(INVALID_EMAIL)
    else None
  }

  /** The message `register` shows before asking the store, if any: the checks
      run in order and the first failing one wins. */
  function RegisterError(email: string, phoneNumber: string, name: string, isValidEmail: string -> bool): (r: Option<string>)
    ensures r.None? <==> !IsBlank(email) && !IsBlank(name) && isValidEmail(email) &&
                         (IsBlank(phoneNumber) || IsValidPhoneNumber(phoneNumber))
    ensures IsBlank(email) || IsBlank(name) ==> r == Some(MISSING_FIELDS)
    ensures !IsBlank(email) && !IsBlank(name) && !isValidEmail(email) ==> r == Some(INVALID_EMAIL)
    ensures (!IsBlank(email) && !IsBlank(name) && isValidEmail(email) &&
             !IsBlank(phoneNumber) && !IsValidPhoneNumber(phoneNumber)) ==> r == Some(INVALID_PHONE)
  {
    if IsBlank(email) || IsBlank(name) then Some(MISSING_FIELDS)
    else if !isValidEmail(email) then Some(INVALID_EMAIL)
    else if !IsBlank(phoneNumber) && !IsValidPhoneNumber(phoneNumber) then Some(INVALID_PHONE)
    else None
  }

  /** The phone number is optional at registration: once e-mail and name
      have passed, a blank number is accepted, while a number written with a
      '+', a dash or spaces between digits is refused, and so is one with
      fewer than ten characters. */
  lemma PhoneNumberRule(email: string, phoneNumber: string, name: string, isValidEmail: string -> bool)
    requires !IsBlank(email) && !IsBlank(name) && isValidEmail(email)
    ensures IsBlank(phoneNumber) ==> RegisterError(email, phoneNumber, name, isValidEmail) == None
    ensures !IsBlank(phoneNumber) && (exists i :: 0 <= i < |phoneNumber| && !IsDigit(phoneNumber[i])) ==>
      RegisterError(email, phoneNumber, name, isValidEmail) == Some(INVALID_PHONE)
    ensures !IsBlank(phoneNumber) && |phoneNumber| < 10 ==>
      RegisterError(email, phoneNumber, name, isValidEmail) == Some(INVALID_PHONE)
    ensures RegisterError(email, phoneNumber, name, isValidEmail) == None ==>
      IsBlank(phoneNumber) || (|phoneNumber| >= 10 && forall i :: 0 <= i < |phoneNumber| ==> IsDigit(phoneNumber[i]))
  {
  }

  class AuthViewModel {
    const store: DataManager
    const isValidEmail: string -> bool
    var currentUser: Option<User>
    var isLoggedIn: bool
    var authError: Option<string>
    var isLoading: bool

    /** The store is valid, and this screen shows someone as signed in exactly
        when it holds a logged-in user. */
    ghost predicate Valid()
      reads this, store
    {
      && store.Valid()
      && (isLoggedIn <==> currentUser.Some?)
      && (currentUser.Some? ==> currentUser.value.isLoggedIn)
    }

    /** `init { checkCurrentUser() }`: the store's current user, no error. */
    constructor (store: DataManager, isValidEmail: string -> bool)
      requires store.Valid()
      ensures this.store == store && this.isValidEmail == isValidEmail
      ensures Valid()
      ensures currentUser == store.currentUser && isLoggedIn == store.IsUserLoggedIn()
      ensures authError == None && !isLoading
    {
      this.store := store;
      this.isValidEmail := isValidEmail;
      currentUser := store.GetCurrentUser();
      isLoggedIn := store.IsUserLoggedIn();
      authError := None;
      isLoading := false;
    }

    /** Signs in with `email`. A blank or malformed address is refused with its
        message and nothing else changes; an unknown address leaves the store
        as it was and says so; a known one is signed in through the store. */
    method Login(email: string)
      requires Valid()
      modifies this, store`users, store`currentUser
      ensures Valid() && !isLoading
      ensures LoginError(email, isValidEmail).Some? ==>
        && authError == LoginError(email, isValidEmail)
        && store.users == old(store.users) && store.currentUser == old(store.currentUser)
        && currentUser == old(currentUser) && isLoggedIn == old(isLoggedIn)
      ensures LoginError(email, isValidEmail).None? && !old(HasEmail(store.users, email)) ==>
        && authError == Some(USER_NOT_FOUND)
        && store.users == old(store.users) && store.currentUser == old(store.currentUser)
        && currentUser == old(currentUser) && isLoggedIn == old(isLoggedIn)
      ensures LoginError(email, isValidEmail).None? && old(HasEmail(store.users, email)) ==>
        && authError == None && isLoggedIn
        && currentUser == store.currentUser
        && currentUser == Some(old(UserByEmail(store.users, email)).value.(isLoggedIn := true))
        && store.users == old(WithoutEmail(store.users, email)) + [currentUser.value]
    {
      isLoading := true;
      authError := None;
      var error := LoginError(email, isValidEmail);
      if error.Some? {
        authError := error;
      } else {
        var success := store.LoginUser(email);
        if success {
          currentUser := store.GetCurrentUser();
          isLoggedIn := true;
        } else {
          authError := Some(USER_NOT_FOUND);
        }
      }
      isLoading := false;
    }

    /** Registers and signs in a new user; `id` stands for the new record's
        UUID. The checks run first, then the store refuses a taken address. */
    method Register(id: string, email: string, phoneNumber: string, name: string)
      requires Valid()
      modifies this, store`users, store`currentUser
      ensures Valid() && !isLoading
      ensures RegisterError(email, phoneNumber, name, isValidEmail).Some? ==>
        && authError == RegisterError(email, phoneNumber, name, isValidEmail)
        && store.users == old(store.users) && store.currentUser == old(store.currentUser)
        && currentUser == old(currentUser) && isLoggedIn == old(isLoggedIn)
      ensures RegisterError(email, phoneNumber, name, isValidEmail).None? && old(HasEmail(store.users, email)) ==>
        && authError == Some(USER_EXISTS)
        && store.users == old(store.users) && store.currentUser == old(store.currentUser)
        && currentUser == old(currentUser) && isLoggedIn == old(isLoggedIn)
      ensures RegisterError(email, phoneNumber, name, isValidEmail).None? && !old(HasEmail(store.users, email)) ==>
        && authError == None && isLoggedIn
        && currentUser == store.currentUser
        && currentUser == Some(User(id, email, phoneNumber, name, true))
        && store.users == old(store.users) + [currentUser.value]
    {
      isLoading := true;
      authError := None;
      var error := RegisterError(email, phoneNumber, name, isValidEmail);
      if error.Some? {
        authError := error;
      } else {
        var success := store.RegisterUser(id, email, phoneNumber, name);
        if success {
          currentUser := store.GetCurrentUser();
          isLoggedIn := true;
        } else {
          authError := Some(USER_EXISTS);
        }
      }
      isLoading := false;
    }

    /** Signs out through the store; the stored record is marked logged out. */
    method Logout()
      requires Valid()
      modifies this`currentUser, this`isLoggedIn, store`users, store`currentUser
      ensures Valid()
      ensures currentUser == None && !isLoggedIn && store.currentUser == None
      ensures old(store.currentUser).None? ==> store.users == old(store.users)
      ensures old(store.currentUser).Some? ==> var u := old(store.currentUser).value;
        store.users == old(WithoutEmail(store.users, u.email)) + [u.(isLoggedIn := false)]
    {
      store.LogoutUser();
      currentUser := None;
      isLoggedIn := false;
    }

    method ClearError()
      modifies this`authError
      ensures authError == None
    {
      authError := None;
    }
  }
}
