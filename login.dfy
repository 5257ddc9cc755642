/** The login page: a two-field form whose submit, after a one-second delay, stores a fixed user record. */
module Login {
  import opened Wrappers
  import opened Records
  import opened LocalStorage

  /** The two inputs, by their `name` attribute. */
  datatype Field = Email | Password

  const MissingInformation: Toast := Toast("Missing information", "Please enter both email and password.", true)
  const LoginSuccessful: Toast := Toast("Login successful!", "Welcome back to Language Exchange.", false)
  const DashboardPath: string := "/dashboard"

  /** The record the login timer stores under "user": a fixed name, the typed email, and no password. */
  function LoggedInUser(email: string): (u: User)
    ensures u.name == Some("John Doe") && u.email == Some(email) && u.isLoggedIn == Some(true)
    ensures Truthy(u.name) && Truthy(u.email) == (email != "")
  {
    User(Some("John Doe"), Some(email), Some(true))
  }

  /** The stored record is determined by the email alone. */
  lemma LoggedInUserInjective(a: string, b: string)
    ensures LoggedInUser(a) == LoggedInUser(b) <==> a == b
  {
  }

  class LoginPage {
    var email: string
    var password: string
    var isLoading: bool
    /** The email captured by the running login timer, if one is running. */
    var pendingEmail: Option<string>
    const storage: BrowserStorage
    var target: Option<string>
    var toast: Option<Toast>

    /** A timer runs exactly while the page is loading, and it carries a non-empty email. */
    predicate Valid()
      reads this
    {
      (isLoading <==> pendingEmail.Some?) && (pendingEmail.Some? ==> pendingEmail.value != "")
    }

    constructor (storage: BrowserStorage)
      ensures email == "" && password == "" && !isLoading && pendingEmail == None
      ensures this.storage == storage && target == None && toast == None
      ensures Valid()
    {
      email, password, isLoading, pendingEmail := "", "", false, None;
      this.storage, target, toast := storage, None, None;
    }

    /** The inputs and the submit button are disabled exactly while the login timer is pending. */
    predicate InputsDisabled()
      reads this
      ensures Valid() ==> (InputsDisabled() <==> pendingEmail.Some?)
    {
      isLoading
    }

    /** `handleChange`: one field of the form. */
    method HandleChange(field: Field, value: string)
      modifies this
      ensures field == Email ==> email == value && password == old(password)
      ensures field == Password ==> password == value && email == old(email)
      ensures isLoading == old(isLoading) && pendingEmail == old(pendingEmail)
      ensures target == old(target) && toast == old(toast)
    {
      match field
      case Email => email := value;
      case Password => password := value;
    }

    /**
     * `handleSubmit` (reachable only while the button is enabled): an empty
     * email or password shows "Missing information" and leaves loading off;
     * otherwise loading starts and a timer is set for the typed email.
     * Nothing is stored yet.
     */
    method HandleSubmit()
      requires Valid() && !InputsDisabled()
      modifies this
      ensures Valid()
      ensures storage.items == old(storage.items) && target == old(target)
      ensures email == old(email) && password == old(password)
      ensures old(email) == "" || old(password) == "" ==>
        !isLoading && pendingEmail == None && toast == Some(MissingInformation)
      ensures old(email) != "" && old(password) != "" ==>
        isLoading && pendingEmail == Some(old(email)) && toast == old(toast)
    {
      isLoading := true;
      if email == "" || password == "" {
        toast := Some(MissingInformation);
        isLoading := false;
        return;
      }
      pendingEmail := Some(email);
    }

    /**
     * The one-second timer: the user record for the captured email is stored
     * under "user" (no other key changes), the page goes to the dashboard, and
     * loading ends.
     */
    method LoginTimerFires()
      requires Valid() && isLoading
      modifies this, storage
      ensures Valid() && !isLoading && pendingEmail == None
      ensures storage.items == old(storage.items)[UserKey := UserRecord(LoggedInUser(old(pendingEmail).value))]
      ensures StoredUser(storage.items) == Some(LoggedInUser(old(pendingEmail).value))
      ensures target == Some(DashboardPath) && toast == Some(LoginSuccessful)
      ensures email == old(email) && password == old(password)
    {
      var captured := pendingEmail.value;
      toast := Some(LoginSuccessful);
      storage.items := storage.items[UserKey := UserRecord(LoggedInUser(captured))];
      target := Some(DashboardPath);
      isLoading := false;
      pendingEmail := None;
    }
  }
}
