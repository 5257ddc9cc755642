/** Properties that span pages: what the login record looks like to the pages that read it. */
module AppFlows {
  import opened Wrappers
  import opened Text
  import opened Records
  import opened LocalStorage
  import SessionContext
  import Login
  import Navigation
  import Dashboard
  import Profile
  import Account
  import ScheduleForm

  /** The storage after the login timer has stored the record for `email`. */
  function AfterLogin(st: Store, email: string): Store {
    st[UserKey := UserRecord(Login.LoggedInUser(email))]
  }

  /**
   * After logging in with a non-empty email, the navigation bar and the
   * dashboard greet the user by the capitalised part of the email before "@",
   * the profile shows the fixed name "John Doe" with that email, the account
   * page shows the email, and the stored session lists are untouched.
   */
  lemma LoginSeenByPages(st: Store, email: string)
    requires email != ""
    ensures Navigation.NavUserName(StoredUser(AfterLogin(st, email))) == DisplayNameFromEmail(email)
    ensures Dashboard.Greeting(StoredUser(AfterLogin(st, email)), "User") == DisplayNameFromEmail(email)
    ensures Profile.LoadedIdentity(StoredUser(AfterLogin(st, email))) == Some(("John Doe", email))
    ensures Account.LoadedEmail(StoredUser(AfterLogin(st, email)).value) == email
    ensures forall k :: k in st && k != UserKey ==> AfterLogin(st, email)[k] == st[k]
    ensures SessionContext.HoldsSessionList(st, UpcomingKey) ==> SessionContext.HoldsSessionList(AfterLogin(st, email), UpcomingKey)
    ensures SessionContext.HoldsSessionList(st, PastKey) ==> SessionContext.HoldsSessionList(AfterLogin(st, email), PastKey)
  {
    assert StoredUser(AfterLogin(st, email)) == Some(Login.LoggedInUser(email));
  }

  /**
   * The navigation bar and a freshly mounted dashboard derive the same name
   * from whatever is stored, with "User" when there is no user or no email.
   */
  lemma NavigationAndDashboardAgree(stored: Option<User>)
    ensures Navigation.NavUserName(stored) == Dashboard.Greeting(stored, "User")
    ensures !(stored.Some? && Truthy(stored.value.email)) ==> Navigation.NavUserName(stored) == "User"
  {
  }

  /**
   * The dashboard's list is its own constant: `addSession` on a freshly
   * seeded store leaves the store with three upcoming sessions headed by the
   * new one, while the dashboard still shows its two entries, neither of which
   * has the new id.
   */
  method AddSessionNotOnDashboard(store: SessionContext.SessionStore, d: SessionDraft, clock: nat)
    requires store.Persisted() && store.upcomingSessions == SessionContext.InitialUpcomingSessions
    modifies store, store.storage
    ensures store.Persisted()
    ensures |store.upcomingSessions| == 3 && store.upcomingSessions[0].id == SessionContext.SessionId(clock)
    ensures |Dashboard.UpcomingSessions| == 2
    ensures forall i :: 0 <= i < |Dashboard.UpcomingSessions| ==> Dashboard.UpcomingSessions[i].id != store.upcomingSessions[0].id
  {
    store.AddSession(d, clock);
    SessionContext.SessionIdNotSeed(clock);
  }

  /**
   * Logging in and then scheduling a session, with the login page and the
   * session provider sharing the browser's one storage: the login record
   * survives the scheduling, and the store stays in step with storage while
   * the new session goes to the front of the upcoming list.
   */
  method LogInThenSchedule(
    login: Login.LoginPage, form: ScheduleForm.ScheduleSessionForm,
    values: ScheduleForm.FormValues, today: string, clock: nat)
    returns (errors: ScheduleForm.FieldErrors)
    requires login.storage == form.store.storage
    requires login.Valid() && login.isLoading
    requires form.Valid() && !form.SubmitDisabled() && form.store.Persisted()
    requires values.duration == "" || values.duration in ScheduleForm.DurationOptions
    modifies login, form, form.store, login.storage
    ensures errors == ScheduleForm.Validate(values, today)
    ensures StoredUser(login.storage.items) == Some(Login.LoggedInUser(old(login.pendingEmail).value))
    ensures form.store.Persisted()
    ensures errors == ScheduleForm.NoErrors ==>
      form.store.upcomingSessions
      == [WithId(ScheduleForm.BuildSession(values, form.partnerName, form.language), SessionContext.SessionId(clock))]
         + old(form.store.upcomingSessions)
    ensures errors != ScheduleForm.NoErrors ==> form.store.upcomingSessions == old(form.store.upcomingSessions)
  {
    var email := login.pendingEmail.value;
    login.LoginTimerFires();
    assert UserKey != UpcomingKey && UserKey != PastKey;
    errors := form.HandleSubmit(values, today, clock);
    assert login.storage.items[UserKey] == UserRecord(Login.LoggedInUser(email));
  }
}
