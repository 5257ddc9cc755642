/** The dashboard: a greeting derived from the stored email and a fixed list of upcoming sessions. */
module Dashboard {
  import opened Wrappers
  import opened Text
  import opened Records
  import opened LocalStorage
  import opened SessionContext

  /** An entry of the dashboard's own upcoming list (the avatar is left out). */
  datatype UpcomingEntry = UpcomingEntry(id: string, partnerName: string, date: string, duration: int, language: string)

  /** The list the dashboard shows; it is a constant of the page, not the session store. */
  const UpcomingSessions: seq<UpcomingEntry> := [
    UpcomingEntry("1", "Maria Rodriguez", "2025-03-22T14:00:00", 30, "Spanish"),
    UpcomingEntry("2", "Hiroshi Tanaka", "2025-03-24T09:00:00", 45, "Japanese")
  ]

  /** The dashboard's list agrees, entry by entry, with the store's seed upcoming sessions. */
  lemma UpcomingMatchesSeeds()
    ensures |UpcomingSessions| == |InitialUpcomingSessions|
    ensures forall i :: 0 <= i < |UpcomingSessions| ==>
      var e := UpcomingSessions[i];
      var s := InitialUpcomingSessions[i];
      e.id == s.id && e.partnerName == s.partnerName && e.date == s.date
      && e.duration == s.duration && e.language == s.language
  {
  }

  /** The greeting name after the mount effect, starting from `current`. */
  function Greeting(stored: Option<User>, current: string): (r: string)
    ensures stored.Some? && Truthy(stored.value.email) ==> r == DisplayNameFromEmail(stored.value.email.value)
    ensures !(stored.Some? && Truthy(stored.value.email)) ==> r == current
  {
    if stored.Some? && Truthy(stored.value.email) then DisplayNameFromEmail(stored.value.email.value)
    else current
  }

  class DashboardPage {
    var username: string

    constructor ()
      ensures username == "User"
    {
      username := "User";
    }

    /** The mount effect: a stored user with an email renames the greeting. */
    method LoadStoredUser(storage: BrowserStorage)
      modifies this
      ensures username == Greeting(StoredUser(storage.items), old(username))
    {
      var stored := StoredUser(storage.items);
      if stored.Some? && Truthy(stored.value.email) {
        username := DisplayNameFromEmail(stored.value.email.value);
      }
    }
  }
}
