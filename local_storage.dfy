/**
 * The browser's per-origin key-value storage. Values are held directly, in
 * place of their JSON text.
 */
module LocalStorage {
  import opened Wrappers
  import opened Records

  datatype StoredValue = SessionList(sessions: seq<Session>) | UserRecord(user: User)

  type Store = map<string, StoredValue>

  const UserKey: string := "user"
  const UpcomingKey: string := "upcomingSessions"
  const PastKey: string := "pastSessions"

  /**
   * `JSON.parse(localStorage.getItem("user"))` when the key is present. A value
   * that is not a user record (a session list) has none of the user fields.
   */
  function StoredUser(st: Store): (u: Option<User>)
    ensures u.Some? <==> UserKey in st
    ensures UserKey in st && st[UserKey].UserRecord? ==> u == Some(st[UserKey].user)
  {
    if UserKey !in st then None
    else match st[UserKey]
      case UserRecord(user) => Some(user)
      case SessionList(_) => Some(User(None, None, None))
  }

  /** The browser's one `localStorage`, shared by the session provider and every page. */
  class BrowserStorage {
    var items: Store

    constructor (items: Store)
      ensures this.items == items
    {
      this.items := items;
    }
  }
}
