/** The navigation bar: login detection by path, the user name it shows, and the active route. */
module Navigation {
  import opened Wrappers
  import opened Text
  import opened Records
  import opened LocalStorage

  datatype Route = Route(href: string, caption: string)

  const Routes: seq<Route> := [
    Route("/", "Home"),
    Route("/dashboard", "Dashboard"),
    Route("/messages", "Messages"),
    Route("/sessions", "Sessions")
  ]

  /** The pages that are only reachable after login. */
  const LoggedInPages: seq<string> := ["/dashboard", "/messages", "/sessions", "/profile", "/browse-speakers"]

  /** `loggedInPages.some(page => pathname.startsWith(page))`. */
  predicate IsProtected(pathname: string) {
    exists i :: 0 <= i < |LoggedInPages| && StartsWith(pathname, LoggedInPages[i])
  }

  lemma IsProtectedSpec(pathname: string)
    ensures IsProtected(pathname) <==>
      || StartsWith(pathname, "/dashboard") || StartsWith(pathname, "/messages")
      || StartsWith(pathname, "/sessions") || StartsWith(pathname, "/profile")
      || StartsWith(pathname, "/browse-speakers")
  {
    if StartsWith(pathname, "/dashboard") { assert StartsWith(pathname, LoggedInPages[0]); }
    if StartsWith(pathname, "/messages") { assert StartsWith(pathname, LoggedInPages[1]); }
    if StartsWith(pathname, "/sessions") { assert StartsWith(pathname, LoggedInPages[2]); }
    if StartsWith(pathname, "/profile") { assert StartsWith(pathname, LoggedInPages[3]); }
    if StartsWith(pathname, "/browse-speakers") { assert StartsWith(pathname, LoggedInPages[4]); }
  }

  /** A route link is highlighted when the path is exactly its href. */
  predicate IsActiveRoute(pathname: string, href: string) {
    pathname == href
  }

  /** At most one of the bar's routes is highlighted for any path. */
  lemma AtMostOneActiveRoute(pathname: string, i: nat, j: nat)
    requires i < j < |Routes|
    ensures !(IsActiveRoute(pathname, Routes[i].href) && IsActiveRoute(pathname, Routes[j].href))
  {
  }

  /** The name the bar shows on a protected path: from the stored email only, else "User". */
  function NavUserName(stored: Option<User>): string {
    if stored.Some? && Truthy(stored.value.email) then DisplayNameFromEmail(stored.value.email.value)
    else "User"
  }

  /** The stored `name` plays no part; a missing user or a missing email both give "User". */
  lemma NavUserNameSpec(stored: Option<User>, otherName: Option<string>)
    ensures stored.None? ==> NavUserName(stored) == "User"
    ensures stored.Some? && !Truthy(stored.value.email) ==> NavUserName(stored) == "User"
    ensures stored.Some? ==> NavUserName(Some(stored.value.(name := otherName))) == NavUserName(stored)
  {
  }

  class NavigationState {
    var isLoggedIn: bool
    var userName: string

    constructor ()
      ensures !isLoggedIn && userName == ""
    {
      isLoggedIn, userName := false, "";
    }

    /**
     * The effect that runs when the path changes: on a protected path the bar
     * counts as logged in, stored user or not, and takes its name from the
     * stored email; elsewhere nothing changes.
     */
    method OnPathnameChange(pathname: string, storage: BrowserStorage)
      modifies this
      ensures IsProtected(pathname) ==> isLoggedIn && userName == NavUserName(StoredUser(storage.items))
      ensures !IsProtected(pathname) ==> isLoggedIn == old(isLoggedIn) && userName == old(userName)
    {
      var protected := exists i :: 0 <= i < |LoggedInPages| && StartsWith(pathname, LoggedInPages[i]);
      if protected {
        var stored := StoredUser(storage.items);
        if stored.Some? {
          isLoggedIn := true;
          if Truthy(stored.value.email) {
            userName := DisplayNameFromEmail(stored.value.email.value);
          } else {
            userName := "User";
          }
        } else {
          isLoggedIn := true;
          userName := "User";
        }
      }
    }

    /** `getUserInitials`: the upper-cased first character of each word of the shown name. */
    function GetUserInitials(): (r: string)
      reads this
      ensures r == Upper(WordStarts(userName, true))
    {
      InitialsSpec(userName);
      Initials(userName)
    }
  }
}
