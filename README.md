# Language Exchange front end: a Dafny model

Language Exchange is a mock web front end where learners find language
partners, chat with them and schedule practice sessions. It has no backend.
Everything it remembers lives in the browser's local storage, and "logging
in" just writes a fixed user record there. This project models the logic
inside its React components, lifted out of the markup:

- **The session store** (`SessionContext`) holds the upcoming and past
  session lists. On startup it hydrates them from storage or falls back to
  seed data. It writes them back after every change. `addSession` prepends
  a session with a clock-based id.
- **The message thread** (`MessageThread`) holds a draft and a local message
  list. Sending appends one message from `"me"` and clears the draft. The
  Enter-key rule and the disabled send button are modelled too.
- **The partner browser** (`BrowseSpeakers`) filters the eight seeded
  partners by four conditions. It also shows two fixed tabs.
- **The conversation list** (`MessageList`) filters conversations by name.
  For each one it derives a link, an active flag, initials and an unread
  dot.
- **The schedule form** (`ScheduleForm`) has validation rules and builds a
  session from valid input. Its submit flow adds that session to the store
  and redirects after a delay.
- **The pages' small state machines**:
  - `Login`: Idle, then Loading, then Idle, with a delayed write of the user
    record.
  - `Profile`: a draft/save/cancel edit flow.
  - `Account`: per-key notification switches.
  - `Navigation`: login detection by path prefix.
  - `Dashboard`: the greeting name.
  - `ScheduleSessionPage`: a loading/redirect gate.

Supporting modules:

- `Wrappers`: `Option` and `Result`.
- `Records`: the shared `Session`, `User` and `Toast` records.
- `LocalStorage`: storage as a key-to-value map holding values directly.
  There is one `BrowserStorage` object. The session provider and every page hold a reference to it, so a login record and the session lists live in the same map.
- `Filtering`: an order-preserving filter and JavaScript's clamping `slice`.
- `Text`: the JavaScript string operations the components use.
  - `split`, `trim` (with the exact ECMAScript whitespace set), `includes`.
  - ASCII `toLowerCase` and `toUpperCase`.
  - String `<` as lexicographic order by character code.
  - The "display name from email" and "initials" helpers that several pages
    repeat.
- `AppFlows`: facts that span pages, such as what the login record looks
  like to every page that reads it.

Pages with state are classes whose fields are the component's state cells:

- Router navigation is a recorded `target` path.
- Toasts are a recorded `toast`.
- A `setTimeout` callback is a separate method, called as the second step.
- The clock is a `nat` parameter (`Date.now()`). ISO timestamps are string
  parameters.

## Model

| member | source | states |
|---|---|---|
| Records.WithIdKeepsFields | components/session-context.tsx:95-99 | The spread `{...session, id}` keeps every field of the draft and carries the given id. |
| LocalStorage.StoredUser | components/navigation.tsx:50-52 | Reading "user" gives a user exactly when the key is present, and gives the stored record when it is one. |
| SessionContext.InitialSessions | components/session-context.tsx:70-84 | With a window and a stored value, hydration yields the stored list. Without a window, or with nothing stored, it yields the seeds. |
| SessionContext.Persist | components/session-context.tsx:87-93 | Writing a list stores it under its key and leaves every other key as it was. |
| SessionContext.PersistThenHydrate | components/session-context.tsx:70-93 | Persisting a list and hydrating from the result gives back that list. |
| SessionContext.HydrateWithoutStoredValue | components/session-context.tsx:23-84 | With nothing stored, or without a window, hydration gives Maria Rodriguez then Hiroshi Tanaka upcoming, and Sophie Dubois then Li Wei past. |
| SessionContext.SessionStore.constructor | components/session-context.tsx:67-93 | Mounting hydrates both lists from storage, and the effects write both back. |
| SessionContext.SessionStore.AddSession | components/session-context.tsx:95-101 | The new session, with id "session-<clock>", goes first and the old list follows in order. The past list is unchanged. Only the "upcomingSessions" key of the shared storage changes, and storage again holds both current lists. |
| SessionContext.ReloadRestoresLists | components/session-context.tsx:70-93 | While storage is in step with the store, a reload hydrates exactly the store's lists, so added sessions survive. |
| SessionContext.UseSessions | components/session-context.tsx:116-121 | Outside a provider the result is the error "useSessions must be used within a SessionProvider", never a default store. Inside one it is the provider's store. |
| SessionContext.SessionIdNotSeed | components/session-context.tsx:23-64 | A generated id is never one of the seed ids "1" to "4". |
| SessionContext.SessionIdInjective | components/session-context.tsx:98 | Different clock values give different ids. |
| SessionContext.NewIdIsFresh | components/session-context.tsx:96-99 | The id made at a clock value differs from every seed id and from every id made at an earlier value. |
| SessionContext.AddSessionKeepsIdsDistinct | components/session-context.tsx:95-101 | If the clock strictly exceeds every earlier value, `addSession` keeps all ids distinct, and the invariant holds for the next call. |
| SessionContext.SeedIdsDistinct | components/session-context.tsx:23-64 | The four seed sessions have distinct seed ids. |
| MessageThread.SendDisabledIffBlank | components/message-thread.tsx:133 | The send button is disabled exactly when the draft trims to empty. |
| MessageThread.MessageThreadView.constructor | components/message-thread.tsx:34-35 | The view starts with the thread's messages and an empty draft. |
| MessageThread.MessageThreadView.SetNewMessage | components/message-thread.tsx:125 | Typing replaces the draft and leaves the messages unchanged. |
| MessageThread.MessageThreadView.HandleSendMessage | components/message-thread.tsx:46-62 | A send happens exactly when the draft is not blank. A blank draft changes nothing. Otherwise one message is appended: id "msg-<clock>", sender "me", the untrimmed draft as text. Earlier messages keep their order, and the draft becomes "". |
| MessageThread.MessageThreadView.HandleKeyDown | components/message-thread.tsx:126-130 | Enter without Shift sends, with the same effect as the send button. Any other key, including Shift+Enter, changes nothing. |
| MessageThread.MessageThreadView.AvatarInitials | components/message-thread.tsx:73-77 | The partner's avatar initials are the upper-cased first character of each space-separated word of the partner's name. |
| Text.InitialsSpec | components/message-thread.tsx:73-77 | The initials are the upper-cased first character of each space-separated word, and empty words contribute nothing. This agrees with an independent scan for word starts. |
| Text.FirstCharsOfSplit | components/message-thread.tsx:73-76 | Taking the first character of each piece of a split on " " equals scanning the text for word starts. |
| Text.LowerSpec | app/browse-speakers/page.tsx:96 | Lower-casing keeps the length, leaves no upper-case letter, and leaves every other character unchanged. |
| Text.LowerForgetsCase | app/browse-speakers/page.tsx:96-100 | Lower-casing forgets case: upper- then lower-casing equals lower-casing, and lower-casing is idempotent. |
| Text.ContainsAt | app/browse-speakers/page.tsx:96 | `includes` holds exactly when the query occurs at some position. |
| Text.ContainsEmpty | app/browse-speakers/page.tsx:96 | Every string includes the empty string. |
| Text.ContainsChars | app/browse-speakers/page.tsx:99-100 | Every character of an included string occurs in the text. |
| Text.TrimStartSpec | components/message-thread.tsx:48 | Trimming the start gives "" exactly when the text is all whitespace. Otherwise the result starts with a non-whitespace character. |
| Text.TrimEndSpec | components/message-thread.tsx:48 | Trimming the end gives "" exactly when the text is all whitespace. |
| Text.TrimEmptyIffBlank | components/message-thread.tsx:48 | A string trims to "" exactly when every character is whitespace. |
| Text.SplitOn | components/navigation.tsx:56 | `split` always yields at least one piece. |
| Text.SplitJoin | components/navigation.tsx:56 | Joining the pieces of a split with the separator gives back the original string. |
| Text.SplitPiecesFree | components/navigation.tsx:56 | No piece of a split contains the separator. |
| Text.FirstPieceIsPrefix | components/navigation.tsx:56 | The first piece is a prefix of the string without the separator. It is the whole string or is followed by the separator. |
| Text.FirstIndexUnique | components/navigation.tsx:56 | The first occurrence of a separator is unique. |
| Text.DisplayNameFromEmailSpec | app/profile/page.tsx:41-43 | The derived name is the text before the first "@" with its first character upper-cased and the rest unchanged. |
| Text.Decimal | components/session-context.tsx:98 | The clock prints as a non-empty run of decimal digits. |
| Text.DecimalRoundTrip | components/session-context.tsx:98 | Reading back a printed number gives the number. |
| Text.DecimalInjective | components/session-context.tsx:98 | Different numbers print differently. |
| Text.LexLessIrreflexive | components/schedule-session-form.tsx:24 | No string sorts before itself. |
| Text.LexLessTrichotomy | components/schedule-session-form.tsx:24 | Two strings are equal, or one of them sorts before the other. |
| Text.LexLessAsymmetric | components/schedule-session-form.tsx:24 | String order is asymmetric. |
| Text.LexLessTransitive | components/schedule-session-form.tsx:24 | String order is transitive. |
| Filtering.Filter | app/browse-speakers/page.tsx:95 | A filter never grows the list. |
| Filtering.FilterIsSubsequence | app/browse-speakers/page.tsx:95 | A filter's result is an order-preserving subsequence of its input. |
| Filtering.FilterMembership | app/browse-speakers/page.tsx:95 | An element is in the result exactly when it is in the input and passes the test. |
| Filtering.FilterKeepsAll | app/browse-speakers/page.tsx:95 | If every element passes, the result is the input. |
| Filtering.FilterKeepsNone | app/browse-speakers/page.tsx:95 | If no element passes, the result is empty. |
| Filtering.Slice | app/browse-speakers/page.tsx:222 | `slice(start, end)` is the sub-list when the bounds fit, and it is empty when end is at most start or start is past the end. |
| BrowseSpeakers.FilteredPartnersSpec | app/browse-speakers/page.tsx:95-103 | The result is an order-preserving subsequence of the partners. A partner is kept exactly when all four conditions hold: name search, native language, learning language and availability. |
| BrowseSpeakers.EmptySearchMatchesAll | app/browse-speakers/page.tsx:96 | An empty search matches every partner. |
| BrowseSpeakers.MatchesIgnoresQueryCase | app/browse-speakers/page.tsx:96-100 | The name search and the availability test ignore the case of what was typed or chosen. |
| BrowseSpeakers.InitialFiltersShowAll | app/browse-speakers/page.tsx:89-103 | With every filter at its initial "", all eight partners are shown, in order. |
| BrowseSpeakers.NoAnyWithoutY | app/browse-speakers/page.tsx:99-100 | Text without a "y" in either case never includes "any" after lower-casing. |
| BrowseSpeakers.AvailabilityHasNoY | app/browse-speakers/page.tsx:12-85 | No seeded partner's availability contains a "y". |
| BrowseSpeakers.NoLanguageIsAll | app/browse-speakers/page.tsx:12-85 | No seeded partner's native or learning language is "all". |
| BrowseSpeakers.AllOrAnyOptionShowsNobody | app/browse-speakers/page.tsx:97-100 | Choosing the "all" language option or the "any" availability option (lines 143, 163, 181) is matched literally, so it shows no partner at all. |
| BrowseSpeakers.FixedTabs | app/browse-speakers/page.tsx:222-234 | The "Online Now" tab is partners 0 to 3 and "Recommended" is partners 2 to 5, whatever the filters. |
| BrowseSpeakers.ScheduleTarget | app/browse-speakers/page.tsx:106-108 | Scheduling with a partner goes under "/schedule/", and the rest of the path is the partner's id. |
| MessageList.FilteredConversationsSpec | components/message-list.tsx:32-34 | The result is an order-preserving subsequence. A conversation is kept exactly when its lower-cased name contains the lower-cased query. An empty query keeps all. |
| MessageList.RenderSpec | components/message-list.tsx:52-110 | "No conversations found" shows exactly when nothing matches. Otherwise there is one entry per match, in order. Each links to "/messages/<id>", is active exactly when its id is the active id, shows the unread dot exactly when its last message is unread, and shows the name's initials. |
| MessageList.AtMostOneActive | components/message-list.tsx:55 | With distinct ids, at most one entry is highlighted. |
| MessageList.FilteredKeepsDistinct | components/message-list.tsx:32-34 | Filtering keeps conversation ids distinct. |
| ScheduleForm.TodayOfIsoTimestamp | components/schedule-session-form.tsx:17 | For an ISO 8601 timestamp, "today" is its first ten characters, YYYY-MM-DD. |
| ScheduleForm.ValidateSpec | components/schedule-session-form.tsx:20-31 | Values pass exactly when four things hold: the date is non-empty, the date is not string-before today, and time and duration are non-empty. An empty date reports "Date is required". An earlier date reports "Date must be today or in the future". |
| ScheduleForm.DateBoundary | components/schedule-session-form.tsx:24-26 | Today itself and every later-sorting date are accepted. An empty date never is. |
| ScheduleForm.DurationOptionValues | components/schedule-session-form.tsx:134-137 | Each option "15", "30", "45", "60" parses to the number it names and prints back to itself. |
| ScheduleForm.DefaultDuration | components/schedule-session-form.tsx:49-55 | The form starts on "30", so an untouched duration builds a 30-minute session. |
| ScheduleForm.BuildSessionSpec | components/schedule-session-form.tsx:62-72 | The built session's date is `date + "T" + time + ":00"`. Partner and language come from the page, and the duration is the option's number. An empty topic becomes "<language> practice session". Empty notes become absent, and non-empty notes are kept. |
| ScheduleForm.SessionDateRoundTrip | components/schedule-session-form.tsx:62 | The built date-time splits back at its first "T" into the chosen date. |
| ScheduleForm.ScheduleSessionForm.constructor | components/schedule-session-form.tsx:41-56 | The form starts not submitting, with no redirect pending. |
| ScheduleForm.ScheduleSessionForm.SubmitDisabled | components/schedule-session-form.tsx:175 | The submit button is disabled exactly while the redirect after a valid submit is pending. |
| ScheduleForm.ScheduleSessionForm.HandleSubmit | components/schedule-session-form.tsx:58-82 | Invalid values only return their errors and change nothing. Valid values set `isSubmitting`, add the built session to the store exactly once, and start the one redirect timer. Of the shared storage only "upcomingSessions" changes, so the stored login record is kept. |
| ScheduleForm.ScheduleSessionForm.RedirectTimerFires | components/schedule-session-form.tsx:78-81 | The timer ends submitting, clears the pending redirect and sets the target to "/sessions". |
| Profile.SetFieldSpec | app/profile/page.tsx:60-67 | Setting a field of the draft changes that field to the value and nothing else. |
| Profile.LoadedIdentitySpec | app/profile/page.tsx:36-58 | The load writes only when a user with an email is stored. The email is the stored one, and a non-empty stored name wins over the one derived from the email. |
| Profile.ProfilePage.constructor | app/profile/page.tsx:18-33 | Both the shown data and the draft start from the same defaults, with name and email "", and editing is off. |
| Profile.ProfilePage.LoadStoredUser | app/profile/page.tsx:36-58 | The derived name and the email go into both the shown data and the draft, or nothing changes. |
| Profile.ProfilePage.StartEditing | app/profile/page.tsx:153 | "Edit Profile" turns editing on and changes no data. |
| Profile.ProfilePage.HandleInputChange | app/profile/page.tsx:60-63 | An input changes only its field of the draft and never the shown data. |
| Profile.ProfilePage.HandleSelectChange | app/profile/page.tsx:65-67 | The select changes only its field of the draft and never the shown data. |
| Profile.ProfilePage.HandleSaveProfile | app/profile/page.tsx:69-77 | Save copies the draft into the shown data, ends editing and raises "Profile updated". |
| Profile.ProfilePage.Cancel | app/profile/page.tsx:158 | Cancel ends editing. It changes neither the shown data nor the draft, which is not reset. |
| Profile.ProfilePage.GetUserInitials | app/profile/page.tsx:79-85 | The avatar initials are the upper-cased first character of each space-separated word of the shown name. |
| Navigation.IsProtectedSpec | components/navigation.tsx:45-46 | A path is protected exactly when it starts with "/dashboard", "/messages", "/sessions", "/profile" or "/browse-speakers". |
| Navigation.AtMostOneActiveRoute | components/navigation.tsx:93 | A route is highlighted only when the path equals its href, so at most one route is highlighted. |
| Navigation.NavUserNameSpec | components/navigation.tsx:50-67 | No stored user, or a stored user without email, gives "User". The stored name plays no part. |
| Navigation.NavigationState.constructor | components/navigation.tsx:39-40 | The bar starts logged out, with name "". |
| Navigation.NavigationState.OnPathnameChange | components/navigation.tsx:43-69 | On a protected path the bar is logged in, whether or not a user is stored, and takes its name from the stored email. On any other path both fields keep their values. |
| Navigation.NavigationState.GetUserInitials | components/navigation.tsx:72-78 | The avatar initials are the upper-cased first character of each space-separated word of the shown name. |
| Login.LoggedInUser | app/login/page.tsx:54-61 | The stored record has name "John Doe", the typed email and `isLoggedIn` true, and has no password field. Its email is truthy exactly when the typed email is non-empty. |
| Login.LoggedInUserInjective | app/login/page.tsx:56-60 | The stored record is determined by the email alone. |
| Login.LoginPage.constructor | app/login/page.tsx:17-21 | The form starts empty and not loading. |
| Login.LoginPage.InputsDisabled | app/login/page.tsx:90-114 | The inputs and the submit button are disabled exactly while the login timer is pending. |
| Login.LoginPage.HandleChange | app/login/page.tsx:23-26 | A change updates only the named field. |
| Login.LoginPage.HandleSubmit | app/login/page.tsx:28-43 | An empty email or password raises "Missing information", leaves loading off and stores nothing. Otherwise loading starts and a timer is set for the typed email. Storage is untouched at submit. |
| Login.LoginPage.LoginTimerFires | app/login/page.tsx:44-66 | The timer stores the record for the captured email under "user" in the shared storage, and no other key changes. It raises "Login successful!", sets the target to "/dashboard" and ends loading. |
| Account.LoadedEmail | app/account/page.tsx:30 | The loaded email is the stored email, or "" when it is missing or empty. |
| Account.ToggleSpec | app/account/page.tsx:35-43 | A switch sets exactly its key to the new value. Every other key keeps its value, and no key is dropped. |
| Account.ToggleTwice | app/account/page.tsx:35-43 | Switching a key twice leaves the second value. Switching it back restores the map. |
| Account.AccountPage.constructor | app/account/page.tsx:13-21 | The email starts "" and the password masked. The email, sessions and messages notifications all start true. |
| Account.AccountPage.LoadStoredUser | app/account/page.tsx:23-33 | With a stored user, the email becomes its email or "". Without one, nothing changes. |
| Account.AccountPage.HandleNotificationChange | app/account/page.tsx:35-43 | A switch changes only that notification, and email and password are unchanged. |
| Account.AccountPage.HandleSaveSettings | app/account/page.tsx:45-50 | Save only raises "Settings saved" and changes no state. |
| Account.AccountPage.HandleChangePassword | app/account/page.tsx:52-57 | Change-password only raises "Password change requested". The password stays as it was. |
| Dashboard.UpcomingMatchesSeeds | app/dashboard/page.tsx:49-66 | The dashboard's own two entries agree, entry by entry, with the store's seed upcoming sessions. |
| Dashboard.Greeting | app/dashboard/page.tsx:71-81 | A stored email gives its capitalised local part. Otherwise the current name stays. |
| Dashboard.DashboardPage.constructor | app/dashboard/page.tsx:69 | The greeting starts as "User". |
| Dashboard.DashboardPage.LoadStoredUser | app/dashboard/page.tsx:71-81 | The mount effect sets the greeting from the stored email, or leaves it. |
| ScheduleSessionPage.ContinuePath | app/schedule-session/page.tsx:33-35 | Continue goes under "/schedule/", to the partner id, or to "/schedule/null" when the id is absent. |
| ScheduleSessionPage.ScheduleSessionPage.constructor | app/schedule-session/page.tsx:13-16 | The page starts loading, with no target and no toast. |
| ScheduleSessionPage.ScheduleSessionPage.RunEffect | app/schedule-session/page.tsx:18-31 | A missing or empty partner id raises a destructive toast, targets "/browse-speakers" and keeps loading. Any other id ends loading. |
| ScheduleSessionPage.ScheduleSessionPage.HandleContinue | app/schedule-session/page.tsx:33-35 | Continue targets "/schedule/<partnerId>". |
| AppFlows.LoginSeenByPages | app/login/page.tsx:54-61 | After logging in with a non-empty email, the pages that read the record see it this way: the navigation bar and the dashboard greet by the capitalised local part of the email; the profile shows "John Doe" with that email; the account page shows the email. The stored session lists are untouched. |
| AppFlows.NavigationAndDashboardAgree | components/navigation.tsx:50-67 | The navigation bar and a fresh dashboard derive the same name from whatever is stored, and "User" without an email. |
| AppFlows.AddSessionNotOnDashboard | app/dashboard/page.tsx:127-128 | After `addSession` on a seeded store, the store has three upcoming sessions headed by the new one. The dashboard still shows its own two entries, neither with the new id. |
| AppFlows.LogInThenSchedule | app/login/page.tsx:54-61 | The login page and the session provider share one storage. After the login timer fires and a session is then scheduled, the stored login record is still there. The store stays in step with storage, and the new session heads the upcoming list. |

## Left out

- Rendering, layout, icons, avatars and the Tabs, Card and Avatar components are left out; they are presentational.
- Locale date and time formatting (`toLocaleDateString`, `toLocaleTimeString`) is left out; it is locale-dependent library code.
- The clock is a parameter: `Date.now()` becomes `clock: nat`, and `new Date().toISOString()` becomes a string.
  - `SessionContext.AddSessionKeepsIdsDistinct` assumes the clock strictly increases between calls.
  - The source promises nothing when two sessions are added in the same millisecond.
- Timers are explicit second steps. The one-second delays themselves are not modelled.
- JSON serialisation and the real `localStorage` API are not modelled. Storage holds values directly.
  - A non-user value under "user" reads as a user with no fields.
  - The session store's constructor requires that the session keys hold session lists. In the source, malformed stored data throws on parse or spread, and nothing handles that.
- zod, react-hook-form, the Next.js router and the toast hook are left out. Only the validation rules, the recorded target and the recorded toast are modelled.
- `ScheduleForm.Validate` returns only the first message of each field, which is what the form shows. The `topic` and `notes` rules accept anything.
- `ScheduleForm.BuildSession` requires the duration to be one of the select's options, since the form offers no other value. `Number.parseInt` on free text is not modelled.
- Text case mapping is ASCII-only. Other characters keep their case, unlike full Unicode `toLowerCase` and `toUpperCase`.
- `Text.LexLess` compares characters by code point. JavaScript compares UTF-16 code units, and the two orders differ only above U+FFFF, never on the ISO dates the form compares.
- The server-render path, where no window exists, is modelled only in `SessionContext.InitialSessions`. The `SessionStore` constructor models mounting in the browser.
- The message provider and `components/message-context` are not part of this model. Marking conversations as read and the active-conversation fallback are therefore left out.
- Partner ratings, avatars and the dashboard's partner cards are display-only values, and ratings are floating point.
- Presentational pages (home, layout, settings redirect, sessions list, messages index) and the card components are not part of this model.
- Dropdown open state in the navigation bar and the message thread's scroll-into-view are left out; both are UI-only.
- `Login.LoginPage.HandleSubmit` requires the button to be enabled (not loading). This matches the disabled button and inputs. A second submit during loading is not modelled.
- `ScheduleForm.ScheduleSessionForm.HandleSubmit` requires its button to be enabled (not submitting). A second submit before the redirect is not modelled.
- The login submit logs the whole form, password included, to the console (app/login/page.tsx:46). Console output is not modelled.
- The pages that only read storage (profile, account, dashboard, navigation) read the shared `BrowserStorage` when their effect runs. Later writes reach them only when the effect runs again.
