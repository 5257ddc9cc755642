/**
 * The session store: two ordered lists of sessions, hydrated from local
 * storage (or seeded) on startup, written back to storage whenever they
 * change, and grown by `addSession`.
 */
module SessionContext {
  import opened Wrappers
  import opened Text
  import opened Records
  import opened LocalStorage

  const InitialUpcomingSessions: seq<Session> := [
    Session("1", "Maria Rodriguez", "2025-03-22T14:00:00", 30, "Spanish", "Restaurant conversations",
      Some("We'll practice common phrases used in restaurants, how to order food, ask for the bill, and make special requests.")),
    Session("2", "Hiroshi Tanaka", "2025-03-24T09:00:00", 45, "Japanese", "Travel vocabulary",
      Some("Focus on vocabulary for transportation, asking for directions, and booking accommodations."))
  ]

  const InitialPastSessions: seq<Session> := [
    Session("3", "Sophie Dubois", "2025-03-15T16:30:00", 60, "French", "Daily routines",
      Some("Practice describing your daily routine, using reflexive verbs and time expressions.")),
    Session("4", "Li Wei", "2025-03-10T11:00:00", 30, "Mandarin", "Basic introductions",
      Some("Learn how to introduce yourself, ask basic questions, and respond to common greetings."))
  ]

  /** The ids the seed data uses. */
  const SeedIds: set<string> := {"1", "2", "3", "4"}

  /** The id `addSession` gives a session created at clock value `clock`. */
  function SessionId(clock: nat): string {
    "session-" + Decimal(clock)
  }

  /**
   * What is stored under `key`, if anything, is a list of sessions. Anything
   * else would make the source's later spread of the list throw.
   */
  predicate HoldsSessionList(st: Store, key: string) {
    key in st ==> st[key].SessionList?
  }

  /**
   * The `useState` initialiser: with a window and a stored value, the stored
   * list; otherwise the seed list.
   */
  function InitialSessions(hasWindow: bool, st: Store, key: string, seeds: seq<Session>): (r: seq<Session>)
    requires HoldsSessionList(st, key)
    ensures hasWindow && key in st ==> r == st[key].sessions
    ensures !hasWindow || key !in st ==> r == seeds
  {
    if hasWindow && key in st then st[key].sessions else seeds
  }

  /** `localStorage.setItem(key, JSON.stringify(list))`. */
  function Persist(st: Store, key: string, list: seq<Session>): (r: Store)
    ensures key in r && r[key] == SessionList(list)
    ensures forall k :: k in st && k != key ==> k in r && r[k] == st[k]
    ensures r.Keys == st.Keys + {key}
  {
    st[key := SessionList(list)]
  }

  /** Persisting a list and hydrating from the result gives the same list back. */
  lemma PersistThenHydrate(st: Store, key: string, list: seq<Session>, seeds: seq<Session>)
    ensures HoldsSessionList(Persist(st, key, list), key)
    ensures InitialSessions(true, Persist(st, key, list), key, seeds) == list
  {
  }

  /**
   * With nothing stored, or without a window, hydration gives exactly the
   * seeds: Maria Rodriguez then Hiroshi Tanaka upcoming, Sophie Dubois then
   * Li Wei past.
   */
  lemma HydrateWithoutStoredValue(hasWindow: bool, st: Store)
    requires !hasWindow || (UpcomingKey !in st && PastKey !in st)
    requires HoldsSessionList(st, UpcomingKey) && HoldsSessionList(st, PastKey)
    ensures var up := InitialSessions(hasWindow, st, UpcomingKey, InitialUpcomingSessions);
      |up| == 2 && up[0].partnerName == "Maria Rodriguez" && up[1].partnerName == "Hiroshi Tanaka"
    ensures var past := InitialSessions(hasWindow, st, PastKey, InitialPastSessions);
      |past| == 2 && past[0].partnerName == "Sophie Dubois" && past[1].partnerName == "Li Wei"
  {
  }

  /** The store as the provider holds it, with the browser storage it writes to. */
  class SessionStore {
    var upcomingSessions: seq<Session>
    var pastSessions: seq<Session>
    const storage: BrowserStorage

    /** Storage holds the current lists under their keys (the two effects have run). */
    predicate Persisted()
      reads this, storage
    {
      && UpcomingKey in storage.items && storage.items[UpcomingKey] == SessionList(upcomingSessions)
      && PastKey in storage.items && storage.items[PastKey] == SessionList(pastSessions)
    }

    /**
     * Mounting the provider in the browser: both lists are hydrated from
     * `storage`, then the two effects write them back.
     */
    constructor (storage: BrowserStorage)
      requires HoldsSessionList(storage.items, UpcomingKey) && HoldsSessionList(storage.items, PastKey)
      modifies storage
      ensures this.storage == storage
      ensures upcomingSessions == InitialSessions(true, old(storage.items), UpcomingKey, InitialUpcomingSessions)
      ensures pastSessions == InitialSessions(true, old(storage.items), PastKey, InitialPastSessions)
      ensures storage.items == Persist(Persist(old(storage.items), UpcomingKey, upcomingSessions), PastKey, pastSessions)
      ensures Persisted()
    {
      var up := InitialSessions(true, storage.items, UpcomingKey, InitialUpcomingSessions);
      var past := InitialSessions(true, storage.items, PastKey, InitialPastSessions);
      upcomingSessions, pastSessions := up, past;
      this.storage := storage;
      new;
      storage.items := Persist(Persist(storage.items, UpcomingKey, up), PastKey, past);
    }

    /**
     * `addSession`: the new session, with id "session-<clock>", goes to the
     * front of the upcoming list; the effect on `upcomingSessions` writes it
     * back. The past list and every other stored key do not change.
     */
    method AddSession(session: SessionDraft, clock: nat)
      requires Persisted()
      modifies this, storage
      ensures upcomingSessions == [WithId(session, SessionId(clock))] + old(upcomingSessions)
      ensures pastSessions == old(pastSessions)
      ensures storage.items == Persist(old(storage.items), UpcomingKey, upcomingSessions)
      ensures Persisted()
    {
      var newSession := WithId(session, SessionId(clock));
      upcomingSessions := [newSession] + upcomingSessions;
      storage.items := Persist(storage.items, UpcomingKey, upcomingSessions);
    }
  }

  /**
   * Reloading the page while storage is in step with the store hydrates
   * exactly the lists the store held, so an added session survives a reload.
   */
  lemma ReloadRestoresLists(store: SessionStore)
    requires store.Persisted()
    ensures HoldsSessionList(store.storage.items, UpcomingKey) && HoldsSessionList(store.storage.items, PastKey)
    ensures InitialSessions(true, store.storage.items, UpcomingKey, InitialUpcomingSessions) == store.upcomingSessions
    ensures InitialSessions(true, store.storage.items, PastKey, InitialPastSessions) == store.pastSessions
  {
  }

  /** The error `useSessions` throws outside a provider. */
  const OutsideProviderMessage: string := "useSessions must be used within a SessionProvider"

  /** `useSessions`: the enclosing provider's store, or an error when there is none. */
  function UseSessions(provider: Option<SessionStore>): (r: Result<SessionStore, string>)
    ensures r.Err? <==> provider.None?
    ensures r.Err? ==> r.error == OutsideProviderMessage
    ensures r.Ok? ==> r.value == provider.value
  {
    match provider
    case None => Err(OutsideProviderMessage)
    case Some(store) => Ok(store)
  }

  // ----- Session ids -----

  /** Every session in `sessions` has a seed id or an id made from a clock value below `clock`. */
  ghost predicate IssuedBefore(sessions: seq<Session>, clock: nat) {
    forall i :: 0 <= i < |sessions| ==>
      sessions[i].id in SeedIds || exists c: nat :: c < clock && sessions[i].id == SessionId(c)
  }

  predicate DistinctIds(sessions: seq<Session>) {
    forall i, j :: 0 <= i < j < |sessions| ==> sessions[i].id != sessions[j].id
  }

  /** A generated id is never a seed id. */
  lemma SessionIdNotSeed(clock: nat)
    ensures SessionId(clock) !in SeedIds
  {
    assert |SessionId(clock)| > 1;
  }

  /** Different clock values give different ids. */
  lemma SessionIdInjective(a: nat, b: nat)
    requires SessionId(a) == SessionId(b)
    ensures a == b
  {
    assert Decimal(a) == SessionId(a)[8..];
    assert Decimal(b) == SessionId(b)[8..];
    DecimalInjective(a, b);
  }

  /** The id made at `clock` differs from every id issued before it. */
  lemma NewIdIsFresh(sessions: seq<Session>, clock: nat)
    requires IssuedBefore(sessions, clock)
    ensures forall i :: 0 <= i < |sessions| ==> sessions[i].id != SessionId(clock)
  {
    forall i | 0 <= i < |sessions| ensures sessions[i].id != SessionId(clock) {
      if sessions[i].id in SeedIds {
        SessionIdNotSeed(clock);
      } else {
        var c: nat :| c < clock && sessions[i].id == SessionId(c);
        if SessionId(c) == SessionId(clock) {
          SessionIdInjective(c, clock);
        }
      }
    }
  }

  /**
   * When the clock strictly exceeds every earlier value, `addSession` keeps
   * ids distinct, and the new list again has only ids issued before any later
   * clock value.
   */
  lemma AddSessionKeepsIdsDistinct(sessions: seq<Session>, d: SessionDraft, clock: nat, later: nat)
    requires DistinctIds(sessions) && IssuedBefore(sessions, clock) && clock < later
    ensures DistinctIds([WithId(d, SessionId(clock))] + sessions)
    ensures IssuedBefore([WithId(d, SessionId(clock))] + sessions, later)
  {
    NewIdIsFresh(sessions, clock);
    var s' := [WithId(d, SessionId(clock))] + sessions;
    forall i, j | 0 <= i < j < |s'| ensures s'[i].id != s'[j].id {
      if i > 0 {
        assert s'[i] == sessions[i - 1] && s'[j] == sessions[j - 1];
      }
    }
    forall i | 0 <= i < |s'|
      ensures s'[i].id in SeedIds || exists c: nat :: c < later && s'[i].id == SessionId(c)
    {
      if i == 0 {
        assert s'[0].id == SessionId(clock);
      } else {
        assert s'[i] == sessions[i - 1];
      }
    }
  }

  /** The seed lists have distinct ids, all of them seed ids. */
  lemma SeedIdsDistinct()
    ensures DistinctIds(InitialUpcomingSessions + InitialPastSessions)
    ensures IssuedBefore(InitialUpcomingSessions, 0) && IssuedBefore(InitialPastSessions, 0)
  {
  }
}
