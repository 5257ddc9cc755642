/** The records the pages share: sessions and the locally stored user. */
module Records {
  import opened Wrappers

  /** A scheduled practice session. `duration` is in minutes. */
  datatype Session = Session(
    id: string,
    partnerName: string,
    date: string,
    duration: int,
    language: string,
    topic: string,
    notes: Option<string>)

  /** A session before the store gives it an id (`Omit<Session, "id">`). */
  datatype SessionDraft = SessionDraft(
    partnerName: string,
    date: string,
    duration: int,
    language: string,
    topic: string,
    notes: Option<string>)

  /** `{ ...draft, id }`. */
  function WithId(d: SessionDraft, id: string): Session {
    Session(id, d.partnerName, d.date, d.duration, d.language, d.topic, d.notes)
  }

  /** The fields of a session other than its id. */
  function Fields(s: Session): SessionDraft {
    SessionDraft(s.partnerName, s.date, s.duration, s.language, s.topic, s.notes)
  }

  /** Adding an id keeps every other field, and the id is the one given. */
  lemma WithIdKeepsFields(d: SessionDraft, id: string)
    ensures WithId(d, id).id == id && Fields(WithId(d, id)) == d
  {
  }

  datatype Presence = Online | Offline

  /** The other participant of a conversation. */
  datatype ChatUser = ChatUser(id: string, name: string, status: Presence)

  /**
   * The user record kept under the storage key "user". Every field may be
   * missing; pages test them for JavaScript truthiness.
   */
  datatype User = User(name: Option<string>, email: Option<string>, isLoggedIn: Option<bool>)

  /** A toast notification, recorded rather than shown. */
  datatype Toast = Toast(title: string, description: string, destructive: bool)

  /** JavaScript truthiness of an optional string: present and non-empty. */
  predicate Truthy(s: Option<string>) {
    s.Some? && s.value != ""
  }
}
