/** The conversation list: a name search over the conversations and one entry per match. */
module MessageList {
  import opened Text
  import opened Filtering
  import opened Records

  datatype LastMessage = LastMessage(text: string, timestamp: string, isRead: bool)

  datatype Conversation = Conversation(id: string, user: ChatUser, lastMessage: LastMessage)

  /** The user's name contains the query, ignoring case. */
  predicate NameMatches(c: Conversation, query: string) {
    Contains(Lower(c.user.name), Lower(query))
  }

  /** `filteredConversations`. */
  function FilteredConversations(cs: seq<Conversation>, query: string): seq<Conversation> {
    Filter(cs, c => NameMatches(c, query))
  }

  /**
   * The result is an order-preserving subsequence of the conversations; a
   * conversation is kept exactly when its lower-cased name contains the
   * lower-cased query, and an empty query keeps them all.
   */
  lemma FilteredConversationsSpec(cs: seq<Conversation>, query: string)
    ensures IsSubsequence(FilteredConversations(cs, query), cs)
    ensures forall c :: c in FilteredConversations(cs, query) <==> c in cs && NameMatches(c, query)
    ensures query == "" ==> FilteredConversations(cs, query) == cs
  {
    FilterIsSubsequence(cs, c => NameMatches(c, query));
    forall c ensures c in FilteredConversations(cs, query) <==> c in cs && NameMatches(c, query) {
      FilterMembership(cs, c => NameMatches(c, query), c);
    }
    if query == "" {
      forall i | 0 <= i < |cs| ensures NameMatches(cs[i], query) {
        ContainsEmpty(Lower(cs[i].user.name));
      }
      FilterKeepsAll(cs, c => NameMatches(c, query));
    }
  }

  /** What one list entry shows. */
  datatype Entry = Entry(
    href: string,
    initials: string,
    name: string,
    online: bool,
    isActive: bool,
    text: string,
    unreadDot: bool)

  const MessagesPrefix: string := "/messages/"

  function EntryFor(c: Conversation, activeConversationId: string): Entry {
    Entry(
      MessagesPrefix + c.id,
      Initials(c.user.name),
      c.user.name,
      c.user.status == Online,
      c.id == activeConversationId,
      c.lastMessage.text,
      !c.lastMessage.isRead)
  }

  /** The list body: the entries, or the "No conversations found" placeholder. */
  datatype ListView = NoConversationsFound | Entries(entries: seq<Entry>)

  function Render(cs: seq<Conversation>, activeConversationId: string, query: string): ListView {
    var found := FilteredConversations(cs, query);
    if |found| == 0 then NoConversationsFound
    else Entries(seq(|found|, i requires 0 <= i < |found| => EntryFor(found[i], activeConversationId)))
  }

  /**
   * The placeholder shows exactly when nothing matches; otherwise there is one
   * entry per match, in order. Each entry links to "/messages/<id>", is active
   * exactly when its id is the active id, and shows the unread dot exactly
   * when its last message is unread.
   */
  lemma RenderSpec(cs: seq<Conversation>, activeConversationId: string, query: string)
    ensures var view := Render(cs, activeConversationId, query);
      var found := FilteredConversations(cs, query);
      && (view.NoConversationsFound? <==> found == [])
      && (view.Entries? ==> |view.entries| == |found|)
      && (view.Entries? ==> forall i :: 0 <= i < |found| ==>
            && view.entries[i].href == MessagesPrefix + found[i].id
            && view.entries[i].href[|MessagesPrefix|..] == found[i].id
            && (view.entries[i].isActive <==> found[i].id == activeConversationId)
            && (view.entries[i].unreadDot <==> !found[i].lastMessage.isRead)
            && view.entries[i].initials == Upper(WordStarts(found[i].user.name, true)))
  {
    var found := FilteredConversations(cs, query);
    forall i | 0 <= i < |found| ensures Initials(found[i].user.name) == Upper(WordStarts(found[i].user.name, true)) {
      InitialsSpec(found[i].user.name);
    }
  }

  predicate DistinctIds(cs: seq<Conversation>) {
    forall i, j :: 0 <= i < j < |cs| ==> cs[i].id != cs[j].id
  }

  /** With distinct conversation ids, at most one entry is highlighted as active. */
  lemma AtMostOneActive(cs: seq<Conversation>, activeConversationId: string, query: string)
    requires DistinctIds(cs)
    ensures var view := Render(cs, activeConversationId, query);
      view.Entries? ==> forall i, j :: 0 <= i < j < |view.entries| ==>
        !(view.entries[i].isActive && view.entries[j].isActive)
  {
    FilteredKeepsDistinct(cs, query);
  }

  /** Filtering keeps ids distinct. */
  lemma {:induction false} FilteredKeepsDistinct(cs: seq<Conversation>, query: string)
    requires DistinctIds(cs)
    ensures DistinctIds(FilteredConversations(cs, query))
    decreases |cs|
  {
    if cs != [] {
      var rest := FilteredConversations(cs[1..], query);
      assert DistinctIds(cs[1..]) by {
        forall i, j | 0 <= i < j < |cs[1..]| ensures cs[1..][i].id != cs[1..][j].id {
          assert cs[1..][i] == cs[i + 1] && cs[1..][j] == cs[j + 1];
        }
      }
      FilteredKeepsDistinct(cs[1..], query);
      if NameMatches(cs[0], query) {
        var r := [cs[0]] + rest;
        forall j | 0 <= j < |rest| ensures rest[j].id != cs[0].id {
          FilterMembership(cs[1..], c => NameMatches(c, query), rest[j]);
          var k :| 0 <= k < |cs[1..]| && cs[1..][k] == rest[j];
          assert cs[k + 1] == rest[j];
        }
        forall i, j | 0 <= i < j < |r| ensures r[i].id != r[j].id {
          if i > 0 { assert r[i] == rest[i - 1]; }
          assert r[j] == rest[j - 1];
        }
      } else {
        assert FilteredConversations(cs, query) == rest;
      }
    }
  }
}
