/** One conversation's view: its messages, the draft being typed, and sending. */
module MessageThread {
  import opened Text
  import opened Records

  datatype Message = Message(id: string, senderId: string, text: string, timestamp: string)

  datatype Thread = Thread(conversationId: string, user: ChatUser, messages: seq<Message>)

  /** The sender id of messages the local user sends. */
  const Me: string := "me"

  /** The id of a message sent at clock value `clock`. */
  function MessageId(clock: nat): string {
    "msg-" + Decimal(clock)
  }

  /** The send button's `disabled={!newMessage.trim()}`. */
  predicate SendDisabled(draft: string) {
    Trim(draft) == ""
  }

  /** The button is disabled exactly when every character of the draft is whitespace. */
  lemma SendDisabledIffBlank(draft: string)
    ensures SendDisabled(draft) <==> Blank(draft)
  {
    TrimEmptyIffBlank(draft);
  }

  /** Enter sends; Shift+Enter does not (it inserts a line break). */
  predicate TriggersSend(key: string, shiftKey: bool) {
    key == "Enter" && !shiftKey
  }

  /** The `MessageThread` component's state. */
  class MessageThreadView {
    const thread: Thread
    var messages: seq<Message>
    var newMessage: string

    /** Mounting: the thread's messages and an empty draft. */
    constructor (thread: Thread)
      ensures this.thread == thread && messages == thread.messages && newMessage == ""
    {
      this.thread := thread;
      messages := thread.messages;
      newMessage := "";
    }

    /** The textarea's `onChange`. */
    method SetNewMessage(value: string)
      modifies this
      ensures newMessage == value && messages == old(messages)
    {
      newMessage := value;
    }

    /**
     * `handleSendMessage`: a draft that trims to empty changes nothing;
     * otherwise one message from "me", with the draft as typed, goes to the
     * end of the list and the draft is cleared.
     */
    method HandleSendMessage(clock: nat, now: string) returns (sent: bool)
      modifies this
      ensures sent <==> !Blank(old(newMessage))
      ensures !sent ==> messages == old(messages) && newMessage == old(newMessage)
      ensures sent ==> messages == old(messages) + [Message(MessageId(clock), Me, old(newMessage), now)]
      ensures sent ==> newMessage == ""
    {
      TrimEmptyIffBlank(newMessage);
      if Trim(newMessage) == "" {
        return false;
      }
      var newMsg := Message(MessageId(clock), Me, newMessage, now);
      messages := messages + [newMsg];
      newMessage := "";
      sent := true;
    }

    /** The textarea's `onKeyDown`: Enter without Shift sends, any other key does nothing here. */
    method HandleKeyDown(key: string, shiftKey: bool, clock: nat, now: string) returns (sent: bool)
      modifies this
      ensures sent ==> TriggersSend(key, shiftKey)
      ensures sent <==> TriggersSend(key, shiftKey) && !Blank(old(newMessage))
      ensures !sent ==> messages == old(messages) && newMessage == old(newMessage)
      ensures sent ==> messages == old(messages) + [Message(MessageId(clock), Me, old(newMessage), now)]
      ensures sent ==> newMessage == ""
    {
      sent := false;
      if TriggersSend(key, shiftKey) {
        sent := HandleSendMessage(clock, now);
      }
    }

    /** The avatar fallback for the other participant: the first character of each word of the name, upper-cased. */
    function AvatarInitials(): (r: string)
      ensures r == Upper(WordStarts(thread.user.name, true))
    {
      InitialsSpec(thread.user.name);
      Initials(thread.user.name)
    }
  }
}
