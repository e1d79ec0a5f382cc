/**
 * The customer-service chat: which stored messages belong to the user's conversation, how a
 * message is sent, and how an insert error is reported. The `messages` table is a parameter,
 * listed in creation order; the model keeps the query's filter and not its ordering.
 */
module SupportChat {
  import opened Opt
  import opened JsString

  datatype Message = Message(id: string, sender: string, recipient: Option<string>, content: string, createdAt: string)

  /** The record `onSend` inserts. */
  datatype NewMessage = NewMessage(sender: string, recipient: Option<string>, content: string)

  /** Reply to the insert: success, or an error with its message. */
  datatype InsertReply = Inserted | InsertFailed(message: string)

  const NoAdminError: string :=
    "There is currently no admin available. Your message could not be saved. Please try again later or contact support."

  /** An id as the screen tests it: present and non-empty. */
  predicate Known(id: Option<string>) {
    id.Some? && Truthy(id.value)
  }

  /**
   * The conversation filter: with a known admin, messages from the user to that admin and from
   * that admin to the user; without one, every message the user sent.
   */
  predicate InConversation(m: Message, userId: string, adminId: Option<string>) {
    if Known(adminId) then
      (m.sender == userId && m.recipient == Some(adminId.value)) ||
      (m.sender == adminId.value && m.recipient == Some(userId))
    else
      m.sender == userId
  }

  /** The rows of `table` the conversation query returns, in table order. */
  function Conversation(table: seq<Message>, userId: string, adminId: Option<string>): (c: seq<Message>)
    ensures forall m :: m in c <==> m in table && InConversation(m, userId, adminId)
    ensures |c| <= |table|
  {
    if table == [] then []
    else
      var rest := Conversation(table[1..], userId, adminId);
      assert forall m :: m in table <==> m == table[0] || m in table[1..];
      if InConversation(table[0], userId, adminId) then [table[0]] + rest else rest
  }

  /** `isUser`: a bubble is the user's own when its sender is the signed-in user's id. */
  predicate IsUser(m: Message, userId: Option<string>) {
    userId.Some? && m.sender == userId.value
  }

  /**
   * In a conversation with an admin, a message is drawn as the user's exactly when the admin did
   * not send it; without an admin, every message is drawn as the user's.
   */
  lemma ConversationSides(table: seq<Message>, userId: string, adminId: Option<string>, m: Message)
    requires m in Conversation(table, userId, adminId)
    requires !Known(adminId) || adminId.value != userId
    ensures Known(adminId) ==> (IsUser(m, Some(userId)) <==> m.sender != adminId.value)
    ensures !Known(adminId) ==> IsUser(m, Some(userId))
  {
  }

  /**
   * How an insert error is reported: the no-admin text when the lower-cased error mentions both
   * "null" and "recipient", and nothing (an alert is raised instead) otherwise.
   */
  function ClassifyInsertError(message: string): (sendError: Option<string>)
    ensures sendError.Some? <==> Contains(ToLower(message), "null") && Contains(ToLower(message), "recipient")
    ensures sendError.Some? ==> sendError.value == NoAdminError
  {
    var lowered := ToLower(message);
    if Contains(lowered, "null") && Contains(lowered, "recipient") then Some(NoAdminError) else None
  }

  /** `t` occurs in `s` at offset `i` once `s` is lower-cased. */
  predicate OccursIgnoringCase(s: string, t: string, i: int) {
    0 <= i <= |s| - |t| && forall k :: 0 <= k < |t| ==> LowerChar(s[i + k]) == t[k]
  }

  /** The classification does not depend on case: "NULL ... Recipient" counts as well. */
  lemma ClassifyIgnoresCase(message: string, i: int, j: int)
    requires OccursIgnoringCase(message, "null", i) && OccursIgnoringCase(message, "recipient", j)
    ensures ClassifyInsertError(message) == Some(NoAdminError)
  {
    LoweredOccurrence(message, "null", i);
    LoweredOccurrence(message, "recipient", j);
  }

  lemma LoweredOccurrence(s: string, t: string, i: int)
    requires OccursIgnoringCase(s, t, i)
    ensures OccursAt(ToLower(s), t, i)
  {
    var lowered := ToLower(s);
    forall k | 0 <= k < |t| ensures lowered[i + k] == t[k] {
      assert !IsAsciiUpper(lowered[i + k]);
    }
    assert lowered[i..i + |t|] == t;
  }

  class ChatScreen {
    /** The text in the input box. */
    var message: string
    var messages: seq<Message>
    var sending: bool
    var sendError: Option<string>
    var adminId: Option<string>

    constructor ()
      ensures message == [] && messages == [] && !sending && sendError == None && adminId == None
    {
      message, messages, sending, sendError, adminId := [], [], false, None, None;
    }

    /** The admin lookup on mount: the id of the admin row, if one was found. */
    method LoadAdmin(found: Option<string>)
      modifies this
      ensures adminId == found
      ensures message == old(message) && messages == old(messages) && sending == old(sending) && sendError == old(sendError)
    {
      adminId := found;
    }

    /** `loadMessages`: nothing without a user id; the list is replaced only when the query returned data. */
    method LoadMessages(userId: Option<string>, table: Option<seq<Message>>)
      modifies this
      ensures Known(userId) && table.Some? ==> messages == Conversation(table.value, userId.value, adminId)
      ensures !(Known(userId) && table.Some?) ==> messages == old(messages)
      ensures message == old(message) && sending == old(sending) && sendError == old(sendError) && adminId == old(adminId)
    {
      if !Known(userId) {
        return;
      }
      if table.Some? {
        messages := Conversation(table.value, userId.value, adminId);
      }
    }

    /**
     * `onSend`. Nothing happens for a blank input or without a user id. Otherwise the untrimmed
     * input is sent from the user to the admin (or to no one), the input box is cleared before the
     * insert, and `sending` is down again afterwards. An insert error sets the no-admin text or
     * raises an alert; a successful insert clears the error and, when the refetch returned data,
     * replaces the list with the conversation.
     */
    method OnSend(userId: Option<string>, insert: InsertReply, refetch: Option<seq<Message>>)
      returns (outgoing: Option<NewMessage>, alert: bool)
      modifies this
      ensures adminId == old(adminId)
      ensures outgoing.None? <==> IsBlank(old(message)) || !Known(userId)
      ensures outgoing.None? ==>
        !alert && message == old(message) && messages == old(messages) &&
        sending == old(sending) && sendError == old(sendError)
      ensures outgoing.Some? ==>
        outgoing.value == NewMessage(userId.value, adminId, old(message)) &&
        message == [] && !sending
      ensures outgoing.Some? && insert.InsertFailed? ==>
        sendError == ClassifyInsertError(insert.message) && alert == sendError.None? && messages == old(messages)
      ensures outgoing.Some? && insert.Inserted? ==>
        sendError == None && !alert &&
        messages == (if refetch.Some? then Conversation(refetch.value, userId.value, adminId) else old(messages))
    {
      if Trim(message) == [] || !Known(userId) {
        return None, false;
      }
      sending := true;
      sendError := None;
      var newMsg := NewMessage(userId.value, adminId, message);
      outgoing := Some(newMsg);
      message := [];
      alert := false;
      match insert {
        case InsertFailed(errorMessage) =>
          sendError := ClassifyInsertError(errorMessage);
          alert := sendError.None?;
        case Inserted =>
          sendError := None;
          if refetch.Some? {
            messages := Conversation(refetch.value, userId.value, adminId);
          }
      }
      sending := false;
    }
  }
}
