/**
 * The two pieces of logic in the chats serializers: the participant check of
 * `MessageSerializer.validate` and the recent-message query of
 * `ConversationSerializer.get_last_message`.
 *
 * The module as written would not load: it imports `from models import ...`
 * (serializers.py:3) where the package-relative `from .models import ...` is
 * meant, and passes `Write_only=True` (serializers.py:50), a keyword no field
 * accepts. The model follows the evident logic of the two methods.
 */
module Serializers {
  import opened Results
  import opened Ordering
  import opened Models

  /** The requesting user; its identity is carried but never consulted below. */
  datatype RequestUser = RequestUser(userId: Option<nat>, isAuthenticated: bool)

  /** An HTTP request as the serializer context holds it; `verb` is `request.method`. */
  datatype Request = Request(verb: string, user: RequestUser)

  /**
   * The data handed to `validate`: `data.get('conversation')` and
   * `data.get('sender_id')` may be absent. As written, `conversation` is not
   * a declared field of the serializer (serializers.py:29-35), so the
   * validated data never holds it.
   */
  datatype MessageData = MessageData(conversation: Option<Conversation>, senderId: Option<nat>, messageBody: string)

  datatype SerializerError =
    | ValidationError(detail: string)
    | AttributeError(attribute: string) // an attribute looked up on `None`

  /** What a query raises when it names a lookup the field does not have. */
  datatype QueryError = FieldError(lookup: string)

  const WriteMethods: seq<string> := ["POST", "PUT", "PATCH"]
  const NotParticipantDetail := "Sender must be a participant in the conversation."

  /** `timezone.timedelta(days=7)` in seconds. */
  const RecentWindow := 7 * 24 * 60 * 60

  /** There is a request and it writes. */
  predicate IsWrite(request: Option<Request>)
  {
    request.Some? && request.value.verb in WriteMethods
  }

  /** `conversation.participants.filter(user_id=sender_id).exists()`; a `None` sender matches nobody. */
  predicate SenderIsParticipant(c: Conversation, senderId: Option<nat>)
  {
    senderId.Some? && senderId.value in c.participants
  }

  /**
   * `MessageSerializer.validate`: on POST, PUT or PATCH the sender must be a
   * participant of the conversation; the data itself is never altered.
   */
  function Validate(request: Option<Request>, data: MessageData): (r: Result<MessageData, SerializerError>)
    ensures r.Ok? ==> r.value == data
    ensures r.Ok? <==> !IsWrite(request) || (data.conversation.Some? && SenderIsParticipant(data.conversation.value, data.senderId))
    ensures IsWrite(request) && data.conversation.Some? && !SenderIsParticipant(data.conversation.value, data.senderId) ==>
              r == Err(ValidationError(NotParticipantDetail))
    ensures IsWrite(request) && data.conversation.None? ==> r == Err(AttributeError("participants"))
  {
    if IsWrite(request) then
      match data.conversation
      case None => Err(AttributeError("participants"))
      case Some(c) =>
        if !SenderIsParticipant(c, data.senderId) then Err(ValidationError(NotParticipantDetail))
        else Ok(data)
    else Ok(data)
  }

  /** Who makes the request plays no part: only its method and the sender's membership do. */
  lemma ValidateIgnoresRequestUser(verb: string, one: RequestUser, other: RequestUser, data: MessageData)
    ensures Validate(Some(Request(verb, one)), data) == Validate(Some(Request(verb, other)), data)
  {
  }

  /** The methods outside POST, PUT and PATCH pass any data through, even a non-participant sender. */
  lemma ValidateSkipsOtherMethods(verb: string, user: RequestUser, data: MessageData)
    requires verb !in WriteMethods
    ensures Validate(Some(Request(verb, user)), data) == Ok(data)
    ensures Validate(None, data) == Ok(data)
  {
  }

  /** The validated data as the serializer builds it: only declared fields survive, so no conversation. */
  function DeclaredFields(input: MessageData): (d: MessageData)
    ensures d.conversation.None? && d.senderId == input.senderId && d.messageBody == input.messageBody
  {
    input.(conversation := None)
  }

  /**
   * As written, every write fails before any membership check: the
   * conversation never reaches `validate`, and `None.participants` raises.
   */
  lemma ValidateAsWrittenRejectsEveryWrite(request: Option<Request>, input: MessageData)
    requires IsWrite(request)
    ensures Validate(request, DeclaredFields(input)) == Err(AttributeError("participants"))
  {
  }

  /**
   * As intended, once the conversation is part of the data, a write is
   * accepted exactly when the sender is one of its participants.
   */
  lemma ValidateChecksParticipant(verb: string, user: RequestUser, c: Conversation, senderId: nat, body: string)
    requires verb in WriteMethods
    ensures var data := MessageData(Some(c), Some(senderId), body);
            && (Validate(Some(Request(verb, user)), data) == Ok(data) <==> senderId in c.participants)
            && (senderId !in c.participants ==>
                  Validate(Some(Request(verb, user)), data) == Err(ValidationError(NotParticipantDetail)))
  {
  }

  /** `obj.messages.filter(sent_at__gte=since)` over the message table, in its order. */
  function RecentMessages(ms: seq<Message>, conversationId: nat, since: int): (r: seq<Message>)
    ensures forall m :: m in r ==> m in ms && m.conversationId == conversationId && m.sentAt >= since
    ensures multiset(r) <= multiset(ms)
  {
    assert ms != [] ==> ms == [ms[0]] + ms[1..];
    if ms == [] then []
    else if ms[0].conversationId == conversationId && ms[0].sentAt >= since
    then [ms[0]] + RecentMessages(ms[1..], conversationId, since)
    else RecentMessages(ms[1..], conversationId, since)
  }

  /** Every message of the conversation inside the window is returned. */
  lemma {:induction false} RecentMessagesComplete(ms: seq<Message>, conversationId: nat, since: int, m: Message)
    requires m in ms && m.conversationId == conversationId && m.sentAt >= since
    ensures m in RecentMessages(ms, conversationId, since)
  {
    if ms[0] != m {
      RecentMessagesComplete(ms[1..], conversationId, since, m);
    }
  }

  /** The query keeps the table's `sent_at` order. */
  lemma {:induction false} RecentMessagesSorted(ms: seq<Message>, conversationId: nat, since: int)
    requires SortedByKey(ms, MessageOrder)
    ensures SortedByKey(RecentMessages(ms, conversationId, since), MessageOrder)
  {
    if ms != [] {
      assert SortedByKey(ms[1..], MessageOrder);
      RecentMessagesSorted(ms[1..], conversationId, since);
      var rest := RecentMessages(ms[1..], conversationId, since);
      forall y | y in rest ensures MessageOrder(ms[0]) <= MessageOrder(y) {
        var j :| 0 <= j < |ms[1..]| && ms[1..][j] == y;
        assert ms[j + 1] == y;
      }
    }
  }

  /**
   * `ConversationSerializer.get_last_message` with the lookup read as
   * `sent_at__gte`: for an authenticated request, the conversation's messages
   * of the last seven days; otherwise nothing.
   */
  function GetLastMessage(request: Option<Request>, obj: Conversation, messages: seq<Message>, now: int)
    : (r: Option<seq<Message>>)
    ensures r.Some? <==> request.Some? && request.value.user.isAuthenticated
    ensures r.Some? ==> forall m :: m in r.value ==>
              m in messages && m.conversationId == obj.conversationId && m.sentAt >= now - RecentWindow
    ensures r.Some? ==> multiset(r.value) <= multiset(messages)
  {
    if request.Some? && request.value.user.isAuthenticated
    then Some(RecentMessages(messages, obj.conversationId, now - RecentWindow))
    else None
  }

  /** Nothing of the conversation's last seven days is missing from the result. */
  lemma GetLastMessageComplete(request: Request, obj: Conversation, messages: seq<Message>, now: int, m: Message)
    requires request.user.isAuthenticated
    requires m in messages && m.conversationId == obj.conversationId && m.sentAt >= now - RecentWindow
    ensures m in GetLastMessage(Some(request), obj, messages, now).value
  {
    RecentMessagesComplete(messages, obj.conversationId, now - RecentWindow, m);
  }

  /** Over a table in `sent_at` order, the result is in `sent_at` order too. */
  lemma GetLastMessageSorted(request: Request, obj: Conversation, messages: seq<Message>, now: int)
    requires request.user.isAuthenticated
    requires SortedByKey(messages, MessageOrder)
    ensures SortedByKey(GetLastMessage(Some(request), obj, messages, now).value, MessageOrder)
  {
    RecentMessagesSorted(messages, obj.conversationId, now - RecentWindow);
  }

  /**
   * `get_last_message` as written: the lookup `sent_at__get` does not exist,
   * so the filter raises for every authenticated request.
   */
  function GetLastMessageAsWritten(request: Option<Request>, obj: Conversation, messages: seq<Message>, now: int)
    : (r: Result<Option<seq<Message>>, QueryError>)
    ensures r.Err? <==> request.Some? && request.value.user.isAuthenticated
    ensures r.Err? ==> r.error == FieldError("get")
    ensures r.Ok? ==> r.value == None
  {
    if request.Some? && request.value.user.isAuthenticated then Err(FieldError("get"))
    else Ok(None)
  }

  /** As written, a message sent a minute ago is never returned, while the intended query returns it. */
  lemma AsWrittenLosesRecentMessage(user: RequestUser, sender: nat, now: int)
    requires user.isAuthenticated
    ensures var obj := Conversation(0, {sender}, now - 120);
            var m := Message(1, sender, 0, "hi", now - 60);
            && GetLastMessageAsWritten(Some(Request("GET", user)), obj, [m], now) == Err(FieldError("get"))
            && GetLastMessage(Some(Request("GET", user)), obj, [m], now) == Some([m])
  {
    var m := Message(1, sender, 0, "hi", now - 60);
    assert [m][1..] == [];
    assert RecentMessages([m], 0, now - RecentWindow) == [m] + RecentMessages([], 0, now - RecentWindow);
    assert RecentMessages([m], 0, now - RecentWindow) == [m];
  }
}
