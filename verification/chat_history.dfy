/** app/endpoints/chat_history.py: the caller's chat transcript, kept in
    the `chat_history` key of their user document. */
module ChatHistory {
  import opened Wrappers
  import opened Records
  import opened Db

  /** A request body before validation; a missing key or a JSON null is `None`. */
  datatype ChatMessageBody = ChatMessageBody(
    role: Option<string>,
    text: Option<string>,
    msgType: Option<string>,
    imageUrl: Option<string>,
    createdAt: Option<string>)

  /** `ChatMessage` validation: `role`, `text` and `created_at` are required;
      `type` and `imageUrl` default to `None`. */
  function ValidateMessage(b: ChatMessageBody): (r: Result<ChatMessage, HttpError>)
    ensures r.Failure? <==> b.role.None? || b.text.None? || b.createdAt.None?
    ensures r.Failure? ==> r.error == ValidationError
    ensures r.Success? ==>
              r.value == ChatMessage(b.role.value, b.text.value, b.msgType, b.imageUrl, b.createdAt.value)
  {
    if b.role.None? || b.text.None? || b.createdAt.None? then Failure(ValidationError)
    else Success(ChatMessage(b.role.value, b.text.value, b.msgType, b.imageUrl, b.createdAt.value))
  }

  /** `get_chat_history`: the stored transcript, or `[]` when there is none. */
  function GetChatHistory(u: UserRecord): (r: seq<ChatMessage>)
    ensures u.chatHistory.Absent? ==> r == []
    ensures u.chatHistory.Present? ==> r == u.chatHistory.value
  {
    GetList(u.chatHistory)
  }

  /** The caller's document with `msg` appended to its transcript. */
  function WithMessage(u: UserRecord, msg: ChatMessage): (r: UserRecord)
  {
    u.(chatHistory := Present(GetList(u.chatHistory) + [msg]))
  }

  /** Saving appends the message as the last element, keeps the earlier ones
      and changes no other key; a later read of the stored document returns
      the longer transcript. */
  lemma SaveThenGet(docs: seq<UserRecord>, u: UserRecord, msg: ChatMessage)
    ensures var h := GetChatHistory(WithMessage(u, msg));
            && |h| == |GetChatHistory(u)| + 1
            && h[..|GetChatHistory(u)|] == GetChatHistory(u)
            && h[|GetChatHistory(u)|] == msg
    ensures WithMessage(u, msg).(chatHistory := u.chatHistory) == u
    ensures var stored := Lookup(Upsert(docs, WithMessage(u, msg)), u.username);
            stored.Some? && GetChatHistory(stored.value) == GetChatHistory(u) + [msg]
  {
    LookupAfterUpsert(docs, WithMessage(u, msg));
  }

  /** `save_chat_message`: validate, append, store, and answer with the message. */
  method SaveChatMessage(table: UserTable, current: UserRecord, body: ChatMessageBody)
    returns (r: Result<ChatMessage, HttpError>)
    modifies table
    ensures ValidateMessage(body).Failure? ==>
              r == Failure(ValidationError) && table.docs == old(table.docs)
    ensures ValidateMessage(body).Success? ==>
              r == ValidateMessage(body)
              && table.docs == Upsert(old(table.docs), WithMessage(current, r.value))
  {
    var msg := ValidateMessage(body);
    if msg.Failure? {
      return Failure(ValidationError);
    }
    table.Save(WithMessage(current, msg.value));
    r := msg;
  }
}
