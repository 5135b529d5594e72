/** The chat routes that change or read stored conversations: the logged-in
    send (title derivation, conversation creation or lookup, the model call
    and the two appended messages), the markdown export, deletion, and the
    guest send that stores nothing. The language model behind a registry key
    is a `Gateway`: a reply text, or an exception. */
module ChatRoutes {
  import opened Wrappers
  import opened Models
  import opened Web
  import Text
  import Crud
  import opened ChatText

  const DEFAULT_MODEL_ID := "mixtral"

  const LOGIN_REQUIRED := HttpError(403, "Login required")
  const NOT_FOUND := HttpError(404, "Conversation not found")
  const UNSUPPORTED_FORMAT := HttpError(400, "Unsupported format")
  const INTERNAL_ERROR := HttpError(500, "Internal Server Error")

  /** What asking a model for a reply can come to. */
  datatype GatewayOutcome = Reply(text: string) | Raised

  /** `handler(prompt)` for the handler `get_model_handler(key)` builds. */
  type Gateway = (string, string) -> GatewayOutcome

  /** The model registry: key to configuration object. */
  type Registry = map<string, Json>

  /** Python truthiness of a JSON value. */
  predicate Truthy(j: Json) {
    match j
    case JNull => false
    case JBool(b) => b
    case JNum(n) => n != 0
    case JStr(s) => s != ""
    case JList(items) => items != []
    case JObject(fields) => fields != map[]
  }

  /** `get_model_handler(key)` followed by `handler(prompt)`: a missing or
      falsy configuration raises `ValueError`, and the model call itself may
      raise; either way there is no reply. */
  function AskModel(registry: Registry, gateway: Gateway, modelId: string, prompt: string): (r: Option<string>)
    ensures r.Some? <==> modelId in registry && Truthy(registry[modelId]) && gateway(modelId, prompt).Reply?
    ensures r.Some? ==> r.value == gateway(modelId, prompt).text
  {
    if modelId !in registry || !Truthy(registry[modelId]) then None
    else
      match gateway(modelId, prompt)
      case Reply(text) => Some(text)
      case Raised => None
  }

  // ---------- Resolving an existing conversation (lines 203-207) ----------

  /** As written: the conversation's messages are printed before the
      `if not conv` test, so a missing or foreign conversation raises
      `AttributeError` on `None.messages` and the request ends in a 500. */
  function ResolveExistingAsWritten(found: Option<Conversation>): (r: Result<Conversation, HttpError>)
    ensures found.None? ==> r == Err(INTERNAL_ERROR)
    ensures found.Some? ==> r == Ok(found.value)
  {
    match found
    case None => Err(INTERNAL_ERROR)
    case Some(c) => Ok(c)
  }

  /** As intended: a missing or foreign conversation is a 404. */
  function ResolveExisting(found: Option<Conversation>): (r: Result<Conversation, HttpError>)
    ensures found.None? ==> r == Err(NOT_FOUND)
    ensures found.Some? ==> r == Ok(found.value)
  {
    match found
    case None => Err(NOT_FOUND)
    case Some(c) => Ok(c)
  }

  /** The 404 of lines 206-207 is unreachable as written; both readings
      agree on every conversation the user owns. */
  lemma NotFoundUnreachableAsWritten(found: Option<Conversation>)
    ensures ResolveExistingAsWritten(found) != Err(NOT_FOUND)
    ensures ResolveExistingAsWritten(None) == Err(INTERNAL_ERROR) && ResolveExisting(None) == Err(NOT_FOUND)
    ensures found.Some? ==> ResolveExistingAsWritten(found) == ResolveExisting(found)
  {
  }

  // ---------- Logged-in send ----------

  /** The JSON body of a successful send. */
  datatype ChatReply = ChatReply(user: string, ai: string, conversationId: int)

  /** `not conversation_id`: the form left it out or sent 0. */
  predicate StartsNewConversation(conversationId: Option<int>) {
    conversationId.None? || conversationId.value == 0
  }

  /** Lines 213-214: the user's message and then the reply, appended to a
      conversation the user owns; nothing else changes. */
  method AppendTurn(store: Crud.Store, userId: int, id: int, userInput: string, reply: string, now: Timestamp)
    requires store.Valid() && store.Owns(userId, id)
    modifies store
    ensures store.Valid() && store.Owns(userId, id)
    ensures store.conversations == old(store.conversations)[id :=
              old(store.conversations[id]).(messages := old(store.conversations[id].messages) + Turn(userInput, reply),
                                            updatedAt := now)]
    ensures store.users == old(store.users) && store.configs == old(store.configs)
    ensures store.nextUserId == old(store.nextUserId) && store.nextConversationId == old(store.nextConversationId)
  {
    var first := store.AppendMessage(id, userId, "user", userInput, now);
    var second := store.AppendMessage(id, userId, "assistant", reply, now);
    assert first.value.messages + [Message("assistant", reply)]
             == old(store.conversations[id].messages) + Turn(userInput, reply);
  }

  /** Lines 201 and 209-214 for a new conversation: it is created with the
      given title; when the model gives no reply the request fails with 500
      and the conversation stays, empty; otherwise it receives the turn. */
  method SendInNewConversation(store: Crud.Store, userId: int, registry: Registry, gateway: Gateway,
                               modelId: string, userInput: string, title: string, now: Timestamp)
    returns (r: Result<ChatReply, HttpError>)
    requires store.Valid() && title != ""
    modifies store
    ensures store.Valid()
    ensures store.users == old(store.users) && store.configs == old(store.configs)
    ensures store.nextUserId == old(store.nextUserId)
    ensures var id := old(store.nextConversationId);
            var created := NewConversation(id, userId, title, now);
            && id !in old(store.conversations)
            && store.nextConversationId == id + 1
            && match AskModel(registry, gateway, modelId, userInput)
               case None => r == Err(INTERNAL_ERROR) && store.conversations == old(store.conversations)[id := created]
               case Some(reply) =>
                 && r == Ok(ChatReply(userInput, reply, id))
                 && store.conversations == old(store.conversations)[id := created.(messages := Turn(userInput, reply))]
  {
    var conv := store.CreateConversation(userId, title, now);
    assert conv == NewConversation(conv.id, userId, title, now);
    var reply := AskModel(registry, gateway, modelId, userInput);
    if reply.None? {
      return Err(INTERNAL_ERROR);
    }
    ghost var created := store.conversations;
    AppendTurn(store, userId, conv.id, userInput, reply.value, now);
    assert [] + Turn(userInput, reply.value) == Turn(userInput, reply.value);
    assert created[conv.id] == conv;
    r := Ok(ChatReply(userInput, reply.value, conv.id));
  }

  /** Lines 204-214 for an existing conversation: one the user does not own
      is a 404 and nothing changes; when the model gives no reply the request
      fails with 500 and nothing changes; otherwise the conversation receives
      the turn. */
  method SendInExistingConversation(store: Crud.Store, userId: int, id: int, registry: Registry, gateway: Gateway,
                                    modelId: string, userInput: string, now: Timestamp)
    returns (r: Result<ChatReply, HttpError>)
    requires store.Valid()
    modifies store
    ensures store.Valid()
    ensures !old(store.Owns(userId, id)) ==> r == Err(NOT_FOUND) && unchanged(store)
    ensures old(store.Owns(userId, id)) ==>
              match AskModel(registry, gateway, modelId, userInput)
              case None => r == Err(INTERNAL_ERROR) && unchanged(store)
              case Some(reply) =>
                && r == Ok(ChatReply(userInput, reply, id))
                && store.conversations == old(store.conversations)[id :=
                     old(store.conversations[id]).(messages := old(store.conversations[id].messages) + Turn(userInput, reply),
                                                   updatedAt := now)]
                && store.users == old(store.users) && store.configs == old(store.configs)
                && store.nextUserId == old(store.nextUserId)
                && store.nextConversationId == old(store.nextConversationId)
  {
    var resolved := ResolveExisting(store.GetConversation(id, userId));
    if resolved.Err? {
      return Err(resolved.error);
    }
    var reply := AskModel(registry, gateway, modelId, userInput);
    if reply.None? {
      return Err(INTERNAL_ERROR);
    }
    AppendTurn(store, userId, id, userInput, reply.value, now);
    r := Ok(ChatReply(userInput, reply.value, id));
  }

  /** `POST /model/{model_id}/send`. Without a logged-in user: 403; with a
      model id outside the registry: 400 naming it; both before anything is
      stored. Then the turn goes to a new conversation titled by
      `DeriveTitle` when no conversation id was sent, and to the given one
      otherwise. */
  method PostChatMessage(store: Crud.Store, session: WebSession, registry: Registry, gateway: Gateway,
                         modelId: string, userInput: string, conversationId: Option<int>,
                         conversationName: Option<string>, stamp: string, now: Timestamp)
    returns (r: Result<ChatReply, HttpError>)
    requires store.Valid()
    modifies store
    ensures store.Valid()
    ensures session.LoggedInUser().None? ==> r == Err(LOGIN_REQUIRED) && unchanged(store)
    ensures session.LoggedInUser().Some? && modelId !in registry ==>
              r == Err(HttpError(400, "Invalid model id: " + modelId)) && unchanged(store)
    ensures session.LoggedInUser().Some? && modelId in registry && !StartsNewConversation(conversationId) ==>
              var userId, id := session.LoggedInUser().value, conversationId.value;
              && (!old(store.Owns(userId, id)) ==> r == Err(NOT_FOUND) && unchanged(store))
              && (old(store.Owns(userId, id)) ==>
                    match AskModel(registry, gateway, modelId, userInput)
                    case None => r == Err(INTERNAL_ERROR) && unchanged(store)
                    case Some(reply) =>
                      && r == Ok(ChatReply(userInput, reply, id))
                      && store.conversations == old(store.conversations)[id :=
                           old(store.conversations[id]).(messages := old(store.conversations[id].messages) + Turn(userInput, reply),
                                                         updatedAt := now)]
                      && store.users == old(store.users) && store.configs == old(store.configs)
                      && store.nextUserId == old(store.nextUserId)
                      && store.nextConversationId == old(store.nextConversationId))
    ensures session.LoggedInUser().Some? && modelId in registry && StartsNewConversation(conversationId) ==>
              var id := old(store.nextConversationId);
              var created := NewConversation(id, session.LoggedInUser().value,
                                             DeriveTitle(conversationName, userInput, stamp), now);
              && store.users == old(store.users) && store.configs == old(store.configs)
              && store.nextUserId == old(store.nextUserId)
              && id !in old(store.conversations)
              && store.nextConversationId == id + 1
              && match AskModel(registry, gateway, modelId, userInput)
                 case None => r == Err(INTERNAL_ERROR) && store.conversations == old(store.conversations)[id := created]
                 case Some(reply) =>
                   && r == Ok(ChatReply(userInput, reply, id))
                   && store.conversations == old(store.conversations)[id := created.(messages := Turn(userInput, reply))]
  {
    var user := session.LoggedInUser();
    if user.None? {
      return Err(LOGIN_REQUIRED);
    }
    if modelId !in registry {
      return Err(HttpError(400, "Invalid model id: " + modelId));
    }
    if StartsNewConversation(conversationId) {
      r := SendInNewConversation(store, user.value, registry, gateway, modelId, userInput,
                                 DeriveTitle(conversationName, userInput, stamp), now);
    } else {
      r := SendInExistingConversation(store, user.value, conversationId.value, registry, gateway, modelId, userInput, now);
    }
  }

  /** `GET /export_session/{id}.{fmt}`: the session's user (not tested for
      login) must own the conversation, else 404; then "md" yields the
      markdown text and every other format, "pdf" included, 400. */
  function ExportSession(store: Crud.Store, session: WebSession, conversationId: int, fmt: string): (r: Result<string, HttpError>)
    reads store, session
    ensures var owner := session.SessionUser();
            && (owner.None? || !store.Owns(owner.value, conversationId) ==> r == Err(NOT_FOUND))
            && (owner.Some? && store.Owns(owner.value, conversationId) ==>
                  r == if fmt == "md" then Ok(ExportMarkdown(store.conversations[conversationId].messages))
                       else Err(UNSUPPORTED_FORMAT))
  {
    match session.SessionUser()
    case None => Err(NOT_FOUND)
    case Some(userId) =>
      match store.GetConversation(conversationId, userId)
      case None => Err(NOT_FOUND)
      case Some(conv) => if fmt == "md" then Ok(ExportMarkdown(conv.messages)) else Err(UNSUPPORTED_FORMAT)
  }

  // ---------- Delete ----------

  /** `POST /delete_session/{id}`: 403 without a logged-in user, 404 when the
      user does not own the conversation (nothing changes in either case);
      otherwise exactly that conversation is removed and the browser is sent
      to a new chat with the default model. */
  method DeleteConversationRoute(store: Crud.Store, session: WebSession, conversationId: int)
    returns (r: Result<Redirect, HttpError>)
    requires store.Valid()
    modifies store
    ensures store.Valid()
    ensures session.LoggedInUser().None? ==> r == Err(LOGIN_REQUIRED) && unchanged(store)
    ensures session.LoggedInUser().Some? && !old(store.Owns(session.LoggedInUser().value, conversationId)) ==>
              r == Err(NOT_FOUND) && unchanged(store)
    ensures r.Ok? <==> session.LoggedInUser().Some? && old(store.Owns(session.LoggedInUser().value, conversationId))
    ensures r.Ok? ==> && r.value == Redirect("/chat/model/" + DEFAULT_MODEL_ID, 303, [])
                      && store.conversations == old(store.conversations) - {conversationId}
                      && store.users == old(store.users) && store.configs == old(store.configs)
                      && store.nextUserId == old(store.nextUserId)
                      && store.nextConversationId == old(store.nextConversationId)
  {
    var user := session.LoggedInUser();
    if user.None? {
      return Err(LOGIN_REQUIRED);
    }
    if store.GetConversation(conversationId, user.value).None? {
      return Err(NOT_FOUND);
    }
    var deleted := store.DeleteConversation(conversationId, user.value);
    r := Ok(Redirect("/chat/model/" + DEFAULT_MODEL_ID, 303, []));
  }

  // ---------- Guest send ----------

  /** The JSON body of a guest send. */
  datatype GuestReply = GuestReply(user: string, ai: string)

  /** `POST /public/send`: the default model answers and nothing is stored.
      The handler `get_model_handler` returns is never falsy, so the
      "No handler found" body is unreachable; a missing default model or a
      failed call is a 500. */
  function GuestChatSend(registry: Registry, gateway: Gateway, userInput: string): (r: Result<GuestReply, HttpError>)
    ensures r.Err? ==> r == Err(INTERNAL_ERROR)
    ensures r.Ok? <==> AskModel(registry, gateway, DEFAULT_MODEL_ID, userInput).Some?
    ensures r.Ok? ==> r.value.user == userInput && r.value.ai == gateway(DEFAULT_MODEL_ID, userInput).text
  {
    match AskModel(registry, gateway, DEFAULT_MODEL_ID, userInput)
    case None => Err(INTERNAL_ERROR)
    case Some(reply) => Ok(GuestReply(userInput, reply))
  }
}
