/** The persisted record shapes of the studio: users, their configuration
    blob and their conversations, with the field defaults the schema gives
    them. Timestamps are whole seconds; the sampling temperature is carried
    as an exact `real` and never computed with. */
module Models {

  type Timestamp = int

  /** A JSON value, as stored in the configuration blob. */
  datatype Json =
    | JNull
    | JBool(b: bool)
    | JNum(n: int)
    | JStr(s: string)
    | JList(items: seq<Json>)
    | JObject(fields: map<string, Json>)

  /** The configuration blob of one user: a JSON object. */
  type ConfigData = map<string, Json>

  const DEFAULT_ROLE := "user"
  const DEFAULT_CONVERSATION_NAME := "New Conversation"
  const DEFAULT_SYSTEM_PROMPT := "You are a helpful AI assistant."
  const DEFAULT_TEMPERATURE: real := 0.7

  /** A row of the `user` table; `email` is unique across rows. */
  datatype User = User(
    id: int,
    email: string,
    passwordHash: string,
    role: string,
    isActive: bool,
    createdAt: Timestamp)

  /** A row of the `userconfig` table: the configuration of exactly one user. */
  datatype UserConfig = UserConfig(userId: int, data: ConfigData)

  /** One entry of a conversation's message log. */
  datatype Message = Message(role: string, content: string)

  /** A row of the `conversation` table, owned by the user `userId`. */
  datatype Conversation = Conversation(
    id: int,
    userId: int,
    name: string,
    systemPrompt: string,
    temperature: real,
    messages: seq<Message>,
    createdAt: Timestamp,
    updatedAt: Timestamp)

  /** The read view of a conversation: its id, name and messages only. */
  datatype ConversationRead = ConversationRead(id: int, name: string, messages: seq<Message>)

  /** A user as the schema fills it in when only email, hash and role are given. */
  function NewUser(id: int, email: string, passwordHash: string, role: string, now: Timestamp): (u: User)
    ensures u.id == id && u.email == email && u.passwordHash == passwordHash && u.role == role
    ensures u.isActive && u.createdAt == now
  {
    User(id, email, passwordHash, role, true, now)
  }

  /** A conversation as the schema fills it in when only owner and name are given. */
  function NewConversation(id: int, userId: int, name: string, now: Timestamp): (c: Conversation)
    ensures c.id == id && c.userId == userId && c.name == name
    ensures c.systemPrompt == DEFAULT_SYSTEM_PROMPT && c.temperature == DEFAULT_TEMPERATURE
    ensures c.messages == [] && c.createdAt == now && c.updatedAt == now
  {
    Conversation(id, userId, name, DEFAULT_SYSTEM_PROMPT, DEFAULT_TEMPERATURE, [], now, now)
  }

  function ToRead(c: Conversation): (r: ConversationRead)
    ensures r.id == c.id && r.name == c.name && r.messages == c.messages
  {
    ConversationRead(c.id, c.name, c.messages)
  }
}
