/** The user and conversation store: the three tables as maps from primary
    key to row, with one id counter per table. Every conversation operation
    is scoped by (conversation id, owner id); a conversation owned by
    someone else is indistinguishable from a missing one. */
module Crud {
  import opened Wrappers
  import opened Models
  import Security

  datatype CrudError = DuplicateEmail

  /** Conversations listed most recently updated first. */
  predicate SortedByUpdatedDesc(s: seq<Conversation>) {
    forall i, j :: 0 <= i < j < |s| ==> s[i].updatedAt >= s[j].updatedAt
  }

  /** No conversation id occurs twice. */
  predicate DistinctIds(s: seq<Conversation>) {
    forall i, j :: 0 <= i < j < |s| ==> s[i].id != s[j].id
  }

  /** The conversations of `userId` whose ids lie in [lo, hi), by ascending id. */
  function OwnedInRange(conversations: map<int, Conversation>, userId: int, lo: int, hi: int): (r: seq<Conversation>)
    requires forall id | id in conversations :: conversations[id].id == id
    ensures forall c | c in r :: c.userId == userId && lo <= c.id < hi && c.id in conversations && conversations[c.id] == c
    ensures forall id | lo <= id < hi && id in conversations && conversations[id].userId == userId :: conversations[id] in r
    ensures DistinctIds(r)
    decreases hi - lo
  {
    if lo >= hi then []
    else
      var rest := OwnedInRange(conversations, userId, lo + 1, hi);
      if lo in conversations && conversations[lo].userId == userId then [conversations[lo]] + rest else rest
  }

  /** Inserts `c` in front of the first conversation updated no later than it. */
  function InsertByUpdated(c: Conversation, s: seq<Conversation>): (r: seq<Conversation>)
    ensures |r| == |s| + 1
    ensures forall x :: x in r <==> x == c || x in s
  {
    if s == [] || c.updatedAt >= s[0].updatedAt then [c] + s
    else
      assert forall x | x in s[1..] :: x in s;
      [s[0]] + InsertByUpdated(c, s[1..])
  }

  lemma {:induction false} InsertKeepsSorted(c: Conversation, s: seq<Conversation>)
    requires SortedByUpdatedDesc(s)
    ensures SortedByUpdatedDesc(InsertByUpdated(c, s))
  {
    if s != [] && c.updatedAt < s[0].updatedAt {
      InsertKeepsSorted(c, s[1..]);
      var rest := InsertByUpdated(c, s[1..]);
      assert forall x | x in rest :: s[0].updatedAt >= x.updatedAt by {
        forall x | x in rest ensures s[0].updatedAt >= x.updatedAt {
          if x != c {
            var j :| 0 <= j < |s[1..]| && s[1..][j] == x;
            assert s[j + 1] == x;
          }
        }
      }
      assert InsertByUpdated(c, s) == [s[0]] + rest;
    }
  }

  lemma {:induction false} InsertKeepsDistinct(c: Conversation, s: seq<Conversation>)
    requires DistinctIds(s) && forall x | x in s :: x.id != c.id
    ensures DistinctIds(InsertByUpdated(c, s))
  {
    if s != [] && c.updatedAt < s[0].updatedAt {
      assert forall x | x in s[1..] :: x in s;
      assert DistinctIds(s[1..]);
      InsertKeepsDistinct(c, s[1..]);
      var rest := InsertByUpdated(c, s[1..]);
      assert forall x | x in rest :: x.id != s[0].id by {
        forall x | x in rest ensures x.id != s[0].id {
          if x != c {
            var j :| 0 <= j < |s[1..]| && s[1..][j] == x;
            assert s[j + 1] == x;
          }
        }
      }
      assert InsertByUpdated(c, s) == [s[0]] + rest;
    }
  }

  /** Sorts conversations by `updatedAt`, newest first (insertion sort). */
  function SortByUpdated(s: seq<Conversation>): (r: seq<Conversation>)
    ensures |r| == |s|
    ensures forall x :: x in r <==> x in s
  {
    if s == [] then []
    else
      assert forall x | x in s[1..] :: x in s;
      InsertByUpdated(s[0], SortByUpdated(s[1..]))
  }

  lemma {:induction false} SortIsSorted(s: seq<Conversation>)
    ensures SortedByUpdatedDesc(SortByUpdated(s))
  {
    if s != [] {
      SortIsSorted(s[1..]);
      InsertKeepsSorted(s[0], SortByUpdated(s[1..]));
    }
  }

  lemma {:induction false} SortKeepsDistinct(s: seq<Conversation>)
    requires DistinctIds(s)
    ensures DistinctIds(SortByUpdated(s))
  {
    if s != [] {
      assert DistinctIds(s[1..]);
      SortKeepsDistinct(s[1..]);
      var rest := SortByUpdated(s[1..]);
      assert forall x | x in rest :: x.id != s[0].id by {
        forall x | x in rest ensures x.id != s[0].id {
          var j :| 0 <= j < |s[1..]| && s[1..][j] == x;
          assert s[j + 1] == x;
        }
      }
      InsertKeepsDistinct(s[0], rest);
    }
  }

  class Store {
    var users: map<int, User>
    var configs: map<int, UserConfig>
    var conversations: map<int, Conversation>
    var nextUserId: int
    var nextConversationId: int

    ghost predicate Valid()
      reads this
    {
      && 1 <= nextUserId
      && 1 <= nextConversationId
      && (forall id | id in users :: 1 <= id < nextUserId && users[id].id == id)
      && (forall a, b | a in users && b in users && users[a].email == users[b].email :: a == b)
      && (forall uid | uid in configs :: configs[uid].userId == uid)
      && (forall id | id in conversations :: 1 <= id < nextConversationId && conversations[id].id == id)
    }

    constructor ()
      ensures Valid()
      ensures users == map[] && configs == map[] && conversations == map[]
    {
      users, configs, conversations := map[], map[], map[];
      nextUserId, nextConversationId := 1, 1;
    }

    predicate EmailTaken(email: string)
      reads this
    {
      exists id | id in users :: users[id].email == email
    }

    /** `create_user`: stores the hash of the password (never the password)
        under a fresh id with the given role, active, and gives the new user
        an empty configuration. A second user with the same email is refused
        by the unique index. */
    method CreateUser(scheme: Security.PasswordScheme, email: string, password: string, role: string, now: Timestamp)
      returns (r: Result<User, CrudError>)
      requires Valid()
      modifies this
      ensures Valid()
      ensures old(EmailTaken(email)) ==> r == Err(DuplicateEmail) && unchanged(this)
      ensures !old(EmailTaken(email)) ==> && r.Ok?
                                          && r.value == NewUser(old(nextUserId), email, Security.HashPassword(scheme, password), role, now)
                                          && r.value.id !in old(users)
                                          && users == old(users)[r.value.id := r.value]
                                          && conversations == old(conversations)
                                          && nextUserId == old(nextUserId) + 1
                                          && nextConversationId == old(nextConversationId)
      // `get_user_config` takes `.first()` of the rows with this user id with
      // no ordering, which is the older row, so a row stored earlier wins.
      ensures r.Ok? ==> configs == if r.value.id in old(configs) then old(configs)
                                  else old(configs)[r.value.id := UserConfig(r.value.id, map[])]
    {
      if EmailTaken(email) {
        return Err(DuplicateEmail);
      }
      var user := NewUser(nextUserId, email, Security.HashPassword(scheme, password), role, now);
      users := users[user.id := user];
      nextUserId := nextUserId + 1;
      if user.id !in configs {
        configs := configs[user.id := UserConfig(user.id, map[])];
      }
      r := Ok(user);
    }

    /** `authenticate_user`: the user with this email when the password
        verifies against its stored hash; None when there is no such user or
        the password does not verify. */
    method AuthenticateUser(scheme: Security.PasswordScheme, email: string, password: string)
      returns (r: Option<User>)
      requires Valid()
      ensures r.Some? <==> exists id | id in users :: users[id].email == email
                                                    && Security.VerifyPassword(scheme, password, users[id].passwordHash)
      ensures r.Some? ==> r.value.id in users && users[r.value.id] == r.value && r.value.email == email
    {
      if !EmailTaken(email) {
        return None;
      }
      var id :| id in users && users[id].email == email;
      if !Security.VerifyPassword(scheme, password, users[id].passwordHash) {
        return None;
      }
      r := Some(users[id]);
    }

    /** Registration and sign-in agree: a user created with an email no one
        has is found again by authenticating with the same email and
        password, and creating that email a second time is refused. */
    method CreateThenAuthenticate(scheme: Security.PasswordScheme, email: string, password: string, role: string,
                                  now: Timestamp)
      returns (created: Result<User, CrudError>, found: Option<User>, again: Result<User, CrudError>)
      requires Valid() && Security.SoundScheme(scheme) && !EmailTaken(email)
      modifies this
      ensures Valid()
      ensures created.Ok? && created.value.email == email && created.value.role == role
      ensures found == Some(created.value)
      ensures again == Err(DuplicateEmail)
    {
      created := CreateUser(scheme, email, password, role, now);
      var user := created.value;
      assert users[user.id] == user;
      Security.VerifyHashed(scheme, password);
      found := AuthenticateUser(scheme, email, password);
      again := CreateUser(scheme, email, password, role, now);
    }

    /** `get_user_by_id`. */
    function GetUserById(id: int): (r: Option<User>)
      reads this
      ensures r.Some? <==> id in users
      ensures r.Some? ==> r.value == users[id]
    {
      Get(users, id)
    }

    /** `get_user_config`: the stored blob, or an empty one when none is stored. */
    function GetUserConfig(userId: int): (r: ConfigData)
      reads this
      ensures userId in configs ==> r == configs[userId].data
      ensures userId !in configs ==> r == map[]
    {
      if userId in configs then configs[userId].data else map[]
    }

    /** `set_user_config`: replaces the whole blob (or creates the row) and
        returns what is now stored. */
    method SetUserConfig(userId: int, data: ConfigData) returns (r: ConfigData)
      requires Valid()
      modifies this
      ensures Valid()
      ensures r == data && GetUserConfig(userId) == data
      ensures configs == old(configs)[userId := UserConfig(userId, data)]
      ensures users == old(users) && conversations == old(conversations)
      ensures nextUserId == old(nextUserId) && nextConversationId == old(nextConversationId)
    {
      configs := configs[userId := UserConfig(userId, data)];
      r := configs[userId].data;
    }

    /** The conversation `id` exists and belongs to `userId`. */
    predicate Owns(userId: int, id: int)
      reads this
    {
      id in conversations && conversations[id].userId == userId
    }

    /** `create_conversation`: a fresh conversation owned by `userId`, named
        "New Conversation" when the name is empty, with the default prompt
        and temperature and no messages. */
    method CreateConversation(userId: int, name: string, now: Timestamp) returns (c: Conversation)
      requires Valid()
      modifies this
      ensures Valid()
      ensures c.id !in old(conversations) && c.id == old(nextConversationId)
      ensures c.userId == userId && Owns(userId, c.id)
      ensures c.name == (if name == "" then DEFAULT_CONVERSATION_NAME else name)
      ensures c.systemPrompt == DEFAULT_SYSTEM_PROMPT && c.temperature == DEFAULT_TEMPERATURE
      ensures c.messages == [] && c.createdAt == now && c.updatedAt == now
      ensures conversations == old(conversations)[c.id := c]
      ensures nextConversationId == old(nextConversationId) + 1
      ensures users == old(users) && configs == old(configs) && nextUserId == old(nextUserId)
    {
      var title := if name == "" then DEFAULT_CONVERSATION_NAME else name;
      c := NewConversation(nextConversationId, userId, title, now);
      conversations := conversations[c.id := c];
      nextConversationId := nextConversationId + 1;
    }

    /** `get_conversations_by_user`: exactly the conversations of `userId`,
        each once, most recently updated first. */
    function GetConversationsByUser(userId: int): (r: seq<Conversation>)
      requires Valid()
      reads this
      ensures forall c | c in r :: c.userId == userId && c.id in conversations && conversations[c.id] == c
      ensures forall id | Owns(userId, id) :: conversations[id] in r
      ensures DistinctIds(r)
      ensures SortedByUpdatedDesc(r)
    {
      var owned := OwnedInRange(conversations, userId, 1, nextConversationId);
      SortIsSorted(owned);
      SortKeepsDistinct(owned);
      SortByUpdated(owned)
    }

    /** `get_conversation`: the conversation only when both id and owner match. */
    function GetConversation(id: int, userId: int): (r: Option<Conversation>)
      reads this
      ensures r.Some? <==> Owns(userId, id)
      ensures r.Some? ==> r.value == conversations[id]
    {
      if Owns(userId, id) then Some(conversations[id]) else None
    }

    /** `update_conversation_settings`: on an owned conversation, sets the
        prompt and the temperature and refreshes `updatedAt`; nothing else
        changes. Otherwise None and no change. */
    method UpdateConversationSettings(id: int, userId: int, systemPrompt: string, temperature: real, now: Timestamp)
      returns (r: Option<Conversation>)
      requires Valid()
      modifies this
      ensures Valid()
      ensures !old(Owns(userId, id)) ==> r == None && unchanged(this)
      ensures old(Owns(userId, id)) ==>
                && r == Some(old(conversations[id]).(systemPrompt := systemPrompt, temperature := temperature, updatedAt := now))
                && conversations == old(conversations)[id := r.value]
                && users == old(users) && configs == old(configs)
                && nextUserId == old(nextUserId) && nextConversationId == old(nextConversationId)
    {
      var found := GetConversation(id, userId);
      if found.None? {
        return None;
      }
      var c := found.value.(systemPrompt := systemPrompt, temperature := temperature, updatedAt := now);
      conversations := conversations[id := c];
      r := Some(c);
    }

    /** `append_message`: on an owned conversation, the log becomes the old
        log followed by {role, content} and `updatedAt` is refreshed; nothing
        else changes. Otherwise None and no change. */
    method AppendMessage(id: int, userId: int, role: string, content: string, now: Timestamp)
      returns (r: Option<Conversation>)
      requires Valid()
      modifies this
      ensures Valid()
      ensures !old(Owns(userId, id)) ==> r == None && unchanged(this)
      ensures old(Owns(userId, id)) ==>
                && r.Some? && conversations == old(conversations)[id := r.value]
                && r.value.messages == old(conversations[id].messages) + [Message(role, content)]
                && r.value == old(conversations[id]).(messages := r.value.messages, updatedAt := now)
                && users == old(users) && configs == old(configs)
                && nextUserId == old(nextUserId) && nextConversationId == old(nextConversationId)
    {
      var found := GetConversation(id, userId);
      if found.None? {
        return None;
      }
      var c := found.value.(messages := found.value.messages + [Message(role, content)], updatedAt := now);
      conversations := conversations[id := c];
      r := Some(c);
    }

    /** `update_conversation`: writes back a loaded conversation with a
        refreshed `updatedAt`. */
    method UpdateConversation(c: Conversation, now: Timestamp) returns (r: Conversation)
      requires Valid()
      requires c.id in conversations
      modifies this
      ensures Valid()
      ensures r == c.(updatedAt := now)
      ensures conversations == old(conversations)[c.id := r]
      ensures users == old(users) && configs == old(configs)
      ensures nextUserId == old(nextUserId) && nextConversationId == old(nextConversationId)
    {
      r := c.(updatedAt := now);
      conversations := conversations[c.id := r];
    }

    /** `delete_conversation`: removes exactly the owned conversation and
        reports true; otherwise false and no change. */
    method DeleteConversation(id: int, userId: int) returns (deleted: bool)
      requires Valid()
      modifies this
      ensures Valid()
      ensures deleted == old(Owns(userId, id))
      ensures !deleted ==> unchanged(this)
      ensures deleted ==> && conversations == old(conversations) - {id}
                          && users == old(users) && configs == old(configs)
                          && nextUserId == old(nextUserId) && nextConversationId == old(nextConversationId)
      ensures forall u :: GetConversation(id, u) == None || !deleted
    {
      deleted := Owns(userId, id);
      if deleted {
        conversations := conversations - {id};
      }
    }
  }
}
