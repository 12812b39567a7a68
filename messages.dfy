/** The domain records of the chat service: the three message roles, a
    stored message, a conversation history that grows by `AddMessage`, and
    the request/response bodies of the chat endpoint. Identifiers and clock
    readings (uuid4 strings, `datetime.now()`) are passed in as opaque
    strings. */
module Messages {
  import opened Support

  /** The role of a message sender: exactly three values. */
  datatype Role = User | Assistant | System

  /** The string value of each role (`MessageRole` is a `str` enum). */
  function RoleName(r: Role): string {
    match r
    case User => "user"
    case Assistant => "assistant"
    case System => "system"
  }

  /** Reading a role from its string value, as `MessageRole(s)` does; any
      other string is rejected. */
  function ParseRole(s: string): (r: Option<Role>)
    ensures r.Some? ==> RoleName(r.value) == s
  {
    if s == "user" then Some(User)
    else if s == "assistant" then Some(Assistant)
    else if s == "system" then Some(System)
    else None
  }

  /** Every role survives being written as a string and read back, and a
      string is a role's value exactly when it parses to that role. */
  lemma RoleRoundTrip(r: Role, s: string)
    ensures ParseRole(RoleName(r)) == Some(r)
    ensures ParseRole(s) == Some(r) <==> s == RoleName(r)
  {
  }

  /** The role names are pairwise distinct. */
  lemma RoleNamesDistinct(a: Role, b: Role)
    ensures RoleName(a) == RoleName(b) <==> a == b
  {
    RoleRoundTrip(a, RoleName(b));
  }

  /** One chat message. `metadata` is an arbitrary JSON object in the
      original; here its values are strings. */
  datatype Message = Message(
    id: string,
    role: Role,
    content: string,
    timestamp: string,
    conversationId: Option<string>,
    metadata: Option<map<string, string>>)

  /** A conversation whose message list `AddMessage` extends in place. */
  class ConversationHistory {
    const conversationId: string
    var messages: seq<Message>
    var userId: Option<string>
    const createdAt: string
    var updatedAt: string
    var metadata: Option<map<string, string>>

    /** A new, empty history; `freshId` stands for the uuid4 default, and
        `createdNow` and `updatedNow` for the two separate `datetime.now`
        defaults, which need not agree. */
    constructor (freshId: string, userId: Option<string>, createdNow: string, updatedNow: string)
      ensures conversationId == freshId && messages == [] && this.userId == userId
      ensures createdAt == createdNow && updatedAt == updatedNow && metadata == None
    {
      conversationId := freshId;
      messages := [];
      this.userId := userId;
      createdAt := createdNow;
      updatedAt := updatedNow;
      metadata := None;
    }

    /** Appends a new message with the given role and content, tagged with
        this history's id, and refreshes `updatedAt`. `messageId` and
        `stampedAt` are the new message's generated id and timestamp, `now`
        the second clock reading taken for `updatedAt`. */
    method AddMessage(role: Role, content: string, messageId: string, stampedAt: string, now: string)
      returns (m: Message)
      modifies this`messages, this`updatedAt
      ensures messages == old(messages) + [m]
      ensures |messages| == |old(messages)| + 1 && messages[|messages| - 1] == m
      ensures messages[..|old(messages)|] == old(messages)
      ensures m.role == role && m.content == content
      ensures m.conversationId == Some(conversationId)
      ensures m.id == messageId && m.timestamp == stampedAt && m.metadata == None
      ensures updatedAt == now
      ensures userId == old(userId) && metadata == old(metadata)
    {
      m := Message(messageId, role, content, stampedAt, Some(conversationId), None);
      messages := messages + [m];
      updatedAt := now;
    }
  }

  /** One cited passage in a chat response. */
  datatype Source = Source(content: string, confidence: real)

  /** Body of a chat request. */
  datatype ChatRequest = ChatRequest(
    message: string,
    conversationId: Option<string>,
    userId: Option<string>)

  /** Body of a chat response. */
  datatype ChatResponse = ChatResponse(
    message: string,
    conversationId: string,
    sources: Option<seq<Source>>,
    confidence: Option<real>)

  /** A request built with only the fields given; the optional ones default
      to absent. */
  function NewChatRequest(message: string, conversationId: Option<string> := None,
                          userId: Option<string> := None): (r: ChatRequest)
    ensures r.message == message && r.conversationId == conversationId && r.userId == userId
  {
    ChatRequest(message, conversationId, userId)
  }

  /** A response built with only the fields given; `sources` and
      `confidence` default to absent. */
  function NewChatResponse(message: string, conversationId: string,
                           sources: Option<seq<Source>> := None,
                           confidence: Option<real> := None): (r: ChatResponse)
    ensures r.message == message && r.conversationId == conversationId
    ensures r.sources == sources && r.confidence == confidence
  {
    ChatResponse(message, conversationId, sources, confidence)
  }

  /** Leaving out the optional fields leaves them absent. */
  lemma FieldDefaults(message: string, conversationId: string)
    ensures NewChatRequest(message).conversationId == None
    ensures NewChatRequest(message).userId == None
    ensures NewChatResponse(message, conversationId).sources == None
    ensures NewChatResponse(message, conversationId).confidence == None
  {
  }
}
