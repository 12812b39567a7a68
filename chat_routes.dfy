/** The chat routes: one turn of the conversation, reading a history back,
    and deleting it. Histories live in a process-wide table from conversation
    id to a list object; a turn appends to that very list in place, so the
    table's lists are objects here and the table keeps them unshared.

    The vector search is an uninterpreted function that may raise, and so is
    the language model (inside `Llm.MistralClient`); the uuid4 minted for a
    request without an id is the parameter `freshId`. */
module Chat {
  import opened Support
  import opened Messages
  import Llm

  /** A history item as the route stores it: `{"role": ..., "content": ...}`. */
  datatype ChatMessage = ChatMessage(role: Role, content: string)

  /** A mutable list of history items. */
  class HistoryList {
    var items: seq<ChatMessage>

    constructor ()
      ensures items == []
    {
      items := [];
    }

    method Append(m: ChatMessage)
      modifies this
      ensures items == old(items) + [m]
    {
      items := items + [m];
    }
  }

  /** What the vector search gives: the texts of the passages found, or an
      exception. */
  datatype Search = Found(passages: seq<string>) | SearchRaised

  /** The outcome of a turn: a response, or the server error an exception
      from the model turns into. */
  datatype TurnOutcome = Answered(response: ChatResponse) | InternalError

  /** The outcome of reading a history: the list, or 404. */
  datatype Lookup = History(messages: seq<ChatMessage>) | NotFound

  datatype Status = Status(status: string, message: string)

  /** How many passages a turn asks the search for. */
  const SearchK: nat := 3
  /** The confidence reported for every cited passage. */
  const SourceConfidence: real := 0.9

  /** `request.conversation_id or str(uuid.uuid4())`. */
  function ResolveId(requested: Option<string>, freshId: string): string {
    if requested.Some? && requested.value != "" then requested.value else freshId
  }

  /** The history as the client reads it: role values as strings. */
  function Entries(history: seq<ChatMessage>): (entries: seq<Llm.HistoryEntry>)
    ensures |entries| == |history|
    ensures forall i :: 0 <= i < |history| ==>
      entries[i] == Llm.HistoryEntry(RoleName(history[i].role), history[i].content)
  {
    seq(|history|, i requires 0 <= i < |history| => Llm.HistoryEntry(RoleName(history[i].role), history[i].content))
  }

  /** The model message a stored history item becomes. */
  function AsPrompt(m: ChatMessage): Llm.PromptMessage {
    match m.role
    case User => Llm.HumanMessage(m.content)
    case Assistant => Llm.AIMessage(m.content)
    case System => Llm.SystemMessage(m.content)
  }

  /** The documents a turn works with: a raised search counts as none. */
  function RetrievedDocuments(s: Search): seq<string> {
    if s.Found? then s.passages else []
  }

  /** The cited sources: none without documents, otherwise one per document,
      in order, each with the fixed confidence. */
  function Sources(documents: seq<string>): (sources: Option<seq<Source>>)
    ensures sources.None? <==> documents == []
    ensures sources.Some? ==> |sources.value| == |documents|
    ensures sources.Some? ==> forall i :: 0 <= i < |documents| ==>
      sources.value[i] == Source(documents[i], SourceConfidence)
  {
    if documents == [] then None
    else Some(seq(|documents|, i requires 0 <= i < |documents| => Source(documents[i], SourceConfidence)))
  }

  /** The message list a turn sends to the model, given the history it hands
      the client and the documents retrieved. */
  function TurnPrompt(message: string, history: seq<ChatMessage>, documents: seq<string>): seq<Llm.PromptMessage> {
    if documents == [] then Llm.PromptMessages(message, Entries(history), None)
    else Llm.PromptMessages(message, Entries(history), Some(Llm.ContextPrompt(Llm.ContextString(documents))))
  }

  /** Every stored role is one the client recognises, so no history item is
      dropped on the way to the model, and each keeps its role. */
  lemma {:induction false} EntriesMapped(history: seq<ChatMessage>)
    ensures |Llm.MappedHistory(Entries(history))| == |history|
    ensures forall i :: 0 <= i < |history| ==> Llm.MappedHistory(Entries(history))[i] == AsPrompt(history[i])
  {
    if history != [] {
      var n := |history|;
      assert Entries(history)[..n - 1] == Entries(history[..n - 1]);
      EntriesMapped(history[..n - 1]);
    }
  }

  /** The history a turn hands the client already ends with the current
      user message, so the model sees that message twice: as the last
      history item and as the final message. All earlier items come through
      in order, after the one system message. */
  lemma TurnPromptShape(message: string, prior: seq<ChatMessage>, documents: seq<string>)
    ensures var p := TurnPrompt(message, prior + [ChatMessage(User, message)], documents);
      && |p| == |prior| + 3
      && p[0] == Llm.SystemMessage(if documents == [] then Llm.DefaultPrompt
                                   else Llm.ContextPrompt(Llm.ContextString(documents)))
      && (forall i :: 0 <= i < |prior| ==> p[i + 1] == AsPrompt(prior[i]))
      && p[|prior| + 1] == Llm.HumanMessage(message)
      && p[|prior| + 2] == Llm.HumanMessage(message)
  {
    var history := prior + [ChatMessage(User, message)];
    EntriesMapped(history);
    var mapped := Llm.MappedHistory(Entries(history));
    var p := TurnPrompt(message, history, documents);
    assert p[1..|p| - 1] == mapped;
    assert forall i :: 0 <= i < |prior| ==> history[i] == prior[i];
  }

  /** Retrieval and generation of one turn: the search's passages, or none
      when it raises; with passages, a context answer citing each passage;
      without, a plain answer and no sources. `history` is the list handed to
      the client. */
  method Generate(client: Llm.MistralClient, message: string, history: seq<ChatMessage>,
                  search: (string, nat) -> Search)
    returns (reply: Llm.Completion, sources: Option<seq<Source>>)
    ensures var documents := RetrievedDocuments(search(message, SearchK));
      && reply == client.llm(TurnPrompt(message, history, documents))
      && sources == Sources(documents)
  {
    var documents: seq<string> := [];
    var found := search(message, SearchK);
    if found.Found? {
      documents := found.passages;
    }
    if |documents| > 0 {
      reply := client.GenerateAnswerWithContext(message, documents, Entries(history));
      sources := Some(seq(|documents|, i requires 0 <= i < |documents| => Source(documents[i], SourceConfidence)));
    } else {
      reply := client.GenerateResponse(message, Entries(history), None);
      sources := None;
    }
  }

  /** The history stored for `id` before a turn; none reads as `[]`. */
  function Prior(contents: map<string, seq<ChatMessage>>, id: string): seq<ChatMessage> {
    if id in contents then contents[id] else []
  }

  /** What the model answers in a turn on `message` whose conversation held
      `prior`. */
  function TurnReply(llm: seq<Llm.PromptMessage> -> Llm.Completion, message: string, prior: seq<ChatMessage>,
                     search: (string, nat) -> Search): Llm.Completion {
    llm(TurnPrompt(message, prior + [ChatMessage(User, message)], RetrievedDocuments(search(message, SearchK))))
  }

  class ChatRouter {
    var histories: map<string, HistoryList>

    /** No two conversations share one list object. */
    ghost predicate Valid()
      reads this
    {
      forall a, b :: a in histories && b in histories && a != b ==> histories[a] != histories[b]
    }

    /** The table as values. */
    ghost function Contents(): map<string, seq<ChatMessage>>
      reads this, histories.Values
    {
      map id | id in histories :: histories[id].items
    }

    constructor ()
      ensures Valid() && histories == map[] && Contents() == map[]
    {
      histories := map[];
    }

    /** One chat turn. The user message goes onto the conversation's list
        before the model is asked, so when the model raises, an existing
        conversation keeps that message with no reply, and a new one is not
        stored at all. */
    method ChatEndpoint(request: ChatRequest, freshId: string, client: Llm.MistralClient,
                        search: (string, nat) -> Search)
      returns (r: TurnOutcome)
      requires Valid()
      modifies this, histories.Values
      ensures Valid()
      ensures var id := ResolveId(request.conversationId, freshId);
        var reply := TurnReply(client.llm, request.message, Prior(old(Contents()), id), search);
        && (r.Answered? <==> reply.Completed?)
        && (r.Answered? ==>
              r.response == ChatResponse(reply.content, id, Sources(RetrievedDocuments(search(request.message, SearchK))), None))
      ensures var id := ResolveId(request.conversationId, freshId);
        var reply := TurnReply(client.llm, request.message, Prior(old(Contents()), id), search);
        r.Answered? ==> Contents() == old(Contents())[id := Prior(old(Contents()), id) +
                                        [ChatMessage(User, request.message), ChatMessage(Assistant, reply.content)]]
      ensures var id := ResolveId(request.conversationId, freshId);
        r.InternalError? ==>
          Contents() == if id in old(Contents()) then old(Contents())[id := old(Contents())[id] + [ChatMessage(User, request.message)]]
                        else old(Contents())
    {
      var id := if request.conversationId.Some? && request.conversationId.value != ""
                then request.conversationId.value else freshId;
      ghost var before := Contents();
      var user := ChatMessage(User, request.message);
      var history := BeginTurn(id, user);
      var reply, sources := Generate(client, request.message, history.items, search);
      if reply.Raised? {
        return InternalError;
      }
      ghost var mid := Contents();
      var assistant := ChatMessage(Assistant, reply.content);
      FinishTurn(id, history, assistant);
      AppendTwo(Prior(before, id), user, assistant);
      OverwriteKey(before, mid, id, Prior(before, id) + [user, assistant]);
      r := Answered(NewChatResponse(reply.content, id, sources));
    }

    /** Fetches the list of `id`, or a new empty one that the table does not
        hold yet, and appends the user message to it in place. */
    method BeginTurn(id: string, user: ChatMessage) returns (history: HistoryList)
      requires Valid()
      modifies histories.Values
      ensures Valid() && histories == old(histories)
      ensures history.items == Prior(old(Contents()), id) + [user]
      ensures id in histories ==> histories[id] == history
      ensures id !in histories ==> fresh(history)
      ensures Contents() == if id in histories then old(Contents())[id := history.items] else old(Contents())
    {
      if id in histories {
        history := histories[id];
      } else {
        history := new HistoryList();
      }
      history.Append(user);
      assert forall k :: k in histories && k != id ==> histories[k] != history;
    }

    /** Appends the reply to the turn's list in place and stores the list
        under `id`. */
    method FinishTurn(id: string, history: HistoryList, assistant: ChatMessage)
      requires Valid()
      requires id in histories ==> histories[id] == history
      requires id !in histories ==> history !in histories.Values
      modifies this, history
      ensures Valid()
      ensures histories == old(histories)[id := history]
      ensures history.items == old(history.items) + [assistant]
      ensures Contents() == old(Contents())[id := old(history.items) + [assistant]]
    {
      history.Append(assistant);
      histories := histories[id := history];
      assert forall k :: k in histories && k != id ==> histories[k] != history;
    }

    /** GET: the stored list, or 404 when the id is unknown. */
    method GetConversationHistory(id: string) returns (r: Lookup)
      ensures r.NotFound? <==> id !in histories
      ensures r.History? ==> r.messages == histories[id].items
    {
      if id !in histories {
        return NotFound;
      }
      r := History(histories[id].items);
    }

    /** DELETE: removes the id if present and reports success either way. */
    method DeleteConversation(id: string) returns (s: Status)
      requires Valid()
      modifies this
      ensures Valid()
      ensures id !in histories
      ensures Contents() == old(Contents()) - {id}
      ensures s == Status("success", "Conversation deleted")
    {
      if id in histories {
        histories := histories - {id};
      }
      s := Status("success", "Conversation deleted");
    }
  }
}
