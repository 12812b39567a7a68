/** The language-model client: how a reply is requested. The message list
    sent to the model is one system message, then the conversation history
    mapped role by role, then the user's message; with context documents the
    system message embeds them, numbered from 1. The model itself (`llm`)
    is an uninterpreted function that may raise. */
module Llm {
  import opened Support

  /** The role-tagged messages the chat model accepts. */
  datatype PromptMessage = SystemMessage(content: string) | HumanMessage(content: string) | AIMessage(content: string)

  /** One history entry handed to the client: a dict with a "role" and a
      "content". */
  datatype HistoryEntry = HistoryEntry(role: string, content: string)

  /** What invoking the model gives: the reply text, or an exception. */
  datatype Completion = Completed(content: string) | Raised

  const DefaultPrompt: string :=
    "You are the VerdeMuse Customer Support Assistant, an AI designed to help customers with questions \n"
    + "            about VerdeMuse's sustainable products. Be friendly, concise, and helpful. Always prioritize accurate information \n"
    + "            and admit when you don't know something rather than making up answers."

  const ContextPromptHead: string :=
    "You are the VerdeMuse Customer Support Assistant, an AI designed to help customers with questions \n"
    + "        about VerdeMuse's sustainable products. Be friendly, concise, and helpful.\n"
    + "        \n"
    + "        Use the following context to answer the user's question. If the context doesn't contain relevant information, \n"
    + "        admit that you don't know rather than making up an answer.\n"
    + "        \n"
    + "        Context:\n"
    + "        "

  const ContextPromptTail: string := "\n        "

  predicate Recognised(e: HistoryEntry) {
    e.role == "user" || e.role == "assistant" || e.role == "system"
  }

  /** The model message for a history entry; entries with any other role
      have none. */
  function ToPrompt(e: HistoryEntry): (m: Option<PromptMessage>)
    ensures m.Some? <==> Recognised(e)
    ensures m.Some? ==> m.value.content == e.content
  {
    if e.role == "user" then Some(HumanMessage(e.content))
    else if e.role == "assistant" then Some(AIMessage(e.content))
    else if e.role == "system" then Some(SystemMessage(e.content))
    else None
  }

  /** The history as model messages, in order, unrecognised entries left
      out. */
  function MappedHistory(history: seq<HistoryEntry>): seq<PromptMessage> {
    if history == [] then []
    else
      var last := ToPrompt(history[|history| - 1]);
      MappedHistory(history[..|history| - 1]) + (if last.Some? then [last.value] else [])
  }

  /** How many history entries have a recognised role. */
  function RecognisedCount(history: seq<HistoryEntry>): nat {
    if history == [] then 0
    else RecognisedCount(history[..|history| - 1]) + (if Recognised(history[|history| - 1]) then 1 else 0)
  }

  /** The system prompt used: the given one when it is non-empty, the
      default otherwise. */
  function ChosenPrompt(systemPrompt: Option<string>): string {
    if systemPrompt.Some? && systemPrompt.value != "" then systemPrompt.value else DefaultPrompt
  }

  /** The message list `generate_response` sends to the model. */
  function PromptMessages(userMessage: string, history: seq<HistoryEntry>, systemPrompt: Option<string>): seq<PromptMessage> {
    [SystemMessage(ChosenPrompt(systemPrompt))] + MappedHistory(history) + [HumanMessage(userMessage)]
  }

  lemma {:induction false} MappedHistoryLength(history: seq<HistoryEntry>)
    ensures |MappedHistory(history)| == RecognisedCount(history) <= |history|
  {
    if history != [] {
      MappedHistoryLength(history[..|history| - 1]);
    }
  }

  /** Order is kept: the entry at index `i`, when recognised, lands at the
      position given by the number of recognised entries before it. */
  lemma {:induction false} MappedHistoryAt(history: seq<HistoryEntry>, i: nat)
    requires i < |history| && Recognised(history[i])
    ensures RecognisedCount(history[..i]) < |MappedHistory(history)|
    ensures MappedHistory(history)[RecognisedCount(history[..i])] == ToPrompt(history[i]).value
  {
    var n := |history|;
    var init := history[..n - 1];
    MappedHistoryLength(history);
    MappedHistoryLength(init);
    if i == n - 1 {
      assert history[..i] == init;
    } else {
      assert init[..i] == history[..i];
      MappedHistoryAt(init, i);
    }
  }

  /** Nothing is dropped exactly when every role is recognised. */
  lemma {:induction false} MappedHistoryComplete(history: seq<HistoryEntry>)
    ensures |MappedHistory(history)| == |history| <==> forall i :: 0 <= i < |history| ==> Recognised(history[i])
  {
    MappedHistoryLength(history);
    if history != [] {
      var init := history[..|history| - 1];
      MappedHistoryComplete(init);
      MappedHistoryLength(init);
      assert forall i :: 0 <= i < |init| ==> init[i] == history[i];
    }
  }

  /** The shape of the list: a leading system message, the mapped history,
      and the user's message last; its length is 2 plus the number of
      recognised history entries. */
  lemma PromptShape(userMessage: string, history: seq<HistoryEntry>, systemPrompt: Option<string>)
    ensures var p := PromptMessages(userMessage, history, systemPrompt);
      && |p| == 2 + RecognisedCount(history)
      && p[0] == SystemMessage(if systemPrompt.Some? && systemPrompt.value != "" then systemPrompt.value
                               else DefaultPrompt)
      && p[|p| - 1] == HumanMessage(userMessage)
      && p[1..|p| - 1] == MappedHistory(history)
  {
    MappedHistoryLength(history);
  }

  /** The leading system message need not be the only one: every system
      entry of the history adds another, at the position after the leading
      one given by the recognised entries before it. */
  lemma SystemMessageNotUnique(userMessage: string, history: seq<HistoryEntry>, systemPrompt: Option<string>, i: nat)
    requires i < |history| && history[i].role == "system"
    ensures var p := PromptMessages(userMessage, history, systemPrompt);
      var c := RecognisedCount(history[..i]);
      && 1 + c < |p| - 1
      && p[1 + c] == SystemMessage(history[i].content)
  {
    MappedHistoryAt(history, i);
    MappedHistoryLength(history);
  }

  /** `f"Document {i+1}: {doc}"`. */
  function DocumentLabel(i: nat, document: string): string {
    "Document " + NatToString(i + 1) + ": " + document
  }

  function DocumentLabels(documents: seq<string>): (labels: seq<string>)
    ensures |labels| == |documents|
    ensures forall i :: 0 <= i < |documents| ==> labels[i] == DocumentLabel(i, documents[i])
  {
    seq(|documents|, i requires 0 <= i < |documents| => DocumentLabel(i, documents[i]))
  }

  /** The context block: the labelled documents joined by blank lines. */
  function ContextString(documents: seq<string>): string {
    Join("\n\n", DocumentLabels(documents))
  }

  /** The context block grows by one blank line and one labelled document
      per document; no documents give the empty string. */
  lemma ContextStringSnoc(documents: seq<string>, document: string)
    ensures ContextString([]) == ""
    ensures documents == [] ==> ContextString([document]) == "Document 1: " + document
    ensures documents != [] ==>
      ContextString(documents + [document])
        == ContextString(documents) + "\n\n" + DocumentLabel(|documents|, document)
  {
    var labels := DocumentLabels(documents);
    var added := DocumentLabel(|documents|, document);
    assert DocumentLabels(documents + [document]) == labels + [added];
    JoinSnoc("\n\n", labels, added);
    if documents == [] {
      FirstLabel(document);
    }
  }

  lemma FirstLabel(document: string)
    ensures DocumentLabel(0, document) == "Document 1: " + document
  {
    assert NatToString(1) == "1";
  }

  /** Labels are numbered without repeats: two documents at different
      positions get different numbers. */
  lemma DocumentNumbersDistinct(i: nat, j: nat)
    requires i != j
    ensures NatToString(i + 1) != NatToString(j + 1)
  {
    if NatToString(i + 1) == NatToString(j + 1) {
      NatToStringInjective(i + 1, j + 1);
    }
  }

  /** The system prompt that carries the context block. */
  function ContextPrompt(context: string): (p: string)
    ensures |p| > 0
  {
    ContextPromptHead + context + ContextPromptTail
  }

  /** Answering with context sends the same history and user message; only
      the leading system message differs, and it embeds the context. */
  lemma ContextChangesOnlySystemMessage(userMessage: string, documents: seq<string>, history: seq<HistoryEntry>)
    ensures var withContext := PromptMessages(userMessage, history, Some(ContextPrompt(ContextString(documents))));
      var plain := PromptMessages(userMessage, history, None);
      && |withContext| == |plain|
      && withContext[0] == SystemMessage(ContextPromptHead + ContextString(documents) + ContextPromptTail)
      && withContext[1..] == plain[1..]
  {
  }

  class MistralClient {
    const llm: seq<PromptMessage> -> Completion

    constructor (llm: seq<PromptMessage> -> Completion)
      ensures this.llm == llm
    {
      this.llm := llm;
    }

    /** Builds the message list, one history entry at a time, and invokes
        the model on it. */
    method GenerateResponse(userMessage: string, history: seq<HistoryEntry>, systemPrompt: Option<string>)
      returns (reply: Completion)
      ensures reply == llm(PromptMessages(userMessage, history, systemPrompt))
    {
      var messages: seq<PromptMessage> := [];
      if systemPrompt.Some? && systemPrompt.value != "" {
        messages := messages + [SystemMessage(systemPrompt.value)];
      } else {
        messages := messages + [SystemMessage(DefaultPrompt)];
      }
      var i := 0;
      while i < |history|
        invariant 0 <= i <= |history|
        invariant messages == [SystemMessage(ChosenPrompt(systemPrompt))] + MappedHistory(history[..i])
      {
        var entry := history[i];
        assert history[..i + 1][..i] == history[..i];
        if entry.role == "user" {
          messages := messages + [HumanMessage(entry.content)];
        } else if entry.role == "assistant" {
          messages := messages + [AIMessage(entry.content)];
        } else if entry.role == "system" {
          messages := messages + [SystemMessage(entry.content)];
        }
        i := i + 1;
      }
      assert history[..i] == history;
      messages := messages + [HumanMessage(userMessage)];
      reply := llm(messages);
    }

    /** Answers with the documents as context in the system prompt. */
    method GenerateAnswerWithContext(userMessage: string, documents: seq<string>, history: seq<HistoryEntry>)
      returns (reply: Completion)
      ensures reply == llm(PromptMessages(userMessage, history, Some(ContextPrompt(ContextString(documents)))))
    {
      var context := Join("\n\n", DocumentLabels(documents));
      var systemPrompt := ContextPromptHead + context + ContextPromptTail;
      reply := GenerateResponse(userMessage, history, Some(systemPrompt));
    }
  }
}
