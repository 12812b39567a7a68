# VerdeMuse customer-support core, modelled in Dafny

VerdeMuse is a customer-support chat service for a shop of sustainable
plant products. This project models its core in Dafny and proves
properties of that model:

- **Messages** (`messages.dfy`) models the domain records:
  - the three message roles and their string values;
  - a message;
  - a conversation history that grows in place;
  - the request and response bodies of the chat endpoint.
- **KeyValue** (`key_value.dfy`) is the remote key/value server the
  conversation store talks to. It covers only the commands the store
  issues (SETEX, GET, DEL, TTL, EXPIRE, KEYS), with their Redis reply
  conventions. Whether the server can be reached is a field. The
  elapsing of an expiry is an explicit step.
- **Store** (`conversation_store.dfy`) is the persistent conversation
  store:
  - Each conversation has two keys. `conversation:{id}` holds the message
    list. `conversation_meta:{id}` holds a metadata record (id, message
    count, time of the last update, expiry). Both carry the same expiry.
  - The store can get, save, append to and delete a conversation, and
    read its metadata.
  - A cleanup scan gives an expiry to every conversation key that has
    none, and counts the keys found missing.
  - Every failure ends on the operation's failure value: `[]`, `false`,
    no metadata, or `0`.
- **Llm** (`mistral_client.dfy`) models how the chat model is asked for a
  reply. The prompt is:
  - a leading system message (the caller's prompt, or the default one);
  - then the history, mapped role by role, with unknown roles dropped;
  - then the user's message.
  The context variant numbers the documents from 1 and embeds them in the
  system prompt. The model itself is an uninterpreted function that may
  raise.
- **Chat** (`chat_routes.dfy`) covers the HTTP chat routes, over a
  process-wide table of history lists:
  - one turn: resolve or mint the id, append the user message in place,
    search for passages, answer with or without context, cite the
    sources, append the reply, and store the list;
  - reading a history back, with a 404 for an unknown id;
  - deleting a history.
- **KnowledgeBase** (`knowledge_base.dfy`) covers the documents built from
  product and FAQ records:
  - each product gives one general document and then one document per
    optional field, in a fixed order;
  - after all products, each FAQ gives one document;
  - the documents are split into aligned lists of texts and metadata.
- **KnowledgeBaseData** (`knowledge_base_data.dfy`) holds the built-in
  catalogue of five products and nine FAQs.
- **Support** (`support.dfy`) holds shared helpers: an option type, string
  joining, decimal rendering of naturals, and flattening of sequences.

Clocks, uuid4 identifiers, the vector search and the language model are
parameters.

## Model

| member | source | states |
|---|---|---|
| Messages.ParseRole | src/domain/models/message.py:7-11 | a parsed role's string value is the string read; any other string is rejected |
| Messages.RoleRoundTrip | src/domain/models/message.py:7-11 | every role reads back from its string value, and a string parses to a role exactly when it is that role's value |
| Messages.RoleNamesDistinct | src/domain/models/message.py:7-11 | two roles have the same string value exactly when they are the same role |
| Messages.ConversationHistory.constructor | src/domain/models/message.py:34-43 | a new history has the given id, no messages, the given user and no metadata; its created and updated times are two separate clock readings, which need not agree |
| Messages.ConversationHistory.AddMessage | src/domain/models/message.py:45-63 | the list gains exactly one message at its end, earlier messages are unchanged; that message carries the role, the content, the history's id, the generated id and timestamp, and no metadata; it is returned; updated_at becomes the clock reading and nothing else changes |
| Messages.NewChatRequest | src/domain/models/message.py:65-71 | the request carries the given message, conversation id and user id |
| Messages.NewChatResponse | src/domain/models/message.py:81-88 | the response carries the given message, conversation id, sources and confidence |
| Messages.FieldDefaults | src/domain/models/message.py:65-88 | the conversation id and user id of a request, and the sources and confidence of a response, default to none |
| KeyValue.TtlReply | src/infrastructure/conversation_store.py:242-247 | the TTL reply is -2 exactly for a missing key, -1 exactly for a key without an expiry, and otherwise the key's remaining seconds |
| KeyValue.Server.SetEx | src/infrastructure/conversation_store.py:120 | fails with a lost connection when unreachable and with an invalid expiry when the seconds are not positive; otherwise stores the value with that expiry and changes nothing else |
| KeyValue.Server.Get | src/infrastructure/conversation_store.py:82 | succeeds exactly when reachable, and then gives the key's value, or nothing for a missing key |
| KeyValue.Server.Delete | src/infrastructure/conversation_store.py:191 | when reachable, removes every listed key and reports how many of them existed; when not, changes nothing |
| KeyValue.Server.Ttl | src/infrastructure/conversation_store.py:242 | succeeds exactly when reachable, with the TTL reply of the key |
| KeyValue.Server.Expire | src/infrastructure/conversation_store.py:245 | when reachable, answers whether the key existed, and gives it the new expiry (or removes it for a non-positive one); nothing else changes |
| KeyValue.Server.Keys | src/infrastructure/conversation_store.py:237-238 | when reachable, lists every key that begins with the prefix, each exactly once, and no other key |
| Store.ConversationKey | src/infrastructure/conversation_store.py:59-61 | the key is `conversation:` followed by the id |
| Store.MetadataKey | src/infrastructure/conversation_store.py:63-65 | the key is `conversation_meta:` followed by the id |
| Store.KeysSeparate | src/infrastructure/conversation_store.py:59-65 | a metadata key never matches the `conversation:*` scan; data and metadata keys never coincide; each key determines its id |
| Store.EffectiveTtlAccepted | src/infrastructure/conversation_store.py:119-120 | `ttl or default` gives an expiry the server accepts exactly when the argument is absent or non-negative; a positive argument is kept as it is |
| Store.SaveThenRead | src/infrastructure/conversation_store.py:111-132 | after a save, reading back gives exactly the saved list; the metadata names the id and counts the list; both keys are consistent and share the expiry; only the two keys of the id change |
| Store.OtherIdsUntouched | src/infrastructure/conversation_store.py:111-194 | saving or deleting one id leaves the list, the metadata and the consistency of every other id as they were |
| Store.DeleteRemoves | src/infrastructure/conversation_store.py:186-194 | after a delete, neither key of the id is left, the list reads as empty, there is no metadata, the delete is idempotent, and no other key goes |
| Store.WellTypedKept | src/infrastructure/conversation_store.py:111-191 | saves and deletes keep data keys holding lists and metadata keys holding metadata |
| Store.Stamped | src/infrastructure/conversation_store.py:159-161 | the message gains a timestamp equal to the clock reading only when it had none; an existing timestamp and all other fields are kept |
| Store.CleanupEffect | src/infrastructure/conversation_store.py:236-247 | the scan changes only `conversation:` keys; each of them either lapsed or carries an expiry afterwards, with its value unchanged; metadata keys and records are untouched |
| Store.CleanupCountNothingLapsed | src/infrastructure/conversation_store.py:240-247 | when no expiry elapses during the scan, the count is zero and no key disappears |
| Store.CleanupKeepsConsistent | src/infrastructure/conversation_store.py:241-247 | a consistent conversation whose data key does not lapse stays consistent through the scan |
| Store.CleanedStep | src/infrastructure/conversation_store.py:241-247 | visiting one more key changes only that key: removed if it lapsed, given the default expiry if it had none, otherwise kept; it is counted exactly when it lapsed |
| Store.CleanedWellTyped | src/infrastructure/conversation_store.py:241-247 | the scan keeps keys holding values of the right kind |
| Store.MessageDict.constructor | src/infrastructure/conversation_store.py:141 | the caller's message dict holds the given fields |
| Store.ConversationStore.constructor | src/infrastructure/conversation_store.py:23-32 | a new store talks to the given server and has no client yet |
| Store.ConversationStore.Connect | src/infrastructure/conversation_store.py:34-51 | the client is set when it was already set or the server answers, and left unset otherwise |
| Store.ConversationStore.GetConversation | src/infrastructure/conversation_store.py:67-89 | gives the stored list of the id when the server is reachable; gives `[]` for a missing key or an unreachable server; the server data do not change |
| Store.ConversationStore.SaveConversation | src/infrastructure/conversation_store.py:91-136 | succeeds exactly when the server is reachable and the effective expiry is positive; the data then become the saved state of the id, and on failure they are unchanged |
| Store.ConversationStore.AddMessage | src/infrastructure/conversation_store.py:138-171 | the caller's dict is stamped in place; the stored list becomes the old one plus the stamped message, with fresh metadata, exactly when the save succeeds; otherwise nothing is stored |
| Store.ConversationStore.DeleteConversation | src/infrastructure/conversation_store.py:173-198 | succeeds exactly when the server is reachable, then both keys of the id are gone; otherwise nothing changes |
| Store.ConversationStore.GetConversationMetadata | src/infrastructure/conversation_store.py:200-223 | gives the stored metadata of the id when reachable, and none (the empty dict) for a missing key or an unreachable server |
| Store.ConversationStore.VisitKey | src/infrastructure/conversation_store.py:241-247 | one key of the scan: it fails exactly when the server is unreachable; otherwise a key whose expiry elapsed is gone and reported missing, a key without an expiry gets the default one, and any other key is kept |
| Store.ConversationStore.CleanupExpiredConversations | src/infrastructure/conversation_store.py:225-254 | when reachable, the data become the scan's result and the count is the number of listed keys whose expiry elapsed before their TTL query; when unreachable, it returns 0 and changes nothing |
| Llm.ToPrompt | src/infrastructure/llm/mistral_client.py:71-77 | a history entry becomes a model message exactly when its role is user, assistant or system, and it keeps its content |
| Llm.MappedHistoryLength | src/infrastructure/llm/mistral_client.py:70-77 | the mapped history has one message per entry with a recognised role, so it is never longer than the history |
| Llm.MappedHistoryAt | src/infrastructure/llm/mistral_client.py:70-77 | order is kept: a recognised entry lands at the position given by the number of recognised entries before it |
| Llm.MappedHistoryComplete | src/infrastructure/llm/mistral_client.py:70-77 | no entry is dropped exactly when every entry's role is recognised |
| Llm.PromptShape | src/infrastructure/llm/mistral_client.py:57-80 | the prompt is the given non-empty system prompt (or the default), then the mapped history, then the user message; its length is 2 plus the recognised entries |
| Llm.SystemMessageNotUnique | src/infrastructure/llm/mistral_client.py:60-77 | for every user message, history and system prompt, each system entry of the history becomes a further system message after the leading one, at the position given by the recognised entries before it, and before the user message |
| Llm.DocumentLabels | src/infrastructure/llm/mistral_client.py:105 | one label per document, in order, each `Document {i+1}: ` followed by the document |
| Llm.ContextStringSnoc | src/infrastructure/llm/mistral_client.py:105 | no documents give an empty context; one gives `Document 1: …`; each further document adds a blank line and its labelled text at the end |
| Llm.DocumentNumbersDistinct | src/infrastructure/llm/mistral_client.py:105 | documents at different positions get different numbers |
| Llm.ContextPrompt | src/infrastructure/llm/mistral_client.py:108-116 | the context system prompt is never empty, so it always replaces the default one |
| Llm.ContextChangesOnlySystemMessage | src/infrastructure/llm/mistral_client.py:104-119 | answering with context sends the same history and user message as a plain answer; only the first message differs, and it embeds the context |
| Llm.MistralClient.constructor | src/infrastructure/llm/mistral_client.py:16-38 | the client wraps the given model |
| Llm.MistralClient.GenerateResponse | src/infrastructure/llm/mistral_client.py:40-85 | the loop builds exactly the prompt list described above, and the reply is the model's answer to it |
| Llm.MistralClient.GenerateAnswerWithContext | src/infrastructure/llm/mistral_client.py:87-119 | the reply is the model's answer to that prompt list with the context system prompt |
| Chat.HistoryList.constructor | src/api/routes/chat.py:34 | a history list starts empty |
| Chat.HistoryList.Append | src/api/routes/chat.py:41 | the list gains exactly the item at its end |
| Chat.Entries | src/api/routes/chat.py:37-41 | each history item reaches the client with its role's string value and its content, in order |
| Chat.Sources | src/api/routes/chat.py:55-68 | no documents give no sources; otherwise there is one source per document, in order, with confidence 0.9 |
| Chat.EntriesMapped | src/api/routes/chat.py:37-66 | every stored role is recognised by the client, so no item is dropped and each becomes the message of its role |
| Chat.TurnPromptShape | src/api/routes/chat.py:34-68 | the model sees the system message, every earlier item in order, then the current user message twice (as the last history item and as the final message) |
| Chat.Generate | src/api/routes/chat.py:43-68 | a search that raises counts as no documents; with documents, the reply comes from the context prompt and each document is cited; without, the reply comes from the plain prompt and there are no sources |
| Chat.ChatRouter.constructor | src/api/routes/chat.py:13 | the table of histories starts empty |
| Chat.ChatRouter.ChatEndpoint | src/api/routes/chat.py:15-86 | the id is the requested one or a fresh one; when the model answers, the response holds the reply, the id and the sources, and the id's history becomes the old one plus the user message and the reply; when the model raises, the result is a server error, and an existing history keeps the user message while a new id stays unstored |
| Chat.ChatRouter.BeginTurn | src/api/routes/chat.py:33-41 | the turn's list is the stored one (or a new one) with the user message appended in place; the table still has the same lists |
| Chat.ChatRouter.FinishTurn | src/api/routes/chat.py:70-77 | the reply is appended to the turn's list, and that list is stored under the id |
| Chat.ChatRouter.GetConversationHistory | src/api/routes/chat.py:88-96 | unknown ids give 404; known ids give their stored list |
| Chat.ChatRouter.DeleteConversation | src/api/routes/chat.py:98-106 | the id is gone afterwards and every other history is kept; success is reported whether or not it existed |
| KnowledgeBase.OptionalDocumentsAligned | scripts/generate_knowledge_base.py:187-214 | the optional documents correspond one to one, in order, to the optional fields the product has |
| KnowledgeBase.ProductDocumentsShape | scripts/generate_knowledge_base.py:181-214 | a product gives its general document first (tagged product, id, category), then one document per present optional field, each tagged with the field's kind and the product id |
| KnowledgeBase.PresentFieldsExact | scripts/generate_knowledge_base.py:187-214 | an optional field gets a document exactly when the product has it; the fields come in the fixed order care, usage, benefits, sustainability |
| KnowledgeBase.ProductsDocumentsCount | scripts/generate_knowledge_base.py:180-214 | the products give one document each plus one per optional field they have |
| KnowledgeBase.DocumentCount | scripts/generate_knowledge_base.py:172-223 | the total is the product documents plus one per FAQ |
| KnowledgeBase.ProductsDocumentsAppend | scripts/generate_knowledge_base.py:180-214 | the documents of a concatenation of products are the concatenation of their documents |
| KnowledgeBase.ProductDocumentTagged | scripts/generate_knowledge_base.py:181-214 | no product document is tagged `faq` |
| KnowledgeBase.ProductDocumentsTagged | scripts/generate_knowledge_base.py:180-214 | no document from any product is tagged `faq` |
| KnowledgeBase.ProductsBeforeFaqs | scripts/generate_knowledge_base.py:172-223 | every product document comes before every FAQ document; the FAQ documents are `Q: …\nA: …`, tagged only `faq`, in FAQ order |
| KnowledgeBase.FaqsDocuments | scripts/generate_knowledge_base.py:216-221 | one document per FAQ, in order |
| KnowledgeBase.CreateDocuments | scripts/generate_knowledge_base.py:172-223 | the two loops build exactly the documents of the products, then of the FAQs |
| KnowledgeBase.AppendProductDocuments | scripts/generate_knowledge_base.py:181-214 | one pass of the product loop appends exactly that product's documents |
| KnowledgeBase.Texts | scripts/generate_knowledge_base.py:248 | one text per document, in order |
| KnowledgeBase.Metadatas | scripts/generate_knowledge_base.py:249 | one metadata dict per document, in order |
| KnowledgeBase.SplitAligned | scripts/generate_knowledge_base.py:247-249 | splitting loses nothing: zipping the texts with the metadata gives the documents back, and splitting a zip gives both lists back |
| KnowledgeBaseData.BuiltInDocumentCount | scripts/generate_knowledge_base.py:17-223 | the built-in catalogue gives 20 product documents (four per product) and 29 documents in all |

## Left out

- **The server connection.** Networking, `ping`, `disconnect`, the URL
  taken from the environment, and the singleton accessor are not
  modelled. Reachability is a field that stays fixed during one call.
  The connection is not modelled going down between two commands of one
  operation. So `AddMessage` does not capture this case: the read fails,
  the save then succeeds, and the history is overwritten with the new
  message alone.
- **Time.** `datetime.now()` readings and uuid4 values are parameters.
  The expiry countdown is not modelled. An expiry elapses only through
  `KeyValue.Server.Lapse`, which the cleanup scan applies to the keys in
  its `lapsing` parameter.
- **asyncio.** Threads and concurrent requests are not modelled. Each
  operation runs alone.
- **Logging and printing** are not modelled. This includes the vector
  search error message in the chat turn.
- **JSON.** Encoding and decoding are taken to be exact inverses, so the
  server holds decoded values.
- **Value types.** Stored message dicts and message metadata have string
  values, not arbitrary JSON. Metadata fields are a record rather than a
  dict. An empty metadata dict is written `None`. Exceptions other than
  connection and expiry failures, such as malformed JSON on the server,
  are not modelled.
- **The language model** is an uninterpreted function. This leaves out
  the API key, the model name, the temperature and streaming callbacks.
  It may raise. The chat route does not catch that, so the turn ends as a
  server error (`InternalError`).
- **Retrieval.** The vector store's similarity search is an
  uninterpreted function from the query and `k` to passages, which may
  raise. Its index, the embeddings, and `load_data_to_vectorstore`'s
  vector-store calls are not modelled.
- **Pydantic.** Validation and serialisation are not modelled. Stored
  history items (`Message`, `ChatMessage`) carry a `Role`, so every item
  the route passes to the client has a recognised role
  (`Chat.EntriesMapped`). Optional
  history arguments of the client are lists. The route always passes one,
  and `None` and `[]` behave the same there.
- **KnowledgeBase.Product**: the price is the text Python prints for the
  float. Float formatting is not modelled.
- **save_data_to_file** is not modelled. It writes JSON files and has no
  logic.
- **KnowledgeBaseData.BuiltInDocumentCount**: stated for the built-in
  catalogue with any prose texts. The long description, instruction and
  answer texts are the parameter `prose`. Their exact values are in
  `BuiltInProse`, from which `Products` and `Faqs` are made.
- **ChatRequest.user_id** is carried but not used by any route.
