/** The conversation store: per conversation id, the message list under
    `conversation:{id}` and a metadata record under `conversation_meta:{id}`,
    both kept on the key/value server with the same expiry.

    JSON encoding and decoding are taken to be exact inverses, so the server
    holds the decoded values themselves (`Value`). A store without a client
    (its connection attempt failed) and a store whose server cannot be
    reached both end every operation on its failure value: `[]`, `false`,
    no metadata (the empty dict of the original) or `0`. */
module Store {
  import opened Support
  import opened KeyValue

  /** A message as the store keeps it: a JSON object, here with string
      values. */
  type Record = map<string, string>

  datatype Metadata = Metadata(conversationId: string, messageCount: nat, lastUpdated: string, ttl: int)

  /** What one key of the store holds. */
  datatype Value = Conversation(messages: seq<Record>) | Meta(metadata: Metadata)

  type Data = map<string, Entry<Value>>

  const ConversationPrefix: string := "conversation:"
  const MetadataPrefix: string := "conversation_meta:"
  const DefaultTtl: Seconds := 3600

  function ConversationKey(id: string): (k: string)
    ensures StartsWith(k, ConversationPrefix) && k[|ConversationPrefix|..] == id
  {
    StartsWithAppend(ConversationPrefix, id);
    ConversationPrefix + id
  }

  function MetadataKey(id: string): (k: string)
    ensures StartsWith(k, MetadataPrefix) && k[|MetadataPrefix|..] == id
  {
    StartsWithAppend(MetadataPrefix, id);
    MetadataPrefix + id
  }

  /** A metadata key never matches the `conversation:*` scan, a data key
      never looks like a metadata key, and each key names one id only. */
  lemma KeysSeparate(a: string, b: string)
    ensures !StartsWith(MetadataKey(a), ConversationPrefix)
    ensures !StartsWith(ConversationKey(a), MetadataPrefix)
    ensures ConversationKey(a) != MetadataKey(b)
    ensures ConversationKey(a) == ConversationKey(b) <==> a == b
    ensures MetadataKey(a) == MetadataKey(b) <==> a == b
  {
    assert MetadataKey(a)[12] == '_';
    assert ConversationKey(a)[12] == ':';
    if ConversationKey(a) == ConversationKey(b) {
      assert a == ConversationKey(a)[13..] == ConversationKey(b)[13..] == b;
    }
    if MetadataKey(a) == MetadataKey(b) {
      assert a == MetadataKey(a)[18..] == MetadataKey(b)[18..] == b;
    }
  }

  /** `ttl or default_ttl`: an absent or zero argument means the default. */
  function EffectiveTtl(ttl: Option<int>): int {
    if ttl.None? || ttl.value == 0 then DefaultTtl else ttl.value
  }

  /** The server accepts the expiry exactly when the caller gave none, gave
      zero, or gave a positive one: only a negative argument is refused. */
  lemma EffectiveTtlAccepted(ttl: Option<int>)
    ensures EffectiveTtl(ttl) > 0 <==> ttl.None? || ttl.value >= 0
    ensures ttl.Some? && ttl.value > 0 ==> EffectiveTtl(ttl) == ttl.value
  {
  }

  /** Keys of the store hold values of the right kind. */
  predicate WellTyped(data: Data) {
    forall k :: k in data ==>
      (StartsWith(k, ConversationPrefix) ==> data[k].value.Conversation?) &&
      (StartsWith(k, MetadataPrefix) ==> data[k].value.Meta?)
  }

  /** The message list stored for `id`; an absent key reads as `[]`. */
  function StoredMessages(data: Data, id: string): seq<Record> {
    var k := ConversationKey(id);
    if k in data && data[k].value.Conversation? then data[k].value.messages else []
  }

  /** The metadata stored for `id`, if any. */
  function StoredMetadata(data: Data, id: string): Option<Metadata> {
    var k := MetadataKey(id);
    if k in data && data[k].value.Meta? then Some(data[k].value.metadata) else None
  }

  /** Both keys of `id` are present, the metadata describes the stored list
      and both keys carry the expiry the metadata records. */
  predicate Consistent(data: Data, id: string) {
    var k, mk := ConversationKey(id), MetadataKey(id);
    && k in data && mk in data
    && data[k].value.Conversation? && data[mk].value.Meta?
    && var m := data[mk].value.metadata;
    && m.conversationId == id
    && m.messageCount == |data[k].value.messages|
    && data[k].ttl.Some? && data[k].ttl == data[mk].ttl
    && m.ttl == data[k].ttl.value
  }

  /** The server's data after a successful save of `messages` for `id`. */
  function Saved(data: Data, id: string, messages: seq<Record>, ttl: Seconds, now: string): Data {
    data[ConversationKey(id) := Entry(Conversation(messages), Some(ttl))]
        [MetadataKey(id) := Entry(Meta(Metadata(id, |messages|, now, ttl)), Some(ttl))]
  }

  /** The server's data after a successful delete of `id`. */
  function Deleted(data: Data, id: string): Data {
    data - {ConversationKey(id), MetadataKey(id)}
  }

  /** A save overwrites: reading back gives exactly the saved list, the
      metadata counts it and names the id, both keys share the expiry, and
      no key outside the two of `id` changes. */
  lemma SaveThenRead(data: Data, id: string, messages: seq<Record>, ttl: Seconds, now: string)
    ensures var d := Saved(data, id, messages, ttl, now);
      && StoredMessages(d, id) == messages
      && StoredMetadata(d, id) == Some(Metadata(id, |messages|, now, ttl))
      && Consistent(d, id)
      && d[ConversationKey(id)].ttl == d[MetadataKey(id)].ttl == Some(ttl)
      && d.Keys == data.Keys + {ConversationKey(id), MetadataKey(id)}
      && forall k :: k in data && k != ConversationKey(id) && k != MetadataKey(id) ==> d[k] == data[k]
  {
    KeysSeparate(id, id);
  }

  /** Saving or deleting one id leaves every other id's list, metadata and
      consistency as they were. */
  lemma OtherIdsUntouched(data: Data, id: string, other: string, messages: seq<Record>, ttl: Seconds, now: string)
    requires other != id
    ensures StoredMessages(Saved(data, id, messages, ttl, now), other) == StoredMessages(data, other)
    ensures StoredMetadata(Saved(data, id, messages, ttl, now), other) == StoredMetadata(data, other)
    ensures Consistent(Saved(data, id, messages, ttl, now), other) == Consistent(data, other)
    ensures StoredMessages(Deleted(data, id), other) == StoredMessages(data, other)
    ensures StoredMetadata(Deleted(data, id), other) == StoredMetadata(data, other)
    ensures Consistent(Deleted(data, id), other) == Consistent(data, other)
  {
    KeysSeparate(id, other);
    KeysSeparate(other, id);
  }

  /** After a delete neither key of `id` is left, whether or not they
      existed, and deleting again changes nothing. */
  lemma DeleteRemoves(data: Data, id: string)
    ensures StoredMessages(Deleted(data, id), id) == []
    ensures StoredMetadata(Deleted(data, id), id) == None
    ensures ConversationKey(id) !in Deleted(data, id) && MetadataKey(id) !in Deleted(data, id)
    ensures Deleted(Deleted(data, id), id) == Deleted(data, id)
    ensures Deleted(data, id).Keys == data.Keys - {ConversationKey(id), MetadataKey(id)}
  {
  }

  /** Saving and deleting keep keys holding values of the right kind. */
  lemma WellTypedKept(data: Data, id: string, messages: seq<Record>, ttl: Seconds, now: string)
    requires WellTyped(data)
    ensures WellTyped(Saved(data, id, messages, ttl, now))
    ensures WellTyped(Deleted(data, id))
  {
    KeysSeparate(id, id);
  }

  /** The message a caller passes to `add_message`, after stamping: it gains
      a timestamp only if it had none. */
  function Stamped(message: Record, now: string): (r: Record)
    ensures "timestamp" in r
    ensures "timestamp" in message ==> r["timestamp"] == message["timestamp"]
    ensures "timestamp" !in message ==> r["timestamp"] == now
    ensures r.Keys == message.Keys + {"timestamp"}
    ensures forall k :: k in message && k != "timestamp" ==> r[k] == message[k]
  {
    if "timestamp" in message then message else message["timestamp" := now]
  }

  /** Whether the cleanup scan visits `key`. */
  predicate Scanned(key: string) {
    StartsWith(key, ConversationPrefix)
  }

  /** The data once the keys in `done` have been visited by the cleanup
      scan: a visited key whose expiry elapsed before its TTL query is gone,
      a visited key without an expiry now has `ttl`, every other key is as
      it was. */
  function CleanedOn(data: Data, done: set<string>, lapsing: set<string>, ttl: Seconds): Data {
    map k | k in data && !(k in done && k in lapsing && data[k].ttl.Some?) ::
      if k in done && data[k].ttl.None? then Entry(data[k].value, Some(ttl)) else data[k]
  }

  /** The keys visited in `done` that the scan found already gone. */
  function LapsedOn(data: Data, done: set<string>, lapsing: set<string>): set<string> {
    set k | k in done && k in data && k in lapsing && data[k].ttl.Some?
  }

  /** The keys of `data` that the scan visits. */
  function ScannedKeys(data: Data): set<string> {
    set k | k in data && Scanned(k)
  }

  /** What the whole scan leaves behind: only `conversation:` keys change;
      each of them either lapsed, or has an expiry afterwards. Metadata keys
      and the metadata of every id are untouched. */
  lemma CleanupEffect(data: Data, lapsing: set<string>, ttl: Seconds, id: string)
    ensures var d := CleanedOn(data, ScannedKeys(data), lapsing, ttl);
      && d.Keys <= data.Keys
      && (forall k :: k in data && !Scanned(k) ==> k in d && d[k] == data[k])
      && (forall k :: k in d && Scanned(k) ==> d[k].ttl.Some? && d[k].value == data[k].value)
      && (forall k :: k in data && k !in d ==> Scanned(k) && k in lapsing)
      && StoredMetadata(d, id) == StoredMetadata(data, id)
      && (MetadataKey(id) in d <==> MetadataKey(id) in data)
  {
    KeysSeparate(id, id);
    var d := CleanedOn(data, ScannedKeys(data), lapsing, ttl);
    if MetadataKey(id) in data {
      assert MetadataKey(id) in d;
    }
  }

  /** The scan's count is the number of visited keys whose expiry elapsed
      during the scan; with no expiry elapsing it is zero. */
  lemma CleanupCountNothingLapsed(data: Data, ttl: Seconds)
    ensures LapsedOn(data, ScannedKeys(data), {}) == {}
    ensures CleanedOn(data, ScannedKeys(data), {}, ttl).Keys == data.Keys
  {
  }

  /** An id whose data key does not lapse stays consistent through a scan. */
  lemma CleanupKeepsConsistent(data: Data, lapsing: set<string>, ttl: Seconds, id: string)
    requires Consistent(data, id)
    requires ConversationKey(id) !in lapsing
    ensures Consistent(CleanedOn(data, ScannedKeys(data), lapsing, ttl), id)
  {
    KeysSeparate(id, id);
  }

  /** Visiting one more key changes only that key, and counts it exactly
      when its expiry elapsed. */
  lemma CleanedStep(data: Data, done: set<string>, key: string, lapsing: set<string>, ttl: Seconds)
    requires key in data && key !in done
    ensures var cur := CleanedOn(data, done, lapsing, ttl);
      && key in cur && cur[key] == data[key]
      && CleanedOn(data, done + {key}, lapsing, ttl) ==
           if key in lapsing && data[key].ttl.Some? then cur - {key}
           else if data[key].ttl.None? then cur[key := Entry(data[key].value, Some(ttl))]
           else cur
    ensures key !in LapsedOn(data, done, lapsing)
    ensures LapsedOn(data, done + {key}, lapsing) ==
              if key in lapsing && data[key].ttl.Some? then LapsedOn(data, done, lapsing) + {key}
              else LapsedOn(data, done, lapsing)
  {
    var cur := CleanedOn(data, done, lapsing, ttl);
    var next := CleanedOn(data, done + {key}, lapsing, ttl);
    var expected := if key in lapsing && data[key].ttl.Some? then cur - {key}
                    else if data[key].ttl.None? then cur[key := Entry(data[key].value, Some(ttl))]
                    else cur;
    assert next.Keys == expected.Keys;
    assert forall k :: k in next ==> next[k] == expected[k];
  }

  lemma CleanedWellTyped(data: Data, done: set<string>, lapsing: set<string>, ttl: Seconds)
    requires WellTyped(data)
    ensures WellTyped(CleanedOn(data, done, lapsing, ttl))
  {
  }

  /** The caller's message dict, which `add_message` stamps in place. */
  class MessageDict {
    var fields: Record

    constructor (fields: Record)
      ensures this.fields == fields
    {
      this.fields := fields;
    }
  }

  class ConversationStore {
    const server: Server<Value>
    /** Whether a client handle is set (`redis_client is not None`). */
    var hasClient: bool
    const defaultTtl: Seconds := DefaultTtl

    ghost predicate Valid()
      reads this, server
    {
      WellTyped(server.data)
    }

    constructor (server: Server<Value>)
      requires WellTyped(server.data)
      ensures this.server == server && !hasClient && Valid()
    {
      this.server := server;
      hasClient := false;
    }

    /** Sets the client when there is none; the handle stays unset when the
        server cannot be reached. */
    method Connect()
      modifies this`hasClient
      ensures hasClient == (old(hasClient) || server.connected)
    {
      if !hasClient {
        hasClient := server.connected;
      }
    }

    method GetConversation(id: string) returns (messages: seq<Record>)
      requires Valid()
      modifies this`hasClient
      ensures hasClient == (old(hasClient) || server.connected)
      ensures messages == if server.connected then StoredMessages(server.data, id) else []
    {
      if !hasClient {
        Connect();
      }
      if !hasClient {
        return [];
      }
      var r := server.Get(ConversationKey(id));
      if r.Ok? && r.value.Some? && r.value.value.Conversation? {
        messages := r.value.value.messages;
      } else {
        messages := [];
      }
    }

    method SaveConversation(id: string, messages: seq<Record>, ttl: Option<int>, now: string)
      returns (ok: bool)
      requires Valid()
      modifies this`hasClient, server`data
      ensures Valid()
      ensures hasClient == (old(hasClient) || server.connected)
      ensures ok <==> server.connected && EffectiveTtl(ttl) > 0
      ensures server.data == if ok then Saved(old(server.data), id, messages, EffectiveTtl(ttl), now)
                             else old(server.data)
    {
      if !hasClient {
        Connect();
      }
      if !hasClient {
        return false;
      }
      var key, metadataKey := ConversationKey(id), MetadataKey(id);
      var t := EffectiveTtl(ttl);
      var r := server.SetEx(key, t, Conversation(messages));
      if r.Failed? {
        return false;
      }
      r := server.SetEx(metadataKey, t, Meta(Metadata(id, |messages|, now, t)));
      ok := r.Ok?;
      WellTypedKept(old(server.data), id, messages, t, now);
    }

    /** Read, stamp, append, save. `stampedAt` is the timestamp given to a
        message that has none, `savedAt` the save's own clock reading. */
    method AddMessage(id: string, message: MessageDict, ttl: Option<int>, stampedAt: string, savedAt: string)
      returns (ok: bool)
      requires Valid()
      modifies this`hasClient, server`data, message`fields
      ensures Valid()
      ensures hasClient == (old(hasClient) || server.connected)
      ensures message.fields == Stamped(old(message.fields), stampedAt)
      ensures ok <==> server.connected && EffectiveTtl(ttl) > 0
      ensures server.data ==
                if ok then Saved(old(server.data), id, StoredMessages(old(server.data), id) + [message.fields],
                                 EffectiveTtl(ttl), savedAt)
                else old(server.data)
    {
      var messages := GetConversation(id);
      if "timestamp" !in message.fields {
        message.fields := message.fields["timestamp" := stampedAt];
      }
      messages := messages + [message.fields];
      ok := SaveConversation(id, messages, ttl, savedAt);
    }

    /** Removes both keys; succeeds whether or not they existed. */
    method DeleteConversation(id: string) returns (ok: bool)
      requires Valid()
      modifies this`hasClient, server`data
      ensures Valid()
      ensures hasClient == (old(hasClient) || server.connected)
      ensures ok == server.connected
      ensures server.data == if ok then Deleted(old(server.data), id) else old(server.data)
    {
      if !hasClient {
        Connect();
      }
      if !hasClient {
        return false;
      }
      var r := server.Delete([ConversationKey(id), MetadataKey(id)]);
      ok := r.Ok?;
      assert (set k | k in [ConversationKey(id), MetadataKey(id)]) == {ConversationKey(id), MetadataKey(id)};
    }

    /** The metadata record of `id`; `None` stands for the empty dict. */
    method GetConversationMetadata(id: string) returns (metadata: Option<Metadata>)
      requires Valid()
      modifies this`hasClient
      ensures hasClient == (old(hasClient) || server.connected)
      ensures metadata == if server.connected then StoredMetadata(server.data, id) else None
    {
      if !hasClient {
        Connect();
      }
      if !hasClient {
        return None;
      }
      var r := server.Get(MetadataKey(id));
      if r.Ok? && r.value.Some? && r.value.value.Meta? {
        metadata := Some(r.value.value.metadata);
      } else {
        metadata := None;
      }
    }

    /** One key of the cleanup scan: its expiry elapses first when it is in
        `lapsing`; then its TTL is queried, and a key without an expiry is
        given the default one. `missing` says whether the query answered -2;
        `ok` is false when a command failed. */
    method VisitKey(key: string, lapsing: set<string>) returns (ok: bool, missing: bool)
      requires key in server.data
      modifies server`data
      ensures ok == server.connected
      ensures ok ==> missing == (key in lapsing && old(server.data)[key].ttl.Some?)
      ensures ok ==>
        server.data == (if key in lapsing && old(server.data)[key].ttl.Some? then old(server.data) - {key}
                        else if old(server.data)[key].ttl.None? then
                          old(server.data)[key := Entry(old(server.data)[key].value, Some(defaultTtl))]
                        else old(server.data))
    {
      if key in lapsing {
        server.Lapse(key);
      }
      var t := server.Ttl(key);
      if t.Failed? {
        return false, false;
      }
      missing := false;
      if t.value == -1 {
        var e := server.Expire(key, defaultTtl);
        if e.Failed? {
          return false, false;
        }
      } else if t.value == -2 {
        missing := true;
      }
      ok := true;
    }

    /** Visits every `conversation:` key: a key without an expiry is given
        the default one, a key reported missing (-2) is counted. Keys in
        `lapsing` have their expiry elapse just before their TTL query, the
        only way a listed key can be missing. */
    method CleanupExpiredConversations(lapsing: set<string>) returns (count: int)
      requires Valid()
      modifies this`hasClient, server`data
      ensures Valid()
      ensures hasClient == (old(hasClient) || server.connected)
      ensures !server.connected ==> count == 0 && server.data == old(server.data)
      ensures server.connected ==>
                && server.data == CleanedOn(old(server.data), ScannedKeys(old(server.data)), lapsing, defaultTtl)
                && count == |LapsedOn(old(server.data), ScannedKeys(old(server.data)), lapsing)|
    {
      if !hasClient {
        Connect();
      }
      if !hasClient {
        return 0;
      }
      var listed := server.Keys(ConversationPrefix);
      if listed.Failed? {
        return 0;
      }
      var keys := listed.value;
      ghost var data0 := server.data;
      ghost var done: set<string> := {};
      count := 0;
      var i := 0;
      while i < |keys|
        invariant 0 <= i <= |keys|
        invariant hasClient && server.connected
        invariant done == set j | 0 <= j < i :: keys[j]
        invariant server.data == CleanedOn(data0, done, lapsing, defaultTtl)
        invariant count == |LapsedOn(data0, done, lapsing)|
      {
        var key := keys[i];
        assert key !in done;
        assert key in data0;
        CleanedStep(data0, done, key, lapsing, defaultTtl);
        var ok, missing := VisitKey(key, lapsing);
        if !ok {
          return 0;
        }
        if missing {
          count := count + 1;
        }
        done := done + {key};
        i := i + 1;
      }
      assert done == ScannedKeys(data0);
      CleanedWellTyped(data0, done, lapsing, defaultTtl);
    }
  }
}
