/** The remote key/value server that the conversation store talks to,
    reduced to the commands the store issues, with the reply conventions of
    Redis: SETEX refuses a non-positive expiry, DEL reports how many keys it
    removed, TTL answers -2 for a missing key and -1 for a key without an
    expiry, EXPIRE with a non-positive time removes the key, and KEYS with a
    `prefix*` pattern lists the keys beginning with that prefix.

    Time does not pass here: a key's expiry is the number of seconds it was
    last given, and the elapsing of an expiry is the explicit step `Lapse`.
    `connected` says whether the server can be reached; every command fails
    with `ConnectionLost` while it cannot. */
module KeyValue {
  import opened Support

  /** A positive number of seconds: the server never keeps a key with a
      non-positive expiry. */
  type Seconds = n: int | n > 0 witness 1

  datatype Entry<V> = Entry(value: V, ttl: Option<Seconds>)

  datatype Fault = ConnectionLost | InvalidExpireTime

  datatype Reply<T> = Ok(value: T) | Failed(fault: Fault)

  /** The TTL reply for `key` in `data`. */
  function TtlReply<V>(data: map<string, Entry<V>>, key: string): (t: int)
    ensures t == -2 <==> key !in data
    ensures t == -1 <==> key in data && data[key].ttl.None?
    ensures key in data && data[key].ttl.Some? ==> t == data[key].ttl.value
  {
    if key !in data then -2
    else if data[key].ttl.None? then -1
    else data[key].ttl.value
  }

  class Server<V> {
    var connected: bool
    var data: map<string, Entry<V>>

    constructor (reachable: bool, initial: map<string, Entry<V>>)
      ensures connected == reachable && data == initial
    {
      connected := reachable;
      data := initial;
    }

    /** The expiry of `key` runs out (only keys that carry one can lapse). */
    method Lapse(key: string)
      modifies this`data
      ensures data == if key in old(data) && old(data)[key].ttl.Some?
                      then old(data) - {key} else old(data)
    {
      if key in data && data[key].ttl.Some? {
        data := data - {key};
      }
    }

    /** SETEX key seconds value. */
    method SetEx(key: string, seconds: int, value: V) returns (r: Reply<()>)
      modifies this`data
      ensures !connected ==> r == Failed(ConnectionLost)
      ensures connected && seconds <= 0 ==> r == Failed(InvalidExpireTime)
      ensures r.Ok? <==> connected && seconds > 0
      ensures data == if r.Ok? then old(data)[key := Entry(value, Some(seconds))] else old(data)
    {
      if !connected {
        r := Failed(ConnectionLost);
      } else if seconds <= 0 {
        r := Failed(InvalidExpireTime);
      } else {
        data := data[key := Entry(value, Some(seconds))];
        r := Ok(());
      }
    }

    /** GET key. */
    method Get(key: string) returns (r: Reply<Option<V>>)
      ensures r.Ok? <==> connected
      ensures r.Ok? ==> (r.value.Some? <==> key in data)
      ensures r.Ok? && key in data ==> r.value == Some(data[key].value)
    {
      if !connected {
        r := Failed(ConnectionLost);
      } else if key in data {
        r := Ok(Some(data[key].value));
      } else {
        r := Ok(None);
      }
    }

    /** DEL keys...: removes every listed key and reports how many existed. */
    method Delete(keys: seq<string>) returns (r: Reply<nat>)
      modifies this`data
      ensures r.Ok? <==> connected
      ensures r.Ok? ==> data == old(data) - set k | k in keys
      ensures r.Ok? ==> r.value == |old(data).Keys * set k | k in keys|
      ensures !r.Ok? ==> data == old(data)
    {
      if !connected {
        r := Failed(ConnectionLost);
      } else {
        var gone := set k | k in keys;
        r := Ok(|data.Keys * gone|);
        data := data - gone;
      }
    }

    /** TTL key. */
    method Ttl(key: string) returns (r: Reply<int>)
      ensures r.Ok? <==> connected
      ensures r.Ok? ==> r.value == TtlReply(data, key)
    {
      if !connected {
        r := Failed(ConnectionLost);
      } else {
        r := Ok(TtlReply(data, key));
      }
    }

    /** EXPIRE key seconds: answers whether the key existed. */
    method Expire(key: string, seconds: int) returns (r: Reply<bool>)
      modifies this`data
      ensures r.Ok? <==> connected
      ensures r.Ok? ==> r.value == (key in old(data))
      ensures data == if r.Ok? && key in old(data) then
                        (if seconds <= 0 then old(data) - {key}
                         else old(data)[key := Entry(old(data)[key].value, Some(seconds))])
                      else old(data)
    {
      if !connected {
        r := Failed(ConnectionLost);
      } else if key !in data {
        r := Ok(false);
      } else {
        if seconds <= 0 {
          data := data - {key};
        } else {
          data := data[key := Entry(data[key].value, Some(seconds))];
        }
        r := Ok(true);
      }
    }

    /** KEYS prefix*: every key beginning with `prefix`, each once, in no
        particular order. */
    method Keys(prefix: string) returns (r: Reply<seq<string>>)
      ensures r.Ok? <==> connected
      ensures r.Ok? ==> forall k :: k in r.value <==> k in data && StartsWith(k, prefix)
      ensures r.Ok? ==> forall i, j :: 0 <= i < j < |r.value| ==> r.value[i] != r.value[j]
    {
      if !connected {
        return Failed(ConnectionLost);
      }
      var found: seq<string> := [];
      var pending := data.Keys;
      while pending != {}
        invariant pending <= data.Keys
        invariant forall k :: k in found <==> k in data && k !in pending && StartsWith(k, prefix)
        invariant forall i, j :: 0 <= i < j < |found| ==> found[i] != found[j]
        decreases pending
      {
        var k :| k in pending;
        if StartsWith(k, prefix) {
          found := found + [k];
        }
        pending := pending - {k};
      }
      r := Ok(found);
    }
  }
}
