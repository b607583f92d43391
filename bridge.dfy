/** The storage bridge: the page-side half (bridge/injected-bridge.ts) answers
    window messages from a key-value store; the content-side half
    (bridge/bridge.ts) posts a request and resolves on the first reply that
    carries the matching type and key. */
module StorageBridge {
  import opened Wrappers
  import opened JsonData

  const GET := "YT_ENHANCER_GET"
  const GET_RESPONSE := "YT_ENHANCER_GET_RESPONSE"
  const SET := "YT_ENHANCER_SET"
  const SET_RESPONSE := "YT_ENHANCER_SET_RESPONSE"
  const REMOVE := "YT_ENHANCER_REMOVE"
  const REMOVE_RESPONSE := "YT_ENHANCER_REMOVE_RESPONSE"
  const CLEAR := "YT_ENHANCER_CLEAR"
  const CLEAR_RESPONSE := "YT_ENHANCER_CLEAR_RESPONSE"
  const GET_ALL := "YT_ENHANCER_GET_ALL"
  const GET_ALL_RESPONSE := "YT_ENHANCER_GET_ALL_RESPONSE"

  /** `event.source === window`, or any other sender (a frame, another window). */
  datatype Source = ThisWindow | OtherSource

  /** The `value` property of a message: absent, a stored value, or the whole store. */
  datatype Payload = Undefined | Value(v: Json) | Snapshot(entries: map<string, Json>)

  /** A window message: its sender and its `data` (`type`, `key`, `value`). */
  datatype Message = Message(source: Source, kind: string, key: Option<string>, value: Payload)

  /** `result[key]` after `storage.local.get(key)`. */
  function Lookup(store: map<string, Json>, key: string): Payload {
    if key in store then Value(store[key]) else Undefined
  }

  function GetRequest(key: string): Message {
    Message(ThisWindow, GET, Some(key), Undefined)
  }

  function SetRequest(key: string, v: Json): Message {
    Message(ThisWindow, SET, Some(key), Value(v))
  }

  /** The page-side bridge: the extension's storage and the replies it has posted. */
  class Host {
    var store: map<string, Json>
    var posted: seq<Message>

    constructor (initial: map<string, Json>)
      ensures store == initial && posted == []
    {
      store := initial;
      posted := [];
    }

    /** The `message` listener: one `if` per request type, each storage call
        followed by one reply posted to the same window. */
    method Handle(m: Message)
      modifies this
      ensures m.source != ThisWindow ==> store == old(store) && posted == old(posted)
      ensures m.source == ThisWindow && m.kind == GET && m.key.Some? ==>
        store == old(store) && posted == old(posted) + [Message(ThisWindow, GET_RESPONSE, m.key, Lookup(old(store), m.key.value))]
      ensures m.source == ThisWindow && m.kind == SET && m.key.Some? ==>
        && store == (if m.value.Value? then old(store)[m.key.value := m.value.v] else old(store))
        && posted == old(posted) + [Message(ThisWindow, SET_RESPONSE, m.key, Undefined)]
      ensures m.source == ThisWindow && m.kind == REMOVE && m.key.Some? ==>
        store == old(store) - {m.key.value} && posted == old(posted) + [Message(ThisWindow, REMOVE_RESPONSE, m.key, Undefined)]
      ensures m.source == ThisWindow && m.kind == CLEAR ==>
        store == map[] && posted == old(posted) + [Message(ThisWindow, CLEAR_RESPONSE, None, Undefined)]
      ensures m.source == ThisWindow && m.kind == GET_ALL ==>
        store == old(store) && posted == old(posted) + [Message(ThisWindow, GET_ALL_RESPONSE, None, Snapshot(old(store)))]
      ensures m.kind !in {GET, SET, REMOVE, CLEAR, GET_ALL} ==> store == old(store) && posted == old(posted)
      ensures m.kind in {GET, SET, REMOVE} && m.key.None? ==> store == old(store) && posted == old(posted)
    {
      if m.source != ThisWindow {
        return;
      }
      if m.kind == GET && m.key.Some? {
        var value := Lookup(store, m.key.value);
        posted := posted + [Message(ThisWindow, GET_RESPONSE, m.key, value)];
      }
      if m.kind == SET && m.key.Some? {
        if m.value.Value? {
          store := store[m.key.value := m.value.v];
        }
        posted := posted + [Message(ThisWindow, SET_RESPONSE, m.key, Undefined)];
      }
      if m.kind == REMOVE && m.key.Some? {
        store := store - {m.key.value};
        posted := posted + [Message(ThisWindow, REMOVE_RESPONSE, m.key, Undefined)];
      }
      if m.kind == CLEAR {
        store := map[];
        posted := posted + [Message(ThisWindow, CLEAR_RESPONSE, None, Undefined)];
      }
      if m.kind == GET_ALL {
        posted := posted + [Message(ThisWindow, GET_ALL_RESPONSE, None, Snapshot(store))];
      }
    }
  }

  /** The filter of a content-side listener: sent by this window, with the
      expected reply type and the requested key. */
  predicate Answers(m: Message, kind: string, key: string) {
    m.source == ThisWindow && m.kind == kind && m.key == Some(key)
  }

  /** A listener waiting for a reply: it sees the messages in arrival order,
      ignores every one that does not answer, and is removed at the first that
      does. `None` means it is still registered and its promise still pending. */
  method AwaitReply(kind: string, key: string, incoming: seq<Message>) returns (at: Option<nat>)
    ensures at.Some? ==> at.value < |incoming| && Answers(incoming[at.value], kind, key)
    ensures at.Some? ==> forall i | 0 <= i < at.value :: !Answers(incoming[i], kind, key)
    ensures at.None? ==> forall i | 0 <= i < |incoming| :: !Answers(incoming[i], kind, key)
  {
    var i := 0;
    while i < |incoming|
      invariant 0 <= i <= |incoming|
      invariant forall k | 0 <= k < i :: !Answers(incoming[k], kind, key)
    {
      if Answers(incoming[i], kind, key) {
        return Some(i);
      }
      i := i + 1;
    }
    return None;
  }

  /** `storageBridge.get(key)`: posts exactly one GET request and resolves with
      the value of the first GET reply for `key` among the messages that follow. */
  method Get(key: string, incoming: seq<Message>) returns (request: Message, result: Option<Payload>)
    ensures request == Message(ThisWindow, GET, Some(key), Undefined)
    ensures result.None? <==> forall i | 0 <= i < |incoming| :: !Answers(incoming[i], GET_RESPONSE, key)
    ensures result.Some? ==> exists i | 0 <= i < |incoming| ::
      && Answers(incoming[i], GET_RESPONSE, key)
      && result.value == incoming[i].value
      && forall k | 0 <= k < i :: !Answers(incoming[k], GET_RESPONSE, key)
  {
    request := GetRequest(key);
    var at := AwaitReply(GET_RESPONSE, key, incoming);
    result := if at.Some? then Some(incoming[at.value].value) else None;
  }

  /** `storageBridge.set(key, value)`: posts exactly one SET request carrying the
      value and resolves at the first SET reply for `key`. */
  method Set(key: string, v: Json, incoming: seq<Message>) returns (request: Message, resolved: bool)
    ensures request == Message(ThisWindow, SET, Some(key), Value(v))
    ensures resolved <==> exists i | 0 <= i < |incoming| :: Answers(incoming[i], SET_RESPONSE, key)
  {
    request := SetRequest(key, v);
    var at := AwaitReply(SET_RESPONSE, key, incoming);
    resolved := at.Some?;
  }

  /** A `get` answered by the page-side bridge: the request reaches the host,
      the host replies, and the listener resolves with the stored value. */
  method BridgeGet(host: Host, key: string) returns (value: Payload)
    modifies host
    ensures host.store == old(host.store)
    ensures value == Lookup(old(host.store), key)
    ensures host.posted == old(host.posted) + [Message(ThisWindow, GET_RESPONSE, Some(key), value)]
  {
    var before := |host.posted|;
    host.Handle(GetRequest(key));
    var reply := Message(ThisWindow, GET_RESPONSE, Some(key), Lookup(old(host.store), key));
    assert host.posted[before..] == [reply];
    assert Answers(host.posted[before..][0], GET_RESPONSE, key);
    var request, result := Get(key, host.posted[before..]);
    value := result.value;
  }

  /** A `set` answered by the page-side bridge: the value is stored under `key`
      and the promise resolves. */
  method BridgeSet(host: Host, key: string, v: Json) returns (resolved: bool)
    modifies host
    ensures resolved
    ensures host.store == old(host.store)[key := v]
    ensures host.posted == old(host.posted) + [Message(ThisWindow, SET_RESPONSE, Some(key), Undefined)]
  {
    var before := |host.posted|;
    host.Handle(SetRequest(key, v));
    assert host.posted[before..] == [Message(ThisWindow, SET_RESPONSE, Some(key), Undefined)];
    assert Answers(host.posted[before..][0], SET_RESPONSE, key);
    var request;
    request, resolved := Set(key, v, host.posted[before..]);
  }

  /** Round trip through both halves: after `set(key, v)`, `get(key)` yields `v`,
      and other keys keep their values. */
  method SetThenGet(host: Host, key: string, v: Json) returns (value: Payload)
    modifies host
    ensures value == Value(v)
    ensures host.store == old(host.store)[key := v]
  {
    var resolved := BridgeSet(host, key, v);
    value := BridgeGet(host, key);
  }
}
