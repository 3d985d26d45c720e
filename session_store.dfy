/**
 * The visitor's session id in durable browser storage
 * (`getOrCreateSession` in src/components/chat/ChatWidget.tsx).
 */
module SessionStore {
  import opened MarketingChat
  import opened JsText

  const SessionKey := "ctlx_chat_session"

  /** `localStorage`: string keys to string values, kept across page loads. */
  class DurableStorage {
    var items: map<string, string>

    constructor (initial: map<string, string>)
      ensures items == initial
    {
      items := initial;
    }

    /** `getItem`: `None` stands for `null`. */
    method GetItem(key: string) returns (v: Option<string>)
      ensures key in items ==> v == Some(items[key])
      ensures key !in items ==> v == None
    {
      v := if key in items then Some(items[key]) else None;
    }

    method SetItem(key: string, v: string)
      modifies this
      ensures items == old(items)[key := v]
    {
      items := items[key := v];
    }

    /** The visitor clears the site's storage. */
    method Clear()
      modifies this
      ensures items == map[]
    {
      items := map[];
    }
  }

  /** The id text `s_<time>_<random>`; `stamp` is everything after `s_`,
      produced by the clock and the random source. */
  function NewSessionId(stamp: string): (id: string)
    ensures |id| == 2 + |stamp| && id[..2] == "s_" && id[2..] == stamp
    ensures Truthy(id)
  {
    "s_" + stamp
  }

  /** Distinct stamps give distinct ids. */
  lemma NewSessionIdInjective(a: string, b: string)
    requires a != b
    ensures NewSessionId(a) != NewSessionId(b)
  {
    assert NewSessionId(a)[2..] == a;
    assert NewSessionId(b)[2..] == b;
  }

  /** Storage holds `id`, a usable (non-empty) id, under the session key. */
  ghost predicate HoldsSession(items: map<string, string>, id: string) {
    SessionKey in items && items[SessionKey] == id && Truthy(id)
  }

  /** Storage already has a usable id: `!localStorage.getItem(key)` fails
      for `null` and for the empty string. */
  ghost predicate HasSession(items: map<string, string>) {
    SessionKey in items && Truthy(items[SessionKey])
  }

  method GetOrCreateSession(store: DurableStorage, stamp: string) returns (id: string)
    modifies store
    ensures HoldsSession(store.items, id)
    ensures HasSession(old(store.items)) ==> id == old(store.items)[SessionKey] && store.items == old(store.items)
    ensures !HasSession(old(store.items)) ==>
              id == NewSessionId(stamp) && store.items == old(store.items)[SessionKey := id]
  {
    var stored := store.GetItem(SessionKey);
    if stored.None? || !Truthy(stored.value) {
      id := NewSessionId(stamp);
      store.SetItem(SessionKey, id);
    } else {
      id := stored.value;
    }
  }

  /** A second call returns the first call's id and writes nothing, whatever
      fresh stamp it is offered. */
  method SecondCallReturnsFirstId(store: DurableStorage, stamp1: string, stamp2: string)
    returns (id1: string, id2: string)
    modifies store
    ensures id1 == id2
    ensures HoldsSession(store.items, id1)
  {
    id1 := GetOrCreateSession(store, stamp1);
    ghost var written := store.items;
    id2 := GetOrCreateSession(store, stamp2);
    assert store.items == written;
  }

  /** After the storage is cleared, a new id is made from a new stamp, so it
      differs from the id held before, whether that was a returning visitor's
      stored id or one just created. */
  method ClearedStorageGivesNewId(store: DurableStorage, stamp1: string, stamp2: string)
    returns (id1: string, id2: string)
    requires stamp1 != stamp2
    requires HasSession(store.items) ==> store.items[SessionKey] != NewSessionId(stamp2)
    modifies store
    ensures id1 != id2
  {
    id1 := GetOrCreateSession(store, stamp1);
    store.Clear();
    id2 := GetOrCreateSession(store, stamp2);
    NewSessionIdInjective(stamp1, stamp2);
  }
}
