/** Session identity (`getSessionId`, identical in both variants): read the
    id from local storage, and create and store one only when none is there. */
module Session {
  import opened Wrappers

  /** The fixed local-storage key. */
  const StorageKey: string := "pb_chat_session_id"

  /** A new id: `crypto.randomUUID()` when it exists and gives a truthy
      string, else `sid_<hex digits of Math.random()>_<Date.now()>`. The
      random and clock sources are parameters: `uuid` is None when
      `crypto.randomUUID` is unavailable. */
  function NewId(uuid: Option<string>, randomHex: string, now: string): (id: string)
    ensures id != ""
    ensures uuid.Some? && uuid.value != "" ==> id == uuid.value
  {
    if uuid.Some? && uuid.value != "" then uuid.value
    else "sid_" + randomHex + "_" + now
  }

  /** `localStorage.getItem(StorageKey)` when it is truthy; a missing key
      (null) and a stored empty string both count as absent. */
  function StoredId(items: map<string, string>): Option<string> {
    if StorageKey in items && items[StorageKey] != "" then Some(items[StorageKey]) else None
  }

  /** The id returned and the storage afterwards, for storage `items` and the
      id that would be created. */
  function Resolve(items: map<string, string>, candidate: string): (string, map<string, string>) {
    match StoredId(items)
    case Some(id) => (id, items)
    case None => (candidate, items[StorageKey := candidate])
  }

  /** The browser's local storage, as the widget sees it. */
  class Storage {
    var items: map<string, string>

    constructor (initial: map<string, string>)
      ensures items == initial
    {
      items := initial;
    }

    /** getSessionId: reuse a stored non-empty id, otherwise store a new one
        under the fixed key and return it. */
    method GetSessionId(uuid: Option<string>, randomHex: string, now: string) returns (id: string)
      modifies this
      ensures (id, items) == Resolve(old(items), NewId(uuid, randomHex, now))
      ensures id != "" && StoredId(items) == Some(id)
    {
      var stored := if StorageKey in items then Some(items[StorageKey]) else None;
      if stored.Some? && stored.value != "" {
        id := stored.value;
      } else {
        id := NewId(uuid, randomHex, now);
        items := items[StorageKey := id];
      }
    }
  }

  // ---------------------------------------------------------------------
  // Lemmas

  /** A stored non-empty id is returned and storage is left unchanged;
      otherwise the candidate id is returned and only the fixed key changes. */
  lemma ResolveReadsThenWritesIfAbsent(items: map<string, string>, candidate: string)
    ensures var (id, after) := Resolve(items, candidate);
      && (StorageKey in items && items[StorageKey] != "" ==> id == items[StorageKey] && after == items)
      && (StorageKey !in items || items[StorageKey] == "" ==>
            id == candidate && after.Keys == items.Keys + {StorageKey} && after[StorageKey] == candidate
            && forall k :: k in items && k != StorageKey ==> after[k] == items[k])
  {
  }

  /** Two calls in a row return the same id, whatever the second call's new
      candidate, and the second call leaves storage as the first left it. */
  lemma {:induction false} ResolveTwice(items: map<string, string>, candidate1: string, candidate2: string)
    requires candidate1 != ""
    ensures var (id1, after1) := Resolve(items, candidate1);
      var (id2, after2) := Resolve(after1, candidate2);
      id2 == id1 && after2 == after1
  {
    var (id1, after1) := Resolve(items, candidate1);
    assert StoredId(after1) == Some(id1);
  }

  /** Storage pre-seeded with "abc" gives "abc", unmodified. */
  lemma SeededStorage(candidate: string)
    ensures Resolve(map[StorageKey := "abc"], candidate) == ("abc", map[StorageKey := "abc"])
  {
  }

  /** A client: two consecutive calls, the second with different random
      sources, return the same id. */
  method TwoCalls(s: Storage, uuid1: Option<string>, uuid2: Option<string>, hex: string, now: string)
    modifies s
  {
    var a := s.GetSessionId(uuid1, hex, now);
    var b := s.GetSessionId(uuid2, hex + "0", now);
    assert a == b;
  }
}
