/** The six operations of `useChatSession` (hooks/use-chat-session.ts) over
    the key-value persistence layer. Each mutating operation reads the whole
    collection, computes a new one with a SessionList function and writes it
    back. Reads go to the key "sessions" and writes to the key
    "chat-sessions", exactly as the hook does, so nothing written is ever
    read back. */
module SessionStore {
  import opened ChatTypes
  import opened SessionList

  /** The key `getSessions` reads. */
  const ReadKey: string := "sessions"
  /** The key every mutating operation writes. */
  const WriteKey: string := "chat-sessions"

  /** The persistence layer (`get` and `set` of idb-keyval), as an in-memory
      map from key to stored collection. */
  class KeyValueStore {
    var entries: map<string, seq<Session>>

    constructor (initial: map<string, seq<Session>>)
      ensures entries == initial
    {
      entries := initial;
    }

    /** `get(key)`: `None` stands for `undefined`, a key never written. */
    method Get(key: string) returns (v: Option<seq<Session>>)
      ensures v.None? <==> key !in entries
      ensures v.Some? ==> v.value == entries[key]
    {
      v := if key in entries then Some(entries[key]) else None;
    }

    /** `set(key, value)`: overwrites one key, leaves the others alone. */
    method Set(key: string, value: seq<Session>)
      modifies this
      ensures entries == old(entries)[key := value]
    {
      entries := entries[key := value];
    }
  }

  /** The collection `getSessions` yields from the stored entries. */
  function Listed(entries: map<string, seq<Session>>): seq<Session>
  {
    if ReadKey in entries then entries[ReadKey] else []
  }

  /** `getSessions`: the collection stored under "sessions", or the empty
      list when that key holds nothing. */
  method GetSessions(store: KeyValueStore) returns (r: seq<Session>)
    ensures ReadKey !in store.entries ==> r == []
    ensures ReadKey in store.entries ==> r == store.entries[ReadKey]
  {
    var stored := store.Get(ReadKey);
    r := if stored.Some? then stored.value else [];
  }

  /** `setSession`: writes under "chat-sessions" the given session followed
      by the whole collection read from "sessions", duplicates included. */
  method SetSession(store: KeyValueStore, chatSession: Session)
    modifies store
    ensures store.entries == old(store.entries)[WriteKey := [chatSession] + Listed(old(store.entries))]
  {
    var sessions := GetSessions(store);
    store.Set(WriteKey, Prepend(chatSession, sessions));
  }

  /** `getSessionById`: the first session read from "sessions" with that
      identifier, if any. */
  method GetSessionById(store: KeyValueStore, id: string) returns (r: Option<Session>)
    ensures r == FindById(Listed(store.entries), id)
  {
    var sessions := GetSessions(store);
    r := FindById(sessions, id);
  }

  /** `removeSessionById`: writes under "chat-sessions" the collection read
      from "sessions" without the sessions that have identifier `id`. */
  method RemoveSessionById(store: KeyValueStore, id: string)
    modifies store
    ensures store.entries == old(store.entries)[WriteKey := RemoveById(Listed(old(store.entries)), id)]
  {
    var sessions := GetSessions(store);
    store.Set(WriteKey, RemoveById(sessions, id));
  }

  /** `addMessageToSession`: writes under "chat-sessions" the collection read
      from "sessions" with `chatMessage` appended to every session whose
      identifier is `sessionId`. */
  method AddMessageToSession(store: KeyValueStore, sessionId: string, chatMessage: Message)
    modifies store
    ensures store.entries == old(store.entries)[WriteKey := AppendMessage(Listed(old(store.entries)), sessionId, chatMessage)]
  {
    var sessions := GetSessions(store);
    store.Set(WriteKey, AppendMessage(sessions, sessionId, chatMessage));
  }

  /** `updateSession`: writes under "chat-sessions" the collection read from
      "sessions" with `newSession` spread over every session whose identifier
      is `sessionId`. */
  method UpdateSession(store: KeyValueStore, sessionId: string, newSession: SessionPatch)
    modifies store
    ensures store.entries == old(store.entries)[WriteKey := UpdateById(Listed(old(store.entries)), sessionId, newSession)]
  {
    var sessions := GetSessions(store);
    store.Set(WriteKey, UpdateById(sessions, sessionId, newSession));
  }

  // ------------------------------------------- sequences of mutating calls

  /** One call of a mutating operation, with its arguments. */
  datatype Call =
    | CreateSession(session: Session)
    | RemoveSession(id: string)
    | AddMessage(sessionId: string, message: Message)
    | Update(sessionId: string, patch: SessionPatch)

  /** The collection a call writes, given the collection it read. */
  function Written(call: Call, read: seq<Session>): seq<Session>
  {
    match call
    case CreateSession(s) => Prepend(s, read)
    case RemoveSession(id) => RemoveById(read, id)
    case AddMessage(sid, m) => AppendMessage(read, sid, m)
    case Update(sid, p) => UpdateById(read, sid, p)
  }

  /** The entries after one call; `Perform` below proves that the matching
      method leaves the store in exactly this state. */
  function Step(entries: map<string, seq<Session>>, call: Call): map<string, seq<Session>>
  {
    entries[WriteKey := Written(call, Listed(entries))]
  }

  /** The entries after a sequence of calls, made one after the other. */
  function Run(entries: map<string, seq<Session>>, calls: seq<Call>): map<string, seq<Session>>
    decreases |calls|
  {
    if calls == [] then entries else Run(Step(entries, calls[0]), calls[1..])
  }

  /** No call writes "sessions": after any sequence of mutating calls
      `getSessions` and `getSessionById` answer exactly as before. */
  lemma {:induction false} RunKeepsListed(entries: map<string, seq<Session>>, calls: seq<Call>, id: string)
    ensures Listed(Run(entries, calls)) == Listed(entries)
    ensures FindById(Listed(Run(entries, calls)), id) == FindById(Listed(entries), id)
    decreases |calls|
  {
    if calls != [] {
      RunKeepsListed(Step(entries, calls[0]), calls[1..], id);
    }
  }

  /** Every call writes "chat-sessions" from the unchanged "sessions", so after
      a non-empty sequence of calls "chat-sessions" holds what the last call
      alone would have written, and every other key is as it was. */
  lemma {:induction false} RunLastCallWins(entries: map<string, seq<Session>>, calls: seq<Call>)
    requires calls != []
    ensures Run(entries, calls) == entries[WriteKey := Written(calls[|calls| - 1], Listed(entries))]
    decreases |calls|
  {
    if |calls| == 1 {
      assert Run(Step(entries, calls[0]), calls[1..]) == Step(entries, calls[0]);
    } else {
      var next := Step(entries, calls[0]);
      assert Listed(next) == Listed(entries);
      RunLastCallWins(next, calls[1..]);
    }
  }

  /** Creating a session and then listing shows the listing as it was: the
      created session is written where no read looks. */
  lemma CreateLeavesListing(entries: map<string, seq<Session>>, s: Session)
    ensures Listed(Step(entries, CreateSession(s))) == Listed(entries)
    ensures Step(entries, CreateSession(s))[WriteKey] == [s] + Listed(entries)
  {
  }

  /** One mutating call on the store, dispatched to the method above. */
  method Perform(store: KeyValueStore, call: Call)
    modifies store
    ensures store.entries == Step(old(store.entries), call)
  {
    match call
    case CreateSession(s) => SetSession(store, s);
    case RemoveSession(id) => RemoveSessionById(store, id);
    case AddMessage(sid, m) => AddMessageToSession(store, sid, m);
    case Update(sid, p) => UpdateSession(store, sid, p);
  }

  /** A sequence of mutating calls made one after the other on the store:
      `Run` describes exactly what the methods do. */
  method PerformAll(store: KeyValueStore, calls: seq<Call>)
    modifies store
    ensures store.entries == Run(old(store.entries), calls)
    decreases |calls|
  {
    if calls != [] {
      Perform(store, calls[0]);
      PerformAll(store, calls[1..]);
    }
  }
}
