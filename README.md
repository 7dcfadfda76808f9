# Chat-session store, modelled in Dafny

This project models `useChatSession`, the client-side store of chat sessions in
`hooks/use-chat-session.ts`. A session has an identifier, an ordered list of
messages, an optional title and optional timestamps. The hook offers six
operations over an asynchronous key-value persistence layer (idb-keyval's
`get` and `set`):

- `getSessions` lists the stored sessions;
- `setSession` puts a new session at the head of the list;
- `getSessionById` finds a session by identifier;
- `removeSessionById` drops every session with an identifier;
- `addMessageToSession` appends a message to the matching sessions;
- `updateSession` spreads a partial record over the matching sessions.

Every mutating operation reads the whole collection, computes a new one and
writes the whole collection back. The hook reads the key `"sessions"` but
writes the key `"chat-sessions"`. The model keeps this mismatch. It states what
is written under `"chat-sessions"` as a function of what was read from
`"sessions"`, and it proves that nothing a mutating call writes is ever read
back. Creating a session therefore leaves the listing as it was.

The `SessionList` lemmas that look a session up after an operation, or that
combine two updates, are about the list functions alone. The hook never reads
the list it writes back, so at the level of the store these round trips do not
happen: `RunKeepsListed` and `RunLastCallWins` state what happens instead.

Files:

- `chat_types.dfy` (module `ChatTypes`): the records `TChatMessage` and
  `TChatSession`, the enums `ModelType`, `PromptType` and `RoleType`, the record
  `PromptProps`, and `SessionPatch` for `Omit<TChatSession, "id">`.
- `session_list.dfy` (module `SessionList`): the pure collection work inside
  each operation (array spread, `find`, `filter`, `map` with object spread) as
  functions, with lemmas on how they interact with lookups.
- `session_store.dfy` (module `SessionStore`): the key-value store as a class
  whose `map` field `Get` reads and `Set` updates. The six hook operations are
  methods that read a key, apply a `SessionList` function and write a key.
  `Call`, `Step` and `Run` describe a sequence of mutating calls, and
  `Perform` and `PerformAll` prove that the methods do exactly that.

`SessionPatch` follows the TypeScript type `Omit<TChatSession, "id">`. It has
no `id`. Its `messages` key is required, so an update always replaces the
message list. Each optional field is a `Slot`: `Absent` when the key is
missing, so the spread keeps the old value, or `Present(v)` when the key is
there, so the spread overwrites. `Present(None)` is a key that is present with
the value `undefined`.

## Model

| member | source | states |
|---|---|---|
| `ChatTypes.TagInjective` | hooks/use-chat-session.ts:4-10 | The five `ModelType` members persist as five distinct strings. |
| `SessionList.FindById` | hooks/use-chat-session.ts:72-75 | `find` returns none exactly when no session has the identifier. Otherwise it returns a session at some position with that identifier, and no earlier session has it. |
| `SessionList.FindAfterPrepend` | hooks/use-chat-session.ts:67 | About the list functions only: in the list `[s, ...ss]`, `s` shadows every older session with its identifier, even a duplicate, and lookups of other identifiers are unaffected. The hook never reads this list back (`RunKeepsListed`). |
| `SessionList.RemoveById` | hooks/use-chat-session.ts:80-82 | Every session whose identifier differs from `id` is kept as many times as it occurs in the input, and no session with `id` is left. The result is no longer than the input. When `id` is absent the list comes back equal. |
| `SessionList.FilteredFacts` | hooks/use-chat-session.ts:80-82 | From the multiset statement of the filter: a session is in the result exactly when it is in the input with another identifier, no session with `id` is left, and the result is no longer than the input. |
| `SessionList.RemoveByIdConcat` | hooks/use-chat-session.ts:80-82 | Filtering distributes over concatenation, so the surviving sessions keep their relative order (together with `RemoveById`, the filter is determined exactly). |
| `SessionList.FindAfterRemove` | hooks/use-chat-session.ts:80-82 | About the list functions only: in the filtered list the removed identifier is not found, and every other identifier finds what it found before. The hook never reads the filtered list back (`RunKeepsListed`). |
| `SessionList.WithMessage` | hooks/use-chat-session.ts:93-96 | The new message list is the old one followed by the message. The identifier, title and timestamps are unchanged. |
| `SessionList.AppendMessage` | hooks/use-chat-session.ts:91-99 | Length and positions are kept. Each matching session gets the message appended, with its other fields unchanged. A non-matching session is unchanged. With no match the list comes back equal. |
| `SessionList.FindAfterAppend` | hooks/use-chat-session.ts:91-99 | About the list functions only: in the mapped list, the first session with the identifier is the old one with the message appended, and other lookups are unaffected. The hook never reads the mapped list back, so `getSessionById` after `addMessageToSession` returns the old session (`RunKeepsListed`). |
| `SessionList.Merge` | hooks/use-chat-session.ts:105-113 | The spread keeps the identifier and replaces the messages. Each optional field is overwritten when its key is present in the patch and kept when it is absent. |
| `SessionList.MergeTwice` | hooks/use-chat-session.ts:110-113 | Two spreads in a row equal one spread of the combined patch. Spreading the same patch twice equals spreading it once. |
| `SessionList.UpdateById` | hooks/use-chat-session.ts:108-116 | Length and positions are kept. A matching session becomes its merge with the patch. A non-matching session is unchanged. With no match the list comes back equal. |
| `SessionList.UpdateTwice` | hooks/use-chat-session.ts:108-116 | About the list function only: mapping with patch `p` and then with `q` over the same identifier equals one map with the combined patch. Two `updateSession` calls in the hook do not compose this way: each starts from `"sessions"`, so only the second one's result survives (`RunLastCallWins`). |
| `SessionList.FindAfterUpdate` | hooks/use-chat-session.ts:108-116 | About the list functions only: in the mapped list, the first session with the identifier is the old one merged with the patch, and other lookups are unaffected. The hook never reads the mapped list back (`RunKeepsListed`). |
| `SessionStore.KeyValueStore.Get` | hooks/use-chat-session.ts:61 | `get` yields `undefined` exactly for a key never written, and the stored value otherwise. |
| `SessionStore.KeyValueStore.Set` | hooks/use-chat-session.ts:68 | `set` overwrites one key and leaves every other key unchanged. |
| `SessionStore.GetSessions` | hooks/use-chat-session.ts:60-62 | Returns the empty list when nothing is stored under `"sessions"`, and the stored list unchanged otherwise. |
| `SessionStore.SetSession` | hooks/use-chat-session.ts:65-69 | Writes under `"chat-sessions"` the new session followed by the list read from `"sessions"`, with no uniqueness check. Every other key is unchanged. |
| `SessionStore.GetSessionById` | hooks/use-chat-session.ts:72-75 | Returns the first session read from `"sessions"` with the identifier, or none. |
| `SessionStore.RemoveSessionById` | hooks/use-chat-session.ts:78-84 | Writes under `"chat-sessions"` the filtered list read from `"sessions"`. Every other key is unchanged. |
| `SessionStore.AddMessageToSession` | hooks/use-chat-session.ts:86-101 | Writes under `"chat-sessions"` the list read from `"sessions"` with the message appended to the matching sessions. Every other key is unchanged. |
| `SessionStore.UpdateSession` | hooks/use-chat-session.ts:103-118 | Writes under `"chat-sessions"` the list read from `"sessions"` with the patch spread over the matching sessions. Every other key is unchanged. |
| `SessionStore.RunKeepsListed` | hooks/use-chat-session.ts:61-117 | No mutating call writes `"sessions"`. After any sequence of calls, `getSessions` and `getSessionById` return what they returned before. |
| `SessionStore.RunLastCallWins` | hooks/use-chat-session.ts:65-118 | After a non-empty sequence of calls, `"chat-sessions"` holds what the last call alone would have written from `"sessions"`. Every other key is as it was. |
| `SessionStore.CreateLeavesListing` | hooks/use-chat-session.ts:61-68 | For every store, creating a session writes it, followed by the listed sessions, under `"chat-sessions"`, and leaves the next listing equal to the one before. |
| `SessionStore.Perform` | hooks/use-chat-session.ts:65-118 | Calling any one mutating method leaves the store exactly in the state `Step` describes. |
| `SessionStore.PerformAll` | hooks/use-chat-session.ts:65-118 | Calling the mutating methods one after the other leaves the store exactly in the state `Run` describes, so `RunKeepsListed` and `RunLastCallWins` are statements about the methods. |

## Left out

- The asynchronous I/O of IndexedDB and the suspension points at each `await`: the store is an in-memory map, and each operation runs as one uninterrupted step.
- Races between concurrent read-modify-write calls, where the last write wins: a concurrency concern that an in-memory sequential model does not capture.
- Errors raised by the persistence layer: the hook does not catch them, and the model has none.
- Values of types other than a list of sessions stored under a key: the map holds `seq<Session>` only. So `(await get("sessions")) || []` is modelled for a missing key, not for other falsy values such as `null` or `0`.
- `SessionStore.UpdateSession`: follows the declared type `Omit<TChatSession, "id">`. At run time TypeScript's structural typing lets a caller pass an object that still carries an `id` key, and the spread would then overwrite the identifier. The model cannot express that case.
- The contents of LangChain's `HumanMessage` and `AIMessage`, of `PromptProps` and of the timestamp strings: the store never inspects them, so they are opaque values.
- `runModel` in `hooks/use-llm.tsx`: it only builds an OpenAI client with a fixed model name and an empty key, then makes a fresh identifier. It sends no request and writes nothing. It has nothing to verify beyond its early return when the query is missing.
