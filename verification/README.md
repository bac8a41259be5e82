# CodePad session core and TODO item, modelled in Dafny

This project models the core of two small applications.

- **CodePad** is a collaborative code editor. Its server keeps every interview session in an
  in-memory store, `MockDatabase`. The store holds a map from session id to session record and a
  map from session id to the set of user ids present. A socket.io layer lets clients join a
  session's room, sync code, change the language, share execution results and typing indicators.
  An HTTP controller creates, reads, patches and deletes sessions and lists their users.
- **TODO app**: the Django `Todo` model, covering its defaults, its string form and `is_overdue`.

Layout:

- `values.dfy` (module `Values`): `Option` and JavaScript truthiness of optional strings and
  timestamps.
- `store.dfy` (module `SessionStore`): the store.
  - Every store operation that changes the store, and every lookup that may evict an expired
    session, is first a function over a value `DbState`. The function returns the operation's
    result and the state after it. The read-only queries `getAllSessions`, `getSessionUsers`,
    `getActiveUserCount` and `getStats` are methods over the fields alone.
  - Class `MockDatabase` updates its two maps in place. Each state-changing method is proved to give
    exactly the result and new state of its function, and to keep the store invariant `Consistent`: every
    record is filed under its own id, has a user set, and its `activeUsers` equals the size of
    that set.
  - `CleanupExpiredSessions` is a loop that deletes while it iterates. It is proved equal to the
    one-shot `Cleanup`, whatever order the ids are visited in.
- `protocol.dfy` (module `Protocol`): the socket handlers.
  - Each handler is a function from a `Hub` to the new hub plus the deliveries it emits. A `Hub`
    is the store, `connectedUsers` and the rooms. A delivery is a set of recipient sockets plus an
    event.
  - Class `SocketServer` runs each handler over its fields and the store object, with an outbox of
    deliveries.
  - Each handler keeps `HubValid`: the store stays consistent, and every tracked socket is in the
    room of the session it joined.
- `controller.dfy` (module `SessionController`): the HTTP handlers.
  - Request validation and status choice are pure functions.
  - The handlers are methods over a `MockDatabase`.
- `todo.dfy` (module `Todo`): the TODO item.

Time is an integer (milliseconds) passed in as `now`. A fresh session id is a parameter, and the
precondition says it is not already in the store.

## Model

Source paths are relative to the repository root.

| member | source | states |
|---|---|---|
| `Values.OrElse` | hw02-coding-interview/server/src/db/index.js:26 | `a \|\| b` on strings: the value when it is truthy (present and non-empty), the fallback otherwise |
| `Values.StampOr` | hw02-coding-interview/server/src/socket/index.js:123 | `timestamp \|\| Date.now()`: a client stamp of 0 or none is replaced by the receive time (the same rule stamps execution results, line 186) |
| `SessionStore.StarterCode` | hw02-coding-interview/server/src/db/index.js:29-37 | Python's starter comment exactly for "python", JavaScript's for every other language |
| `SessionStore.Create` | hw02-coding-interview/server/src/db/index.js:24-56 | the new record is filed under its id with no users, zero count and expiry `now + ttl`; every other record and user set is untouched |
| `SessionStore.CreateDefaults` | hw02-coding-interview/server/src/db/index.js:26-51 | with no fields given, the session is JavaScript with the JavaScript starter code, titled "Untitled Session", with no users |
| `SessionStore.CreateStarterFollowsLanguage` | hw02-coding-interview/server/src/db/index.js:26-43 | for any request without a non-empty code, the code is the starter for the stored language: Python's exactly when "python" was sent, whatever the title |
| `SessionStore.CreateKeepsGivenFields` | hw02-coding-interview/server/src/db/index.js:26-43 | for every request, each field is stored as given when non-empty and otherwise defaults on its own: "javascript", "Untitled Session", and the starter code of the stored language |
| `SessionStore.DefaultLifetimeIsADay` | hw02-coding-interview/server/src/config/index.js:11 | with the default lifetime of 24 hours, a new session expires exactly one day after creation |
| `SessionStore.Get` | hw02-coding-interview/server/src/db/index.js:61-74 | found exactly when present and not expired (expiry is strict); an expired record is deleted with its users on the way; otherwise nothing changes |
| `SessionStore.GetAfterCreate` | hw02-coding-interview/server/src/db/index.js:24-74 | a created session is found, unchanged, up to and including its expiry instant |
| `SessionStore.GetIdempotent` | hw02-coding-interview/server/src/db/index.js:61-74 | repeating a lookup at the same time gives the same answer and changes nothing more |
| `SessionStore.Update` | hw02-coding-interview/server/src/db/index.js:79-94 | absent id: no result, no change; otherwise the fields sent overwrite the stored ones, `updatedAt` becomes now, id, count, creation and expiry are kept; nothing else changes |
| `SessionStore.Delete` | hw02-coding-interview/server/src/db/index.js:99-103 | reports whether the record existed; removes the record and the user set and nothing else |
| `SessionStore.DeleteTwice` | hw02-coding-interview/server/src/db/index.js:99-103 | a second delete of the same id reports false and changes nothing |
| `SessionStore.Join` | hw02-coding-interview/server/src/db/index.js:115-130 | the user is added to the session's set, created if missing; the record's count becomes the set's size, which is returned; nothing else changes |
| `SessionStore.Leave` | hw02-coding-interview/server/src/db/index.js:135-151 | without a user set: count 0, no change; otherwise the user is removed, the count is the remaining size and is written to the record; nothing else changes |
| `SessionStore.JoinIdempotent` | hw02-coding-interview/server/src/db/index.js:115-130 | adding the same user twice is the same as adding once (a set) |
| `SessionStore.JoinThenLeave` | hw02-coding-interview/server/src/db/index.js:115-151 | adding a new user and removing them again restores the user set and count |
| `SessionStore.LeaveAbsentIsNoOp` | hw02-coding-interview/server/src/db/index.js:135-151 | removing a user who is not there changes nothing in a consistent store |
| `SessionStore.JoinTotal` | hw02-coding-interview/server/src/db/index.js:115-130 | the total number of present users grows by one exactly when the user was new |
| `SessionStore.LeaveTotal` | hw02-coding-interview/server/src/db/index.js:135-151 | the total number of present users drops by one exactly when the user was there |
| `SessionStore.DeleteTotal` | hw02-coding-interview/server/src/db/index.js:99-103 | deleting a session drops the total by the size of its user set |
| `SessionStore.WithDemo` | hw02-coding-interview/server/src/db/index.js:181-209 | the demo session is (re)filed as the fixed demo record (title, JavaScript, welcome code, expiry exactly one year on) with no users; every other record and user set is kept |
| `SessionStore.Cleared` | hw02-coding-interview/server/src/db/index.js:257-261 | after `clear` only the demo session and its empty user set remain |
| `SessionStore.ClearedIsDemoOnly` | hw02-coding-interview/server/src/db/index.js:257-261 | the cleared store holds only a consistent demo session with no users and a total of zero |
| `SessionStore.CleanupKeepsLiveSessions` | hw02-coding-interview/server/src/db/index.js:218-225 | a session is kept by the sweep exactly when it is the demo session or not expired |
| `SessionStore.CleanupKeepsTheirUsers` | hw02-coding-interview/server/src/db/index.js:218-225 | a user set is kept, unchanged, exactly when its session is kept or it has no session record |
| `SessionStore.CleanupKeepsExactlyLive` | hw02-coding-interview/server/src/db/index.js:214-232 | a session survives the sweep exactly when it is the demo session or not expired; user sets of removed sessions go with them; survivors are unchanged; the count is the number removed |
| `SessionStore.CleanupInvisibleToGet` | hw02-coding-interview/server/src/db/index.js:61-74 | a lookup gives the same answer before and after a sweep at the same time |
| `SessionStore.CleanupLeavesNoExpired` | hw02-coding-interview/server/src/db/index.js:214-232 | after the sweep no non-demo session is expired, and the demo session is still there |
| `SessionStore.Merge` | hw02-coding-interview/server/src/db/index.js:85-90 | the fields sent overwrite the stored ones and the others are kept; the count, creation and expiry stay, and the record is stamped now |
| `SessionStore.Cleanup` | hw02-coding-interview/server/src/db/index.js:214-232 | the sweep only removes: survivors are unchanged, none but the demo session is expired, the demo session stays, and the count is the number of sessions removed |
| `SessionStore.SweepInOrder` | hw02-coding-interview/server/src/db/index.js:218-225 | deleting while iterating never counts more than the ids visited, only removes, leaves survivors unchanged, and leaves every visited survivor live or the demo session |
| `SessionStore.Visit` | hw02-coding-interview/server/src/db/index.js:219-224 | one iteration only removes, leaves the records it keeps unchanged, counts at most one, and after it the visited id is absent, live or the demo session |
| `SessionStore.VisitRemovesAtMostId` | hw02-coding-interview/server/src/db/index.js:219-224 | one iteration removes no session but the visited one, removes exactly the user sets of the sessions it removed, and adds to the count exactly the number removed |
| `SessionStore.SweepNothingExpired` | hw02-coding-interview/server/src/db/index.js:214-232 | a store in which nothing but the demo session is expired is left unchanged by a sweep, with a count of zero |
| `SessionStore.TotalUsers` | hw02-coding-interview/server/src/db/index.js:269-272 | the total bounds the size of every user set, and is zero when every set is empty |
| `SessionStore.CleanupTwice` | hw02-coding-interview/server/src/db/index.js:214-232 | a second sweep at the same time removes nothing |
| `SessionStore.SweepInOrderRemovesVisited` | hw02-coding-interview/server/src/db/index.js:218-225 | deleting while iterating over any sequence of ids, repeats included, removes exactly the expired non-demo sessions among them, and counts them |
| `SessionStore.SweepInOrderIsCleanup` | hw02-coding-interview/server/src/db/index.js:214-232 | a pass that visits every key, in any order, equals the one-shot sweep |
| `SessionStore.MembersAreElements` | hw02-coding-interview/server/src/db/index.js:218 | the keys a pass visits are exactly the elements of its sequence |
| `SessionStore.CreateConsistent` | hw02-coding-interview/server/src/db/index.js:24-56 | creation keeps the store invariant |
| `SessionStore.DeleteConsistent` | hw02-coding-interview/server/src/db/index.js:99-103 | deletion keeps the store invariant |
| `SessionStore.UpdateConsistent` | hw02-coding-interview/server/src/db/index.js:79-94 | an update keeps the store invariant |
| `SessionStore.JoinConsistent` | hw02-coding-interview/server/src/db/index.js:115-130 | adding a user keeps the store invariant |
| `SessionStore.LeaveConsistent` | hw02-coding-interview/server/src/db/index.js:135-151 | removing a user keeps the store invariant |
| `SessionStore.CleanupConsistent` | hw02-coding-interview/server/src/db/index.js:214-232 | the sweep keeps the store invariant |
| `SessionStore.WithDemoConsistent` | hw02-coding-interview/server/src/db/index.js:181-209 | (re)creating the demo session keeps the store invariant |
| `SessionStore.MockDatabase.constructor` | hw02-coding-interview/server/src/db/index.js:9-19 | the new store holds just the demo session and is consistent |
| `SessionStore.MockDatabase.CreateSession` | hw02-coding-interview/server/src/db/index.js:24-56 | returns the record `Create` files and leaves the store as `Create` does, consistent |
| `SessionStore.MockDatabase.GetSession` | hw02-coding-interview/server/src/db/index.js:61-74 | answers as `Get` and evicts as `Get` |
| `SessionStore.MockDatabase.UpdateSession` | hw02-coding-interview/server/src/db/index.js:79-94 | answers and changes the store as `Update` |
| `SessionStore.MockDatabase.DeleteSession` | hw02-coding-interview/server/src/db/index.js:99-103 | answers and changes the store as `Delete` |
| `SessionStore.MockDatabase.GetAllSessions` | hw02-coding-interview/server/src/db/index.js:108-110 | one entry per stored session: every stored record appears and nothing else |
| `SessionStore.MockDatabase.AddUser` | hw02-coding-interview/server/src/db/index.js:115-130 | returns the new count and changes the store as `Join` |
| `SessionStore.MockDatabase.RemoveUser` | hw02-coding-interview/server/src/db/index.js:135-151 | returns the new count and changes the store as `Leave` |
| `SessionStore.MockDatabase.GetSessionUsers` | hw02-coding-interview/server/src/db/index.js:156-166 | one entry per present user, each user exactly once, both stamps set to now |
| `SessionStore.MockDatabase.GetActiveUserCount` | hw02-coding-interview/server/src/db/index.js:171-176 | the size of the session's user set, 0 without one |
| `SessionStore.MockDatabase.InitializeDemoSession` | hw02-coding-interview/server/src/db/index.js:181-209 | the store becomes `WithDemo` of the old one |
| `SessionStore.MockDatabase.CleanupExpiredSessions` | hw02-coding-interview/server/src/db/index.js:214-232 | the loop that deletes while iterating ends in exactly the state and count of `Cleanup` |
| `SessionStore.MockDatabase.Clear` | hw02-coding-interview/server/src/db/index.js:257-261 | the store becomes `Cleared`, consistent |
| `SessionStore.MockDatabase.GetStats` | hw02-coding-interview/server/src/db/index.js:266-274 | the number of sessions, and the sum of the sizes of all user sets |
| `Protocol.JoinStep` | hw02-coding-interview/server/src/socket/index.js:27-70 | the joiner always gets the first reply: either an error, with no tracking and no room change, or `full_sync`, after which the socket is tracked, in its session's room, and its user is among the session's users |
| `Protocol.LeaveStep` | hw02-coding-interview/server/src/socket/index.js:75-102 | at most one delivery: none means nothing changed; otherwise the socket is untracked and `user_left` goes to others only |
| `Protocol.CodeUpdateStep` | hw02-coding-interview/server/src/socket/index.js:107-131 | exactly one delivery; connections, rooms, user sets and the set of sessions never change; an error goes to the sender alone with nothing changed, otherwise `code_sync` goes to others only |
| `Protocol.LanguageChangeStep` | hw02-coding-interview/server/src/socket/index.js:136-168 | exactly one delivery; connections, rooms, user sets and the set of sessions never change; an error goes to the sender alone with nothing changed, otherwise `language_updated` carries a supported language and asks to clear the output |
| `Protocol.ExecutionResultStep` | hw02-coding-interview/server/src/socket/index.js:173-198 | nothing changes and exactly one delivery is sent: an error to the sender alone, or the result to others only |
| `Protocol.TypingStep` | hw02-coding-interview/server/src/socket/index.js:203-246 | nothing changes; at most one delivery, a start event exactly for `typing_start` and a stop event for `typing_stop` |
| `Protocol.DisconnectStep` | hw02-coding-interview/server/src/socket/index.js:251-270 | afterwards the socket is untracked and in no room; at most one delivery, a `user_left` to others only; without one the store is unchanged |
| `Protocol.Enter` | hw02-coding-interview/server/src/socket/index.js:46 | joining adds the socket to that room only |
| `Protocol.Exit` | hw02-coding-interview/server/src/socket/index.js:84 | leaving removes the socket from that room only |
| `Protocol.ExitAll` | hw02-coding-interview/server/src/socket/index.js:251-270 | before the disconnect handler runs, the closing socket is in no room |
| `Protocol.JoinKeepsValid` | hw02-coding-interview/server/src/socket/index.js:27-70 | `join_session` keeps the store consistent and every tracked socket in its session's room |
| `Protocol.LeaveKeepsValid` | hw02-coding-interview/server/src/socket/index.js:75-102 | `leave_session` keeps the hub invariant |
| `Protocol.CodeUpdateKeepsValid` | hw02-coding-interview/server/src/socket/index.js:107-131 | `code_update` keeps the hub invariant |
| `Protocol.LanguageChangeKeepsValid` | hw02-coding-interview/server/src/socket/index.js:136-168 | `language_change` keeps the hub invariant |
| `Protocol.DisconnectKeepsValid` | hw02-coding-interview/server/src/socket/index.js:251-270 | `disconnect` keeps the hub invariant |
| `Protocol.JoinWithoutIds` | hw02-coding-interview/server/src/socket/index.js:31-36 | a join without both ids gets "Session ID and User ID are required" to the sender only, and changes nothing |
| `Protocol.JoinUnknownSession` | hw02-coding-interview/server/src/socket/index.js:38-43 | a join to an absent or expired session gets "Session not found" to the sender only; no tracking, no room change; only the expired record and its users are evicted |
| `Protocol.JoinLiveSession` | hw02-coding-interview/server/src/socket/index.js:45-65 | a join to a live session enters the room, tracks the socket and adds the user; the joiner gets `full_sync` with code, language and new count; the others in the room get `user_joined` with that count; the store changes exactly as `addUser` and the rooms exactly as one `join`, so every other record, user set and room stays as it was |
| `Protocol.JoinAnnouncesToOthers` | hw02-coding-interview/server/src/socket/index.js:53-65 | for any payload, the joiner never gets its own `user_joined` and only the joiner gets `full_sync` |
| `Protocol.LeaveWithoutIds` | hw02-coding-interview/server/src/socket/index.js:77-80 | a leave without both ids, or without a payload, does nothing and sends nothing |
| `Protocol.LeaveRemoves` | hw02-coding-interview/server/src/socket/index.js:77-98 | a leave exits the room, untracks the socket, removes the user and sends `user_left` with the new count to the rest of the room; the store changes exactly as `removeUser`, the rooms exactly as one `leave` and only this socket is untracked, so everything else stays as it was |
| `Protocol.LeaveThenDisconnect` | hw02-coding-interview/server/src/socket/index.js:75-102 | after a leave, the socket's disconnect sends no second `user_left` and does not touch the store |
| `Protocol.DisconnectUntracked` | hw02-coding-interview/server/src/socket/index.js:251-270 | disconnecting a socket that is not tracked sends nothing and changes only the rooms |
| `Protocol.DisconnectTracked` | hw02-coding-interview/server/src/socket/index.js:253-266 | disconnecting a tracked socket untracks it, removes its user from its session and sends `user_left` with the new count to the rest of the room; the store changes exactly as `removeUser`, the rooms only by the socket leaving them all, and only this socket is untracked |
| `Protocol.CodeUpdateRejects` | hw02-coding-interview/server/src/socket/index.js:109-114 | a code update missing its session id, user id or code gets "Invalid code update data" to the sender only, and changes nothing |
| `Protocol.CodeUpdateRelays` | hw02-coding-interview/server/src/socket/index.js:109-124 | a valid code update, even with empty code, stores the code of an existing session and relays `code_sync` to the rest of the room, stamped with the client's time or the receive time; the store changes exactly as `updateSession` with the code alone, so the session's other fields and every other record are kept; an unknown session is left alone |
| `Protocol.SenderNeverGetsCodeSync` | hw02-coding-interview/server/src/socket/index.js:119-124 | for any payload, the sender never receives its own `code_sync` |
| `Protocol.LanguageChangeRejectsUnsupported` | hw02-coding-interview/server/src/socket/index.js:138-150 | a language other than javascript or python gets "Invalid language" to the sender only, and changes nothing |
| `Protocol.LanguageChangeBroadcasts` | hw02-coding-interview/server/src/socket/index.js:138-159 | a supported language is stored and `language_updated` with `clearOutput` goes to the whole room, the sender included exactly when they are in it; the store changes exactly as `updateSession` with the language alone, and an unknown session is left alone |
| `Protocol.ExecutionResultNotStored` | hw02-coding-interview/server/src/socket/index.js:173-198 | an execution result never changes state; one delivery: to the rest of the room when valid, otherwise an error to the sender only |
| `Protocol.TypingReachesRoom` | hw02-coding-interview/server/src/socket/index.js:203-246 | typing events change nothing; they are dropped without both ids, otherwise `typing_started` or `typing_stopped` goes to the whole room |
| `Protocol.SocketServer.constructor` | hw02-coding-interview/server/src/socket/index.js:18-19 | no socket is tracked, all rooms are empty, nothing is sent, and the hub invariant holds |
| `Protocol.SocketServer.JoinSession` | hw02-coding-interview/server/src/socket/index.js:27-70 | the hub becomes `JoinStep`'s and its deliveries are appended to the outbox; the invariant is kept |
| `Protocol.SocketServer.LeaveSession` | hw02-coding-interview/server/src/socket/index.js:75-102 | the hub and the outbox follow `LeaveStep`; the invariant is kept |
| `Protocol.SocketServer.CodeUpdate` | hw02-coding-interview/server/src/socket/index.js:107-131 | the hub and the outbox follow `CodeUpdateStep`; the invariant is kept |
| `Protocol.SocketServer.LanguageChange` | hw02-coding-interview/server/src/socket/index.js:136-168 | the hub and the outbox follow `LanguageChangeStep`; the invariant is kept |
| `Protocol.SocketServer.ExecutionResult` | hw02-coding-interview/server/src/socket/index.js:173-198 | the hub and the outbox follow `ExecutionResultStep` |
| `Protocol.SocketServer.Typing` | hw02-coding-interview/server/src/socket/index.js:203-246 | the hub and the outbox follow `TypingStep` |
| `Protocol.SocketServer.Disconnect` | hw02-coding-interview/server/src/socket/index.js:251-270 | the hub and the outbox follow `DisconnectStep`; the invariant is kept |
| `SessionController.ShareableLink` | hw02-coding-interview/server/src/controllers/sessionController.js:23-25 | the link is exactly the protocol, "://", the host, "/session/" and the id, in that order: each segment sits at its own position |
| `SessionController.UpdateRejection` | hw02-coding-interview/server/src/controllers/sessionController.js:84-100 | an update is accepted exactly when some field is truthy and a truthy language is supported; a refusal is a 400 failure |
| `SessionController.DeleteRejection` | hw02-coding-interview/server/src/controllers/sessionController.js:139-145 | deletion is refused, 400, exactly for the demo session |
| `SessionController.FieldCheckComesFirst` | hw02-coding-interview/server/src/controllers/sessionController.js:84-91 | with no truthy field the refusal is INVALID_REQUEST, whatever the language |
| `SessionController.UnsupportedLanguageRefused` | hw02-coding-interview/server/src/controllers/sessionController.js:84-100 | a non-empty language other than javascript or python is refused as INVALID_LANGUAGE, whether or not code or title is sent |
| `SessionController.AcceptedUpdateStoresSentFields` | hw02-coding-interview/server/src/controllers/sessionController.js:84-114 | an empty language next to a truthy code passes both checks and is stored as sent |
| `SessionController.CreateSession` | hw02-coding-interview/server/src/controllers/sessionController.js:13-40 | 201 with the session `Create` files and its shareable link; the store changes as `Create` |
| `SessionController.GetSession` | hw02-coding-interview/server/src/controllers/sessionController.js:46-72 | 200 with the live session, or 404 SESSION_NOT_FOUND; the store changes as `Get` |
| `SessionController.UpdateSession` | hw02-coding-interview/server/src/controllers/sessionController.js:78-128 | a refused body gets its 400 and leaves the store alone; otherwise 404 for an unknown id, or 200 with the merged session, the store changing as `Update` |
| `SessionController.DeleteSession` | hw02-coding-interview/server/src/controllers/sessionController.js:134-169 | the demo session gets 400 and nothing changes; otherwise the session and its users are gone, 404 exactly when it did not exist, 200 otherwise |
| `SessionController.GetSessionUsers` | hw02-coding-interview/server/src/controllers/sessionController.js:175-204 | 404 unless the session is live; otherwise 200 listing every present user exactly once, with a count equal to the list's length |
| `Todo.Str` | hw01-TODO/myapp/models.py:21-22 | an item's string form is its title |
| `Todo.IsOverdue` | hw01-TODO/myapp/models.py:24-28 | an overdue item has a due date, is unresolved and its due date lies strictly before now |
| `Todo.NewTodo` | hw01-TODO/myapp/models.py:9-22 | a new item is unresolved, its string form is its title, and both stamps are the creation time |
| `Todo.NoDueDateNeverOverdue` | hw01-TODO/myapp/models.py:24-28 | an item without a due date is never overdue |
| `Todo.ResolvedNeverOverdue` | hw01-TODO/myapp/models.py:24-28 | a resolved item is never overdue |
| `Todo.OverdueExactlyPastDue` | hw01-TODO/myapp/models.py:24-28 | an open item with a due date is overdue exactly when now is strictly after it |
| `Todo.OverdueStaysOverdue` | hw01-TODO/myapp/models.py:24-28 | once overdue, an item stays overdue as time passes, and resolving it ends that |
| `Todo.NewTodoOverdue` | hw01-TODO/myapp/models.py:12-28 | a new item is overdue exactly when it is created already past its due date |

## Left out

- Logging (`console.log`, `console.error`) and the HTTP and socket transport are not modelled.
- The hourly `setInterval` sweep (`startCleanupJob`, `stopCleanupJob`) is not modelled. The sweep
  itself is modelled, as `CleanupExpiredSessions`, called with an explicit `now`.
- `nanoid(12)` is not modelled. The fresh id is a parameter, and the precondition requires it to
  be unused.
- ISO date strings are not modelled. Every time is an integer number of milliseconds.
- The insertion order of JavaScript `Map` and `Set` is not modelled.
  - `SessionStore.MockDatabase.GetAllSessions` and `SessionStore.MockDatabase.GetSessionUsers`
    state which entries the list holds, but not their order.
  - The sweep is proved correct for every visiting order.
- Thrown exceptions and the 500 `INTERNAL_ERROR` responses are not modelled. The exception is a
  socket handler given no payload at all: its destructuring throws.
  - `join_session`, `code_update`, `language_change` and `execution_result` then send their
    "Failed to ..." error to the sender.
  - `leave_session`, `typing_start` and `typing_stop` only log the error, so the model makes them
    do nothing.
- socket.io internals are not modelled, including deleting an empty room. An empty room and a
  missing room are the same in the model.
- Payload fields are strings or absent. Other JSON values are not modelled; for example, a
  non-string `result` or `code` is not.
- `SessionStore.MockDatabase.GetSessionUsers` stamps `connectedAt` and `lastActivity` with the
  time of the call, as the store does. Real connection times are not tracked.
- `maxActiveUsers` and the rest of the configuration are not modelled. The session lifetime in
  hours is a constructor argument; its default, 24, is `DefaultTtlHours`.
- The PostgreSQL store, the language and execution controllers, routes and clients are not part of
  this model.
- Not modelled for the TODO item: the Django ORM, the `max_length` of the title, the ordering and
  the `Meta` names. `auto_now` is modelled only at creation.
- Where the code and its description differ, the model follows the code:
  - an expired demo session is evicted by `getSession` like any other;
  - `leave_session` does not check that the socket joined that session;
  - `io.to(room)` reaches the sender only when the sender is in the room;
  - `createSession` accepts any language;
  - `updateSession` does not check expiry, so a PATCH (answered 200), `code_update` and
    `language_change` change a session that has expired but has not been swept yet;
  - `getAllSessions` lists sessions that have expired but have not been swept yet;
  - a join to an expired session evicts that session's record and its user set, because
    `getSession` deletes an expired session before the join is refused;
  - a PATCH with an empty `language` next to another truthy field stores the empty language.
