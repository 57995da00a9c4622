# Session coordinator of the signalling server

This project models, in Dafny, the session-matching coordinator of a
signalling server (`src/lib/liveSessions.js`). The coordinator keeps
two tables keyed by session id: `sessionGuides`, which holds the guide or
coach who joined a session, and `sessionMembers`, which holds the member who
joined it. There is one slot per table per session. `joinSession` files the
joining participant's record into one table according to its role and
overwrites that slot. It then answers with an advice. The advice is one of
three fixed "no" answers (`ERROR`, `NO_MEMBER`, `NO_GUIDE`), or an
"ok"/"Ready" answer carrying the guide's and the member's socket ids.

Files:

- `wrappers.dfy`: module `Wrappers`, an `Option` type for JavaScript
  properties that may be missing.
- `live_sessions.dfy`: module `LiveSessions`. It holds the data model, the
  pure specification of a join (`Join`) and of the readiness verdict
  (`BuildAdvice`), and lemmas about one join and about whole histories of
  joins. It also holds the class `Coordinator`, whose two map fields are the
  module-level `Map`s of the source and whose `JoinSession` method updates
  them in place.
- `scenarios.dfy`: module `LiveSessionsScenarios`, client methods that run
  join scenarios through the class's contracts alone. Two replay the
  module's tests; the third shows that a second member replaces the first.

Modelling decisions:

- A session id is read off the join data without any check, so it may be
  missing. `SessionKey` is `Undefined`, `Null`, a boolean, a number (a
  real) or a string. Equal values share a slot, as primitive keys do in a
  JavaScript `Map`; `undefined` and `null` are separate slots.
- The stored record is the join data with `socketId` replaced by the
  connection's socket id (`Stored`). The object spread comes first, so a
  `socketId` carried in the data is always overwritten.
- `buildAdvice` only reads the two tables. It is the pure function
  `BuildAdvice` of the state value `Sessions(guides, members)`.
- A `null` join request makes the source throw at its first property
  access. A Dafny datatype value cannot be null, so the parameter's type is
  that precondition.
- The module's tests (`src/lib/liveSessions.test.js`) call `clear`,
  `isRunning`, `count`, `disconnect` and `getPeers`, expect a `sessionId`
  and a `members` map in the Ready advice, and expect invalid joins to be
  rejected. None of this exists in `src/lib/liveSessions.js`, and the model
  follows the code: it has one member slot per session, and a later member
  join replaces the earlier one.

## Model

| member | source | states |
|---|---|---|
| LiveSessions.Stored | src/lib/liveSessions.js:27 | the stored record keeps the join's session id, role and user id, and its socket id is the connection's, whatever socket id the join data carried |
| LiveSessions.Join | src/lib/liveSessions.js:22-31 | after a join, the joining side's slot for that session holds the new record; the other side's table is unchanged, and so is every other session's slot in the joining side's table |
| LiveSessions.BuildAdvice | src/lib/liveSessions.js:42-60 | the decision table: ERROR iff neither slot is filled, NO_MEMBER iff only the guide slot is, NO_GUIDE iff only the member slot is, "ok" iff both are, and then the advice carries the two stored socket ids |
| LiveSessions.JoinAdvice | src/lib/liveSessions.js:26-33 | the advice a join returns is never ERROR; it is Ready with the new socket id when the other side was already present, otherwise the refusal naming the missing side |
| LiveSessions.JoinIsolated | src/lib/liveSessions.js:22-33 | a join leaves the advice of every other session unchanged |
| LiveSessions.JoinIdempotent | src/lib/liveSessions.js:27-33 | repeating a join with the same data and socket id gives the same state and the same advice as joining once |
| LiveSessions.JoinKeepsWellFiled | src/lib/liveSessions.js:22-31 | joins keep every record under its own session id, in the table its role selects, with a socket id; so a Ready advice returned by a join carries both socket ids |
| LiveSessions.LastJoin | src/lib/liveSessions.js:26-31 | the position of the most recent join into one side of one session: it files into that side, and no later join does; -1 when there was none |
| LiveSessions.ReplaySlot | src/lib/liveSessions.js:26-31 | after any history of joins a slot is filled iff some join went into it, and it holds the record of the most recent such join (the latest join wins) |
| LiveSessions.ReplayAdvice | src/lib/liveSessions.js:42-59 | after any history the advice is Ready with the socket ids of the most recent guide join and the most recent member join when both exist, and otherwise the refusal for the side or sides that never joined |
| LiveSessions.ErrorOnlyWhenUntouched | src/lib/liveSessions.js:46-48 | after any history the advice for a session is ERROR iff no join named that session |
| LiveSessions.ReplayWellFiled | src/lib/liveSessions.js:22-31 | every state reachable by joins keeps each record under its own key, in its role's table, with a socket id |
| LiveSessions.Coordinator.constructor | src/lib/liveSessions.js:3-4 | both tables start empty |
| LiveSessions.Coordinator.JoinSession | src/lib/liveSessions.js:22-34 | updates the two tables in place exactly as `Join` says, returns the advice for the joined session, which is never ERROR and, when Ready, carries both socket ids |
| LiveSessionsScenarios.SingleRoleScenario | src/lib/liveSessions.test.js:11-32 | a lone guide is told "Awaiting Member" and a lone member "Awaiting Guide", both with status "no" |
| LiveSessionsScenarios.GuideAndMemberScenario | src/lib/liveSessions.test.js:38-57 | a guide then a member in one session get "ok"/"Ready" with the guide's and the member's socket ids |
| LiveSessionsScenarios.SecondMemberScenario | src/lib/liveSessions.js:29-30 | a second member join (here with no role at all) replaces the single member slot, so Ready carries only the later member's socket id, where the test at src/lib/liveSessions.test.js:65-92 expects both members |

## Left out

- Object spread of arbitrary extra fields: the join data is a fixed record of session id, role, user id and socket id.
- Non-string roles: a role that is not a string never equals "guide" or "coach", so it behaves as a missing role (`None`).
- Object-valued session ids (compared by reference in a `Map`), and the numbers `NaN`, `Infinity` and `-0` as session ids: numbers are modelled as reals, which have none of these.
- The socket id argument is a string; the registry that mints it (`src/lib/users.js`) is not part of this model.
- `clear`, `isRunning`, `count`, `disconnect`, `getPeers`, a member table keyed by identity, and validation of join data: the tests expect them, but `src/lib/liveSessions.js` does not implement them.
- The connection registry, the socket.io event wiring (`src/signalServer.js`) and the HTTP(S) bootstrap (`src/server.js`, `src/index.js`): transport and process start-up around the coordinator.
