# raise-hand: the hand-raise token of a room, in Dafny

This project models the core of the raise-hand room server and its client.
Each room holds a single "hand raised" token. The server keeps it in one
stored slot, `HAND_STATE`, which is either absent or `{username,
timestampMilliseconds}`. A timestamp of `0` means "lowered". Three atomic
transactions change the slot:

- raise-hand claims it when the slot is absent or stale;
- lower-hand releases it when the sender holds a hand that is still live;
- the alarm lowers a stale hand and keeps the holder's name.

After each transaction the server broadcasts the slot to every connection. On
every connect, close and error it broadcasts the member list. The client
records a clock skew when a hand state arrives. From then on, each interval
tick recomputes the remaining time from that skew, so the countdown does not
depend on the client's clock agreeing with the server's.

Modules, one per source file:

- `Messages` (`messages.dfy`, message.ts): the 5000 ms timeout, `HandState`,
  `User`, and the `ClientMessage` / `ServerMessage` tagged unions as datatypes.
- `PartyServer` (`server.dfy`, party/server.ts): the pure grant, release and
  expiry predicates (`CanRaise`, `CanLower`, `CanExpire`) and the slot values
  they produce (`Raised`, `Lowered`, `Expired`). A trace of transactions is
  `Run`. The class `Server` has fields `handState`, `alarm`, `connections` and
  `outbox`, and one method per handler. Its invariant `Armed()` says that a
  raised hand always has its expiry alarm armed.
- `ServerProperties` (`server_properties.dfy`): lemmas about the server
  transitions: mutual exclusion, no self-renewal, holder-scoped release,
  expiry, and whole runs of transactions.
- `AppStateModel` (`app_state.dfy`, app/components/app-state.tsx): the
  client's view record and its field-replacing setters, written as record
  updates.
- `RoomClient` (`room.dfy`, app/components/room.tsx): skew capture, the countdown,
  the two "raising" predicates and the hand button. The class `Room` holds the
  component's state cells.
- `Wrappers` (`wrappers.dfy`): `Option`.

`Date.now()` becomes an explicit `now` or `arrival` parameter. The host's
connection list becomes the field `Server.connections`, which the host
maintains. `conn.send` appends a `Delivery` to `Server.outbox`, and
`socket.send` appends to `Room.sent`. A connection's username is "the first
`username` query parameter, or `""`".

The comparisons are strict. Raise-hand and the alarm need `ts < now - timeout`
(party/server.ts:35-36, 95-96), and lower-hand needs `ts > now - timeout`
(party/server.ts:55-56). So at exactly `now - ts == timeout` all three change
nothing (`BoundaryInstantChangesNothing`). A lowered slot (`ts == 0`) is free
for raise-hand only through that same comparison, that is when
`now > timeout`. Lemmas that depend on this take it as a precondition for
realistic clocks (`LowerTwiceFails`, `ReclaimAfterLower`).

The client's countdown measures time since the last hand-state broadcast
arrived, not since the grant. The server re-sends an unchanged slot after a
denied raise-hand (party/server.ts:71) and on every connect
(party/server.ts:23). Each arrival recaptures `skew := arrival - ts`
(app/components/room.tsx:73), so the countdown restarts at the full timeout
(`CountdownAtArrival` holds at every arrival). For example, a member who joins
4 s into a hold sees 5.0 s, and the alarm lowers the hand about 1.25 s later.

## Model

| member | source | states |
|---|---|---|
| `Messages.TimeoutIsFiveSeconds` | message.ts:1 | the hand-raise timeout is exactly 5000 ms |
| `Messages.ClientMessageTypeInjective` | message.ts:3-7 | a client message is one of raise-hand and lower-hand, and the two wire tags tell them apart |
| `Messages.ServerMessageTypeDiscriminates` | message.ts:16-28 | a server message is a user list or a hand-state broadcast, and the wire tag tells which |
| `PartyServer.QueryGet` | party/server.ts:143 | the value found is that of the first parameter with the key; there is none exactly when no parameter has the key |
| `PartyServer.Username` | party/server.ts:141-144 | a connection's name is its first `username` query value, or `""` when it has none |
| `PartyServer.CanRaise` | party/server.ts:33-37 | raise-hand is granted iff the slot is absent or more than `timeout` has passed since its stamp (strict); see `MutualExclusion`, `ReclaimAfterTimeout` |
| `PartyServer.CanLower` | party/server.ts:52-57 | lower-hand succeeds only for the holder while `ts > now - timeout`, and then the hand can be neither claimed nor expired at that instant; see `LowerByOtherChangesNothing`, `LowerTwiceFails` |
| `PartyServer.CanExpire` | party/server.ts:93-97 | the alarm lowers a written slot exactly when raise-hand would find it free, so both paths share one staleness test; see `AlarmLowersOnlyStale` |
| `PartyServer.Raised` | party/server.ts:33-41 | after a raise-hand the slot is always written: unchanged, or `{sender, now}`; see `MutualExclusion` |
| `PartyServer.Lowered` | party/server.ts:52-61 | lower-hand never creates or removes the slot and never changes the holder's name; the slot is unchanged or `{sender, 0}`; see `LowerTwiceFails`, `ReclaimAfterLower` |
| `PartyServer.Expired` | party/server.ts:93-101 | the alarm never creates or removes the slot and keeps the holder's name; the slot is unchanged or lowered; see `AlarmIdempotent` |
| `PartyServer.AlarmTime` | party/server.ts:42 | the armed time lies strictly past the timeout, so the grant it was armed for is stale when it fires; see `AlarmReleasesGrant` |
| `PartyServer.Intent` | party/server.ts:30-68 | a parsed message selects an intent only by that intent's exact wire tag, and each wire tag selects its intent; see `IntentRecognisesClientMessages` |
| `PartyServer.UserListOf` | party/server.ts:109-112 | one `{username}` per connection, in connection order, with no deduplication |
| `PartyServer.FanOut` | party/server.ts:119-121 | every connection gets the same message, once each, in connection order |
| `PartyServer.FanOutReaches` | party/server.ts:119-121 | every connection in the list is sent the broadcast message |
| `PartyServer.HandStateDeliveries` | party/server.ts:127-136 | nothing is sent when the slot was never written; otherwise each connection gets the slot's broadcast |
| `PartyServer.CollectUsers` | party/server.ts:109-112 | the push loop yields one entry per connection, in order, each carrying that connection's name |
| `PartyServer.Server.constructor` | party/server.ts:12-16 | a fresh room has no hand state, no alarm, no connections and nothing sent, and its alarm invariant holds |
| `PartyServer.Server.RaiseHandTransaction` | party/server.ts:31-48 | granted iff the slot is absent or `ts < now - timeout`; a grant writes `{sender, now}` and arms the alarm at `now + timeout + 250`; a denial changes neither; the alarm invariant is kept |
| `PartyServer.Server.LowerHandTransaction` | party/server.ts:50-67 | succeeds iff the slot is present, held by the sender and `ts > now - timeout`; it then writes `{sender, 0}`, otherwise nothing changes |
| `PartyServer.Server.SendToAll` | party/server.ts:119-121 | the send loop appends exactly one delivery per connection, in order |
| `PartyServer.Server.BroadcastUserList` | party/server.ts:107-123 | every connection is sent the same user list, which has one entry per connection |
| `PartyServer.Server.BroadcastHandState` | party/server.ts:125-138 | every connection is sent the stored slot, and nothing is sent when the slot is absent |
| `PartyServer.Server.OnConnect` | party/server.ts:20-24 | requires the host to have listed the new connection; the member list, then the current slot, go to every connection, and the newcomer receives the list and, when the slot exists, that slot |
| `PartyServer.Server.OnClose` | party/server.ts:79-82 | the member list goes to every connection the host lists |
| `PartyServer.Server.OnError` | party/server.ts:84-87 | the member list goes to every connection the host lists |
| `PartyServer.Server.OnMessage` | party/server.ts:26-72 | raise-hand and lower-hand run their transactions; a message of any other type changes no state; every parsed message ends with a hand-state broadcast; a message that does not parse changes nothing and sends nothing |
| `PartyServer.Server.OnAlarm` | party/server.ts:89-105 | writes `{holder, 0}` iff the slot is present and stale, then broadcasts; fired no earlier than the armed time, it always leaves the hand lowered |
| `ServerProperties.MutualExclusion` | party/server.ts:33-47 | after a grant at `t`, any raise-hand at `t2` with `t2 - t <= timeout` is denied, whoever sends it and including the holder |
| `ServerProperties.ReclaimAfterTimeout` | party/server.ts:33-41 | more than `timeout` after a grant, the next raise-hand by anyone is granted |
| `ServerProperties.BoundaryInstantChangesNothing` | party/server.ts:33-101 | at exactly `now - ts == timeout`, raise-hand, lower-hand and the alarm all change nothing |
| `ServerProperties.LowerByOtherChangesNothing` | party/server.ts:52-57 | a lower-hand by someone other than the holder never succeeds and never changes the slot |
| `ServerProperties.LowerTwiceFails` | party/server.ts:52-61 | after a successful lower-hand, a second one at `now >= timeout` fails and the slot stays lowered |
| `ServerProperties.LateLowerChangesNothing` | party/server.ts:55-56 | a holder's lower-hand once `timeout` has passed is a no-op |
| `ServerProperties.ReclaimAfterLower` | party/server.ts:33-61 | after a successful lower-hand, a raise-hand by anyone at `now > timeout` is granted |
| `ServerProperties.AlarmLowersOnlyStale` | party/server.ts:92-102 | the alarm writes `{previous holder, 0}` exactly when the slot is present and stale, and otherwise changes nothing |
| `ServerProperties.AlarmIdempotent` | party/server.ts:92-102 | applying the alarm twice equals applying it once |
| `ServerProperties.AlarmReleasesGrant` | party/server.ts:38-101 | the alarm a grant arms lowers that grant when it fires at its time |
| `ServerProperties.RunAppend` | party/server.ts:30-105 | a run of transactions followed by one more equals one more step after the run |
| `ServerProperties.HoldPersists` | party/server.ts:30-105 | a raised hand is unchanged by any run of transactions within `timeout` in which the holder does not lower it |
| `ServerProperties.RaisesDeniedWhileHeld` | party/server.ts:33-47 | in such a run every raise-hand is denied |
| `ServerProperties.UntouchedHoldExpires` | party/server.ts:38-101 | a hand nobody lowers is lowered by the alarm it armed, whatever other requests came in within `timeout` of the grant |
| `ServerProperties.RoomWalkThrough` | party/server.ts:30-105 | two members: A's raise is granted, B's raise a second later is denied, the alarm at +5250 ms lowers A, and B's raise at +5300 ms is granted |
| `ServerProperties.IntentRecognisesClientMessages` | party/server.ts:30-70 | the server picks raise-hand or lower-hand exactly for their wire tags, and no intent for any other tag |
| `ServerProperties.UserListKeepsDuplicates` | party/server.ts:109-112 | two connections with the same name give two equal entries |
| `ServerProperties.MissingUsernameIsEmpty` | party/server.ts:141-144 | a connection with no `username` parameter is called `""`; with two, the first wins |
| `AppStateModel.WithColors` | app/components/app-state.tsx:55-58 | same length and order; each entry keeps its name and gets `stringToColor(name)` |
| `AppStateModel.SetRoomId` | app/components/app-state.tsx:45-48 | replaces `roomId` and nothing else |
| `AppStateModel.SetUsername` | app/components/app-state.tsx:49-51 | replaces `username` and nothing else |
| `AppStateModel.SetUsers` | app/components/app-state.tsx:52-60 | replaces `users` with the coloured payload, keeping its length, order and names; nothing else changes |
| `AppStateModel.SetHandState` | app/components/app-state.tsx:61-66 | replaces `handState` and nothing else |
| `AppStateModel.SetInRoom` | app/components/app-state.tsx:67-72 | replaces `inRoom` and nothing else |
| `AppStateModel.DefaultAppStateIsEmpty` | app/components/app-state.tsx:13-19 | the default state has empty room id and name, no users, no hand state, and is not in a room |
| `AppStateModel.ColorsRoundTrip` | app/components/app-state.tsx:55-58 | removing the colours gives back exactly the user list that came from the server |
| `AppStateModel.SettersCommute` | app/components/app-state.tsx:52-66 | setting the users and setting the hand state give the same state in either order |
| `RoomClient.ClockSkew` | app/components/room.tsx:73 | adding the skew carries the server timestamp onto the local arrival instant; see `CountdownAtArrival`, `CountdownOffsetInvariant` |
| `RoomClient.ShowsCountdown` | app/components/room.tsx:23-27 | shown iff the hand is present, not lowered, and less than `timeout` has passed locally since the stamp's local image |
| `RoomClient.Countdown` | app/components/room.tsx:23-36 | at a single clock read, a countdown is shown iff the hand is present, `ts != 0` and `skew + ts > now - timeout`; what is shown is positive, and at most `timeout` once `now >= skew + ts` |
| `RoomClient.CountdownAtArrival` | app/components/room.tsx:23-73 | at the arrival instant a raised hand shows exactly `timeout` |
| `RoomClient.LoweredShowsNothing` | app/components/room.tsx:23-24 | a lowered hand never shows a countdown |
| `RoomClient.CountdownOffsetInvariant` | app/components/room.tsx:23-73 | adding one constant to both the arrival time and the tick time leaves the countdown unchanged |
| `RoomClient.CountdownRunsDown` | app/components/room.tsx:28-33 | `d` ms later the countdown is `d` less or gone, and it is gone once `timeout` has passed locally since arrival |
| `RoomClient.IsAnyUserRaisingHand` | app/components/room.tsx:52-53 | someone is raising iff a hand state is present and not lowered, that is, iff it would show a countdown at its arrival instant |
| `RoomClient.IsCurrentUserRaisingHand` | app/components/room.tsx:48-51 | the current user is raising iff someone is raising under the current user's name |
| `RoomClient.CurrentUserRaisingIsAnyUserRaising` | app/components/room.tsx:48-53 | if the current user is raising, someone is raising |
| `RoomClient.ButtonFor` | app/components/room.tsx:142-174 | the lower-hand button shows iff the current user is raising, the enabled raise-hand button iff nobody is, and otherwise the disabled one |
| `RoomClient.OnClick` | app/components/room.tsx:145-168 | only the disabled button sends nothing; lower-hand is sent only by the lower-hand button |
| `RoomClient.AvailableIntents` | app/components/room.tsx:142-174 | lower-hand can be sent iff the current user is raising, raise-hand iff nobody is, and nothing while someone else is |
| `RoomClient.Room.constructor` | app/components/room.tsx:15-20 | the component starts with no error, skew 0, no countdown and nothing sent |
| `RoomClient.Room.OnMessage` | app/components/room.tsx:65-75 | clears the error; a user list replaces only the users; a hand state replaces the hand state and sets `skew := arrival - ts` |
| `RoomClient.TickValue` | app/components/room.tsx:23-36 | with the test's clock read and the value's clock read separate: shown iff the test read passes; the value exceeds the difference of the two reads, and equals `Countdown` when they agree |
| `RoomClient.TwoReadsCanStoreZero` | app/components/room.tsx:23-36 | a test read at 5999 and a value read at 6000 store 0 for a hand stamped 1000 with skew 0 |
| `RoomClient.Room.Tick` | app/components/room.tsx:22-37 | one interval run stores `TickValue` of the current hand state and skew for its two clock reads, which is `Countdown` when the reads agree |
| `RoomClient.Room.OnClose` | app/components/room.tsx:57-60 | shows the disconnect notice for a closed connection |
| `RoomClient.Room.OnError` | app/components/room.tsx:61-64 | shows the disconnect notice for a connection error |
| `RoomClient.Room.ClickHandButton` | app/components/room.tsx:142-174 | sends lower-hand when the current user is raising, raise-hand when nobody is, and nothing while someone else is |

## Left out

- The PartyKit transport, `usePartySocket`, hibernation and `onRequest`'s 404 reply (party/server.ts:14, 74-77) are foreign runtime and I/O. Connections are a sequence the host maintains, and sends are appends to an outbox.
- The transactional storage is not modelled: each transaction is one atomic method. Concurrency between rooms or requests belongs to the host.
- The real firing of `setAlarm` is not modelled. `Server.alarm` records the last armed time. `OnAlarm` is called with the firing time, and its release guarantee is stated for a call no earlier than that time.
- `JSON.parse` and `JSON.stringify` are not modelled: inbound client messages are `Inbound` values and messages are datatypes. A server message that is not one of the two kinds is not modelled on the client.
- `new URL(conn.uri)` and query decoding are not modelled; a connection carries its decoded query parameters.
- `Date.now()` is a parameter. The interval tick's two reads are the two parameters of `Room.Tick`. The raise-hand transaction reads the clock three times (comparison, timestamp, alarm); the model uses one `now` for all three.
- `setInterval`/`clearInterval` and re-creating the interval when its dependencies change are not modelled; one tick is one call of `Room.Tick`.
- Floating point is not modelled. Timestamps are unbounded integers, and remaining time stays in integer milliseconds. The `/1000` conversion and `toFixed(1)` formatting (room.tsx:33-34) are not modelled, so the displayed string (for example "0.0" in the last 50 ms) is not either.
- `stringToColor` is not part of this model and is a parameter. `window.history.replaceState` in `setRoomId` is a browser side effect and is not modelled.
- The JSX rendering, framer-motion, the unused style objects, `lobby.tsx`, `app-header.tsx` and `client.tsx` are UI or bootstrap code. The React context plumbing of app-state.tsx is left out too.
- `console.*` logging is not modelled.
