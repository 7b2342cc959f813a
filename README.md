# yapli — client-side presence, alias storage, room codes, room creation and registration, in Dafny

This project models the parts of the yapli chat application that hold real logic:

- **`useSocket`**, the client presence hook (`SocketHook`). It has a connectivity flag that `connect` and `disconnect` toggle. On every connect it emits `join-room`. `set-alias` is emitted only while connected, and `send-message` is emitted for the hook's own room. Incoming `new-message` events are filtered by room; `users-updated` and `alias-rejected` are forwarded. On unmount the transport is disconnected. The hook's source file is not part of this model: its behaviour is taken from its test file, which fixes every transition.
- **Per-room alias persistence in localStorage** (`AliasStorage`). Keys have the form `yapli_alias_<roomId>`. Save, get and remove swallow storage errors, and there is an availability probe.
- **Room codes** (`RoomUrl`): six characters from a 32-character alphabet with no confusable characters. The generator is given its random draws explicitly.
- **The `/api/rooms` route** (`RoomsRoute`). POST runs the guard chain 401 → 400 → 404 → 409. It trims the title and checks titles per user. A retry loop of at most 10 attempts picks the first room code not in use; if all collide the result is 500. Every thrown error becomes 500. GET returns the caller's rooms, newest first.
- **The registration form's submit handler** (`RegisterPage`). The mismatch check comes before the length check, and the minimum length is 6. The name is trimmed, or left out when blank. The handler keeps the loading/error/success discipline on every exit path and redirects after sign-in.
- `JsText` models `String.prototype.trim`. `Wrappers` holds `Option`, which stands for `null`/`undefined`.

Outside inputs are parameters:
- the session lookup, the parsed request body and the database's reachability;
- the room generator's draws, the new row's id and the creation time;
- the settled results of `fetch` and `signIn`;
- whether a `window` exists, and whether storage access throws.

Imperative code is modelled as classes whose methods update fields: `AliasStorage.Storage`, `RoomsRoute.Database`, `RegisterPage.RegisterForm` and `SocketHook.UseSocket`. Each of these methods is tied to a specification function whose properties are proved as lemmas. For the hook that function is `Step`/`Run` over actions; for the form it is `SubmitEffects`, replayed by `ApplyAll`. The POST retry loop is a `while` loop proved against `FirstFree`.

`EmitMessage` is not gated on connectivity: the hook's test (test/lib/socket.test.ts:249-270) emits `send-message` without any connect event. Only `SetAliasAction` is gated on the hook being connected (test/lib/socket.test.ts:227-247).

## Model

| member | source | states |
|---|---|---|
| JsText.Trim | src/app/api/rooms/route.ts:61 | `trim` cuts a whitespace prefix and suffix (ECMAScript WhiteSpace and LineTerminator). The result is empty exactly when the input is all whitespace; otherwise it neither starts nor ends with whitespace |
| JsText.TrimPadded | src/app/auth/register/page.tsx:43 | whitespace around a core with non-whitespace ends trims to exactly that core (`"  Bob  "` gives `"Bob"`) |
| JsText.TrimIdempotent | src/app/api/rooms/route.ts:80 | trimming an already trimmed title changes nothing |
| AliasStorage.AliasKey | src/lib/aliasStorage.ts:5-12 | the key is the prefix `yapli_alias_` followed by the room id |
| AliasStorage.AliasKeyInjective | src/lib/aliasStorage.ts:5-12 | two rooms have the same key iff they are the same room, and no alias key is the probe key `__test__` |
| AliasStorage.Storage.SetItem | src/lib/aliasStorage.ts:19 | `setItem` throws while storage fails, else sets that one key |
| AliasStorage.Storage.GetItem | src/lib/aliasStorage.ts:30 | `getItem` throws while storage fails, else gives the value or null |
| AliasStorage.Storage.RemoveItem | src/lib/aliasStorage.ts:42 | `removeItem` throws while storage fails, else deletes that one key |
| AliasStorage.SaveAlias | src/lib/aliasStorage.ts:17-23 | the store gains the room's key with the alias; on failure the store is unchanged and nothing propagates |
| AliasStorage.GetAlias | src/lib/aliasStorage.ts:28-35 | the room's saved alias; None when there is none or when storage fails |
| AliasStorage.RemoveAlias | src/lib/aliasStorage.ts:40-46 | the room's key is deleted; on failure the store is unchanged |
| AliasStorage.SaveThenLookup | src/lib/aliasStorage.ts:17-35 | after a save the room reads back the alias, and every other room reads as before |
| AliasStorage.RemoveThenLookup | src/lib/aliasStorage.ts:28-46 | after a removal the room reads None, and every other room reads as before |
| AliasStorage.ProbeKeepsAliases | src/lib/aliasStorage.ts:62-65 | the probe changes no room's alias |
| AliasStorage.IsLocalStorageAvailable | src/lib/aliasStorage.ts:51-71 | true iff a window exists, storage is defined and access does not throw. After a true result the store is as before minus `__test__`; after a false result it is unchanged |
| RoomUrl.GenerateRoomUrl | test/lib/roomUrl.test.ts:5-15 | from six draws the generator gives a code of length 6 whose i-th character is the drawn alphabet letter, so the code always passes `isValidRoomUrl` |
| RoomUrl.IsValidRoomUrl | test/lib/roomUrl.test.ts:13-14 | a valid code has exactly six characters, and none of them is `l`, `o`, `0`, `1` or an upper-case letter |
| RoomUrl.AlphabetShape | test/lib/roomUrl.test.ts:13-14 | the alphabet has 32 pairwise distinct characters and contains none of `l`, `o`, `0`, `1` or any upper-case letter |
| RoomUrl.IndexOf | test/lib/roomUrl.test.ts:14 | the draw that selects a given alphabet character |
| RoomUrl.PicksOf | test/lib/roomUrl.test.ts:5-15 | every valid code can be generated: these draws produce it |
| RoomUrl.GeneratorBijective | test/lib/roomUrl.test.ts:5-15 | generating from draws and recovering the draws round-trips in both directions |
| RoomUrl.ValidatorExamples | test/lib/roomUrl.test.ts:24-42 | accepts `abc234`, `zyx987` and `mnpqrs`; rejects lengths 5 and 7, the empty string, `abc01I` and `ABC234` |
| RoomsRoute.TitleOf | src/app/api/rooms/route.ts:59-66 | a title is accepted iff it is a string that is not all whitespace, and the accepted title is the trimmed string |
| RoomsRoute.Authenticated | src/app/api/rooms/route.ts:55-57 | a failed session lookup, a missing session and a session with an empty email are refused; a session with a non-empty email is accepted |
| RoomsRoute.OwnedBy | src/app/api/rooms/route.ts:25-28 | each room appears in the result exactly as often as in the store when the user owns it, and never otherwise |
| RoomsRoute.SortNewestFirst | src/app/api/rooms/route.ts:29-31 | the same rooms (as a multiset), ordered by `createdAt` descending |
| RoomsRoute.InsertByAge | src/app/api/rooms/route.ts:29-31 | inserting into a newest-first list keeps it newest-first and adds exactly that room |
| RoomsRoute.Candidate | src/app/api/rooms/route.ts:98 | the code generated on an attempt is a valid room code |
| RoomsRoute.FirstFree | src/app/api/rooms/route.ts:93-113 | the least attempt index below 10 whose code is not in use, with all earlier codes in use; None iff all 10 collide |
| RoomsRoute.AddFreshCode | src/app/api/rooms/route.ts:115-121 | adding a room whose code is not in use keeps codes unique |
| RoomsRoute.Database.FindUserId | src/app/api/rooms/route.ts:69-71 | looking a user up by email throws when the database is unreachable, else gives the id or None |
| RoomsRoute.Database.HasRoomTitled | src/app/api/rooms/route.ts:78-83 | the title check is scoped to the given user |
| RoomsRoute.Database.HasRoomUrl | src/app/api/rooms/route.ts:101-103 | the code lookup is over every user's rooms |
| RoomsRoute.Database.RoomsOf | src/app/api/rooms/route.ts:25-39 | exactly the user's rooms, newest first |
| RoomsRoute.Database.Create | src/app/api/rooms/route.ts:115-121 | appends the room, or throws and changes nothing |
| RoomsRoute.ChooseRoomUrl | src/app/api/rooms/route.ts:93-113 | the retry loop returns the code of the first free attempt, or None after 10 collisions, or a thrown error |
| RoomsRoute.Get | src/app/api/rooms/route.ts:7-49 | a thrown lookup gives 500; no session email gives 401; an unknown user gives 404; otherwise 200 with the caller's rooms, newest first |
| RoomsRoute.Post | src/app/api/rooms/route.ts:51-134 | the guard chain 401 → 400 → 404 → 409, with 500 for any throw. On success the new room has the trimmed title, the first free generated code and the caller as owner, and the response echoes code and title. Ten collisions give 500 and the store is unchanged. Every non-200 response leaves the store unchanged, and unique codes stay unique |
| RegisterPage.NormalizedName | src/app/auth/register/page.tsx:43 | the name is sent trimmed, or left out exactly when it is blank |
| RegisterPage.ValidationError | src/app/auth/register/page.tsx:24-34 | a mismatch is reported first; a short password only when the passwords match; matching passwords of at least 6 characters pass |
| RegisterPage.CaughtMessage | src/app/auth/register/page.tsx:70-73 | the caught error's message, or the generic text when it is empty; never empty |
| RegisterPage.ReplyError | src/app/auth/register/page.tsx:51-53 | the server's `error` text when present and non-empty, else "Registration failed" |
| RegisterPage.AfterRequest | src/app/auth/register/page.tsx:36-73 | after the request there is no loading change and no second request; success is set exactly when the reply is ok and parses as JSON, and is then followed by the sign-in with the typed email and password and one redirect or error; every other outcome is a single error message |
| RegisterPage.SubmitEffects | src/app/auth/register/page.tsx:18-77 | a submission sets loading and clears the error first, clears loading last and touches loading nowhere else; its third step is the request with the normalised name exactly when validation passes, and no other step sends a request |
| RegisterPage.OutcomeShape | src/app/auth/register/page.tsx:24-76 | after the opening steps there are at least two more; the last clears loading and no earlier one touches it; the first is the request exactly when validation passes; no later step sends a request |
| RegisterPage.SubmitReplay | src/app/auth/register/page.tsx:18-77 | the view after a submission: the validation message with loading off, or the request's outcome with loading off |
| RegisterPage.AfterRequestReplay | src/app/auth/register/page.tsx:36-73 | the view after each possible outcome of the request and the sign-in |
| RegisterPage.LoadingDiscipline | src/app/auth/register/page.tsx:18-77 | every submission starts by setting loading and clearing the error, and ends with loading off on every path |
| RegisterPage.ValidationBlocksRequest | src/app/auth/register/page.tsx:24-34 | a failed validation never sends a request or sets success, and shows the validation message |
| RegisterPage.ValidInputSendsRequest | src/app/auth/register/page.tsx:36-47 | passing validation sends exactly one request, with the normalised name and the email and password as typed |
| RegisterPage.RejectedReply | src/app/auth/register/page.tsx:49-53 | a non-ok reply shows the server's error or "Registration failed", and leaves success and the location as they were |
| RegisterPage.AcceptedReply | src/app/auth/register/page.tsx:55-69 | an ok reply sets success. A successful sign-in goes to `/dashboard` and an unsuccessful one to `/auth/signin`; a sign-in that throws shows its message |
| RegisterPage.SuccessNeedsOkReply | src/app/auth/register/page.tsx:51-55 | without an ok JSON reply there is neither success nor a redirect |
| RegisterPage.RegisterForm.constructor | src/app/auth/register/page.tsx:10-16 | all fields start empty, loading and success false |
| RegisterPage.RegisterForm.Edit | src/app/auth/register/page.tsx:119-148 | each input's `onChange` sets its own field and nothing else |
| RegisterPage.RegisterForm.HandleSubmit | src/app/auth/register/page.tsx:18-77 | the handler performs exactly the steps `SubmitEffects` lists, and its state is their replay |
| RegisterPage.RegisterForm.Proceed | src/app/auth/register/page.tsx:24-76 | after the opening steps the handler performs exactly the steps `Outcome` lists for the current fields |
| RegisterPage.RegisterForm.Send | src/app/auth/register/page.tsx:36-76 | when validation passes, the handler sends the request with the normalised name, performs the steps `AfterRequest` lists, and then clears loading |
| RegisterPage.RegisterForm.AwaitReply | src/app/auth/register/page.tsx:36-73 | the `try`/`catch` after the request performs exactly the steps `AfterRequest` lists |
| RegisterPage.RegisterForm.Reject | src/app/auth/register/page.tsx:24-34 | a validation failure sets the error, then clears loading |
| SocketHook.Mount | test/lib/socket.test.ts:33-52 | a fresh hook is for its room, has its transport open, is not connected, has emitted and delivered nothing, and satisfies the protocol invariant |
| SocketHook.Step | test/lib/socket.test.ts:54-270 | one event or call never changes the room, adds at most one emit and at most one callback call and removes none, changes connectivity only on a connect or disconnect event, and closes the transport only on unmount |
| SocketHook.StepKeepsProtocol | test/lib/socket.test.ts:54-270 | each handler and action keeps the protocol invariant: only its own room in `join-room` and `send-message`, and `set-alias` only after a `join-room`. It is joined while connected, and only its room's messages are delivered |
| SocketHook.RunKeepsProtocol | test/lib/socket.test.ts:54-270 | every reachable state of a mounted hook satisfies the protocol invariant |
| SocketHook.ConnectivityFollowsLifecycle | test/lib/socket.test.ts:272-310 | `isConnected` is false initially and afterwards equals "the last lifecycle event was connect" |
| SocketHook.MessageDeliveredIff | test/lib/socket.test.ts:76-134 | a message reaches `onNewMessage` iff it was received and its `chatroomId` is the hook's room |
| SocketHook.MessageSentIff | test/lib/socket.test.ts:249-270 | `send-message` with `{roomId, alias, message}` is emitted iff `emitMessage(alias, message)` was called and `roomId` is the hook's room; no connect event is needed |
| SocketHook.NothingJoinedBeforeConnect | test/lib/socket.test.ts:227-247 | before any connect event the hook is disconnected and has emitted neither `join-room` nor `set-alias` |
| SocketHook.OpenUntilUnmount | test/lib/socket.test.ts:184-199 | the transport is open iff the hook has not been unmounted |
| SocketHook.TestedScenarios | test/lib/socket.test.ts:54-310 | the tests' scenarios: join on connect; set-alias when connected and not before; send-message without connect; forwarding of users and rejection reason; disconnect on unmount; the connectivity sequence; the room filter |
| SocketHook.UseSocket.constructor | test/lib/socket.test.ts:33-52 | mounting opens the transport, is not connected and has emitted and delivered nothing |
| SocketHook.UseSocket.OnConnect | test/lib/socket.test.ts:54-74 | sets `isConnected` and emits exactly `join-room` with the hook's room |
| SocketHook.UseSocket.OnDisconnect | test/lib/socket.test.ts:298-309 | clears `isConnected` and emits nothing |
| SocketHook.UseSocket.OnNewMessage | test/lib/socket.test.ts:76-134 | forwards the message unchanged iff it is for this room |
| SocketHook.UseSocket.OnUsersUpdated | test/lib/socket.test.ts:136-158 | forwards the alias list unchanged |
| SocketHook.UseSocket.OnAliasRejected | test/lib/socket.test.ts:160-182 | forwards only the `reason` string |
| SocketHook.UseSocket.SetAliasAction | test/lib/socket.test.ts:201-247 | emits `set-alias` with the alias iff connected |
| SocketHook.UseSocket.EmitMessage | test/lib/socket.test.ts:249-270 | always emits `send-message` with the hook's room id |
| SocketHook.UseSocket.Unmount | test/lib/socket.test.ts:184-199 | disconnects the transport |

## Left out

- The server side of the realtime protocol is not part of this model, because no server file is present. That covers the room registry, alias uniqueness arbitration, fan-out and cleanup on disconnect. `src/lib/socket.ts` itself is not part of this model either; the hook is modelled from its test.
- socket.io internals are not modelled: reconnection, backoff, buffering of emits while disconnected, and delivery. The model records the `emit` calls the hook makes.
- The hook after unmount: actions there still update the model's state, as React would discard them; nothing is gated on `transportOpen`.
- The randomness of `generateRoomUrl` is replaced by explicit draws. The claim that two consecutive codes differ is probabilistic and is not modelled. `src/lib/roomUrl.ts` is not part of this model; the generator and validator follow what the tests require of them.
- React rendering, markup and focus are not modelled, nor `e.preventDefault()`. State updates are applied in the order they are made; batching does not change the final values.
- `console.warn` and `console.error` logging is left out: it has no effect on state.
- RoomsRoute.Database.RoomsOf: ties in `createdAt` are returned in one fixed order, whereas the database may return tied rooms in any order. The contract only promises newest-first and the right rooms, so it stays true regardless of tie order. The `_count.messages` field of each room is left out, because the messages table is not modelled.
- AliasStorage.IsLocalStorageAvailable: storage failures are a single flag, so a `setItem` that succeeds followed by a `removeItem` that throws is not modelled.
- Partial database failures are left out: reachability is one flag checked at every call, so `create` throwing after the user, title and code lookups have succeeded (src/app/api/rooms/route.ts:115 into 127-133) is not modelled, and `Post`'s branch for it is unreachable.
- Races between the room-code lookup and `create` are left out: the handler runs sequentially, and a unique-constraint violation at `create` is not modelled.
- Real `Date` values are not modelled: `createdAt` is an integer, and room ids are given.
- String lengths count characters, whereas JavaScript's `length` counts UTF-16 code units. The two differ only for characters outside the Basic Multilingual Plane, e.g. in the 6-character password minimum.
- A request body's `title` is reduced to its JSON kind; for any non-string value the route gives the same 400.
- A non-string `error` field in the registration server's reply is not modelled.
