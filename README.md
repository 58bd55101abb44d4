# Messaging backend core, modelled in Dafny

This project models the real-time core of a one-to-one messaging backend.
The backend is a Node.js server with Socket.IO, MongoDB and Firebase Cloud Messaging (FCM).
The model covers:

- **Presence.** It counts each user's live sockets, broadcasts `presence` when a user comes online or goes offline, and answers `/presence`.
- **Calls.** This is the call-session state machine of the `call:*` socket events. It holds the session table `activeCalls` and the busy index `userToCall`. It also covers the 40-second ring timer, the relayed WebRTC signals, the hangup signals and pushes, the in-call branch of `disconnect`, and `/calls/:callId/status`.
- **Cursors.** It models the delivery and read cursors of a conversation, which are only ever advanced with `$max`. This includes the `delivered` and `read_up_to` handlers and the catch-up that runs on every connection.
- **Push payloads.** It builds the FCM data payloads: the generic path with its reserved-key renaming, the message push, the data-only incoming-call push and the call-ended (`CANCEL`) push. It also decides when a message is pushed at all.
- **Phone numbers.** It covers the normalisation done by the server helpers and by the user model's setter, pre-save hook and pre-update hook.

Each mutable piece of server state is a class whose methods are the handlers:

- `Presence.PresenceRegistry` holds `onlineCounts` and `lastPresenceAt`.
- `Calls.CallTable` holds `activeCalls` and `userToCall`.
- `Cursors.CursorStore` holds the conversation cursors.
- `Server.SocketServer` composes the three the way the `connection` and `disconnect` handlers do.

Outbound Socket.IO emits are appended to a `log` of `Emit(target, event, volatile, payload)` records.
Requested pushes are appended to a `pushes` log.
With both logs, properties such as "the peer receives exactly one `call:ended`" can be stated.

Some inputs are parameters of the handlers: the clock (`now`, `at`), the call id drawn by `newCallId`, user profiles, the rows returned by the catch-up aggregation, and whether the FCM SDK is initialised.
The ring timer is a `ringTimer` flag on the session. Its callback is the method `CallTable.FireTimeout`, which can be invoked at any later point.
Each handler runs atomically.

Behaviour of the program worth knowing:

- **`delivered` always notifies.** The handler notifies the sender on every call, even when `$max` left the cursor where it was. This is stated in `Cursors.CursorStore.Delivered`.
- **Every disconnect ends the call.** The in-call branch of `disconnect` runs on every socket's disconnect, not only when the user's last socket goes. See `Server.SocketServer.Disconnect`.
- **Every invite is pushed.** The invite handler always requests a call push, whether or not the callee is connected.
- **The hangup push always says `caller_hung_up`.** Its `reason` is `caller_hung_up` even when the callee ended the call.
- **Anyone can answer or hang up.** The answer and decline handlers do not check that the sender is the callee. A hangup or candidate from someone who is not a participant is relayed to the caller, because `PeerOf` sends it to `a`.
- **Phone lookups do not add a `+`.** Phone lookups (`uidByPhone`) use `normalizePhoneNumber`, which keeps only digits and `+` and adds no `+`. Stored numbers, however, are `+<digits>`. A number typed without `+` is therefore looked up in a form that no stored number has (`Helpers.LookupWithoutPlusDiffers`).

## Model

| member | source | states |
|---|---|---|
| Text.Digits | backend/src/index.js:26 | `replace(/\D/g, '')` keeps only ASCII digits and never lengthens the string |
| Text.DecimalRoundTrip | backend/src/fcm.js:245 | the decimal text `String(n)` gives for an integer reads back as that integer |
| Text.LexTrichotomy | backend/src/index.js:110 | string `<` is trichotomous and irreflexive: exactly one of `a < b`, `a == b`, `b < a` |
| Text.LexTransitive | backend/src/index.js:110 | string `<` is transitive, so with trichotomy it is a strict total order |
| Json.Escape | backend/src/fcm.js:246 | the characters between the quotes of a stringified string contain no control character |
| Json.EscapeRoundTrip | backend/src/fcm.js:246 | reading the escaped characters of a string up to the closing quote gives the string back and leaves the text after the quote |
| Json.QuoteRoundTrip | backend/src/fcm.js:246 | a string as `JSON.stringify` writes it, followed by any text, reads back as that string and that text |
| Helpers.Pair | backend/src/index.js:108-111 | `pair(a, b)` returns the two ids, in ascending order |
| Helpers.PairSymmetric | backend/src/index.js:108-111 | `pair(a, b) == pair(b, a)` |
| Helpers.NormalizePhone | backend/src/index.js:23-29 | empty result when the input has no digit; otherwise `+` followed by exactly the input's digits |
| Helpers.NormalizePhoneNumber | backend/src/index.js:146-148 | the result keeps only digits and `+` and is never longer than the input |
| Helpers.NormalizePhoneNumberAppend | backend/src/index.js:146-148 | the normaliser works per character: it distributes over concatenation, and keeps a single character exactly when it is a digit or `+` |
| Helpers.NormalizePhoneNumberKeepsDigits | backend/src/index.js:146-148 | no digit is dropped: the digits of the result are the digits of the input |
| Helpers.NormalizePhoneNumberFixes | backend/src/index.js:146-148 | a string of digits and `+` is returned unchanged |
| Helpers.NormalizePhoneNumberIdempotent | backend/src/index.js:146-148 | normalising twice is normalising once |
| Helpers.LookupFindsStoredForm | backend/src/index.js:150-153 | the lookup normaliser leaves a stored `+<digits>` number unchanged |
| Helpers.LookupWithoutPlusDiffers | backend/src/index.js:150-153 | a number typed with digits and no `+` is looked up in a form that differs from its stored form |
| UserModel.NormalizePhone | backend/src/models/User.js:4-10 | an empty input or one with no digit is returned unchanged; otherwise `+` followed by the digits |
| UserModel.NormalizeIdempotent | backend/src/models/User.js:4-10 | normalising a normalised phone changes nothing |
| UserModel.StoredPhone | backend/src/models/User.js:19-27 | what the `phone` path stores through its custom setter and its `trim` setter: `+` and the digits when there are digits, otherwise the trimmed value |
| UserModel.StoredPhoneOrderIrrelevant | backend/src/models/User.js:19-27 | the two setters commute: trimming first and normalising after stores the same phone |
| UserModel.StoredPhoneIdempotent | backend/src/models/User.js:19-27 | assigning a stored phone again stores the same phone |
| UserModel.PreSaveKeepsStored | backend/src/models/User.js:56-61 | the pre-save hook leaves a phone that came through the setters unchanged |
| UserModel.UserDocument.constructor | backend/src/models/User.js:19-27 | a phone assigned at creation goes through both setters |
| UserModel.UserDocument.SetPhone | backend/src/models/User.js:19-27 | an assignment stores the value after both setters |
| UserModel.UserDocument.PreSave | backend/src/models/User.js:56-61 | a non-empty phone is normalised and assigned back through the setters; an empty one is left alone |
| UserModel.UpdateDocument.PreUpdate | backend/src/models/User.js:64-73 | `phone` is normalised both at the top level and inside `$set`; every other field is unchanged |
| UserModel.NormalizedPhoneField | backend/src/models/User.js:66-71 | the same keys; every field but `phone` unchanged; `phone` normalised |
| Events.DisplayName | backend/src/index.js:415-416 | the name, else the e-mail, else the fallback |
| Presence.Step | backend/src/index.js:619-628 | a connect adds one and announces online exactly from 0; a disconnect subtracts one (a missing count counts as 1) and announces offline exactly when nothing is left |
| Presence.PresenceAlternates | backend/src/index.js:258-261 | over any sequence where every disconnect follows a connect, the presence broadcasts alternate online and offline. The first marks a crossing from the starting count, the last agrees with the final count, and with no broadcast the user stays on the same side of zero |
| Presence.Split | backend/src/index.js:1309 | `split(',')` yields at least one field and no field contains a comma |
| Presence.NonEmpty | backend/src/index.js:1309 | `filter(Boolean)` keeps exactly the non-empty fields |
| Presence.SplitJoin | backend/src/index.js:1309 | splitting a comma-joined list of comma-free ids gives the list back |
| Presence.ParseIdsRoundTrip | backend/src/index.js:1309 | a client's list of non-empty, comma-free ids arrives intact |
| Presence.PresenceRegistry.constructor | backend/src/index.js:235-236 | no one is online and nothing was ever announced |
| Presence.PresenceRegistry.IsOnline | backend/src/index.js:1325 | a user counts as online exactly while they have a live socket |
| Presence.PresenceRegistry.SetOnline | backend/src/index.js:156-164 | remembers the change time and broadcasts `presence` to everyone, counts unchanged |
| Presence.PresenceRegistry.Connect | backend/src/index.js:258-261 | the count follows `Step`; a broadcast and new change time exactly on the first socket |
| Presence.PresenceRegistry.Disconnect | backend/src/index.js:619-628 | the count follows `Step`, the entry removed at zero; a broadcast exactly on the last socket |
| Presence.PresenceRegistry.Report | backend/src/index.js:1308-1346 | the four answer shapes: online ids; per-id flags; entries for every known user with `at` defaulting to now; per-id entries with `at` or null |
| Calls.PeerOf | backend/src/index.js:498 | a participant's signal goes to the other participant; anyone else's goes to the caller |
| Calls.IndexedIffInSession | backend/src/index.js:365 | under the table invariant a user is busy exactly when a live session involves them |
| Calls.AtMostOneSession | backend/src/index.js:365-384 | under the table invariant no user is in two live sessions |
| Calls.WithoutCall | backend/src/index.js:267-274 | removing a session and both index entries keeps the table invariant |
| Calls.WithCall | backend/src/index.js:382-384 | adding a session between two free users, indexed under both, keeps the table invariant |
| Calls.ReplaceKeepsCoIndexed | backend/src/index.js:466 | changing a session's state in place keeps the table invariant |
| Calls.ClassifyInvite | backend/src/index.js:360-370 | an invite is dropped exactly when the callee or a well-formed offer is missing; it is refused as busy exactly when either party is indexed; otherwise it is placed between two free users |
| Calls.KindOrAudio | backend/src/index.js:358 | the kind is never empty, and the given kind is kept when there is one |
| Calls.HangupPushes | backend/src/index.js:545-572 | one call-ended push to the peer, exactly when the caller hung up or the peer has no live socket |
| Calls.HangupSignals | backend/src/index.js:505-543 | `CANCEL` and `callCancelled` reach the peer once each when the caller hangs up and never otherwise. The peer gets exactly one `callEnded` and, in a two-party call, exactly one `call:ended`. All of these are volatile |
| Calls.CallTable.constructor | backend/src/index.js:231-232 | empty table and index |
| Calls.CallTable.Cleanup | backend/src/index.js:267-274 | the session and both index entries go (the timer with it); logs untouched; invariant kept |
| Calls.CallTable.Invite | backend/src/index.js:351-434 | malformed: nothing happens; busy: one volatile `call:busy` to the caller; placed: a ringing session with a pending timer, both users indexed, `call:incoming` and `call:ringing`, and a call push |
| Calls.CallTable.Answer | backend/src/index.js:447-472 | decline: `call:declined` to both and cleanup; accept with a well-formed answer: answered, timer cleared, `call:answer` to the caller; otherwise nothing |
| Calls.CallTable.Candidate | backend/src/index.js:475-487 | a candidate for a live session is relayed, volatile, to the sender's peer; otherwise nothing |
| Calls.CallTable.Hangup | backend/src/index.js:491-580 | the session is cleaned up, the hangup emits are appended in order, and the hangup push is requested as `HangupPushes` decides |
| Calls.CallTable.FireTimeout | backend/src/index.js:435-443 | the callback's guard holds exactly while the timer is pending; a still-ringing call ends for both with `timeout` and is cleaned up; an answered or ended call is untouched |
| Calls.CallTable.EndOnDisconnect | backend/src/index.js:631-640 | a user in a call ends it: the peer gets one `call:ended` (by `disconnect`), and the session and both users leave the table |
| Calls.CallTable.Status | backend/src/index.js:1052-1076 | inactive exactly when no session has the id; otherwise its state, start time and kind |
| Cursors.Advance | backend/src/index.js:289 | `$max`: the cursor becomes the larger of the old value and the new time; other users' cursors stay |
| Cursors.CursorIsMaximum | backend/src/index.js:287-290 | after any sequence of updates, in any order, the cursor is the maximum time ever submitted, and no cursor moved back |
| Cursors.MaxDelivered | backend/src/index.js:287-290 | only the named conversation's delivered cursor changes, and only if the conversation is stored |
| Cursors.MaxRead | backend/src/index.js:328-331 | only the named conversation's read cursor changes, and only if the conversation is stored |
| Cursors.DeliverTo | backend/src/index.js:287-290 | a delivery only moves cursors forward |
| Cursors.LateDeliveryIsNoOp | backend/src/index.js:287-290 | after delivering `t1 < t2`, delivering `t1` again leaves the store as it is, with the cursor at `t2` or later |
| Cursors.ReadNoticesExact | backend/src/index.js:334-343 | a `read_up_to` notice goes to exactly the participants other than the reader |
| Cursors.CatchupForward | backend/src/index.js:203-213 | catch-up only moves cursors forward |
| Cursors.CatchupNoticesExact | backend/src/index.js:203-221 | a `delivered` notice goes out exactly for each usable group that is newer than the stored cursor |
| Cursors.CatchupKeeps | backend/src/index.js:208-213 | a cursor already at or past a time stays there through catch-up |
| Cursors.CatchupCovers | backend/src/index.js:203-221 | after catch-up, the user's cursor in each stored conversation of a usable group is at least that group's time |
| Cursors.CatchupIdempotent | backend/src/index.js:172-226 | a second catch-up with the same groups notifies no one about a stored conversation |
| Cursors.CursorStore.Delivered | backend/src/index.js:277-300 | an unknown or missing id changes nothing; otherwise the recipient's delivered cursor gets `$max`, and the sender is notified, under the id it asked about, even when the cursor did not move |
| Cursors.CursorStore.ReadUpTo | backend/src/index.js:323-347 | a missing id or reader changes nothing; otherwise the reader's read cursor gets `$max` of the sent time, or now when the time is absent or 0, and the other participants are notified in order |
| Cursors.CursorStore.CatchupDelivered | backend/src/index.js:172-226 | the store and notices equal the catch-up specification, with cursors read once before the loop |
| Fcm.TypeField | backend/src/fcm.js:91 | `type` is never empty: the truthy `data.type`, else `message` |
| Fcm.RemappedKeys | backend/src/fcm.js:79-89 | the remapped payload has a key exactly for each renamed source key, so never `from` or `to` |
| Fcm.RemappedValues | backend/src/fcm.js:79-89 | a key outside the renaming keeps its stringified value; `senderId` and `recipientId` carry `from` and `to` |
| Fcm.RemappedAppend | backend/src/fcm.js:80-88 | a later entry overrides an earlier one under the same key |
| Fcm.Alert | backend/src/fcm.js:104-122 | call notifications are public, vibrate and set content-available; others are private |
| Fcm.TokenOf | backend/src/fcm.js:71-74 | a push goes only to a user who exists and has a non-empty token |
| Fcm.BuildFcmData | backend/src/fcm.js:79-91 | the loop builds the remapped payload with `type` set; it never contains `from` or `to` |
| Fcm.SendFcmNotification | backend/src/fcm.js:63-127 | no send without SDK, user or token; otherwise the defaulted notification, the remapped data, the token and the call or message style |
| Fcm.MessageRemapped | backend/src/fcm.js:154-167 | the message data, key by key, with the optional fields only when present |
| Fcm.MessageFcmData | backend/src/fcm.js:154-167 | the generic path turns the message entries into the message map: reserved keys renamed, empty optional fields absent, `type` set to `message` |
| Fcm.MessagePayload | backend/src/fcm.js:154-167 | type `message`, so never styled as a call; the message and conversation ids; sender and recipient under their renamed keys |
| Fcm.MessagePayloadOptional | backend/src/fcm.js:154-167 | the file fields appear exactly when present, with their values, and `callActivity: 'true'` exactly when set |
| Fcm.MessagePayloadKeys | backend/src/fcm.js:154-167 | no key beyond the message fields and `type` |
| Fcm.SendMessageNotification | backend/src/fcm.js:148-170 | the title is the sender name and the body the text, each with its default; the payload is the message data; the style is non-call |
| Fcm.CallNotification | backend/src/fcm.js:197-256 | no send without SDK, recipient or token; otherwise a data-only message to the recipient's token |
| Fcm.CallPayloadKeys | backend/src/fcm.js:234-247 | exactly the fixed keys, plus `sdp` only when an offer exists |
| Fcm.CallPayloadFields | backend/src/fcm.js:234-247 | type `CALL`; the caller name is the given one or, when empty, `Unknown Caller`; caller and recipient are under `callerId` and `recipientId` |
| Fcm.CallPayloadVideo | backend/src/fcm.js:216-244 | `isVideoCall` is `true` exactly when the kind is `video` or the flag is set; the kind defaults to the call type |
| Fcm.CallPayloadTimestamp | backend/src/fcm.js:234-245 | the timestamp reads back as the supplied time, or now when none (or 0) was given |
| Fcm.CallPayloadSdp | backend/src/fcm.js:246 | the payload has `sdp` exactly when an offer exists, holding its JSON text, which decodes back to the offer |
| Fcm.SdpJsonRoundTrip | backend/src/fcm.js:246 | the JSON text of an SDP object decodes back to that object |
| Fcm.CallEndedNotification | backend/src/fcm.js:318-333 | no send without SDK, recipient or token; otherwise a data-only message |
| Fcm.CancelPayloadFacts | backend/src/fcm.js:337-344 | type `CANCEL`, action `dismiss`, reason `caller_hung_up`; the call id is kept; the caller name is the given one or, when empty, `Unknown Caller`; the timestamp reads back as the supplied one or now |
| Server.MessagePushFor | backend/src/index.js:1020-1033 | a message is pushed exactly when the recipient has no live socket and it is not call activity; the sender name is the sender's name or, when missing or empty, `Someone` |
| Server.MessagePushHasNoCallActivity | backend/src/index.js:1025-1027 | a pushed message's payload never carries `callActivity` and has type `message` |
| Server.Dispatch | backend/src/index.js:1033 | each push request reaches its builder: the payload is the message, call or cancel payload of that request |
| Server.SocketServer.Connect | backend/src/index.js:253-264 | the connection is counted, the user is online, on the first socket the user is stamped `now` and announced online, on a later one the presence times and log stay as they were; then catch-up runs |
| Server.SocketServer.Disconnect | backend/src/index.js:617-641 | the socket is uncounted: on the last one the user is removed from the counts, stamped `now` and announced offline; otherwise the count drops by one and nothing is announced. Then, on every disconnect, the user's call ends: the session leaves the table and index, the peer gets one `call:ended` with reason `disconnect`, and no push is requested |
| Server.SocketServer.Hangup | backend/src/index.js:545-548 | the peer counts as connected exactly while it has a live socket |

## Left out

- Socket authentication (JWT), Express routing, HTTP status codes and the request bodies' other fields: plumbing around the modelled handlers.
- MongoDB itself: messages and conversations are maps, and the catch-up aggregation's answer is a parameter. Invalid ObjectIds, which make a query throw, are not modelled; identifiers are plain strings.
- The legacy call events (`call_offer`, `call_answer`, `ice_candidate`, `call_end`), `typing`, and every REST route other than `/presence` and `/calls/:callId/status`.
- Interleaving at `await` points: each handler is atomic. In the source the ring timer is armed only after the push awaits, so a hangup in between can leave a timer that later fires on a removed session; that callback then does nothing, as `FireTimeout` states.
- The order of emits across the three registries: each keeps its own log.
- ISO date formatting: times are integers (milliseconds), and `toISOString` is not modelled.
- `Presence.PresenceRegistry.Report`: the online list is a set, so the order of JavaScript `Map` keys is not captured.
- `Text.LexLess`: compares code points, whereas JavaScript compares UTF-16 code units; the two differ only above U+FFFF.
- `Text.IntToDecimal`: the exponent notation `String(n)` uses for numbers of 1e21 and above is not modelled.
- `Fcm.SdpJson`: the SDP object is taken as exactly `{type, sdp}` in that key order; other fields of the client's object are not modelled.
- `Fcm.CallPayload`: the avatar is read from `avatarUrl` only; the legacy `avatar` and `profilePicture` fields are not in the model.
- The SDK send result, its failures and the removal of an invalid token after a failed send: the SDK is foreign code.
- `Server.Dispatch`: the caller profile used for the call push's avatar is a parameter; the model does not tie it to the user stored under the call's `from`, because a profile carries no id.
- FCM initialisation from the service-account file: reduced to the `fcmReady` flag.
- `Cursors.CursorStore.ReadUpTo`: a client time that does not parse as a date is not modelled; `at` is absent or an integer time, and absent or 0 (falsy) means now.
- `Cursors.CursorStore.Delivered`, `Cursors.CursorStore.ReadUpTo`, `Cursors.CursorStore.CatchupDelivered`: the conversation schema (backend/src/models/Conversation.js) declares no `deliveredUpTo` or `readUpTo` path, and Mongoose's default strict mode is likely to drop `$max` updates to undeclared paths; the model takes the cursor writes to persist, as the handlers intend.
- `UserModel.UpdateDocument.PreUpdate`: the casting Mongoose applies to an update after the hook (which can run the schema setters again) is not modelled.
- Aliasing of session objects: a session is a value in the table map, and its in-place update is a map entry replaced.
