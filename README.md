# Ephemeral chat: session gating, sign-up validation and the chat room, in Dafny

This project models the client-side logic of a small single-room chat
application whose delivery, presence and authentication are done by a hosted
realtime backend. Four parts are modelled:

- **Session context** (`session.dfy`, module `SessionContext`). The provider
  holds `session` and `loading`. It starts with no session and `loading` set.
  The one initial `getSession()` fetch stores its session and clears
  `loading`. Every auth-state change replaces the session and leaves
  `loading` alone. Teardown unsubscribes the auth listener when one was
  handed back. The class `SessionProvider` changes its fields in place. Each
  of its methods is tied to the pure transition `StoreStep`, and the lemmas
  are stated over traces (`StoreRun`).
- **Route guard** (`wrapper.dfy`, module `Wrapper`). `Gate` is the pure
  decision over `loading`, the session and the page's `prevent` value (which
  kind of visitor the page keeps out). Two lemmas connect it to the session
  context's traces.
- **Sign-up form** (`signup.dfy`, module `Signup`). This covers the
  password-strength scorer (`CheckPasswordStrength` with its running counter,
  specified by `Strength` and `Message`), the bar and label colours, the two
  submit checks (`Validate`), and the form class `SignupForm`. Its
  `HandleSignup` issues the sign-up request only when the checks pass. On a
  clean reply it clears the fields.
- **Chat room** (`chat.dfy`, module `Chat`). The room is a state machine
  driven by events: session change, broadcast "message", presence "sync",
  subscribe status, typing, send, sign-out and unmount. The backend appears
  only as the payloads of those events. In the other direction, the calls
  the room makes (open/track/publish/insert/unsubscribe/sign-out) are
  recorded in order. `RoomController` changes its fields in place, and each
  handler is tied to the pure `Step`. The properties are lemmas over `Step`
  and `Run`:
  - the log is append-only;
  - send never appends;
  - presence sync replaces the online list;
  - at most one channel is open, channels are opened and released strictly
    in turn, and every other opened channel was unsubscribed exactly once.

Things the code does that a reader might not expect, and that the model keeps:

- `password.length` counts UTF-16 code units. `Utf16Length` counts two for a
  character beyond U+FFFF.
- `[^A-Za-z0-9]` is any character that is not an ASCII letter or digit.
- `isMine` on a received message is recomputed by comparing emails. This
  overrides the `isMine: true` that every sender publishes.
- The online list is cleared only when there is no user. A session change to
  another user keeps the previous list until the next sync.
- The log is never cleared on session change.
- Without a user, `session?.user?.id.slice(0, 4)` short-circuits to
  `undefined`, so the sender name becomes `AnonymousUser-undefined`.
- `prevent="guest"` keeps guests out: with a session the page is rendered,
  and without one the guard redirects to `/login`. `prevent="user"` keeps
  signed-in users out and redirects them to `/`.
- The guard renders the page under the overlay while loading, whatever
  `prevent` is. For a `prevent` other than "user" or "guest" it renders
  nothing.
- `getSession().then(...)` has no rejection handler. A fetch that never
  settles, or that rejects, leaves `loading` set for good. In the model such
  a fetch is simply a trace without a `Fetched` event
  (`LoadingUntilFetched`). A fetch that settles after an auth-state change
  overwrites the newer session (`SessionIsLastDelivered`: the last event
  that carries a session wins).

## Model

| member | source | states |
|---|---|---|
| SessionContext.UserOf | src/pages/Chat.jsx:18 | `session?.user` is present exactly when both the session and its user are present, and it is then that user |
| SessionContext.Initial | src/contexts/session.jsx:7-8 | the provider starts with no session, loading, and no unsubscribe call made |
| SessionContext.StoreStep | src/contexts/session.jsx:11-18 | fetch resolution sets the session to the fetched value and clears loading; an auth change replaces the session and keeps loading; teardown keeps both and adds one unsubscribe exactly when a subscription exists |
| SessionContext.LoadingMonotone | src/contexts/session.jsx:8-13 | once loading is false, no trace of events makes it true again |
| SessionContext.LoadingUntilFetched | src/contexts/session.jsx:7-14 | after any trace, loading holds exactly when it held before and the trace has no fetch resolution |
| SessionContext.UnsubscribeOnlyWithSubscription | src/contexts/session.jsx:15-18 | over a trace, unsubscribe is called once per teardown when the listener gave a subscription and never otherwise |
| SessionContext.SessionIsLastDelivered | src/contexts/session.jsx:11-16 | the stored session is the one carried by the last fetch resolution or auth change of the trace |
| SessionContext.TeardownsKeepSession | src/contexts/session.jsx:18 | teardowns never change the stored session |
| SessionContext.SessionProvider.constructor | src/contexts/session.jsx:6-16 | mounting yields the initial state, with or without a listener subscription |
| SessionContext.SessionProvider.SessionFetched | src/contexts/session.jsx:11-14 | the fields change as the fetch-resolution transition says |
| SessionContext.SessionProvider.AuthStateChanged | src/contexts/session.jsx:16 | the fields change as the auth-change transition says |
| SessionContext.SessionProvider.Unmount | src/contexts/session.jsx:18 | the fields change as the teardown transition says |
| Wrapper.Gate | src/pages/Wrapper.jsx:6-23 | overlay and page exactly while loading, so there is never a redirect while loading; not loading: "user" with a session goes to `/` and without one gets the page; "guest" with a session gets the page and without one goes to `/login`; any other value renders nothing |
| Wrapper.OverlayExactlyUntilFetched | src/pages/Wrapper.jsx:9-16 | under a freshly mounted provider, a guarded page shows the overlay exactly until the fetch has resolved |
| Wrapper.GuestGateFollowsSession | src/pages/Wrapper.jsx:20-21 | after the fetch has resolved, a guest-excluding page renders exactly when a session is stored and redirects to `/login` exactly when none is |
| Signup.Test | src/pages/Signup.jsx:40-42 | the class test holds exactly when some character of the password is in the class |
| Signup.Utf16Length | src/pages/Signup.jsx:29-37 | the JavaScript length lies between the number of characters and twice it, is zero exactly for the empty password, and equals the number of characters when every character is in the Basic Multilingual Plane |
| Signup.Utf16LengthSnoc | src/pages/Signup.jsx:29-37 | appending a character adds one code unit, or two for a character outside the Basic Multilingual Plane |
| Signup.Utf16LengthCountsAstral | src/pages/Signup.jsx:29-37 | the JavaScript length is the number of characters plus the number of positions holding a character outside the Basic Multilingual Plane |
| Signup.Strength | src/pages/Signup.jsx:29-42 | strength lies between 0 and 5 and is 0 for the empty password |
| Signup.StrengthCountsCriteria | src/pages/Signup.jsx:29-42 | for a non-empty password the strength equals the number of satisfied criteria among length > 6, length > 10, `[A-Z]`, `[0-9]`, `[^A-Za-z0-9]`; the empty password scores 0 |
| Signup.LengthBands | src/pages/Signup.jsx:36-37 | length above 10 meets both length criteria, length 6 or less meets neither |
| Signup.Rating | src/pages/Signup.jsx:45-51 | "Weak" iff strength < 2, "Medium" iff 2 <= strength < 4, "Strong" iff strength >= 4 |
| Signup.Message | src/pages/Signup.jsx:29-54 | the message is empty exactly for the empty password; otherwise it is one of the three labels, Weak iff strength < 2, Strong iff strength >= 4 |
| Signup.CheckPasswordStrength | src/pages/Signup.jsx:25-55 | the counter-based scorer returns exactly the strength and message above |
| Signup.StrengthColor | src/pages/Signup.jsx:57-61 | red iff the label is Weak, yellow iff Medium, green iff Strong |
| Signup.MessageColor | src/pages/Signup.jsx:262-265 | the label's text colour follows the same three-way correspondence |
| Signup.Validate | src/pages/Signup.jsx:71-93 | a mismatch is reported exactly when the passwords differ, before strength is looked at; submission happens exactly for equal passwords with strength >= 2 |
| Signup.Outcome | src/pages/Signup.jsx:95-142 | a submission ends with the mismatch error exactly when the match check failed, with the weakness error exactly when the strength check failed, created exactly when the checks passed and the backend accepted, rejected exactly when the checks passed and the backend returned an error, carrying that error's message, and crashed exactly when the checks passed and the call threw |
| Signup.SignupForm.constructor | src/pages/Signup.jsx:8-16 | all fields start empty, not loading, strength 0, no request issued |
| Signup.SignupForm.SetUsername | src/pages/Signup.jsx:180 | sets the username and keeps the strength fields in step with the password |
| Signup.SignupForm.SetEmail | src/pages/Signup.jsx:205 | sets the email and keeps the strength fields in step with the password |
| Signup.SignupForm.SetConfirmPassword | src/pages/Signup.jsx:289 | sets the confirmation and keeps the strength fields in step with the password |
| Signup.SignupForm.SetPassword | src/pages/Signup.jsx:21-23 | sets the password, and the scoring effect leaves strength and message matching it |
| Signup.SignupForm.HandleSignup | src/pages/Signup.jsx:67-143 | failed checks change nothing and issue nothing; otherwise exactly one request with the form's email, password and username is issued and loading ends false; an accepted reply clears username, email, password and confirmation, and a refusal or a throw leaves them |
| Signup.BrowserAccepts | src/pages/Signup.jsx:174-289 | the browser lets the form submit exactly when each of the four `required` inputs has a value of non-zero JavaScript length and the `type="email"` input passes its syntax check |
| Signup.SubmitOnce | src/pages/Signup.jsx:71-105 | a form that fails the browser's constraint validation (an empty required input, an ill-formed e-mail) never reaches the handler; otherwise the outcome is that of the two checks and the reply, and at most one request is issued, one exactly when the passwords match with strength >= 2, carrying the entered fields |
| Chat.Step | src/pages/Chat.jsx:17-101 | one event of the room: the call log only grows, the message log only grows and by one entry exactly for a broadcast on an open channel, the online list changes only on a session change or a sync on an open channel, the session only on a session change, the channel only on a session change or unmount, the input only on typing or sending |
| Chat.Prefix | src/pages/Chat.jsx:67 | `slice(0, n)` is a prefix of length min(n, length) |
| Chat.SenderName | src/pages/Chat.jsx:67 | a truthy username is used as is; otherwise the name is `AnonymousUser-` followed by the first min(4, length) characters of the id; without a user it is `AnonymousUser-undefined` |
| Chat.Outgoing | src/pages/Chat.jsx:62-74 | the published payload carries the clock id and time, the resolved sender name, the user's id and email, the input text, and `isMine` true |
| Chat.Received | src/pages/Chat.jsx:31 | the stored entry is the payload with `isMine` replaced by "payload email equals the user's email" |
| Chat.Keys | src/pages/Chat.jsx:47-48 | the online list has one entry per presence key, in key order |
| Chat.SignedOutClearsPresence | src/pages/Chat.jsx:17-21 | a session without a user empties the online list, opens no channel, releases the previous channel once if there was one, and keeps the log |
| Chat.SignedInOpensChannel | src/pages/Chat.jsx:22-28 | a session with a user releases the previous channel and opens `room_one` with presence key equal to the user id |
| Chat.BroadcastAppendsOne | src/pages/Chat.jsx:30-32 | a broadcast adds exactly one entry at the end, earlier entries unchanged, its `isMine` given by the email comparison |
| Chat.PresenceSyncReplaces | src/pages/Chat.jsx:46-49 | a sync sets the online list to exactly the presence keys, without repeats for distinct keys, and leaves the log, the calls, the input, the channel and the session unchanged |
| Chat.TrackOnlyWhenSubscribed | src/pages/Chat.jsx:36-42 | `{id: user.id}` is tracked exactly on status "SUBSCRIBED" of the open channel |
| Chat.SendOnlyPublishes | src/pages/Chat.jsx:58-86 | sending publishes one payload, inserts the text unless the publish threw, never changes the log, and always clears the input |
| Chat.StepKeepsInvariants | src/pages/Chat.jsx:17-54 | every event keeps the channel owned by the current user under the user's id, and keeps channels opened and released strictly in turn with one held exactly while the room has one open |
| Chat.OneChannelAtATime | src/pages/Chat.jsx:17-54 | over any trace at most one channel is open and it belongs to the current user; at every point of the call log the unsubscribes never exceed the opens and the opens exceed them by at most one, and at the end every opened channel but the open one was unsubscribed exactly once |
| Chat.HeldCounts | src/pages/Chat.jsx:17-54 | while opens and releases alternate, the opens equal the unsubscribes plus one for the channel still held |
| Chat.ChannelsPaired | src/pages/Chat.jsx:17-54 | while opens and releases alternate, every prefix of the call log has no more unsubscribes than opens and at most one open more than unsubscribes |
| Chat.BrokenStaysBroken | src/pages/Chat.jsx:17-54 | once a channel has been opened while another was held, or released while none was, no later calls restore the pairing |
| Chat.SpuriousReleaseBreaksPairing | src/pages/Chat.jsx:17-54 | an unsubscribe made while no channel is held leaves the call log unpaired whatever calls follow, even ones that bring the totals of opens and unsubscribes level again |
| Chat.MountedIsCoherent | src/pages/Chat.jsx:9-13 | the freshly mounted room satisfies both invariants |
| Chat.LogOnlyGrows | src/pages/Chat.jsx:31 | over any trace the earlier log is a prefix of the later log |
| Chat.OnlyBroadcastsAppend | src/pages/Chat.jsx:30-32 | a trace without broadcasts leaves the log unchanged |
| Chat.LastSyncWins | src/pages/Chat.jsx:46-49 | after the last sync on an open channel, with no later session change, the online list is exactly that sync's keys; nothing accumulates |
| Chat.OwnEchoAppendsOnce | src/pages/Chat.jsx:30-74 | sending and then receiving one's own broadcast adds exactly one entry, marked as one's own and named by the sender name |
| Chat.Decimal | src/pages/Chat.jsx:128 | the count is written as at least one decimal digit without a leading zero |
| Chat.DecimalReadsBack | src/pages/Chat.jsx:128 | the digits read back as the count |
| Chat.OnlineLabel | src/pages/Chat.jsx:128 | "Offline" iff 0 users, "One user online" iff 1, "N users online" for N > 1 |
| Chat.LabelShowsCount | src/pages/Chat.jsx:128 | for more than one user the label's number reads back as the count |
| Chat.IndicatorColor | src/pages/Chat.jsx:127 | the dot is green iff at least one user is online, that is, iff the label is not "Offline" |
| Chat.RoomController.constructor | src/pages/Chat.jsx:9-12 | the page mounts with an empty log, online list and input, and no channel |
| Chat.RoomController.OnSessionChange | src/pages/Chat.jsx:17-54 | the fields change as the session-change transition says |
| Chat.RoomController.OnBroadcast | src/pages/Chat.jsx:30-32 | the fields change as the broadcast transition says |
| Chat.RoomController.OnPresenceSync | src/pages/Chat.jsx:46-49 | the fields change as the sync transition says |
| Chat.RoomController.OnSubscribeStatus | src/pages/Chat.jsx:36-42 | the fields change as the status transition says |
| Chat.RoomController.OnInput | src/pages/Chat.jsx:185 | the input becomes the typed text |
| Chat.RoomController.SendMessage | src/pages/Chat.jsx:58-86 | the fields change as the send transition says |
| Chat.RoomController.SignOutClicked | src/pages/Chat.jsx:88-101 | one sign-out call is recorded and nothing else changes |
| Chat.RoomController.Close | src/pages/Chat.jsx:51 | unmounting releases the open channel, if any |

## Left out

- The backend client (channel transport, presence bookkeeping, auth, the
  message insert) is a foreign library. What it delivers arrives as events,
  and what the room asks of it is a recorded call.
- Asynchrony and effect scheduling are not modelled: promise ordering, the
  double effect runs of development mode, and the `setTimeout` delays
  (navigation to `/login` five seconds after sign-up, auto-scroll). Events
  form one sequential trace.
- Signup.SignupForm.HandleSignup: sets `loading` back to false once the
  request settles. The intermediate `loading = true` is not observable in a
  sequential trace, so the disabled submit button during the request is not
  modelled.
- Chat.RoomController.SignOutClicked: the busy flag set around the sign-out
  call, and the logging of its error, are not modelled for the same reason.
- Chat.SenderName: takes the first four characters of the id by code point.
  JavaScript's `slice` counts UTF-16 code units. The two agree for the
  backend's ASCII user ids.
- Chat.Keys: the model takes the backend's presence-state object as an
  ordered list of entries, in the order `Object.keys` would list them. The
  object's keys are distinct, but `PresenceSync` accepts a list with repeated
  keys; distinctness is a hypothesis only of the distinctness conclusion of
  `PresenceSyncReplaces`. How the backend builds that object is not
  modelled.
- Chat.RoomController.SendMessage: the second `channel("room_one")` lookup
  made while sending is recorded only as the `Publish` call it makes, not as
  an opened channel. Whether that lookup hands back the subscribed channel or
  a fresh one is up to the backend library, so `OneChannelAtATime` counts
  only the channels the session effect opens.
- Signup.Utf16Length: Dafny strings hold Unicode scalar values only, so the
  model takes every input to be well-formed UTF-16. A JavaScript string can
  hold a lone surrogate, which `length` counts as one unit and
  `[^A-Za-z0-9]` matches; such a password is not expressible here.
- SessionContext.User: the e-mail is always present, as it is for this
  application's e-mail sign-up accounts. In JavaScript a user without an
  e-mail has `session.user.email === undefined`, and then `Chat.Received`'s
  comparison would also be true for a payload sent without a user, whose
  `email` is `undefined` as well. The model cannot express that case.
- Signup.SubmitOnce: the browser's e-mail syntax check is the parameter
  `emailWellFormed`; its rules are not modelled.
- Broadcast, sync and status events that arrive when no channel is open are
  ignored, since no handler is registered then.
- `getStrengthWidth` (a floating-point percentage formatted as CSS) is left
  out.
- Clock values (`Date.now()`, `toISOString()`) are parameters.
- `formatTime`, `getUserColor`, the toasts, the `console` logging (including
  the insert's error check, which reads `error` from a promise and so never
  fires), JSX markup and CSS are not modelled.
- Route wiring, bootstrapping and build configuration hold no logic and are
  not part of this model.
