# Friend requests and call signalling of a language-exchange chat app

This project models the core of a language-exchange chat application. It has
five parts, one Dafny module each, plus a shared module.

- **Friend-request ledger** (`friend_ledger.dfy`, module `FriendLedger`). This
  is the user controller of the backend. The database is two tables: users,
  each with a friend list, and friend requests. The read-only endpoints are
  functions over the tables: recommendations, my friends, incoming, accepted
  and outgoing requests. Sending and accepting a request are methods of the
  class `Store`. Each method is proved equal to a step function (`SendStep`,
  `AcceptStep`) and keeps the store's invariant: the friend graph is
  symmetric and duplicate-free, no request is self-addressed, and there is at
  most one request per pair of users.
- **Call signalling** (`chat_page.dfy`, module `ChatPage`; wire format in
  `messages.dfy`, module `Messages`). Both peers derive the same channel and
  call id by sorting their two ids. An inbound invitation is accepted only
  when it is addressed to me and not sent by me. The page's handlers send
  invitations and responses, record the incoming call and navigate. The chat
  client is a class whose per-channel handler count stays at most one.
- **Call session** (`call_page.dfy`, module `CallPage`). The page recovers the
  peer's id from the call id. It keeps two process-wide handles, a video
  client and a call instance, and reuses them when they belong to the same
  user and the same call. A single-shot flag guards initialisation, and each
  call event has exactly one handler. Cleanup stops every local media track
  and releases both handles. An exception in a cleanup step skips the steps
  after it.
- **Message bubble** (`custom_message.dfy`, module `CustomMessage`). It
  classifies a message as a call invitation, a call response (accepted or
  declined) or an ordinary message. It also proves that the messages the
  chat page sends are classified as intended.
- **Channel header** (`channel_header.dfy`, module `ChannelHeader`). It shows
  the first channel member other than me, with fallback name and picture,
  and a presence line ("Online", "Just now", "5m ago", "3h ago", "2d ago",
  "Offline").
- `common.dfy` (module `Common`) holds JavaScript's truthiness, `||`, template
  interpolation, `Array.prototype.find`, `String.prototype.includes`, ASCII
  lower-casing and decimal spelling.

The chat and video services are not modelled; every result they produce is
a parameter. Whether a connect, watch, send, join, leave or disconnect
succeeds is a boolean parameter, and so is the elapsed time since a member
was last active. Navigation is the recorded target path. A `setTimeout`
callback is an entry in a queue of pending timers.

The store's send uses the corrected self check (`SendStep`). The check as
written is modelled by `SendStepAsWritten` (see Findings).

## Model

| member | source | states |
|---|---|---|
| Common.Find | frontend/src/pages/CallPage.jsx:44 | the element found satisfies the test and every earlier element fails it; no element passes when nothing is found |
| FriendLedger.FindUser | backend/src/controllers/user.controller.js:41 | the user found has the requested id and is in the table; none is found only when no user has that id |
| FriendLedger.FindUserAt | backend/src/controllers/user.controller.js:41 | with unique ids, looking up the id at any position yields the user at that position |
| FriendLedger.FindBetween | backend/src/controllers/user.controller.js:49-54 | the record found links the two users in one direction or the other; none is found only when no record links them |
| FriendLedger.SendStatusCode | backend/src/controllers/user.controller.js:38-65 | 201 exactly for a sent request, 404 exactly for a missing recipient, 400 for every other refusal |
| FriendLedger.AcceptStatusCode | backend/src/controllers/user.controller.js:77-96 | 200 exactly for a success, 404 exactly for an unknown request, 403 exactly when the caller is not the recipient |
| FriendLedger.Project | backend/src/controllers/user.controller.js:109-114 | a populated user keeps id, name and picture, and has language tags exactly when the projection names them, those being the user's own tags |
| FriendLedger.RecommendedExactly | backend/src/controllers/user.controller.js:9-15 | a user is recommended if and only if they are onboarded, are not the caller and are not in the caller's friend list |
| FriendLedger.ResolveExactly | backend/src/controllers/user.controller.js:25 | a profile is listed if and only if it is the projection of an existing user whose id is in the friend list |
| FriendLedger.MyFriends | backend/src/controllers/user.controller.js:25-31 | there is no answer (the endpoint's 500) exactly when the caller's own record is missing |
| FriendLedger.FriendsListed | backend/src/controllers/user.controller.js:25-27 | with unique ids, the friends returned are exactly the existing users in the caller's friend list, with languages |
| FriendLedger.Matching | backend/src/controllers/user.controller.js:106-108 | the ids returned are exactly the records with that party and status, in table order, each in range |
| FriendLedger.Incoming | backend/src/controllers/user.controller.js:106-109 | lists every pending request addressed to the caller, each under its own id, and nothing else; each shows its sender populated with languages |
| FriendLedger.AcceptedReqs | backend/src/controllers/user.controller.js:111-114 | lists every accepted request the caller sent, each under its own id, and nothing else; each shows its recipient with name and picture only |
| FriendLedger.Outgoing | backend/src/controllers/user.controller.js:127-134 | lists every pending request the caller sent, each under its own id, and nothing else; each shows its recipient populated with languages |
| FriendLedger.FriendRequests | backend/src/controllers/user.controller.js:104-119 | the answer carries the incoming listing and the accepted listing under their two keys |
| FriendLedger.AddToSet | backend/src/controllers/user.controller.js:88-90 | after `$addToSet` the list holds exactly the old members plus the new one, and stays duplicate-free |
| FriendLedger.AddFriend | backend/src/controllers/user.controller.js:88-90 | only the target user's friend list changes; every user keeps its place |
| FriendLedger.AddFriendIdempotent | backend/src/controllers/user.controller.js:88-90 | adding the same friend twice is the same as adding it once |
| FriendLedger.BefriendLinks | backend/src/controllers/user.controller.js:88-94 | after the two updates each of the two users lists the other; nobody else and no id changes |
| FriendLedger.BefriendPreservesGraph | backend/src/controllers/user.controller.js:88-94 | the two updates keep the friend graph symmetric with duplicate-free lists |
| FriendLedger.BefriendIdempotent | backend/src/controllers/user.controller.js:88-94 | repeating the two updates changes no friend list |
| FriendLedger.SendPastSelfCheck | backend/src/controllers/user.controller.js:41-65 | the guards after the self check never answer "self"; a record is added exactly when the request is sent, as a pending record with the next id |
| FriendLedger.SendStep | backend/src/controllers/user.controller.js:34-65 | the self check refuses exactly the requests to oneself; the user table never changes; a sent request is appended as pending under the next id |
| FriendLedger.SendOutcomes | backend/src/controllers/user.controller.js:38-57 | with unique ids, each guard fires in its case; the request is sent if and only if the recipient exists, is neither the caller nor a friend, and no record links the two |
| FriendLedger.SendPreservesInvariant | backend/src/controllers/user.controller.js:49-65 | sending keeps every record pair-unique in both directions and never self-addressed |
| FriendLedger.SecondDirectionRefused | backend/src/controllers/user.controller.js:49-57 | once A has sent to B, a request from B to A is refused as already sent |
| FriendLedger.SendStepAsWritten | backend/src/controllers/user.controller.js:38-40 | the check as written, an ObjectId compared with a string by `===`, never answers "self" |
| FriendLedger.SelfRequestSlipsThrough | backend/src/controllers/user.controller.js:38-65 | as written, a request to oneself is created with 201 and breaks the ledger's invariant; the corrected step refuses it with 400 and changes nothing |
| FriendLedger.AcceptStep | backend/src/controllers/user.controller.js:72-94 | 404 exactly for an unknown id, 403 exactly when the caller is not the recipient, and neither changes anything; on success only that record changes, to accepted |
| FriendLedger.AcceptPreservesInvariant | backend/src/controllers/user.controller.js:85-94 | accepting keeps the ledger and the friend graph invariant |
| FriendLedger.AcceptLinks | backend/src/controllers/user.controller.js:88-94 | after a successful accept, sender and recipient list each other as friends |
| FriendLedger.AcceptIdempotent | backend/src/controllers/user.controller.js:85-94 | accepting the same request again succeeds and leaves both tables as they were |
| FriendLedger.SendThenAcceptBefriends | backend/src/controllers/user.controller.js:59-94 | a sent request accepted by its recipient makes the two users friends |
| FriendLedger.Store.SendFriendRequest | backend/src/controllers/user.controller.js:34-70 | the result and new store are those of the send step; the store invariant is kept |
| FriendLedger.Store.AcceptFriendRequest | backend/src/controllers/user.controller.js:72-101 | the three writes, in order, produce the accept step's result and tables; the store invariant is kept |
| Messages.InvitationAttachment | frontend/src/pages/ChatPage.jsx:117-125 | an invitation is tagged `call_invitation`, carries the call, caller and receiver ids and the caller's name and picture, and has status pending |
| Messages.ResponseAttachment | frontend/src/pages/ChatPage.jsx:144-149 | a response is tagged `call_response` and carries the call id, the responder and the status |
| ChatPage.BeforeAsymmetric | frontend/src/pages/ChatPage.jsx:62 | the string order of `sort()` never puts two ids before each other |
| ChatPage.BeforeTotal | frontend/src/pages/ChatPage.jsx:62 | of two different ids one sorts before the other |
| ChatPage.ChannelIdSymmetric | frontend/src/pages/ChatPage.jsx:62 | both users derive the same channel id, which is their two ids joined by a dash in some order |
| ChatPage.IncomingFrom | frontend/src/pages/ChatPage.jsx:79-85 | the recorded call carries the first attachment's call id, caller name and caller picture, the message id and the channel it arrived on |
| ChatPage.InvitationPromptsOnlyCallee | frontend/src/pages/ChatPage.jsx:72-78 | the invitation the caller sends prompts the callee, never the caller, and carries the id of the channel both share |
| ChatPage.ChatScreen.InitChat | frontend/src/pages/ChatPage.jsx:44-99 | without a token nothing changes; otherwise it connects only a client not already holding this user, watches the shared channel with exactly one message handler, and clears loading whatever fails |
| ChatPage.ChatScreen.ReleaseHandler | frontend/src/pages/ChatPage.jsx:103-107 | the cleanup removes the handler of the channel its render saw, and nothing when that was still null |
| ChatPage.ChatScreen.OnMessageNew | frontend/src/pages/ChatPage.jsx:70-89 | an incoming call is recorded exactly when the first attachment is an invitation to me not sent by me |
| ChatPage.ChatScreen.HandleVideoCall | frontend/src/pages/ChatPage.jsx:110-136 | with a channel and a successful send, one invitation is sent and the page goes to the call; otherwise nothing changes |
| ChatPage.ChatScreen.HandleAcceptCall | frontend/src/pages/ChatPage.jsx:138-159 | an accepted call sends one acceptance on its channel, goes to its call and clears the invitation; a failed send changes nothing |
| ChatPage.ChatScreen.HandleDeclineCall | frontend/src/pages/ChatPage.jsx:161-182 | a declined call sends one refusal and clears the invitation without navigating; a failed send changes nothing |
| CallPage.Split | frontend/src/pages/CallPage.jsx:44 | splitting always yields at least one part |
| CallPage.JoinSplit | frontend/src/pages/CallPage.jsx:44 | joining the parts with the separator gives back the call id |
| CallPage.SplitWithoutSeparator | frontend/src/pages/CallPage.jsx:44 | an id without a dash is a single part |
| CallPage.SplitAtFirstSeparator | frontend/src/pages/CallPage.jsx:44 | a dash-free id before the first dash is the first part |
| CallPage.TargetIsPeer | frontend/src/pages/CallPage.jsx:44 | for two distinct dash-free ids, each side recovers the other's id from the call id |
| CallPage.Track.Stop | frontend/src/pages/CallPage.jsx:157 | a stopped track is no longer live |
| CallPage.StopAll | frontend/src/pages/CallPage.jsx:156-160 | every track of the list is stopped |
| CallPage.CallSession.Cleanup | frontend/src/pages/CallPage.jsx:151-176 | every local track stops; the call is left and dropped, then a client with a user is disconnected and dropped, then the flag clears, each step only if no earlier step threw |
| CallPage.CallSession.AcquireClient | frontend/src/pages/CallPage.jsx:70-84 | the global client ends up holding my user; it is kept if it already did, otherwise a new one replaces it after a disconnect attempt |
| CallPage.CallSession.AcquireCall | frontend/src/pages/CallPage.jsx:86-96 | the global call ends up with this call id; it is kept if it already had it, otherwise a new one from the current client replaces it after a leave attempt |
| CallPage.CallSession.RebindHandlers | frontend/src/pages/CallPage.jsx:98-120 | after `off` and `on` each of the three call events has exactly one handler |
| CallPage.CallSession.Prepare | frontend/src/pages/CallPage.jsx:70-120 | both handles are acquired for my user and this call, with one handler per event |
| CallPage.CallSession.InitCall | frontend/src/pages/CallPage.jsx:47-145 | a failed guard changes nothing; a successful join publishes the shared handles, joined, with one handler per event; a failed join cleans up and goes back to the chat |
| CallPage.CallSession.OnCallEnded | frontend/src/pages/CallPage.jsx:102-106 | the call's tracks stop, the handles are released as far as cleanup got, and the page goes back to the chat |
| CallPage.CallSession.OnCallRejected | frontend/src/pages/CallPage.jsx:108-116 | the declined notice shows and one deferred cleanup-and-return is queued |
| CallPage.CallSession.FireTimer | frontend/src/pages/CallPage.jsx:112-115 | the earliest deferred callback cleans up and navigates to the path it holds |
| CustomMessage.Render | frontend/src/components/CustomMessage.jsx:4-98 | an invitation bubble exactly for an invitation attachment or "is calling you" text; a response bubble exactly for the other messages with a response attachment or response text; the caller's name falls back to the author's, then to "Unknown", and the caller's picture to the author's; the responder is the author, named "Someone" when nameless |
| CustomMessage.InvitationRendersAsInvitation | frontend/src/components/CustomMessage.jsx:17-24 | the invitation the chat page sends shows as an invitation with the caller's name and picture |
| CustomMessage.AcceptedTextReadsAsAcceptance | frontend/src/components/CustomMessage.jsx:52-54 | the text "Call accepted" is a response text that says accepted, and not an invitation text |
| CustomMessage.DeclinedTextReadsAsRefusal | frontend/src/components/CustomMessage.jsx:52-54 | the text "Call declined" is a response text that does not say accepted, and not an invitation text |
| CustomMessage.ResponseRendersAsResponse | frontend/src/components/CustomMessage.jsx:52-60 | a response the chat page sends shows as a response, accepted exactly when the answer was an acceptance, and labelled "Joined the Call" or "Declined the Call" accordingly |
| ChannelHeader.StatusOf | frontend/src/components/CustomChannelHeader.jsx:20-32 | an online member reads online; without a last-activity date, offline; an unparsable date gives the NaN reading |
| ChannelHeader.StatusBuckets | frontend/src/components/CustomChannelHeader.jsx:25-29 | under a minute reads just now; minutes, hours and days each cover exactly their span, and name the whole number of units elapsed |
| ChannelHeader.StatusTextRoundTrip | frontend/src/components/CustomChannelHeader.jsx:21-31 | each presence line reads back as the presence it shows, so different presences never show the same line |
| ChannelHeader.Header | frontend/src/components/CustomChannelHeader.jsx:10-59 | no header without a channel or without another member; otherwise the first other member, with the "Unknown User" and "/default-avatar.png" fallbacks and its presence line |

## Left out

- HTTP routing, the authentication middleware and token issuing are not modelled. The authenticated caller is a parameter.
- Database failures and the catch-all 500 answers are not modelled. The one exception is `getMyFriends` when the caller's record is missing.
- Ids are plain strings. The accept check at backend/src/controllers/user.controller.js:81 compares ids with `toString()`, which matches that. The comparison at line 38 is the finding below.
- The default "pending" status of a new request comes from the request schema. That schema is not part of this model, so the status is written out in `SendStep`.
- The three writes of `acceptFriendRequest` are not atomic. The model runs them in order but leaves out a failure between them.
- `find` answers in insertion order. The model assumes this because the source asks for no sort.
- Toasts, console output and every rendered element are not modelled: loaders, colours, icons, the "Call Declined" screen.
- CustomMessage.Render: `isDeclined` is computed by the source but never used, so it is not modelled.
- The video and chat services are represented only by the results they return. The peer's membership, `client.channel` and the internals of `join` are not modelled.
- The handler counts assume that `off(event)` with no callback removes every handler of that event, in both the chat SDK and the video SDK. The SDKs are not part of this model. Without that behaviour, ChatPage.AtMostOneHandler and CallPage.OneHandlerEach would not hold.
- The 2000 ms delay is not modelled as time. Pending timers form a queue, and `FireTimer` runs the oldest one.
- CallPage.CallSession.InitCall: the outer catch at frontend/src/pages/CallPage.jsx:135-141 is not modelled. It would handle an exception thrown while a handle is being created. The model assumes the two handles are created without error.
- The `call.joined` handler at frontend/src/pages/CallPage.jsx:118-120 only logs. It is counted as a handler and does nothing else.
- The `LEFT` calling-state effect at frontend/src/pages/CallPage.jsx:229-234 does the same cleanup and navigation as `OnCallEnded` and is not modelled separately. The same holds for the `beforeunload` cleanup at lines 178-187 (cleanup only).
- ChatPage.ChatScreen.InitChat: the page's signed-in user is always present. The early return for a missing `authUser` at frontend/src/pages/ChatPage.jsx:45 is covered only for the token.
- CallPage.TargetIsPeer holds for ids without a dash. Database ids are hexadecimal, so ids containing "-" are not modelled. With them the joined id is ambiguous.
- ChannelHeader.StatusOf: parsing the date and reading the clock are not modelled. The elapsed milliseconds, or NaN for an unparsable date, are a parameter.
- Case-insensitive matching and `toLowerCase` are modelled for ASCII letters only. The patterns matched are ASCII.

## Findings

| source | as written | input that shows it | evidently intended | confidence | as-written member | corrected member |
|---|---|---|---|---|---|---|
| backend/src/controllers/user.controller.js:38 | `myId === recipientId` compares the caller's `_id`, an ObjectId object, with the route's string id, so it is never true | a registered user "a" who is not on their own friend list sends a request to "a": the other guards pass and a pending request from "a" to "a" is created with 201 | answer 400 "You cannot send a friend request to yourself" and create nothing | not executed; the types follow from the authentication middleware loading the user document | FriendLedger.SelfRequestSlipsThrough | FriendLedger.SendStep |
