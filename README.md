# Watch party: the room engine, its client and its URL checks, in Dafny

This project models the core of a "watch party" web app. One person (the
host) creates a room for a YouTube or Vimeo video. Viewers join the room by
its code, and everyone's playback is kept in step over a websocket while
they chat. The model covers five parts:

- **The server's room engine** (`WatchPartyConsumer`): a sequential server
  over four pieces of state:
  - the room registry;
  - the channel-layer groups;
  - the process-wide map of pending room deletions;
  - each connection's consumer fields.

  Its events are connecting, receiving a message, disconnecting, and a
  deletion task waking after its grace period. A host `join` cancels the
  registered deletion inside the join step.
  - `consumer.dfy` gives each handler as a pure step function over a
    `State` value.
  - The class `WatchPartyServer` performs the same handlers field by field.
    Its event methods (`Connect`, `Receive`, `Disconnect`,
    `DelayedRoomDeletion`) are proved equal to their step functions and to
    keep the state invariant. The per-message handlers and the deletion
    helpers are proved equal to their step functions or state transformers.
    `GetRoom` and the database and channel-layer helpers state their effect
    directly.
  - `handlers.dfy` proves what each handler promises. Traffic is stated as
    what each connection receives.
  - `lifecycle.dfy` proves properties of whole runs: when a room survives
    its host leaving, and how a second host connection leaves an orphaned
    deletion task behind.
- **The `Room` record** (`rooms.dfy`): its fields and defaults, and the
  8-character code that `save` assigns when none is set.
- **The client hook** (`client.dfy`):
  - the class `WatchPartyClient`, with the socket callbacks, the message
    reducer and the five-sample latency window;
  - pure functions for the chat list and the send guards.
- **`getYouTubeId`** (`youtube_id.dfy`): the regular expression's
  leftmost, greedy, unanchored match, written as a search.
- **`isValidVideoUrl`** and the create-room guards (`video_url.dfy`): the
  four anchored patterns, with the backtracking over the optional `www.`
  written out.

`text.dfy` defines whitespace stripping for both runtimes. Python's
`str.strip()` and JavaScript's `trim()` remove the same kind of run; they
differ in which characters count as whitespace.

A host disconnect overwrites the task registered under its room code
without cancelling the earlier one (backend/watchparty/consumers.py:43-44).
A waking task checks only that its room code is still pending, not that the
entry is its own (consumers.py:64). So with two host connections, the
earlier task can still close the room.
`Lifecycle.OrphanedTaskStillDeletes` exhibits this. Every result about
rooms surviving therefore assumes a single host connection
(`Lifecycle.NoOrphans`).

## Model

| member | source | states |
|---|---|---|
| Rooms.MintCode | backend/watchparty/models.py:6-20 | a minted code is the first 8 characters of the UUID4 hex: exactly 8 lower-case hex digits, within the column limit |
| Rooms.CodeAfterSave | backend/watchparty/models.py:18-20 | a record with a code keeps it; one without gets an 8-digit hex prefix of the UUID; the result is never empty |
| Rooms.RoomRecord.constructor | backend/watchparty/models.py:7-14 | a new record has no code yet, the given video URL and host session, playback time 0.0 and not playing |
| Rooms.RoomRecord.Row | backend/watchparty/models.py:5-14 | the registry row carries the record's code and host session id |
| Rooms.RoomRecord.Save | backend/watchparty/models.py:18-21 | `save` sets the code as `CodeAfterSave` says and leaves the other fields alone |
| Rooms.SaveSettlesCode | backend/watchparty/models.py:18-20 | saving again, with any other random UUID, never changes a code once assigned |
| Text.Strip | backend/watchparty/consumers.py:165 | stripping gives the middle part of the string, with only whitespace cut from either end and no whitespace at either end of what remains |
| Text.PyStrip | backend/watchparty/consumers.py:165 | Python's `strip()` cuts only whitespace (Python's set) from either end and leaves none at either end |
| Text.JsTrim | frontend/src/hooks/useWatchParty.js:192-196 | JavaScript's `trim()` does the same over JavaScript's whitespace set |
| Text.StripUnique | backend/watchparty/consumers.py:165 | any result that satisfies the stripping description is `Strip`'s result |
| Text.StripEmptyIffBlank | backend/watchparty/consumers.py:165-167 | a string strips to nothing exactly when it is all whitespace |
| Text.StripIdempotent | frontend/src/hooks/useWatchParty.js:192-196 | stripping a stripped string changes nothing |
| Consumer.FanoutReceived | backend/watchparty/consumers.py:48-54 | a group send to members without repeats gives each member the frames once and others nothing |
| Consumer.Deliver | backend/watchparty/consumers.py:180-236 | each group handler sends its connection exactly one message; only `room_closed` then also closes the connection |
| Consumer.GroupAdd | backend/watchparty/consumers.py:26 | after `group_add` the channel is a member, the other members stay, other groups are unchanged, and no repeat is created |
| Consumer.GroupDiscard | backend/watchparty/consumers.py:57 | `group_discard` removes exactly the channel from the room's group, leaves other groups alone, and a group remains only while it has members |
| Consumer.GroupSend | backend/watchparty/consumers.py:48-54 | a group send only appends to the outbox; no other part of the state changes |
| Consumer.ScheduleDeletion | backend/watchparty/consumers.py:41-44 | a sleeping task for the code is registered under it; other entries stay; every earlier task, including one it replaces, keeps its status |
| Consumer.CancelDeletion | backend/watchparty/consumers.py:113-115 | the code's entry is dropped and its task is no longer asleep; other entries and tasks are untouched |
| Consumer.ConnectSpec | backend/watchparty/consumers.py:12-38 | the new consumer is live under the code, not host, with no session id; other consumers, the registry and the deletions are untouched; it joins the room's group when the room exists and no group changes otherwise |
| Consumer.JoinSpec | backend/watchparty/consumers.py:93-135 | `join` changes neither the registry nor the groups, and creates no deletion task; only the sender's consumer changes, taking the session id and the username ("Anonymous" when missing) and keeping its room code |
| Consumer.SyncSpec | backend/watchparty/consumers.py:137-161 | `sync` changes at most the sender's room row and the outbox; from a non-host it changes no row |
| Consumer.ChatSpec | backend/watchparty/consumers.py:163-176 | `chat` only sends |
| Consumer.ReceiveSpec | backend/watchparty/consumers.py:79-91 | a message never creates or deletes a room, consumer or deletion task, never changes a group, never moves a consumer to another room, and changes no other consumer |
| Consumer.DisconnectSpec | backend/watchparty/consumers.py:40-57 | the consumer is gone and out of its room's group, other groups are unchanged, and the registry is untouched |
| Consumer.FireSpec | backend/watchparty/consumers.py:59-77 | the task finishes and its code is no longer pending; the room is deleted when the code was pending, and otherwise nothing is deleted or sent; consumers and groups are untouched |
| Consumer.Without | backend/watchparty/consumers.py:57 | `group_discard` keeps every member but the channel, without creating repeats |
| Consumer.Initial | backend/watchparty/consumers.py:9-10 | the server starts with no consumers, groups or pending deletions, and satisfies the invariant |
| Consumer.ConnectKeeps | backend/watchparty/consumers.py:12-38 | `connect` keeps the bookkeeping half (`Consistent`), and keeps the membership half (`Joined`) when it held before |
| Consumer.JoinKeeps | backend/watchparty/consumers.py:93-135 | `join` keeps the bookkeeping half (`Consistent`), and keeps the membership half (`Joined`) when it held before |
| Consumer.SyncKeeps | backend/watchparty/consumers.py:137-161 | `sync` keeps the bookkeeping half (`Consistent`), and keeps the membership half (`Joined`) when it held before |
| Consumer.DisconnectKeeps | backend/watchparty/consumers.py:40-57 | `disconnect` keeps the bookkeeping half (`Consistent`), and keeps the membership half (`Joined`) when it held before |
| Consumer.FireKeeps | backend/watchparty/consumers.py:59-77 | a waking deletion task keeps the bookkeeping half (`Consistent`), and keeps the membership half (`Joined`) when it held before |
| Consumer.ReceiveKeeps | backend/watchparty/consumers.py:79-176 | every message keeps the bookkeeping half of the invariant |
| Consumer.StepKeepsConsistent | backend/watchparty/consumers.py:12-236 | every event keeps the bookkeeping half: each row is filed under its own code, every pending entry is a sleeping task of its room, task ids are fresh, and every group is non-empty, without repeats, and holds only live consumers of its room |
| Consumer.ConnectJoined | backend/watchparty/consumers.py:19-26 | after `connect`, every live consumer whose room exists is in that room's group |
| Consumer.JoinJoined | backend/watchparty/consumers.py:93-135 | `join` changes no group, adds no room and keeps every consumer's room code, so the other consumers stay members |
| Consumer.SyncJoined | backend/watchparty/consumers.py:137-161 | `sync` changes no group, consumer or room key, so every member stays a member |
| Consumer.FireJoined | backend/watchparty/consumers.py:59-77 | a waking task only removes a room and changes no group or consumer, so `Joined` still holds |
| Consumer.DisconnectJoined | backend/watchparty/consumers.py:56-57 | `disconnect` removes only the leaving channel from a group, so the other consumers stay members |
| Consumer.StepJoined | backend/watchparty/consumers.py:12-236 | every event keeps the membership half: a live consumer whose room still exists is in that room's group |
| Consumer.StepKeepsInvariant | backend/watchparty/consumers.py:12-236 | every event keeps both halves of the invariant |
| Consumer.RunKeepsInvariant | backend/watchparty/consumers.py:12-236 | any sequence of events keeps the invariant |
| Consumer.WatchPartyServer.constructor | backend/watchparty/consumers.py:9-10 | the server object starts in the initial state over the given registry |
| Consumer.WatchPartyServer.GetRoom | backend/watchparty/consumers.py:240-245 | `get_room` returns the row with the code, or nothing when there is none |
| Consumer.WatchPartyServer.UpdateRoomPlayback | backend/watchparty/consumers.py:247-251 | the filtered update writes time and playing state to the row, and does nothing for a missing row |
| Consumer.WatchPartyServer.DeleteRoomRow | backend/watchparty/consumers.py:253-255 | the filtered delete removes the row if present |
| Consumer.WatchPartyServer.SendMsg | backend/watchparty/consumers.py:30-38 | one message to one connection is appended to the outbox |
| Consumer.WatchPartyServer.CloseChan | backend/watchparty/consumers.py:22 | closing a connection appends its close |
| Consumer.WatchPartyServer.GroupAddChan | backend/watchparty/consumers.py:26 | `group_add` appends the channel to the room's group unless it is already a member |
| Consumer.WatchPartyServer.GroupDiscardChan | backend/watchparty/consumers.py:57 | `group_discard` removes the channel, and removes a group left empty |
| Consumer.WatchPartyServer.GroupSendEvent | backend/watchparty/consumers.py:180-236 | a group send gives every member, at call time, the frames that member's group handler sends |
| Consumer.WatchPartyServer.Connect | backend/watchparty/consumers.py:12-38 | `connect` performs the connect step and keeps the invariant |
| Consumer.WatchPartyServer.Receive | backend/watchparty/consumers.py:79-91 | `receive` dispatches on the type, performs the receive step, and keeps the invariant |
| Consumer.WatchPartyServer.HandleJoin | backend/watchparty/consumers.py:93-135 | `handle_join` performs the join step |
| Consumer.WatchPartyServer.CancelPendingDeletion | backend/watchparty/consumers.py:113-115 | the registered task is cancelled if still asleep, and its entry removed |
| Consumer.WatchPartyServer.HandleSync | backend/watchparty/consumers.py:137-161 | `handle_sync` performs the sync step |
| Consumer.WatchPartyServer.HandleChat | backend/watchparty/consumers.py:163-176 | `handle_chat` performs the chat step |
| Consumer.WatchPartyServer.Disconnect | backend/watchparty/consumers.py:40-57 | `disconnect` performs the disconnect step and keeps the invariant |
| Consumer.WatchPartyServer.ScheduleRoomDeletion | backend/watchparty/consumers.py:41-44 | a host leaving creates a sleeping task and registers it under the code, overwriting any entry |
| Consumer.WatchPartyServer.DelayedRoomDeletion | backend/watchparty/consumers.py:59-77 | a woken task performs the deletion step and keeps the invariant |
| HandlerProperties.GroupSendReceived | backend/watchparty/consumers.py:180-236 | after a group send, each member has received the event's frames once, and no one else anything new |
| HandlerProperties.ConnectWithoutRoomRefused | backend/watchparty/consumers.py:19-23 | connecting to a code with no room only closes the connection: no group, no message, registry and pending map unchanged |
| HandlerProperties.ConnectJoinsGroupWithSnapshot | backend/watchparty/consumers.py:12-38 | otherwise the channel joins the room's group, its only message is a `sync` with the room's time and playing state, and it starts as a non-host with no session id |
| HandlerProperties.PingAnsweredToSenderOnly | backend/watchparty/consumers.py:83-85 | `ping` adds one `pong` to the sender and changes nothing else |
| HandlerProperties.UnknownTypeIgnored | backend/watchparty/consumers.py:79-91 | a message of any other type changes nothing and sends nothing |
| HandlerProperties.JoinAfterRoomGone | backend/watchparty/consumers.py:98-107 | `join` with the room gone sends the sender an error "Room no longer exists" and closes it; no broadcast, no change to registry, groups or deletions |
| HandlerProperties.JoinResolvesRole | backend/watchparty/consumers.py:93-135 | the role is exactly `session id == host session id`; the sender gets `role` with the video URL; the sender is a group member, and every member gets one `user_joined` with the username, "Anonymous" when none was given |
| HandlerProperties.JoinAndPendingDeletion | backend/watchparty/consumers.py:110-115 | a host join cancels the registered task and drops the entry; a non-host join leaves the pending map and the deletion tasks untouched |
| HandlerProperties.RepeatedJoinSameRole | backend/watchparty/consumers.py:95-110 | sending `join` twice with the same session id gives the same role both times |
| HandlerProperties.NonHostSyncRejected | backend/watchparty/consumers.py:139-145 | `sync` from a non-host sends it the error "Only the host can control playback" and changes nothing else |
| HandlerProperties.StepKeepsNotHost | backend/watchparty/consumers.py:17 | no event but a `join` from the connection itself makes it host; a new connection starts as a non-host |
| HandlerProperties.RunKeepsNotHost | backend/watchparty/consumers.py:17 | over any run without a `join` from the connection, it stays a non-host |
| HandlerProperties.SyncBeforeJoinRejected | backend/watchparty/consumers.py:17 | after connecting and any run of events without a `join` from it, a connection's `sync` is rejected |
| HandlerProperties.HostSyncStoredAndBroadcast | backend/watchparty/consumers.py:147-161 | host `sync` stores the pair (0 and false when missing); the sender is a group member, and every member receives exactly that pair as one `sync` |
| HandlerProperties.BackToBackSyncsArriveInOrder | backend/watchparty/consumers.py:147-190 | after two host `sync`s every member receives the first pair and then the second, and the registry holds the second |
| HandlerProperties.BlankChatDropped | backend/watchparty/consumers.py:165-167 | a missing or all-whitespace chat message sends nothing and changes nothing |
| HandlerProperties.ChatBroadcastOnce | backend/watchparty/consumers.py:163-176 | any other chat message reaches every member once, the sender included while its room exists, as the stripped (non-empty) text with the sender's current username; the state is otherwise unchanged |
| HandlerProperties.HostDisconnectSchedulesDeletion | backend/watchparty/consumers.py:40-44 | a host disconnect registers a fresh sleeping task under the code, replacing any entry, sends nothing, and leaves the group |
| HandlerProperties.DisconnectLeavesEveryGroup | backend/watchparty/consumers.py:56-57 | after any disconnect the consumer is gone and its channel is in no group |
| HandlerProperties.ViewerDisconnectAnnounced | backend/watchparty/consumers.py:45-57 | a viewer with a non-empty username sends `user_left` to every member, itself included while its room exists; pending deletions, tasks and registry stay as they are |
| HandlerProperties.FireTearsRoomDown | backend/watchparty/consumers.py:59-77 | a task that wakes with its code pending removes the entry and the room; every member gets one `room_closed` with "The host has ended the watch party." and then its close |
| HandlerProperties.FireWithoutPendingIsIdle | backend/watchparty/consumers.py:63-64 | a task that wakes with its code no longer pending does nothing but finish |
| Lifecycle.HostJoinQuiets | backend/watchparty/consumers.py:110-115 | with no orphaned task, a host `join` leaves no deletion pending and no task asleep for the room |
| Lifecycle.QuietStepKeepsRoom | backend/watchparty/consumers.py:12-236 | once a room has nothing pending or asleep, any event other than its host leaving keeps the room and keeps it that way |
| Lifecycle.QuietRunKeepsRoom | backend/watchparty/consumers.py:12-236 | the same holds over any run in which no host of the room leaves |
| Lifecycle.HostRejoinKeepsRoom | backend/watchparty/consumers.py:40-115 | with a single host connection, a host `join` before the deletion task fires means the room is never deleted, as long as no host leaves again |
| Lifecycle.StepKeepsNoOrphans | backend/watchparty/consumers.py:43-44 | only a host leaving while a deletion is already pending can orphan a task |
| Lifecycle.OrphanedTaskStillDeletes | backend/watchparty/consumers.py:43-68 | a second host disconnect orphans the earlier task, which stays asleep and, when it wakes, still deletes the room and clears the entry |
| Client.Newest | frontend/src/hooks/useWatchParty.js:89-93 | the newest at most five samples, in their order |
| Client.Window | frontend/src/hooks/useWatchParty.js:90-93 | after push-then-shift the window ends with the new sample, the older ones keep their order minus the oldest on overflow, and it never holds more than five |
| Client.WindowIsNewest | frontend/src/hooks/useWatchParty.js:90-93 | one push-then-shift is taking the newest five of the window plus the sample |
| Client.PushAllKeepsNewest | frontend/src/hooks/useWatchParty.js:90-93 | over any run of pongs the window is the newest five samples ever taken |
| Client.AverageWithinSamples | frontend/src/hooks/useWatchParty.js:96-97 | the averaged latency lies between the smallest and largest sample |
| Client.ChatEntryFor | frontend/src/hooks/useWatchParty.js:118-149 | `chat`, `user_joined` and `user_left` each give one chat entry, and no other type does; `chat` gives the sender's name and text |
| Client.NotesIdentifyUser | frontend/src/hooks/useWatchParty.js:129-149 | two join or leave notices are the same entry exactly when they are the same message |
| Client.Appended | frontend/src/hooks/useWatchParty.js:119-126 | an entry is appended at the end and earlier entries are untouched |
| Client.SyncFrame | frontend/src/hooks/useWatchParty.js:176-186 | `sendSync` sends exactly when the socket is open, with the given time and playing state |
| Client.ChatFrame | frontend/src/hooks/useWatchParty.js:191-200 | `sendChat` sends exactly when the socket is open and the text is not all whitespace, and sends the trimmed, non-empty text |
| Client.WatchPartyClient.constructor | frontend/src/hooks/useWatchParty.js:11-27 | the hook's initial state; a socket is opened only when room code, session id and username are all non-empty |
| Client.WatchPartyClient.MeasureLatency | frontend/src/hooks/useWatchParty.js:57-62 | when the socket is open, the ping time is recorded and one `ping` sent; otherwise nothing changes |
| Client.WatchPartyClient.OnOpen | frontend/src/hooks/useWatchParty.js:36-55 | on open the client is connected, clears the error, and sends `join` with its session id and username first, then a `ping` |
| Client.WatchPartyClient.OnClose | frontend/src/hooks/useWatchParty.js:67-72 | on close the client is disconnected, and an unclean close of an unclosed room sets "Connection lost. Please refresh the page." |
| Client.WatchPartyClient.OnError | frontend/src/hooks/useWatchParty.js:74-76 | a socket error sets "Failed to connect to watch party." |
| Client.WatchPartyClient.RecordPong | frontend/src/hooks/useWatchParty.js:83-101 | with a recorded ping, half the round trip enters the window and the latency becomes the window's average in seconds; without one nothing changes |
| Client.WatchPartyClient.OnMessage | frontend/src/hooks/useWatchParty.js:78-163 | `role` sets host flag and video URL exactly; `sync` sets the playing state and the time plus the latency; the three chat types append one entry; `room_closed` sets closed and the error text; `error` and unknown types change nothing |
| Client.WatchPartyClient.SendSync | frontend/src/hooks/useWatchParty.js:176-186 | sends what `SyncFrame` allows |
| Client.WatchPartyClient.SendChat | frontend/src/hooks/useWatchParty.js:191-200 | sends what `ChatFrame` allows |
| YouTubeId.IdAfter | frontend/src/components/WatchRoom.jsx:11 | the id is the whole run of characters other than `&`, `?`, `/` from where the literal ends |
| YouTubeId.Search | frontend/src/components/WatchRoom.jsx:10-12 | the search finds the leftmost position where a form matches, with the first form (in the alternation's order) that matches there |
| YouTubeId.FindId | frontend/src/components/WatchRoom.jsx:9-13 | the search over the three literals gives nothing for an empty url, and otherwise a non-empty id free of `&`, `?` and `/` |
| YouTubeId.GetYouTubeId | frontend/src/components/WatchRoom.jsx:8-14 | an empty url gives null; an id is non-empty and free of `&`, `?` and `/` |
| YouTubeId.GetYouTubeIdMeaning | frontend/src/components/WatchRoom.jsx:10-13 | null exactly when no literal followed by an id character occurs anywhere; otherwise the id is the one the leftmost, first-listed, greedy match describes |
| YouTubeId.GetYouTubeIdDetermined | frontend/src/components/WatchRoom.jsx:10-13 | whatever satisfies that leftmost, greedy description is what is returned |
| YouTubeId.NoFormNoId | frontend/src/components/WatchRoom.jsx:10-13 | a url with none of the three literals gives null |
| YouTubeId.IdIsLeftmostGreedy | frontend/src/components/WatchRoom.jsx:10-13 | for any list of literals, a found id follows a literal at the leftmost match and runs to the next excluded character or the end |
| YouTubeId.IdAtIsResult | frontend/src/components/WatchRoom.jsx:10-13 | for any list of literals, the leftmost greedy description determines the result |
| VideoUrl.SchemeOf | frontend/src/components/WatchPartyPage.jsx:50-53 | reads `https?://` at the start of the url |
| VideoUrl.TestPattern | frontend/src/components/WatchPartyPage.jsx:50-53 | a url that one pattern accepts starts with `http://` or `https://` |
| VideoUrl.IsValidVideoUrl | frontend/src/components/WatchPartyPage.jsx:48-56 | a url `isValidVideoUrl` accepts starts with `http://` or `https://` |
| VideoUrl.TestPatternIsPattern | frontend/src/components/WatchPartyPage.jsx:50-53 | the written-out test of one pattern accepts exactly the urls that begin with its scheme, optional `www.` where allowed, path and one tail character |
| VideoUrl.IsValidVideoUrlMeaning | frontend/src/components/WatchPartyPage.jsx:48-56 | `isValidVideoUrl` is true exactly when the url begins with a match of one of the four patterns |
| VideoUrl.AcceptedHasScheme | frontend/src/components/WatchPartyPage.jsx:50-53 | every accepted url starts with `http://` or `https://` |
| VideoUrl.ShortLinkRejectsWww | frontend/src/components/WatchPartyPage.jsx:51 | the `youtu.be` pattern rejects a url whose host starts with `www.` |
| VideoUrl.WwwOptional | frontend/src/components/WatchPartyPage.jsx:50-53 | for the youtube.com and vimeo.com patterns a path with its tail character is accepted with and without `www.` |
| VideoUrl.VimeoNeedsDigit | frontend/src/components/WatchPartyPage.jsx:53 | the Vimeo pattern rejects a path not followed by a digit |
| VideoUrl.SuffixKeepsAccepted | frontend/src/components/WatchPartyPage.jsx:50-55 | the patterns are not anchored at the end: anything appended to an accepted url keeps it accepted |
| VideoUrl.CreateRoomDecision | frontend/src/components/WatchPartyPage.jsx:59-78 | blank input is ignored; other input that fails validation, untrimmed, is rejected with "Please enter a valid YouTube or Vimeo URL"; only valid input is sent, as typed |
| VideoUrl.PaddedUrlRejected | frontend/src/components/WatchPartyPage.jsx:61-66 | a valid link typed after whitespace is rejected, because validation sees the untrimmed input |

## Left out

- JSON encoding and decoding. Messages are datatypes and a missing field is `None`. A malformed payload, which makes `json.loads` raise, is not modelled. A JSON `null` is not told apart from a missing field.
- The interleaving of asyncio handlers at `await` points. Each handler is one atomic step.
- The 10-second sleep. The wake-up of a deletion task is an explicit event, so "less than 10 seconds" is not measured.
- The Redis channel layer. A group is a sequence in join order, and a group send delivers to the members present at call time. Message expiry and capacity limits are not modelled.
- The group name prefix `watch_`. Groups are keyed by the room code itself.
- The Django ORM and database. The registry is a map keyed by the unique code. `created_at` and the URL field's validation are not modelled.
- The randomness of `uuid.uuid4()`. Its hex string is a parameter of `save`.
- Floating point. Times and latencies are real numbers, and `performance.now()` is a parameter of the client methods.
- The chat entries' `timestamp: new Date()`.
- Console logging.
- The timer-driven pings (`setTimeout`, `setInterval`). `MeasureLatency` is a method the environment may call at any time.
- The React effect re-running when `roomClosed` changes, which closes the socket and opens a new one. The `onclose` handler here reads the current `roomClosed`, not the value captured when the effect ran.
- The window location and the socket URL built from it.
- String widths. JavaScript strings are UTF-16 and Python strings are code points; here both are sequences of `char`.
- Room creation. Rooms are created by the REST views, which are not modelled, so while the server runs the registry only shrinks; `Consumer.Joined` and the lifecycle results rely on no room appearing during a run.
- The rest of the app: the summarizer, the REST views, the player control and drift correction in `WatchRoom.jsx`, the session storage, and the other UI components.
- `Consumer.WatchPartyServer.DelayedRoomDeletion`: requires the task to be asleep. A cancelled task never reaches the code after the sleep, because `asyncio` raises inside the sleep instead.
- `HandlerProperties.ViewerDisconnectAnnounced` and `HandlerProperties.ChatBroadcastOnce`: the sender's group membership is proved only while its room exists. After the room is deleted, an accepted consumer is still in its group until it disconnects, but the invariant does not record which consumers were accepted.
