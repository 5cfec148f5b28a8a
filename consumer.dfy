/**
 * The watch-party room engine (`WatchPartyConsumer`, backend/watchparty/consumers.py)
 * as one sequential server over four pieces of state: the room registry, the
 * channel-layer groups, the process-wide map of pending deletions, and the
 * per-connection consumer fields. Each handler is one atomic step; the
 * deletion timer's wake-up after its 10-second sleep is an explicit event.
 *
 * The pure functions `ConnectSpec`, `ReceiveSpec`, `DisconnectSpec` and
 * `FireSpec` say what one step does to the whole state; the class
 * `WatchPartyServer` performs the same steps field by field, and each of its
 * event methods is proved to agree with its function and keep the invariant.
 */
module Consumer {
  import opened Wrappers
  import opened Text
  import opened Rooms
  import opened Protocol

  /** A connection's channel name in the channel layer. */
  type Chan = nat
  /** Identity of an `asyncio` task created for a delayed deletion. */
  type TaskId = nat

  datatype TaskStatus = Sleeping | Cancelled | Finished

  /** A `delayed_room_deletion` task and the room code of the consumer that created it. */
  datatype Task = Task(code: Code, status: TaskStatus)

  /** The fields one `WatchPartyConsumer` instance keeps about its connection. */
  datatype Conn = Conn(
    roomCode: Code,
    sessionId: Option<string>,
    username: string,
    isHost: bool,
    room: Option<Room>)

  /** The events handed to `group_send`; each member's consumer turns one into frames. */
  datatype GroupEvent =
    | SyncPlayback(currentTime: Seconds, isPlaying: bool)
    | ChatMessage(message: string, username: string)
    | UserJoinedEvent(username: string)
    | UserLeftEvent(username: string)
    | RoomClosedEvent(message: string)

  /** What the server does to one connection: send it a message, or close it. */
  datatype Frame = Send(msg: ServerMsg) | Close

  datatype State = State(
    rooms: map<Code, Room>,            // the registry (the `Room` table)
    groups: map<Code, seq<Chan>>,      // group "watch_<code>" and its members, in join order
    pending: map<Code, TaskId>,        // `WatchPartyConsumer.pending_deletions`
    tasks: map<TaskId, Task>,          // every deletion task ever created
    nextTask: TaskId,                  // the next fresh task identity
    conns: map<Chan, Conn>,            // live consumers
    outbox: seq<(Chan, Frame)>)        // everything sent so far, in order

  /** The events the environment delivers to the server. */
  datatype Input =
    | Connect(chan: Chan, code: Code)
    | Receive(chan: Chan, msg: ClientMsg)
    | Disconnect(chan: Chan)
    | Fire(task: TaskId)               // a deletion task wakes from its sleep

  predicate NoDup(ms: seq<Chan>) {
    forall i, j :: 0 <= i < j < |ms| ==> ms[i] != ms[j]
  }

  // ----- Outbound traffic -----

  /** The frames of the outbox addressed to `ch`, in order: what that client receives. */
  function Received(out: seq<(Chan, Frame)>, ch: Chan): seq<Frame> {
    if out == [] then []
    else Received(out[..|out| - 1], ch) + (if out[|out| - 1].0 == ch then [out[|out| - 1].1] else [])
  }

  lemma {:induction false} ReceivedAppend(a: seq<(Chan, Frame)>, b: seq<(Chan, Frame)>, ch: Chan)
    ensures Received(a + b, ch) == Received(a, ch) + Received(b, ch)
    decreases |b|
  {
    if b != [] {
      assert (a + b)[..|a + b| - 1] == a + b[..|b| - 1];
      ReceivedAppend(a, b[..|b| - 1], ch);
    } else {
      assert a + b == a;
    }
  }

  /** The group handlers (`sync_playback`, `chat_message`, `user_joined`, `user_left`, `room_closed`). */
  function Deliver(ev: GroupEvent): (r: seq<Frame>)
    ensures |r| == (if ev.RoomClosedEvent? then 2 else 1) && r[0].Send?
    ensures ev.RoomClosedEvent? ==> r[1] == Close
  {
    match ev
    case SyncPlayback(t, p) => [Send(SyncState(t, p))]
    case ChatMessage(m, u) => [Send(Chat(m, u))]
    case UserJoinedEvent(u) => [Send(UserJoined(u))]
    case UserLeftEvent(u) => [Send(UserLeft(u))]
    case RoomClosedEvent(m) => [Send(RoomClosed(m)), Close]
  }

  /** The frames addressed to one connection. */
  function Addressed(to: Chan, frames: seq<Frame>): seq<(Chan, Frame)> {
    seq(|frames|, k requires 0 <= k < |frames| => (to, frames[k]))
  }

  /** One group send: every member, in member order, gets the frames of the event. */
  function Fanout(members: seq<Chan>, frames: seq<Frame>): seq<(Chan, Frame)> {
    if members == [] then []
    else Fanout(members[..|members| - 1], frames) + Addressed(members[|members| - 1], frames)
  }

  lemma {:induction false} AddressedReceived(to: Chan, frames: seq<Frame>, ch: Chan)
    ensures Received(Addressed(to, frames), ch) == if ch == to then frames else []
    decreases |frames|
  {
    var out := Addressed(to, frames);
    if frames != [] {
      var init := frames[..|frames| - 1];
      assert out[..|out| - 1] == Addressed(to, init);
      AddressedReceived(to, init, ch);
      assert frames == init + [frames[|frames| - 1]];
    }
  }

  /** A group send to members without repeats: each member receives the frames once, others nothing. */
  lemma {:induction false} FanoutReceived(members: seq<Chan>, frames: seq<Frame>, ch: Chan)
    requires NoDup(members)
    ensures Received(Fanout(members, frames), ch) == if ch in members then frames else []
    decreases |members|
  {
    if members != [] {
      var init := members[..|members| - 1];
      var last := members[|members| - 1];
      assert NoDup(init);
      assert Fanout(members, frames) == Fanout(init, frames) + Addressed(last, frames);
      FanoutReceived(init, frames, ch);
      ReceivedAppend(Fanout(init, frames), Addressed(last, frames), ch);
      AddressedReceived(last, frames, ch);
      assert members == init + [last];
      if ch == last {
        assert last !in init;
      } else {
        assert ch in members <==> ch in init;
      }
    }
  }

  /** `ms` without `ch`, the rest in order. */
  function Without(ms: seq<Chan>, ch: Chan): (r: seq<Chan>)
    ensures forall x :: x in r <==> x in ms && x != ch
    ensures NoDup(ms) ==> NoDup(r)
  {
    if ms == [] then []
    else if ms[0] == ch then Without(ms[1..], ch)
    else
      var r := [ms[0]] + Without(ms[1..], ch);
      assert NoDup(ms) ==> NoDup(ms[1..]) && ms[0] !in ms[1..];
      r
  }

  // ----- The state transformers behind each source operation -----

  /** The members of the room's group; a group that does not exist has none. */
  function Members(s: State, code: Code): seq<Chan> {
    if code in s.groups then s.groups[code] else []
  }

  /** `self.send(...)`: one message to one connection. */
  function SendTo(s: State, ch: Chan, m: ServerMsg): State {
    s.(outbox := s.outbox + [(ch, Send(m))])
  }

  /** `self.close()`. */
  function CloseConn(s: State, ch: Chan): State {
    s.(outbox := s.outbox + [(ch, Close)])
  }

  /** `channel_layer.group_send`: the event goes to every member at call time. */
  function GroupSend(s: State, code: Code, ev: GroupEvent): (s': State)
    ensures s' == s.(outbox := s'.outbox) && s.outbox <= s'.outbox
  {
    s.(outbox := s.outbox + Fanout(Members(s, code), Deliver(ev)))
  }

  /** `channel_layer.group_add`: creates the group if needed; adding a member twice keeps one entry. */
  function GroupAdd(s: State, code: Code, ch: Chan): (s': State)
    ensures s' == s.(groups := s'.groups)
    ensures forall x :: x in Members(s', code) <==> x in Members(s, code) || x == ch
    ensures forall c :: c != code ==> Members(s', c) == Members(s, c)
    ensures NoDup(Members(s, code)) ==> NoDup(Members(s', code))
  {
    var ms := Members(s, code);
    var ms' := if ch in ms then ms else ms + [ch];
    assert forall x :: x in ms' <==> x in ms || x == ch;
    s.(groups := s.groups[code := ms'])
  }

  /** `channel_layer.group_discard`: a group left empty is removed. */
  function GroupDiscard(s: State, code: Code, ch: Chan): (s': State)
    ensures s' == s.(groups := s'.groups)
    ensures forall x :: x in Members(s', code) <==> x in Members(s, code) && x != ch
    ensures forall c :: c != code ==> Members(s', c) == Members(s, c)
    ensures code in s'.groups <==> Members(s', code) != []
  {
    var rest := Without(Members(s, code), ch);
    s.(groups := if rest == [] then s.groups - {code} else s.groups[code := rest])
  }

  /** `get_room`: the row with this code, or `None`. */
  function LookupRoom(s: State, code: Code): Option<Room> {
    if code in s.rooms then Some(s.rooms[code]) else None
  }

  /** `update_room_playback`: a filtered update, so a missing row is left missing. */
  function UpdatePlayback(s: State, code: Code, t: Seconds, playing: bool): State {
    if code in s.rooms then
      s.(rooms := s.rooms[code := s.rooms[code].(currentTime := t, isPlaying := playing)])
    else s
  }

  /** `delete_room`: a filtered delete, so deleting a missing row does nothing. */
  function DeleteRoom(s: State, code: Code): State {
    s.(rooms := s.rooms - {code})
  }

  /**
   * A host disconnect: a new sleeping task is registered under the code,
   * overwriting whatever was registered there without cancelling it.
   */
  function ScheduleDeletion(s: State, code: Code): (s': State)
    ensures s' == s.(tasks := s'.tasks, nextTask := s'.nextTask, pending := s'.pending)
    ensures code in s'.pending && s'.pending[code] in s'.tasks && s'.tasks[s'.pending[code]] == Task(code, Sleeping)
    ensures forall c :: c != code ==> (c in s'.pending <==> c in s.pending)
    ensures forall c :: c != code && c in s.pending ==> s'.pending[c] == s.pending[c]
    ensures forall t :: t in s.tasks && t != s'.pending[code] ==> t in s'.tasks && s'.tasks[t] == s.tasks[t]
  {
    s.(tasks := s.tasks[s.nextTask := Task(code, Sleeping)],
       nextTask := s.nextTask + 1,
       pending := s.pending[code := s.nextTask])
  }

  /** A host join: cancel the registered task (a finished task ignores `cancel()`) and drop the entry. */
  function CancelDeletion(s: State, code: Code): (s': State)
    requires code in s.pending
    ensures s' == s.(tasks := s'.tasks, pending := s'.pending)
    ensures forall c :: c in s'.pending <==> c in s.pending && c != code
    ensures forall c :: c in s'.pending ==> s'.pending[c] == s.pending[c]
    ensures s'.tasks.Keys == s.tasks.Keys
    ensures s.pending[code] in s.tasks ==>
      s'.tasks[s.pending[code]].status != Sleeping && s'.tasks[s.pending[code]].code == s.tasks[s.pending[code]].code
    ensures forall t :: t in s.tasks && t != s.pending[code] ==> s'.tasks[t] == s.tasks[t]
  {
    var t := s.pending[code];
    s.(tasks := if t in s.tasks && s.tasks[t].status == Sleeping
                then s.tasks[t := s.tasks[t].(status := Cancelled)] else s.tasks,
       pending := s.pending - {code})
  }

  // ----- One step per handler -----

  /** `connect`: a fresh consumer; refused unless the room exists, else joined and sent a snapshot. */
  function ConnectSpec(s: State, ch: Chan, code: Code): (s': State)
    ensures ch in s'.conns && s'.conns[ch].roomCode == code
    ensures !s'.conns[ch].isHost && s'.conns[ch].sessionId == None
    ensures s'.conns == s.conns[ch := s'.conns[ch]]
    ensures s'.rooms == s.rooms && s'.pending == s.pending && s'.tasks == s.tasks && s'.nextTask == s.nextTask
    ensures code in s.rooms ==> ch in Members(s', code)
    ensures code !in s.rooms ==> s'.groups == s.groups
    ensures forall c :: c != code ==> Members(s', c) == Members(s, c)
    ensures forall x :: x in Members(s, code) ==> x in Members(s', code)
    ensures s.outbox <= s'.outbox
  {
    var room := LookupRoom(s, code);
    var s1 := s.(conns := s.conns[ch := Conn(code, None, DefaultUsername, false, room)]);
    if room.None? then CloseConn(s1, ch)
    else SendTo(GroupAdd(s1, code, ch), ch, SyncState(room.value.currentTime, room.value.isPlaying))
  }

  /** `handle_join`. */
  function JoinSpec(s: State, ch: Chan, sid: Option<string>, name: Option<string>): (s': State)
    requires ch in s.conns
    ensures s'.rooms == s.rooms && s'.groups == s.groups && s'.nextTask == s.nextTask
    ensures s'.tasks.Keys == s.tasks.Keys && s'.pending.Keys <= s.pending.Keys
    ensures s'.conns.Keys == s.conns.Keys
    ensures forall x :: x in s.conns && x != ch ==> s'.conns[x] == s.conns[x]
    ensures s'.conns[ch].roomCode == s.conns[ch].roomCode && s'.conns[ch].sessionId == sid
    ensures s'.conns[ch].username == name.GetOr(DefaultUsername)
    ensures s.outbox <= s'.outbox
  {
    var c := s.conns[ch].(sessionId := sid, username := name.GetOr(DefaultUsername));
    var room := LookupRoom(s, c.roomCode);
    if room.None? then
      // is_host keeps its old value: only the room field is refreshed
      CloseConn(SendTo(s.(conns := s.conns[ch := c.(room := None)]), ch, Error(RoomGoneText)), ch)
    else
      var isHost := sid == Some(room.value.hostSessionId);
      var s1 := s.(conns := s.conns[ch := c.(room := room, isHost := isHost)]);
      var s2 := if isHost && c.roomCode in s1.pending then CancelDeletion(s1, c.roomCode) else s1;
      GroupSend(SendTo(s2, ch, Role(isHost, room.value.videoUrl)), c.roomCode, UserJoinedEvent(c.username))
  }

  /** `handle_sync`. */
  function SyncSpec(s: State, ch: Chan, t: Option<Seconds>, playing: Option<bool>): (s': State)
    requires ch in s.conns
    ensures s' == s.(rooms := s'.rooms, outbox := s'.outbox)
    ensures s'.rooms.Keys == s.rooms.Keys
    ensures !s.conns[ch].isHost ==> s'.rooms == s.rooms
    ensures forall c :: c in s.rooms && c != s.conns[ch].roomCode ==> s'.rooms[c] == s.rooms[c]
    ensures s.outbox <= s'.outbox
  {
    var c := s.conns[ch];
    if !c.isHost then SendTo(s, ch, Error(NotHostText))
    else
      var ct := t.GetOr(0.0);
      var ip := playing.GetOr(false);
      GroupSend(UpdatePlayback(s, c.roomCode, ct, ip), c.roomCode, SyncPlayback(ct, ip))
  }

  /** `handle_chat`. */
  function ChatSpec(s: State, ch: Chan, message: Option<string>): (s': State)
    requires ch in s.conns
    ensures s' == s.(outbox := s'.outbox) && s.outbox <= s'.outbox
  {
    var c := s.conns[ch];
    var text := PyStrip(message.GetOr(""));
    if text == "" then s
    else GroupSend(s, c.roomCode, ChatMessage(text, c.username))
  }

  /** `receive`: dispatch on the message type; other types are ignored. */
  function ReceiveSpec(s: State, ch: Chan, msg: ClientMsg): (s': State)
    requires ch in s.conns
    ensures s'.groups == s.groups && s'.rooms.Keys == s.rooms.Keys && s'.nextTask == s.nextTask
    ensures s'.conns.Keys == s.conns.Keys
    ensures s'.tasks.Keys == s.tasks.Keys && s'.pending.Keys <= s.pending.Keys
    ensures forall x :: x in s.conns ==> s'.conns[x].roomCode == s.conns[x].roomCode
    ensures forall x :: x in s.conns && x != ch ==> s'.conns[x] == s.conns[x]
    ensures s.outbox <= s'.outbox
  {
    match msg
    case PingMsg => SendTo(s, ch, Pong)
    case JoinMsg(sid, name) => JoinSpec(s, ch, sid, name)
    case SyncMsg(t, playing) => SyncSpec(s, ch, t, playing)
    case ChatMsg(m) => ChatSpec(s, ch, m)
    case OtherClientMsg(_) => s
  }

  /** `disconnect`, after which the consumer is gone. */
  function DisconnectSpec(s: State, ch: Chan): (s': State)
    requires ch in s.conns
    ensures s'.conns == s.conns - {ch} && s'.rooms == s.rooms
    ensures ch !in Members(s', s.conns[ch].roomCode)
    ensures forall x :: x in Members(s', s.conns[ch].roomCode) <==> x in Members(s, s.conns[ch].roomCode) && x != ch
    ensures forall c :: c != s.conns[ch].roomCode ==> Members(s', c) == Members(s, c)
    ensures s.outbox <= s'.outbox
  {
    var c := s.conns[ch];
    var s1 :=
      if c.isHost then ScheduleDeletion(s, c.roomCode)
      else if c.username != "" then GroupSend(s, c.roomCode, UserLeftEvent(c.username))
      else s;
    var s2 := GroupDiscard(s1, c.roomCode, ch);
    s2.(conns := s2.conns - {ch})
  }

  /** `delayed_room_deletion` after its sleep: it checks only that the code is still pending. */
  function FireSpec(s: State, t: TaskId): (s': State)
    requires t in s.tasks
    ensures s'.conns == s.conns && s'.groups == s.groups && s'.nextTask == s.nextTask
    ensures t in s'.tasks && s'.tasks[t].status == Finished
    ensures s.tasks[t].code !in s'.pending
    ensures s.tasks[t].code in s.pending ==> s'.rooms == s.rooms - {s.tasks[t].code}
    ensures s.tasks[t].code !in s.pending ==> s'.rooms == s.rooms && s'.outbox == s.outbox
    ensures s.outbox <= s'.outbox
  {
    var code := s.tasks[t].code;
    var s1 := s.(tasks := s.tasks[t := Task(code, Finished)]);
    if code in s1.pending then
      GroupSend(DeleteRoom(s1.(pending := s1.pending - {code}), code), code, RoomClosedEvent(HostEndedText))
    else s1
  }

  /** Inputs the environment can produce: fresh channel names, live consumers, sleeping tasks. */
  predicate Enabled(s: State, i: Input) {
    match i
    case Connect(ch, _) => ch !in s.conns
    case Receive(ch, _) => ch in s.conns
    case Disconnect(ch) => ch in s.conns
    case Fire(t) => t in s.tasks && s.tasks[t].status == Sleeping
  }

  /** One step of the server; an input that cannot occur leaves the state as it is. */
  function Step(s: State, i: Input): State {
    if !Enabled(s, i) then s
    else match i
      case Connect(ch, code) => ConnectSpec(s, ch, code)
      case Receive(ch, msg) => ReceiveSpec(s, ch, msg)
      case Disconnect(ch) => DisconnectSpec(s, ch)
      case Fire(t) => FireSpec(s, t)
  }

  /** The state after a sequence of inputs. */
  function Run(s: State, inputs: seq<Input>): State
    decreases |inputs|
  {
    if inputs == [] then s else Run(Step(s, inputs[0]), inputs[1..])
  }

  // ----- The invariant every step keeps -----

  /** The invariant of every reachable state. */
  ghost predicate Invariant(s: State) {
    Consistent(s) && Joined(s)
  }

  /**
   * Every registry row is filed under its own code; every registered deletion
   * is a sleeping task for that code; task identities are fresh; every group
   * is non-empty, without repeats, and holds only live consumers of its room.
   */
  ghost predicate Consistent(s: State) {
    && (forall c :: c in s.rooms ==> s.rooms[c].code == c)
    && (forall c :: c in s.pending ==> s.pending[c] in s.tasks && s.tasks[s.pending[c]] == Task(c, Sleeping))
    && (forall t :: t in s.tasks ==> t < s.nextTask)
    && (forall c :: c in s.groups ==> s.groups[c] != [] && NoDup(s.groups[c]))
    && (forall c, ch :: c in s.groups && ch in s.groups[c] ==> ch in s.conns && s.conns[ch].roomCode == c)
  }

  /** The membership half: a live consumer whose room still exists is in that room's group. */
  ghost predicate Joined(s: State) {
    forall ch :: ch in s.conns && s.conns[ch].roomCode in s.rooms ==> ch in Members(s, s.conns[ch].roomCode)
  }

  /** The server before any connection, over an existing registry. */
  function Initial(rooms: map<Code, Room>): (s: State)
    requires forall c :: c in rooms ==> rooms[c].code == c
    ensures Invariant(s)
  {
    State(rooms, map[], map[], map[], 0, map[], [])
  }

  lemma GroupAddKeeps(s: State, code: Code, ch: Chan)
    requires Consistent(s) && ch in s.conns && s.conns[ch].roomCode == code
    ensures Consistent(GroupAdd(s, code, ch))
  {
    var ms := Members(s, code);
    if ch !in ms {
      var ms' := ms + [ch];
      assert forall x :: x in ms' <==> x in ms || x == ch;
      assert NoDup(ms');
    }
  }

  lemma DiscardKeeps(s: State, code: Code, ch: Chan)
    requires Consistent(s) && ch in s.conns && s.conns[ch].roomCode == code
    ensures Consistent(GroupDiscard(s, code, ch).(conns := s.conns - {ch}))
  {
  }

  /** Sending changes only the outbox, which the invariant does not constrain. */
  lemma OutboxKeeps(s: State, out: seq<(Chan, Frame)>)
    requires Consistent(s)
    ensures Consistent(s.(outbox := out))
  {
  }

  lemma ConnectKeeps(s: State, ch: Chan, code: Code)
    requires Consistent(s) && ch !in s.conns
    ensures Consistent(ConnectSpec(s, ch, code))
    ensures Joined(s) ==> Joined(ConnectSpec(s, ch, code))
  {
    var room := LookupRoom(s, code);
    var s1 := s.(conns := s.conns[ch := Conn(code, None, DefaultUsername, false, room)]);
    assert Consistent(s1);
    if room.Some? { GroupAddKeeps(s1, code, ch); }
    if Joined(s) {
      ConnectJoined(s, ch, code);
    }
  }

  /** Rewriting a consumer's fields keeps the invariant as long as it stays in its room. */
  lemma ConnUpdateKeeps(s: State, ch: Chan, c: Conn)
    requires Consistent(s) && ch in s.conns && c.roomCode == s.conns[ch].roomCode
    ensures Consistent(s.(conns := s.conns[ch := c]))
  {
  }

  lemma CancelKeeps(s: State, code: Code)
    requires Consistent(s) && code in s.pending
    ensures Consistent(CancelDeletion(s, code))
  {
  }

  lemma UpdatePlaybackKeeps(s: State, code: Code, t: Seconds, playing: bool)
    requires Consistent(s)
    ensures Consistent(UpdatePlayback(s, code, t, playing))
  {
  }

  lemma JoinKeeps(s: State, ch: Chan, sid: Option<string>, name: Option<string>)
    requires Consistent(s) && ch in s.conns
    ensures Consistent(JoinSpec(s, ch, sid, name))
    ensures Joined(s) ==> Joined(JoinSpec(s, ch, sid, name))
  {
    var c := s.conns[ch].(sessionId := sid, username := name.GetOr(DefaultUsername));
    var room := LookupRoom(s, c.roomCode);
    if room.Some? {
      var isHost := sid == Some(room.value.hostSessionId);
      var s1 := s.(conns := s.conns[ch := c.(room := room, isHost := isHost)]);
      ConnUpdateKeeps(s, ch, c.(room := room, isHost := isHost));
      var s2 := if isHost && c.roomCode in s1.pending then CancelDeletion(s1, c.roomCode) else s1;
      if isHost && c.roomCode in s1.pending {
        CancelKeeps(s1, c.roomCode);
      }
      OutboxKeeps(s2, JoinSpec(s, ch, sid, name).outbox);
      assert JoinSpec(s, ch, sid, name) == s2.(outbox := JoinSpec(s, ch, sid, name).outbox);
    } else {
      var s1 := s.(conns := s.conns[ch := c.(room := None)]);
      ConnUpdateKeeps(s, ch, c.(room := None));
      OutboxKeeps(s1, JoinSpec(s, ch, sid, name).outbox);
    }
    if Joined(s) {
      JoinJoined(s, ch, sid, name);
    }
  }

  lemma SyncKeeps(s: State, ch: Chan, t: Option<Seconds>, playing: Option<bool>)
    requires Consistent(s) && ch in s.conns
    ensures Consistent(SyncSpec(s, ch, t, playing))
    ensures Joined(s) ==> Joined(SyncSpec(s, ch, t, playing))
  {
    var c := s.conns[ch];
    if c.isHost {
      var s1 := UpdatePlayback(s, c.roomCode, t.GetOr(0.0), playing.GetOr(false));
      UpdatePlaybackKeeps(s, c.roomCode, t.GetOr(0.0), playing.GetOr(false));
      OutboxKeeps(s1, SyncSpec(s, ch, t, playing).outbox);
    } else {
      OutboxKeeps(s, SyncSpec(s, ch, t, playing).outbox);
    }
    if Joined(s) {
      SyncJoined(s, ch, t, playing);
    }
  }

  lemma DisconnectKeeps(s: State, ch: Chan)
    requires Consistent(s) && ch in s.conns
    ensures Consistent(DisconnectSpec(s, ch))
    ensures Joined(s) ==> Joined(DisconnectSpec(s, ch))
  {
    var c := s.conns[ch];
    var s1 :=
      if c.isHost then ScheduleDeletion(s, c.roomCode)
      else if c.username != "" then GroupSend(s, c.roomCode, UserLeftEvent(c.username))
      else s;
    if c.isHost {
      ScheduleKeeps(s, c.roomCode);
    } else {
      OutboxKeeps(s, s1.outbox);
      assert s1 == s.(outbox := s1.outbox);
    }
    DiscardKeeps(s1, c.roomCode, ch);
    if Joined(s) {
      DisconnectJoined(s, ch);
    }
  }

  lemma ScheduleKeeps(s: State, code: Code)
    requires Consistent(s)
    ensures Consistent(ScheduleDeletion(s, code))
  {
  }

  lemma FireKeeps(s: State, t: TaskId)
    requires Consistent(s) && t in s.tasks
    ensures Consistent(FireSpec(s, t))
    ensures Joined(s) ==> Joined(FireSpec(s, t))
  {
    var code := s.tasks[t].code;
    var s1 := s.(tasks := s.tasks[t := Task(code, Finished)]);
    if code in s1.pending {
      var s2 := DeleteRoom(s1.(pending := s1.pending - {code}), code);
      assert Consistent(s2);
    }
    if Joined(s) {
      FireJoined(s, t);
    }
  }

  /** A step that keeps the consumers' rooms, adds no room and changes no group keeps `Joined`. */
  lemma SameMembershipJoined(s: State, s': State)
    requires Joined(s)
    requires s'.groups == s.groups && s'.rooms.Keys <= s.rooms.Keys && s'.conns.Keys <= s.conns.Keys
    requires forall x :: x in s'.conns ==> s'.conns[x].roomCode == s.conns[x].roomCode
    ensures Joined(s')
  {
    forall x | x in s'.conns && s'.conns[x].roomCode in s'.rooms
      ensures x in Members(s', s'.conns[x].roomCode)
    {
      assert x in Members(s, s.conns[x].roomCode);
    }
  }

  lemma ConnectJoined(s: State, ch: Chan, code: Code)
    requires Joined(s) && ch !in s.conns
    ensures Joined(ConnectSpec(s, ch, code))
  {
    var s' := ConnectSpec(s, ch, code);
    forall x | x in s'.conns && s'.conns[x].roomCode in s'.rooms
      ensures x in Members(s', s'.conns[x].roomCode)
    {
      if x != ch {
        assert x in Members(s, s.conns[x].roomCode);
      }
    }
  }

  lemma JoinJoined(s: State, ch: Chan, sid: Option<string>, name: Option<string>)
    requires Joined(s) && ch in s.conns
    ensures Joined(JoinSpec(s, ch, sid, name))
  {
    SameMembershipJoined(s, JoinSpec(s, ch, sid, name));
  }

  lemma SyncJoined(s: State, ch: Chan, t: Option<Seconds>, playing: Option<bool>)
    requires Joined(s) && ch in s.conns
    ensures Joined(SyncSpec(s, ch, t, playing))
  {
    SameMembershipJoined(s, SyncSpec(s, ch, t, playing));
  }

  lemma FireJoined(s: State, t: TaskId)
    requires Joined(s) && t in s.tasks
    ensures Joined(FireSpec(s, t))
  {
    SameMembershipJoined(s, FireSpec(s, t));
  }

  lemma DisconnectJoined(s: State, ch: Chan)
    requires Joined(s) && ch in s.conns
    ensures Joined(DisconnectSpec(s, ch))
  {
    var s' := DisconnectSpec(s, ch);
    forall x | x in s'.conns && s'.conns[x].roomCode in s'.rooms
      ensures x in Members(s', s'.conns[x].roomCode)
    {
      assert x in Members(s, s.conns[x].roomCode);
    }
  }

  lemma StepJoined(s: State, i: Input)
    requires Joined(s)
    ensures Joined(Step(s, i))
  {
    if Enabled(s, i) {
      match i
      case Connect(ch, code) => ConnectJoined(s, ch, code);
      case Receive(ch, msg) => SameMembershipJoined(s, ReceiveSpec(s, ch, msg));
      case Disconnect(ch) => DisconnectJoined(s, ch);
      case Fire(t) => SameMembershipJoined(s, FireSpec(s, t));
    }
  }

  lemma ReceiveKeeps(s: State, ch: Chan, msg: ClientMsg)
    requires Consistent(s) && ch in s.conns
    ensures Consistent(ReceiveSpec(s, ch, msg))
  {
    match msg
    case JoinMsg(sid, name) => JoinKeeps(s, ch, sid, name);
    case SyncMsg(t, playing) => SyncKeeps(s, ch, t, playing);
    case PingMsg => OutboxKeeps(s, SendTo(s, ch, Pong).outbox);
    case ChatMsg(m) => OutboxKeeps(s, ChatSpec(s, ch, m).outbox);
    case OtherClientMsg(_) =>
  }

  lemma StepKeepsConsistent(s: State, i: Input)
    requires Consistent(s)
    ensures Consistent(Step(s, i))
  {
    if Enabled(s, i) {
      match i
      case Connect(ch, code) => ConnectKeeps(s, ch, code);
      case Receive(ch, msg) => ReceiveKeeps(s, ch, msg);
      case Disconnect(ch) => DisconnectKeeps(s, ch);
      case Fire(t) => FireKeeps(s, t);
    }
  }

  lemma StepKeepsInvariant(s: State, i: Input)
    requires Invariant(s)
    ensures Invariant(Step(s, i))
  {
    StepKeepsConsistent(s, i);
    StepJoined(s, i);
  }

  lemma {:induction false} RunKeepsInvariant(s: State, inputs: seq<Input>)
    requires Invariant(s)
    ensures Invariant(Run(s, inputs))
    decreases |inputs|
  {
    if inputs != [] {
      StepKeepsInvariant(s, inputs[0]);
      RunKeepsInvariant(Step(s, inputs[0]), inputs[1..]);
    }
  }

  // ----- The consumer, step by step -----

  /**
   * The server's mutable state, updated in place the way the consumer and
   * the channel layer update theirs. Each handler agrees with its step
   * function above; the four event methods also keep the invariant.
   */
  class WatchPartyServer {
    var rooms: map<Code, Room>
    var groups: map<Code, seq<Chan>>
    var pending: map<Code, TaskId>
    var tasks: map<TaskId, Task>
    var nextTask: TaskId
    var conns: map<Chan, Conn>
    var outbox: seq<(Chan, Frame)>

    function Snapshot(): State
      reads this
    {
      State(rooms, groups, pending, tasks, nextTask, conns, outbox)
    }

    constructor (registry: map<Code, Room>)
      requires forall c :: c in registry ==> registry[c].code == c
      ensures Snapshot() == Initial(registry) && Invariant(Snapshot())
    {
      rooms := registry;
      groups := map[];
      pending := map[];
      tasks := map[];
      nextTask := 0;
      conns := map[];
      outbox := [];
    }

    // --- database helpers ---

    /** `get_room`. */
    method GetRoom(code: Code) returns (room: Option<Room>)
      ensures room.Some? <==> code in rooms
      ensures room.Some? ==> room.value == rooms[code]
    {
      if code in rooms {
        room := Some(rooms[code]);
      } else {
        room := None;
      }
    }

    /** `update_room_playback`. */
    method UpdateRoomPlayback(code: Code, t: Seconds, playing: bool)
      modifies this`rooms
      ensures Snapshot() == UpdatePlayback(old(Snapshot()), code, t, playing)
    {
      if code in rooms {
        rooms := rooms[code := rooms[code].(currentTime := t, isPlaying := playing)];
      }
    }

    /** `delete_room`. */
    method DeleteRoomRow(code: Code)
      modifies this`rooms
      ensures Snapshot() == DeleteRoom(old(Snapshot()), code)
    {
      rooms := rooms - {code};
    }

    // --- the channel layer and the socket ---

    method SendMsg(ch: Chan, m: ServerMsg)
      modifies this`outbox
      ensures Snapshot() == SendTo(old(Snapshot()), ch, m)
    {
      outbox := outbox + [(ch, Send(m))];
    }

    method CloseChan(ch: Chan)
      modifies this`outbox
      ensures Snapshot() == CloseConn(old(Snapshot()), ch)
    {
      outbox := outbox + [(ch, Close)];
    }

    method GroupAddChan(code: Code, ch: Chan)
      modifies this`groups
      ensures Snapshot() == GroupAdd(old(Snapshot()), code, ch)
    {
      var ms := if code in groups then groups[code] else [];
      if ch !in ms {
        ms := ms + [ch];
      }
      groups := groups[code := ms];
    }

    method GroupDiscardChan(code: Code, ch: Chan)
      modifies this`groups
      ensures Snapshot() == GroupDiscard(old(Snapshot()), code, ch)
    {
      var rest := Without(if code in groups then groups[code] else [], ch);
      if rest == [] {
        groups := groups - {code};
      } else {
        groups := groups[code := rest];
      }
    }

    method GroupSendEvent(code: Code, ev: GroupEvent)
      modifies this`outbox
      ensures Snapshot() == GroupSend(old(Snapshot()), code, ev)
    {
      outbox := outbox + Fanout(if code in groups then groups[code] else [], Deliver(ev));
    }

    // --- the handlers ---

    /** `connect`. */
    method Connect(ch: Chan, code: Code)
      requires Invariant(Snapshot()) && ch !in conns
      modifies this
      ensures Snapshot() == ConnectSpec(old(Snapshot()), ch, code)
      ensures Invariant(Snapshot())
    {
      ConnectKeeps(Snapshot(), ch, code);
      ConnectJoined(Snapshot(), ch, code);
      var room := GetRoom(code);
      conns := conns[ch := Conn(code, None, DefaultUsername, false, room)];
      if room.None? {
        CloseChan(ch);
        return;
      }
      GroupAddChan(code, ch);
      SendMsg(ch, SyncState(room.value.currentTime, room.value.isPlaying));
    }

    /** `receive`. */
    method Receive(ch: Chan, msg: ClientMsg)
      requires Invariant(Snapshot()) && ch in conns
      modifies this
      ensures Snapshot() == ReceiveSpec(old(Snapshot()), ch, msg)
      ensures Invariant(Snapshot())
    {
      StepKeepsInvariant(Snapshot(), Input.Receive(ch, msg));
      match msg
      case PingMsg => SendMsg(ch, Pong);
      case JoinMsg(sid, name) => HandleJoin(ch, sid, name);
      case SyncMsg(t, playing) => HandleSync(ch, t, playing);
      case ChatMsg(m) => HandleChat(ch, m);
      case OtherClientMsg(_) =>
    }

    /** `handle_join`. */
    method HandleJoin(ch: Chan, sid: Option<string>, name: Option<string>)
      requires ch in conns
      modifies this
      ensures Snapshot() == JoinSpec(old(Snapshot()), ch, sid, name)
    {
      var c := conns[ch].(sessionId := sid, username := name.GetOr(DefaultUsername));
      var room := GetRoom(c.roomCode);
      if room.None? {
        conns := conns[ch := c.(room := None)];
        SendMsg(ch, Error(RoomGoneText));
        CloseChan(ch);
        return;
      }
      var isHost := sid == Some(room.value.hostSessionId);
      conns := conns[ch := c.(room := room, isHost := isHost)];
      if isHost && c.roomCode in pending {
        CancelPendingDeletion(c.roomCode);
      }
      SendMsg(ch, Role(isHost, room.value.videoUrl));
      GroupSendEvent(c.roomCode, UserJoinedEvent(c.username));
    }

    /** The registered task's `cancel()` and the `del` that follows it. */
    method CancelPendingDeletion(code: Code)
      requires code in pending
      modifies this`tasks, this`pending
      ensures Snapshot() == CancelDeletion(old(Snapshot()), code)
    {
      var t := pending[code];
      if t in tasks && tasks[t].status == Sleeping {
        tasks := tasks[t := tasks[t].(status := Cancelled)];
      }
      pending := pending - {code};
    }

    /** `handle_sync`. */
    method HandleSync(ch: Chan, t: Option<Seconds>, playing: Option<bool>)
      requires ch in conns
      modifies this
      ensures Snapshot() == SyncSpec(old(Snapshot()), ch, t, playing)
    {
      var c := conns[ch];
      if !c.isHost {
        SendMsg(ch, Error(NotHostText));
        return;
      }
      var ct := t.GetOr(0.0);
      var ip := playing.GetOr(false);
      UpdateRoomPlayback(c.roomCode, ct, ip);
      GroupSendEvent(c.roomCode, SyncPlayback(ct, ip));
    }

    /** `handle_chat`. */
    method HandleChat(ch: Chan, message: Option<string>)
      requires ch in conns
      modifies this
      ensures Snapshot() == ChatSpec(old(Snapshot()), ch, message)
    {
      var text := PyStrip(message.GetOr(""));
      if text == "" {
        return;
      }
      GroupSendEvent(conns[ch].roomCode, ChatMessage(text, conns[ch].username));
    }

    /** `disconnect`; the consumer is discarded afterwards. */
    method Disconnect(ch: Chan)
      requires Invariant(Snapshot()) && ch in conns
      modifies this
      ensures Snapshot() == DisconnectSpec(old(Snapshot()), ch)
      ensures Invariant(Snapshot())
    {
      DisconnectKeeps(Snapshot(), ch);
      DisconnectJoined(Snapshot(), ch);
      var c := conns[ch];
      if c.isHost {
        ScheduleRoomDeletion(c.roomCode);
      } else if c.username != "" {
        GroupSendEvent(c.roomCode, UserLeftEvent(c.username));
      }
      GroupDiscardChan(c.roomCode, ch);
      conns := conns - {ch};
    }

    /** A host leaving: start a sleeping deletion task and register it under the code, replacing any entry. */
    method ScheduleRoomDeletion(code: Code)
      modifies this`tasks, this`nextTask, this`pending
      ensures Snapshot() == ScheduleDeletion(old(Snapshot()), code)
    {
      var task := nextTask;
      tasks := tasks[task := Task(code, Sleeping)];
      nextTask := nextTask + 1;
      pending := pending[code := task];
    }

    /** `delayed_room_deletion`, resumed after its sleep. */
    method DelayedRoomDeletion(t: TaskId)
      requires Invariant(Snapshot()) && t in tasks && tasks[t].status == Sleeping
      modifies this
      ensures Snapshot() == FireSpec(old(Snapshot()), t)
      ensures Invariant(Snapshot())
    {
      FireKeeps(Snapshot(), t);
      SameMembershipJoined(Snapshot(), FireSpec(Snapshot(), t));
      var code := tasks[t].code;
      tasks := tasks[t := Task(code, Finished)];
      if code in pending {
        pending := pending - {code};
        DeleteRoomRow(code);
        GroupSendEvent(code, RoomClosedEvent(HostEndedText));
      }
    }
  }
}
