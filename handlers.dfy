/**
 * What each consumer handler promises, stated as what the connections
 * receive (`Received`) and what becomes of the registry, the groups and the
 * pending deletions after the handler runs.
 */
module HandlerProperties {
  import opened Wrappers
  import opened Text
  import opened Rooms
  import opened Protocol
  import opened Consumer

  /** What one group send adds to each inbox: the event's frames for members, nothing for others. */
  lemma GroupSendReceived(s: State, code: Code, ev: GroupEvent)
    requires NoDup(Members(s, code))
    ensures forall x :: Received(GroupSend(s, code, ev).outbox, x)
                     == Received(s.outbox, x) + (if x in Members(s, code) then Deliver(ev) else [])
  {
    forall x ensures Received(GroupSend(s, code, ev).outbox, x)
                  == Received(s.outbox, x) + (if x in Members(s, code) then Deliver(ev) else [])
    {
      ReceivedAppend(s.outbox, Fanout(Members(s, code), Deliver(ev)), x);
      FanoutReceived(Members(s, code), Deliver(ev), x);
    }
  }

  // ----- connect -----

  /** Connecting to a code with no room closes the connection, joins no group, sends nothing else. */
  lemma ConnectWithoutRoomRefused(s: State, ch: Chan, code: Code)
    requires code !in s.rooms
    ensures var s' := ConnectSpec(s, ch, code);
      && s'.outbox == s.outbox + [(ch, Close)]
      && s'.groups == s.groups && s'.rooms == s.rooms && s'.pending == s.pending
  {
  }

  /**
   * Connecting to an existing room appends the channel to the room's group
   * and sends it, and only it, the room's playback snapshot; the new
   * consumer is not host and has no session id yet.
   */
  lemma ConnectJoinsGroupWithSnapshot(s: State, ch: Chan, code: Code)
    requires Invariant(s) && ch !in s.conns && code in s.rooms
    ensures var s' := ConnectSpec(s, ch, code);
      && Members(s', code) == Members(s, code) + [ch]
      && s'.outbox == s.outbox + [(ch, Send(SyncState(s.rooms[code].currentTime, s.rooms[code].isPlaying)))]
      && !s'.conns[ch].isHost && s'.conns[ch].sessionId.None?
      && s'.rooms == s.rooms && s'.pending == s.pending
  {
    assert ch !in Members(s, code);
  }

  // ----- receive -----

  /** `ping` is answered with `pong` to the sender and to no one else; nothing else changes. */
  lemma PingAnsweredToSenderOnly(s: State, ch: Chan)
    requires ch in s.conns
    ensures ReceiveSpec(s, ch, PingMsg) == s.(outbox := s.outbox + [(ch, Send(Pong))])
  {
  }

  /** A message of any other type changes nothing and sends nothing. */
  lemma UnknownTypeIgnored(s: State, ch: Chan, kind: string)
    requires ch in s.conns
    ensures ReceiveSpec(s, ch, OtherClientMsg(kind)) == s
  {
  }

  /** `join` after the room is gone: an error to the sender, then its connection closed; no broadcast. */
  lemma JoinAfterRoomGone(s: State, ch: Chan, sid: Option<string>, name: Option<string>)
    requires ch in s.conns && s.conns[ch].roomCode !in s.rooms
    ensures var s' := JoinSpec(s, ch, sid, name);
      && s'.outbox == s.outbox + [(ch, Send(Error(RoomGoneText))), (ch, Close)]
      && s'.rooms == s.rooms && s'.groups == s.groups
      && s'.pending == s.pending && s'.tasks == s.tasks
  {
  }

  lemma JoinShape(s: State, ch: Chan, sid: Option<string>, name: Option<string>)
    requires ch in s.conns && s.conns[ch].roomCode in s.rooms
    ensures var code := s.conns[ch].roomCode;
      var room := s.rooms[code];
      var isHost := sid == Some(room.hostSessionId);
      var username := name.GetOr(DefaultUsername);
      var s' := JoinSpec(s, ch, sid, name);
      && s'.conns[ch] == s.conns[ch].(sessionId := sid, username := username, room := Some(room), isHost := isHost)
      && s'.rooms == s.rooms && s'.groups == s.groups
      && s'.outbox == s.outbox + [(ch, Send(Role(isHost, room.videoUrl)))]
                      + Fanout(Members(s, code), [Send(UserJoined(username))])
  {
    var code := s.conns[ch].roomCode;
    var room := s.rooms[code];
    var isHost := sid == Some(room.hostSessionId);
    var c := s.conns[ch].(sessionId := sid, username := name.GetOr(DefaultUsername));
    var s1 := s.(conns := s.conns[ch := c.(room := Some(room), isHost := isHost)]);
    var s2 := if isHost && code in s1.pending then CancelDeletion(s1, code) else s1;
    assert s2.outbox == s.outbox && s2.groups == s.groups && s2.rooms == s.rooms;
    assert JoinSpec(s, ch, sid, name) == GroupSend(SendTo(s2, ch, Role(isHost, room.videoUrl)), code, UserJoinedEvent(c.username));
  }

  /**
   * `join` to an existing room: the role is exactly the session-id
   * comparison; the sender gets `role` with the room's video URL; every
   * group member, the sender included (it joined the group on connect), gets
   * one `user_joined` with the username (the default one when none was given).
   */
  lemma JoinResolvesRole(s: State, ch: Chan, sid: Option<string>, name: Option<string>)
    requires Invariant(s) && ch in s.conns && s.conns[ch].roomCode in s.rooms
    ensures var code := s.conns[ch].roomCode;
      var room := s.rooms[code];
      var isHost := sid == Some(room.hostSessionId);
      var s' := JoinSpec(s, ch, sid, name);
      && s'.conns[ch].isHost == isHost
      && ch in Members(s, code)
      && s'.conns[ch].sessionId == sid
      && s'.conns[ch].username == name.GetOr(DefaultUsername)
      && s'.rooms == s.rooms && s'.groups == s.groups
      && forall x :: Received(s'.outbox, x)
           == Received(s.outbox, x)
              + (if x == ch then [Send(Role(isHost, room.videoUrl))] else [])
              + (if x in Members(s, code) then [Send(UserJoined(name.GetOr(DefaultUsername)))] else [])
  {
    var code := s.conns[ch].roomCode;
    var room := s.rooms[code];
    var isHost := sid == Some(room.hostSessionId);
    var role := [(ch, Send(Role(isHost, room.videoUrl)))];
    var frames := [Send(UserJoined(name.GetOr(DefaultUsername)))];
    var fan := Fanout(Members(s, code), frames);
    JoinShape(s, ch, sid, name);
    assert NoDup(Members(s, code));
    forall x ensures Received(s.outbox + role + fan, x)
           == Received(s.outbox, x)
              + (if x == ch then [Send(Role(isHost, room.videoUrl))] else [])
              + (if x in Members(s, code) then frames else [])
    {
      ReceivedAppend(s.outbox, role, x);
      ReceivedAppend(s.outbox + role, fan, x);
      FanoutReceived(Members(s, code), frames, x);
    }
  }

  /**
   * A host `join` cancels the registered deletion task and drops the entry;
   * a `join` that does not resolve to host leaves the pending deletions and
   * the deletion tasks untouched.
   */
  lemma JoinAndPendingDeletion(s: State, ch: Chan, sid: Option<string>, name: Option<string>)
    requires Invariant(s) && ch in s.conns && s.conns[ch].roomCode in s.rooms
    ensures var code := s.conns[ch].roomCode;
      var s' := JoinSpec(s, ch, sid, name);
      if sid == Some(s.rooms[code].hostSessionId) then
        && s'.pending == s.pending - {code}
        && (code in s.pending ==> s'.tasks == s.tasks[s.pending[code] := Task(code, Cancelled)])
      else
        s'.pending == s.pending && s'.tasks == s.tasks
  {
  }

  /** Sending `join` twice with the same session id resolves the same role both times. */
  lemma RepeatedJoinSameRole(s: State, ch: Chan, sid: Option<string>, name: Option<string>)
    requires Invariant(s) && ch in s.conns && s.conns[ch].roomCode in s.rooms
    ensures var s1 := JoinSpec(s, ch, sid, name);
      ch in s1.conns && s1.conns[ch].roomCode in s1.rooms &&
      JoinSpec(s1, ch, sid, name).conns[ch].isHost == s1.conns[ch].isHost
  {
    JoinResolvesRole(s, ch, sid, name);
    var s1 := JoinSpec(s, ch, sid, name);
    JoinKeeps(s, ch, sid, name);
    JoinResolvesRole(s1, ch, sid, name);
  }

  /** `sync` from a connection that is not host: an error to it alone, and nothing else changes. */
  lemma NonHostSyncRejected(s: State, ch: Chan, t: Option<Seconds>, playing: Option<bool>)
    requires ch in s.conns && !s.conns[ch].isHost
    ensures SyncSpec(s, ch, t, playing) == s.(outbox := s.outbox + [(ch, Send(Error(NotHostText)))])
  {
  }

  /** Input `i` is a `join` message from `ch`. */
  predicate SentJoin(i: Input, ch: Chan) {
    i.Receive? && i.chan == ch && i.msg.JoinMsg?
  }

  /** `ch`, if live, is not host. */
  predicate NotHost(s: State, ch: Chan) {
    ch in s.conns ==> !s.conns[ch].isHost
  }

  /** Only a `join` from `ch` itself can make `ch` host; a new connection starts as viewer. */
  lemma StepKeepsNotHost(s: State, i: Input, ch: Chan)
    requires NotHost(s, ch) && !SentJoin(i, ch)
    ensures NotHost(Step(s, i), ch)
  {
    if Enabled(s, i) && i.Receive? && i.chan == ch {
      match i.msg
      case SyncMsg(t, playing) => assert SyncSpec(s, ch, t, playing).conns == s.conns;
      case ChatMsg(m) => assert ChatSpec(s, ch, m).conns == s.conns;
      case PingMsg =>
      case OtherClientMsg(_) =>
    }
  }

  lemma {:induction false} RunKeepsNotHost(s: State, inputs: seq<Input>, ch: Chan)
    requires NotHost(s, ch)
    requires forall k :: 0 <= k < |inputs| ==> !SentJoin(inputs[k], ch)
    ensures NotHost(Run(s, inputs), ch)
    decreases |inputs|
  {
    if inputs != [] {
      StepKeepsNotHost(s, inputs[0], ch);
      RunKeepsNotHost(Step(s, inputs[0]), inputs[1..], ch);
    }
  }

  /**
   * A connection that has not sent `join` since it connected is never host,
   * whatever else happened in between, so its `sync` is rejected.
   */
  lemma SyncBeforeJoinRejected(s: State, ch: Chan, code: Code, inputs: seq<Input>,
                               t: Option<Seconds>, playing: Option<bool>)
    requires ch !in s.conns
    requires forall k :: 0 <= k < |inputs| ==> !SentJoin(inputs[k], ch)
    ensures var s' := Run(Step(s, Connect(ch, code)), inputs);
      ch in s'.conns ==>
      SyncSpec(s', ch, t, playing) == s'.(outbox := s'.outbox + [(ch, Send(Error(NotHostText)))])
  {
    var s1 := Step(s, Connect(ch, code));
    assert NotHost(s1, ch);
    RunKeepsNotHost(s1, inputs, ch);
    var s' := Run(s1, inputs);
    if ch in s'.conns {
      NonHostSyncRejected(s', ch, t, playing);
    }
  }

  lemma HostSyncShape(s: State, ch: Chan, t: Option<Seconds>, playing: Option<bool>)
    requires ch in s.conns && s.conns[ch].isHost && s.conns[ch].roomCode in s.rooms
    ensures var code := s.conns[ch].roomCode;
      var ct := t.GetOr(0.0);
      var ip := playing.GetOr(false);
      var s' := SyncSpec(s, ch, t, playing);
      && s'.rooms == s.rooms[code := s.rooms[code].(currentTime := ct, isPlaying := ip)]
      && s'.conns == s.conns && s'.groups == s.groups && s'.pending == s.pending && s'.tasks == s.tasks
      && s'.outbox == s.outbox + Fanout(Members(s, code), [Send(SyncState(ct, ip))])
  {
  }

  /**
   * `sync` from the host stores the pair (0 and false for missing fields)
   * in the room, then every group member, the sender included, receives
   * exactly that pair as one `sync` message.
   */
  lemma HostSyncStoredAndBroadcast(s: State, ch: Chan, t: Option<Seconds>, playing: Option<bool>)
    requires Invariant(s) && ch in s.conns && s.conns[ch].isHost && s.conns[ch].roomCode in s.rooms
    ensures var code := s.conns[ch].roomCode;
      var ct := t.GetOr(0.0);
      var ip := playing.GetOr(false);
      var s' := SyncSpec(s, ch, t, playing);
      && s'.rooms == s.rooms[code := s.rooms[code].(currentTime := ct, isPlaying := ip)]
      && s'.conns == s.conns && s'.groups == s.groups && s'.pending == s.pending
      && ch in Members(s, code)
      && forall x :: Received(s'.outbox, x)
           == Received(s.outbox, x) + (if x in Members(s, code) then [Send(SyncState(ct, ip))] else [])
  {
    var code := s.conns[ch].roomCode;
    var frames := [Send(SyncState(t.GetOr(0.0), playing.GetOr(false)))];
    HostSyncShape(s, ch, t, playing);
    assert NoDup(Members(s, code));
    forall x ensures Received(s.outbox + Fanout(Members(s, code), frames), x)
                  == Received(s.outbox, x) + (if x in Members(s, code) then frames else [])
    {
      ReceivedAppend(s.outbox, Fanout(Members(s, code), frames), x);
      FanoutReceived(Members(s, code), frames, x);
    }
  }

  /**
   * Two back-to-back host `sync`s: every member receives the first pair and
   * then the second, so the last state any member sees is the second, and
   * the registry holds the second.
   */
  lemma BackToBackSyncsArriveInOrder(s: State, ch: Chan, t1: Seconds, p1: bool, t2: Seconds, p2: bool)
    requires Invariant(s) && ch in s.conns && s.conns[ch].isHost && s.conns[ch].roomCode in s.rooms
    ensures var code := s.conns[ch].roomCode;
      var s1 := SyncSpec(s, ch, Some(t1), Some(p1));
      ch in s1.conns &&
      var s2 := SyncSpec(s1, ch, Some(t2), Some(p2));
      && code in s2.rooms && s2.rooms[code].currentTime == t2 && s2.rooms[code].isPlaying == p2
      && forall x :: x in Members(s, code) ==>
           Received(s2.outbox, x) == Received(s.outbox, x) + [Send(SyncState(t1, p1)), Send(SyncState(t2, p2))]
  {
    var code := s.conns[ch].roomCode;
    var s1 := SyncSpec(s, ch, Some(t1), Some(p1));
    HostSyncStoredAndBroadcast(s, ch, Some(t1), Some(p1));
    SyncKeeps(s, ch, Some(t1), Some(p1));
    HostSyncStoredAndBroadcast(s1, ch, Some(t2), Some(p2));
    assert Members(s1, code) == Members(s, code);
  }

  /** A chat message that is all whitespace (or missing) sends nothing and changes nothing. */
  lemma BlankChatDropped(s: State, ch: Chan, message: Option<string>)
    requires ch in s.conns && Blank(message.GetOr(""), PyWhitespace)
    ensures ChatSpec(s, ch, message) == s
  {
    StripEmptyIffBlank(message.GetOr(""), PyWhitespace);
  }

  /**
   * Any other chat message is broadcast exactly once: every member, the
   * sender included while its room exists, receives the stripped text with
   * the sender's current username, and nothing else changes.
   */
  lemma ChatBroadcastOnce(s: State, ch: Chan, message: Option<string>)
    requires Invariant(s) && ch in s.conns && !Blank(message.GetOr(""), PyWhitespace)
    ensures var text := PyStrip(message.GetOr(""));
      var s' := ChatSpec(s, ch, message);
      && text != "" && IsStripOf(message.GetOr(""), text, PyWhitespace)
      && s' == s.(outbox := s'.outbox)
      && (s.conns[ch].roomCode in s.rooms ==> ch in Members(s, s.conns[ch].roomCode))
      && forall x :: Received(s'.outbox, x)
           == Received(s.outbox, x)
              + (if x in Members(s, s.conns[ch].roomCode) then [Send(Chat(text, s.conns[ch].username))] else [])
  {
    StripEmptyIffBlank(message.GetOr(""), PyWhitespace);
    var text := PyStrip(message.GetOr(""));
    assert NoDup(Members(s, s.conns[ch].roomCode));
    GroupSendReceived(s, s.conns[ch].roomCode, ChatMessage(text, s.conns[ch].username));
  }

  // ----- disconnect -----

  /**
   * A host disconnect registers a fresh sleeping task under the room code,
   * replacing any existing entry (which is neither cancelled nor finished),
   * sends nothing, and leaves the group.
   */
  lemma HostDisconnectSchedulesDeletion(s: State, ch: Chan)
    requires Invariant(s) && ch in s.conns && s.conns[ch].isHost
    ensures var code := s.conns[ch].roomCode;
      var s' := DisconnectSpec(s, ch);
      && s'.pending == s.pending[code := s.nextTask]
      && s.nextTask !in s.tasks
      && s'.tasks == s.tasks[s.nextTask := Task(code, Sleeping)]
      && s'.outbox == s.outbox && s'.rooms == s.rooms
      && ch !in s'.conns
      && Members(s', code) == Without(Members(s, code), ch)
  {
  }

  /** After any disconnect the consumer is gone and its channel is in no group. */
  lemma DisconnectLeavesEveryGroup(s: State, ch: Chan)
    requires Invariant(s) && ch in s.conns
    ensures var s' := DisconnectSpec(s, ch);
      ch !in s'.conns && forall code :: ch !in Members(s', code)
  {
    var c := s.conns[ch];
    var s1 :=
      if c.isHost then ScheduleDeletion(s, c.roomCode)
      else if c.username != "" then GroupSend(s, c.roomCode, UserLeftEvent(c.username))
      else s;
    var s2 := GroupDiscard(s1, c.roomCode, ch);
    assert DisconnectSpec(s, ch) == s2.(conns := s2.conns - {ch});
    assert s1.groups == s.groups;
    forall code ensures ch !in Members(s2, code) {
      if code != c.roomCode {
        assert Members(s2, code) == Members(s, code);
      }
    }
  }

  lemma ViewerDisconnectShape(s: State, ch: Chan)
    requires ch in s.conns && !s.conns[ch].isHost
    ensures var c := s.conns[ch];
      var s' := DisconnectSpec(s, ch);
      && s'.outbox == s.outbox + (if c.username != "" then Fanout(Members(s, c.roomCode), [Send(UserLeft(c.username))]) else [])
      && s'.pending == s.pending && s'.tasks == s.tasks && s'.rooms == s.rooms
  {
    var c := s.conns[ch];
    var s1 := if c.username != "" then GroupSend(s, c.roomCode, UserLeftEvent(c.username)) else s;
    var s2 := GroupDiscard(s1, c.roomCode, ch);
    assert DisconnectSpec(s, ch) == s2.(conns := s2.conns - {ch});
    if c.username == "" { assert s.outbox + [] == s.outbox; }
  }

  /**
   * A viewer disconnect sends `user_left` with its username to every member
   * (itself included, before it leaves, while its room exists) when the
   * username is non-empty, and
   * leaves the pending deletions, the deletion tasks and the registry alone.
   */
  lemma ViewerDisconnectAnnounced(s: State, ch: Chan)
    requires Invariant(s) && ch in s.conns && !s.conns[ch].isHost
    ensures var c := s.conns[ch];
      var s' := DisconnectSpec(s, ch);
      && s'.pending == s.pending && s'.tasks == s.tasks && s'.rooms == s.rooms
      && (c.roomCode in s.rooms ==> ch in Members(s, c.roomCode))
      && forall x :: Received(s'.outbox, x)
           == Received(s.outbox, x)
              + (if c.username != "" && x in Members(s, c.roomCode) then [Send(UserLeft(c.username))] else [])
  {
    var c := s.conns[ch];
    var frames := [Send(UserLeft(c.username))];
    var fan := if c.username != "" then Fanout(Members(s, c.roomCode), frames) else [];
    ViewerDisconnectShape(s, ch);
    assert NoDup(Members(s, c.roomCode));
    forall x ensures Received(s.outbox + fan, x)
           == Received(s.outbox, x)
              + (if c.username != "" && x in Members(s, c.roomCode) then frames else [])
    {
      ReceivedAppend(s.outbox, fan, x);
      FanoutReceived(Members(s, c.roomCode), frames, x);
    }
  }

  // ----- the deletion task -----

  lemma FireShape(s: State, t: TaskId)
    requires t in s.tasks && s.tasks[t].code in s.pending
    ensures var code := s.tasks[t].code;
      var s' := FireSpec(s, t);
      && s'.rooms == s.rooms - {code} && s'.pending == s.pending - {code}
      && s'.tasks == s.tasks[t := Task(code, Finished)]
      && s'.groups == s.groups && s'.conns == s.conns
      && s'.outbox == s.outbox + Fanout(Members(s, code), [Send(RoomClosed(HostEndedText)), Close])
  {
  }

  /**
   * A deletion task that wakes while its room code is pending removes the
   * entry and the room, and every member receives exactly one `room_closed`
   * with the host-ended notice followed by the close of its connection.
   */
  lemma FireTearsRoomDown(s: State, t: TaskId)
    requires Invariant(s) && t in s.tasks && s.tasks[t].code in s.pending
    ensures var code := s.tasks[t].code;
      var s' := FireSpec(s, t);
      && code !in s'.rooms && code !in s'.pending
      && s'.tasks == s.tasks[t := Task(code, Finished)]
      && forall x :: Received(s'.outbox, x)
           == Received(s.outbox, x)
              + (if x in Members(s, code) then [Send(RoomClosed(HostEndedText)), Close] else [])
  {
    var code := s.tasks[t].code;
    var frames := [Send(RoomClosed(HostEndedText)), Close];
    FireShape(s, t);
    assert NoDup(Members(s, code));
    forall x ensures Received(s.outbox + Fanout(Members(s, code), frames), x)
                  == Received(s.outbox, x) + (if x in Members(s, code) then frames else [])
    {
      ReceivedAppend(s.outbox, Fanout(Members(s, code), frames), x);
      FanoutReceived(Members(s, code), frames, x);
    }
  }

  /** A deletion task that wakes after its code left the pending map only finishes. */
  lemma FireWithoutPendingIsIdle(s: State, t: TaskId)
    requires t in s.tasks && s.tasks[t].code !in s.pending
    ensures FireSpec(s, t) == s.(tasks := s.tasks[t := Task(s.tasks[t].code, Finished)])
  {
  }
}
