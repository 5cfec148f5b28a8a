/**
 * The browser side of a watch party (`useWatchParty`): one websocket per
 * mounted room, a reducer over incoming server messages, a bounded window of
 * latency samples, and the guards on what the page may send.
 */
module Client {
  import opened Wrappers
  import opened Text
  import opened Protocol

  // ----- Latency samples -----

  /** How many one-way latency samples the hook keeps. */
  const SampleWindow: nat := 5

  /** The newest `SampleWindow` entries of `s`, oldest first. */
  function Newest(s: seq<real>): (r: seq<real>)
    ensures |r| == if |s| < SampleWindow then |s| else SampleWindow
    ensures r == s[|s| - |r|..]
  {
    if |s| <= SampleWindow then s else s[|s| - SampleWindow..]
  }

  /**
   * Push `x`, then drop the oldest entry when the window is over its size.
   * The new sample is last; the others keep their order; one is dropped
   * exactly when the window was already full.
   */
  function Window(w: seq<real>, x: real): (r: seq<real>)
    ensures |r| == if |w| + 1 > SampleWindow then |w| else |w| + 1
    ensures r[|r| - 1] == x
    ensures r[..|r| - 1] == w[|w| + 1 - |r|..]
  {
    var pushed := w + [x];
    if |pushed| > SampleWindow then pushed[1..] else pushed
  }

  /** The window after pushing every sample of `xs` in turn. */
  function PushAll(w: seq<real>, xs: seq<real>): seq<real>
    decreases |xs|
  {
    if xs == [] then w else PushAll(Window(w, xs[0]), xs[1..])
  }

  lemma NewestOfNewest(a: seq<real>, b: seq<real>)
    ensures Newest(Newest(a) + b) == Newest(a + b)
  {
    var n := Newest(a);
    var m := |n|;
    assert n + b == (a + b)[|a| - m..];
    var l := |Newest(a + b)|;
    assert |Newest(n + b)| == l;
    assert (a + b)[|a| - m..][m + |b| - l..] == (a + b)[|a| + |b| - l..];
  }

  /** Within its size, one push keeps the newest samples. */
  lemma WindowIsNewest(w: seq<real>, x: real)
    requires |w| <= SampleWindow
    ensures Window(w, x) == Newest(w + [x])
  {
  }

  /**
   * However many pongs arrive, a window that starts within its size holds
   * exactly the newest samples, at most `SampleWindow` of them, oldest first.
   */
  lemma {:induction false} PushAllKeepsNewest(w: seq<real>, xs: seq<real>)
    requires |w| <= SampleWindow
    ensures PushAll(w, xs) == Newest(w + xs)
    ensures |PushAll(w, xs)| <= SampleWindow
    decreases |xs|
  {
    if xs != [] {
      var w' := Window(w, xs[0]);
      WindowIsNewest(w, xs[0]);
      PushAllKeepsNewest(w', xs[1..]);
      NewestOfNewest(w + [xs[0]], xs[1..]);
      assert w + [xs[0]] + xs[1..] == w + xs;
    }
  }

  function Sum(s: seq<real>): real
    decreases |s|
  {
    if s == [] then 0.0 else Sum(s[..|s| - 1]) + s[|s| - 1]
  }

  /** The samples' mean, which the hook divides by 1000 to get seconds. */
  function Average(s: seq<real>): real
    requires s != []
  {
    Sum(s) / (|s| as real)
  }

  lemma {:induction false} SumBounds(s: seq<real>, lo: real, hi: real)
    requires forall k :: 0 <= k < |s| ==> lo <= s[k] <= hi
    ensures (|s| as real) * lo <= Sum(s) <= (|s| as real) * hi
    decreases |s|
  {
    if s != [] {
      SumBounds(s[..|s| - 1], lo, hi);
    }
  }

  /** The average lies between the smallest and the largest sample. */
  lemma AverageWithinSamples(s: seq<real>, lo: real, hi: real)
    requires s != [] && forall k :: 0 <= k < |s| ==> lo <= s[k] <= hi
    ensures lo <= Average(s) <= hi
  {
    SumBounds(s, lo, hi);
    var n := |s| as real;
    assert n * lo <= Sum(s) <= n * hi;
    assert Sum(s) / n >= lo by {
      assert Sum(s) / n * n == Sum(s);
    }
    assert Sum(s) / n <= hi by {
      assert Sum(s) / n * n == Sum(s);
    }
  }

  // ----- The chat list -----

  /** A chat entry as the page renders it; the timestamp is not modelled. */
  datatype ChatEntry =
    | UserChat(username: string, message: string)
    | SystemNote(message: string)

  const JoinedSuffix := " joined the party"
  const LeftSuffix := " left the party"

  /**
   * The entry a message adds to the chat list: `chat` as the sender wrote it,
   * `user_joined`/`user_left` as a system note naming the user; every other
   * message adds none.
   */
  function ChatEntryFor(m: ServerMsg): (e: Option<ChatEntry>)
    ensures e.Some? <==> m.Chat? || m.UserJoined? || m.UserLeft?
    ensures m.Chat? ==> e == Some(UserChat(m.username, m.message))
    ensures e.Some? && e.value.SystemNote? ==> !m.Chat?
  {
    match m
    case Chat(text, user) => Some(UserChat(user, text))
    case UserJoined(user) => Some(SystemNote(user + JoinedSuffix))
    case UserLeft(user) => Some(SystemNote(user + LeftSuffix))
    case _ => None
  }

  /** `[...prev, entry]`: one entry at the end, every earlier entry as it was. */
  function Appended(prev: seq<ChatEntry>, e: Option<ChatEntry>): (r: seq<ChatEntry>)
    ensures e.None? ==> r == prev
    ensures e.Some? ==> |r| == |prev| + 1 && r[..|prev|] == prev && r[|prev|] == e.value
  {
    match e
    case None => prev
    case Some(entry) => prev + [entry]
  }

  /**
   * The system notes are unambiguous: two join or leave messages give the
   * same note exactly when they are the same message, so a note names one
   * user and a join note never reads like a leave note.
   */
  lemma NotesIdentifyUser(m1: ServerMsg, m2: ServerMsg)
    requires m1.UserJoined? || m1.UserLeft?
    requires m2.UserJoined? || m2.UserLeft?
    ensures ChatEntryFor(m1) == ChatEntryFor(m2) <==> m1 == m2
  {
    var n1 := ChatEntryFor(m1).value.message;
    var n2 := ChatEntryFor(m2).value.message;
    // " the party" closes both notes; the letter before it tells them apart
    var tail := |" the party"|;
    if m1.UserJoined? != m2.UserJoined? {
      assert n1[|n1| - tail - 1] == (if m1.UserJoined? then 'd' else 't');
      assert n2[|n2| - tail - 1] == (if m2.UserJoined? then 'd' else 't');
    } else if n1 == n2 {
      var suffix := if m1.UserJoined? then JoinedSuffix else LeftSuffix;
      assert m1.username == n1[..|n1| - |suffix|];
      assert m2.username == n2[..|n2| - |suffix|];
    }
  }

  // ----- What the page may send -----

  /** The socket opens only when the room code, the session id and the username are all non-empty. */
  predicate Connects(roomCode: string, sessionId: string, username: string) {
    roomCode != "" && sessionId != "" && username != ""
  }

  /** `sendSync`: the pair as given, provided the socket is open. */
  function SyncFrame(open: bool, t: real, playing: bool): (r: Option<ClientMsg>)
    ensures r.Some? <==> open
    ensures r.Some? ==> r.value == SyncMsg(Some(t), Some(playing))
  {
    if open then Some(SyncMsg(Some(t), Some(playing))) else None
  }

  /**
   * `sendChat`: only on an open socket and only when something other than
   * whitespace was typed; what goes out is the trimmed text, which is
   * non-empty and already trimmed.
   */
  function ChatFrame(open: bool, text: string): (r: Option<ClientMsg>)
    ensures r.Some? <==> open && !Blank(text, JsWhitespace)
    ensures r.Some? ==> r.value.ChatMsg? && r.value.message.Some?
    ensures r.Some? && r.value.ChatMsg? && r.value.message.Some? ==>
      var sent := r.value.message.value;
      sent != "" && IsStripOf(text, sent, JsWhitespace) && JsTrim(sent) == sent
  {
    StripEmptyIffBlank(text, JsWhitespace);
    StripIdempotent(text, JsWhitespace);
    var trimmed := JsTrim(text);
    if open && trimmed != "" then Some(ChatMsg(Some(trimmed))) else None
  }

  function Outgoing(r: Option<ClientMsg>): seq<ClientMsg> {
    if r.Some? then [r.value] else []
  }

  /** Playback as the player should show it. */
  datatype Playback = Playback(currentTime: real, isPlaying: bool)

  const ConnectionLostText := "Connection lost. Please refresh the page."
  const ConnectFailedText := "Failed to connect to watch party."

  /** A `pingTimestampRef` the `pong` handler accepts: set and not zero. */
  predicate PingRecorded(p: Option<real>) {
    p.Some? && p.value != 0.0
  }

  /**
   * The hook's state for one mounted room: the React state values, the
   * refs, the socket's open flag and what has been sent on it.
   */
  class WatchPartyClient {
    const roomCode: string
    const sessionId: string
    const username: string
    /** The effect opened a socket (its guard on the three arguments held). */
    const hasSocket: bool

    var isConnected: bool
    var isHost: bool
    var videoUrl: string
    var syncState: Playback
    var chatMessages: seq<ChatEntry>
    var error: Option<string>
    var roomClosed: bool

    var latency: real                // seconds
    var samples: seq<real>           // one-way milliseconds, oldest first
    var pingTime: Option<real>       // `performance.now()` of the last ping

    var socketOpen: bool
    var sent: seq<ClientMsg>

    ghost predicate Valid()
      reads this
    {
      |samples| <= SampleWindow && (socketOpen ==> hasSocket)
    }

    constructor(roomCode: string, sessionId: string, username: string)
      ensures Valid()
      ensures this.roomCode == roomCode && this.sessionId == sessionId && this.username == username
      ensures hasSocket == Connects(roomCode, sessionId, username)
      ensures !isConnected && !isHost && videoUrl == "" && syncState == Playback(0.0, false)
      ensures chatMessages == [] && error == None && !roomClosed
      ensures latency == 0.0 && samples == [] && pingTime == None
      ensures !socketOpen && sent == []
    {
      this.roomCode := roomCode;
      this.sessionId := sessionId;
      this.username := username;
      hasSocket := Connects(roomCode, sessionId, username);
      isConnected := false;
      isHost := false;
      videoUrl := "";
      syncState := Playback(0.0, false);
      chatMessages := [];
      error := None;
      roomClosed := false;
      latency := 0.0;
      samples := [];
      pingTime := None;
      socketOpen := false;
      sent := [];
    }

    /** `measureLatency`: on an open socket, note the time and send `ping`. */
    method MeasureLatency(now: real)
      requires Valid()
      modifies this
      ensures Valid()
      ensures socketOpen ==> pingTime == Some(now) && sent == old(sent) + [PingMsg]
      ensures !socketOpen ==> pingTime == old(pingTime) && sent == old(sent)
      ensures socketOpen == old(socketOpen) && samples == old(samples) && latency == old(latency)
      ensures isConnected == old(isConnected) && isHost == old(isHost) && videoUrl == old(videoUrl)
      ensures syncState == old(syncState) && chatMessages == old(chatMessages)
      ensures error == old(error) && roomClosed == old(roomClosed)
    {
      if socketOpen {
        pingTime := Some(now);
        sent := sent + [PingMsg];
      }
    }

    /** `onopen`: connected, error cleared, `join` sent first and then the first `ping`. */
    method OnOpen(now: real)
      requires Valid() && hasSocket
      modifies this
      ensures Valid()
      ensures socketOpen && isConnected && error == None
      ensures sent == old(sent) + [JoinMsg(Some(sessionId), Some(username)), PingMsg]
      ensures pingTime == Some(now)
      ensures samples == old(samples) && latency == old(latency)
      ensures isHost == old(isHost) && videoUrl == old(videoUrl)
      ensures syncState == old(syncState) && chatMessages == old(chatMessages)
      ensures roomClosed == old(roomClosed)
    {
      socketOpen := true;
      isConnected := true;
      error := None;
      sent := sent + [JoinMsg(Some(sessionId), Some(username))];
      MeasureLatency(now);
    }

    /** `onclose`: disconnected; an unclean close of a room that was not closed reports the loss. */
    method OnClose(wasClean: bool)
      requires Valid()
      modifies this
      ensures Valid()
      ensures !socketOpen && !isConnected
      ensures error == if !wasClean && !roomClosed then Some(ConnectionLostText) else old(error)
      ensures sent == old(sent) && pingTime == old(pingTime) && samples == old(samples)
      ensures latency == old(latency) && isHost == old(isHost) && videoUrl == old(videoUrl)
      ensures syncState == old(syncState) && chatMessages == old(chatMessages)
      ensures roomClosed == old(roomClosed)
    {
      socketOpen := false;
      isConnected := false;
      if !wasClean && !roomClosed {
        error := Some(ConnectionLostText);
      }
    }

    /** `onerror`: only the error text changes. */
    method OnError()
      requires Valid()
      modifies this`error
      ensures Valid()
      ensures error == Some(ConnectFailedText)
    {
      error := Some(ConnectFailedText);
    }

    /** The `pong` branch: a one-way sample into the window and the mean into `latency`. */
    method RecordPong(now: real)
      requires Valid()
      modifies this`samples, this`latency
      ensures Valid()
      ensures PingRecorded(pingTime) ==>
        && samples == Window(old(samples), (now - pingTime.value) / 2.0)
        && latency == Average(samples) / 1000.0
      ensures !PingRecorded(pingTime) ==> samples == old(samples) && latency == old(latency)
    {
      if PingRecorded(pingTime) {
        var oneWay := (now - pingTime.value) / 2.0;
        var w := samples + [oneWay];
        if |w| > SampleWindow {
          w := w[1..];
        }
        samples := w;
        latency := Average(w) / 1000.0;
      }
    }

    /** `onmessage`: one server message into the hook's state. */
    method OnMessage(msg: ServerMsg, now: real)
      requires Valid()
      modifies this
      ensures Valid()
      ensures msg.Pong? && PingRecorded(pingTime) ==>
        && samples == Window(old(samples), (now - pingTime.value) / 2.0)
        && latency == Average(samples) / 1000.0
      ensures !(msg.Pong? && PingRecorded(pingTime)) ==> samples == old(samples) && latency == old(latency)
      ensures isHost == if msg.Role? then msg.isHost else old(isHost)
      ensures videoUrl == if msg.Role? then msg.videoUrl else old(videoUrl)
      ensures syncState == if msg.SyncState? then Playback(msg.currentTime + old(latency), msg.isPlaying)
                           else old(syncState)
      ensures chatMessages == Appended(old(chatMessages), ChatEntryFor(msg))
      ensures roomClosed == (old(roomClosed) || msg.RoomClosed?)
      ensures error == if msg.RoomClosed? then Some(msg.message) else old(error)
      ensures isConnected == old(isConnected) && pingTime == old(pingTime)
      ensures socketOpen == old(socketOpen) && sent == old(sent)
    {
      match msg
      case Pong => RecordPong(now);
      case Role(host, url) =>
        isHost := host;
        videoUrl := url;
      case SyncState(t, playing) =>
        syncState := Playback(t + latency, playing);
      case Chat(_, _) =>
        chatMessages := Appended(chatMessages, ChatEntryFor(msg));
      case UserJoined(_) =>
        chatMessages := Appended(chatMessages, ChatEntryFor(msg));
      case UserLeft(_) =>
        chatMessages := Appended(chatMessages, ChatEntryFor(msg));
      case RoomClosed(text) =>
        roomClosed := true;
        error := Some(text);
      case Error(_) =>
      case OtherServerMsg(_) =>
    }

    /** `sendSync`. */
    method SendSync(t: real, playing: bool)
      requires Valid()
      modifies this`sent
      ensures Valid()
      ensures sent == old(sent) + Outgoing(SyncFrame(socketOpen, t, playing))
    {
      var frame := SyncFrame(socketOpen, t, playing);
      if frame.Some? {
        sent := sent + [frame.value];
      }
    }

    /** `sendChat`. */
    method SendChat(text: string)
      requires Valid()
      modifies this`sent
      ensures Valid()
      ensures sent == old(sent) + Outgoing(ChatFrame(socketOpen, text))
    {
      var frame := ChatFrame(socketOpen, text);
      if frame.Some? {
        sent := sent + [frame.value];
      }
    }
  }
}
