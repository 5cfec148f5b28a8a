/**
 * The grace period over whole runs: when a room survives its host leaving,
 * and how a second host connection leaves an orphaned deletion task that
 * still closes the room.
 */
module Lifecycle {
  import opened Wrappers
  import opened Rooms
  import opened Protocol
  import opened Consumer
  import opened HandlerProperties

  /** No deletion of room `c` is registered, and no task for `c` is still asleep. */
  ghost predicate Quiet(s: State, c: Code) {
    && c !in s.pending
    && forall t :: t in s.tasks && s.tasks[t].code == c ==> s.tasks[t].status != Sleeping
  }

  /** Every sleeping task for room `c` is the one registered under `c`. */
  ghost predicate NoOrphans(s: State, c: Code) {
    forall t :: t in s.tasks && s.tasks[t] == Task(c, Sleeping) ==> c in s.pending && s.pending[c] == t
  }

  /** Input `i` is the disconnect of a host connection of room `c`. */
  predicate HostLeaves(s: State, i: Input, c: Code) {
    i.Disconnect? && i.chan in s.conns && s.conns[i.chan].isHost && s.conns[i.chan].roomCode == c
  }

  /** Along the run of `inputs` from `s`, no host connection of room `c` disconnects. */
  predicate NoHostLeaves(s: State, inputs: seq<Input>, c: Code)
    decreases |inputs|
  {
    inputs == [] || (!HostLeaves(s, inputs[0], c) && NoHostLeaves(Step(s, inputs[0]), inputs[1..], c))
  }

  /**
   * A host `join` while the only sleeping task for the room is the
   * registered one cancels it: nothing is left that could delete the room.
   */
  lemma HostJoinQuiets(s: State, ch: Chan, sid: Option<string>, name: Option<string>)
    requires Invariant(s) && ch in s.conns
    requires var c := s.conns[ch].roomCode;
      c in s.rooms && NoOrphans(s, c) && sid == Some(s.rooms[c].hostSessionId)
    ensures var c := s.conns[ch].roomCode;
      var s' := JoinSpec(s, ch, sid, name);
      Quiet(s', c) && c in s'.rooms && s'.conns[ch].isHost
  {
    var c := s.conns[ch].roomCode;
    JoinAndPendingDeletion(s, ch, sid, name);
    JoinResolvesRole(s, ch, sid, name);
  }

  /** A step that is not a host of `c` leaving keeps room `c` and keeps it quiet. */
  lemma QuietStepKeepsRoom(s: State, i: Input, c: Code)
    requires Invariant(s) && Quiet(s, c) && c in s.rooms && !HostLeaves(s, i, c)
    ensures Quiet(Step(s, i), c) && c in Step(s, i).rooms
  {
    if Enabled(s, i) {
      match i
      case Connect(ch, code) =>
      case Receive(ch, msg) => QuietReceive(s, ch, msg, c);
      case Disconnect(ch) => QuietDisconnect(s, ch, c);
      case Fire(t) => QuietFire(s, t, c);
    }
  }

  lemma QuietReceive(s: State, ch: Chan, msg: ClientMsg, c: Code)
    requires Invariant(s) && Quiet(s, c) && c in s.rooms && ch in s.conns
    ensures Quiet(ReceiveSpec(s, ch, msg), c) && c in ReceiveSpec(s, ch, msg).rooms
  {
    match msg
    case JoinMsg(sid, name) =>
      var s' := JoinSpec(s, ch, sid, name);
      var code := s.conns[ch].roomCode;
      if code in s.rooms && sid == Some(s.rooms[code].hostSessionId) && code in s.pending {
        JoinAndPendingDeletion(s, ch, sid, name);
        assert code != c;
        assert s.tasks[s.pending[code]].code == code;
      }
    case SyncMsg(t, playing) =>
    case PingMsg =>
    case ChatMsg(m) =>
    case OtherClientMsg(_) =>
  }

  lemma QuietDisconnect(s: State, ch: Chan, c: Code)
    requires Invariant(s) && Quiet(s, c) && c in s.rooms && ch in s.conns
    requires !(s.conns[ch].isHost && s.conns[ch].roomCode == c)
    ensures Quiet(DisconnectSpec(s, ch), c) && c in DisconnectSpec(s, ch).rooms
  {
    if s.conns[ch].isHost {
      HostDisconnectSchedulesDeletion(s, ch);
    } else {
      ViewerDisconnectShape(s, ch);
    }
  }

  lemma QuietFire(s: State, t: TaskId, c: Code)
    requires Invariant(s) && Quiet(s, c) && c in s.rooms
    requires t in s.tasks && s.tasks[t].status == Sleeping
    ensures Quiet(FireSpec(s, t), c) && c in FireSpec(s, t).rooms
  {
    assert s.tasks[t].code != c;
  }

  /** Along any run in which no host of room `c` leaves, a quiet room `c` stays in the registry. */
  lemma {:induction false} QuietRunKeepsRoom(s: State, inputs: seq<Input>, c: Code)
    requires Invariant(s) && Quiet(s, c) && c in s.rooms && NoHostLeaves(s, inputs, c)
    ensures Quiet(Run(s, inputs), c) && c in Run(s, inputs).rooms
    decreases |inputs|
  {
    if inputs != [] {
      QuietStepKeepsRoom(s, inputs[0], c);
      StepKeepsInvariant(s, inputs[0]);
      QuietRunKeepsRoom(Step(s, inputs[0]), inputs[1..], c);
    }
  }

  /**
   * With a single host connection (no orphaned task for the room), a host
   * `join` before the deletion task fires means the room is never deleted,
   * whatever follows, as long as no host connection of the room leaves again.
   */
  lemma HostRejoinKeepsRoom(s: State, ch: Chan, sid: Option<string>, name: Option<string>, rest: seq<Input>)
    requires Invariant(s) && ch in s.conns
    requires var c := s.conns[ch].roomCode;
      c in s.rooms && NoOrphans(s, c) && sid == Some(s.rooms[c].hostSessionId)
    requires NoHostLeaves(Step(s, Receive(ch, JoinMsg(sid, name))), rest, s.conns[ch].roomCode)
    ensures s.conns[ch].roomCode in Run(s, [Receive(ch, JoinMsg(sid, name))] + rest).rooms
  {
    var c := s.conns[ch].roomCode;
    var i := Receive(ch, JoinMsg(sid, name));
    var s1 := Step(s, i);
    assert s1 == JoinSpec(s, ch, sid, name);
    HostJoinQuiets(s, ch, sid, name);
    JoinKeeps(s, ch, sid, name);
    QuietRunKeepsRoom(s1, rest, c);
    assert ([i] + rest)[1..] == rest;
  }

  /**
   * `NoOrphans` is lost only by a host of the room leaving while a deletion
   * of the room is already registered; every other step keeps it.
   */
  lemma StepKeepsNoOrphans(s: State, i: Input, c: Code)
    requires Invariant(s) && NoOrphans(s, c)
    requires !(HostLeaves(s, i, c) && c in s.pending)
    ensures NoOrphans(Step(s, i), c)
  {
    if Enabled(s, i) {
      match i
      case Connect(ch, code) =>
      case Receive(ch, msg) => ReceiveKeepsNoOrphans(s, ch, msg, c);
      case Disconnect(ch) => DisconnectKeepsNoOrphans(s, ch, c);
      case Fire(t) =>
    }
  }

  lemma ReceiveKeepsNoOrphans(s: State, ch: Chan, msg: ClientMsg, c: Code)
    requires Invariant(s) && NoOrphans(s, c) && ch in s.conns
    ensures NoOrphans(ReceiveSpec(s, ch, msg), c)
  {
    match msg {
      case JoinMsg(sid, name) =>
        var code := s.conns[ch].roomCode;
        if code in s.rooms && sid == Some(s.rooms[code].hostSessionId) && code in s.pending {
          JoinAndPendingDeletion(s, ch, sid, name);
        }
      case SyncMsg(t, playing) =>
      case PingMsg =>
      case ChatMsg(m) =>
      case OtherClientMsg(_) =>
    }
  }

  lemma DisconnectKeepsNoOrphans(s: State, ch: Chan, c: Code)
    requires Invariant(s) && NoOrphans(s, c) && ch in s.conns
    requires !(s.conns[ch].isHost && s.conns[ch].roomCode == c && c in s.pending)
    ensures NoOrphans(DisconnectSpec(s, ch), c)
  {
    if s.conns[ch].isHost {
      HostDisconnectSchedulesDeletion(s, ch);
    } else {
      ViewerDisconnectShape(s, ch);
    }
  }

  /**
   * A second host disconnect while a deletion is registered: the earlier
   * task is neither cancelled nor registered any more, yet when it wakes it
   * finds the code pending (under the later task) and deletes the room,
   * sooner than the later disconnect's grace period allows.
   */
  lemma OrphanedTaskStillDeletes(s: State, ch: Chan)
    requires Invariant(s) && ch in s.conns && s.conns[ch].isHost && s.conns[ch].roomCode in s.pending
    ensures var c := s.conns[ch].roomCode;
      var earlier := s.pending[c];
      var s1 := DisconnectSpec(s, ch);
      && earlier in s1.tasks && s1.tasks[earlier] == Task(c, Sleeping)
      && s1.pending[c] != earlier
      && !NoOrphans(s1, c)
      && c !in FireSpec(s1, earlier).rooms && c !in FireSpec(s1, earlier).pending
  {
    var c := s.conns[ch].roomCode;
    HostDisconnectSchedulesDeletion(s, ch);
  }
}
