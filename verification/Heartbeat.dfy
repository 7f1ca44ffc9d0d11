/**
 Heartbeats of a joined connection (`internal/supabase/realtime.go`): one every
 25 seconds, closed by force when two are unacknowledged, and closed by the read
 loop after 60 seconds without a frame.  Times are in seconds; a tick itself
 takes no time.
 */
module Heartbeat {
  import opened Common

  const INTERVAL: int := 25
  const READ_DEADLINE: int := 60
  const LAG_THRESHOLD: int := 2

  datatype Reason = AckLag | ReadTimeout | Other

  /** Inside a tick: the frame is written, then counted, then compared with the acknowledgements. */
  datatype Pc = Sleeping | Wrote | Counted | Stopped

  /** `written` counts successful writes; `lastFrame` is when the read loop last got a frame. */
  datatype State = State(now: int, pc: Pc, nextTick: int, lastFrame: int,
                         written: int, sent: int, acked: int, closed: Option<Reason>)

  datatype Action =
    | Pass(seconds: nat)
    | Write(ok: bool)
    | Count
    | Compare
    | Ack               // the read loop reads a phx_reply on topic phoenix
    | OtherFrame
    | Timeout           // the read deadline fires
    | PeerClose

  predicate Enabled(s: State, a: Action) {
    s.closed.None? &&
    match a
    case Pass(d) =>
      && s.pc in [Sleeping, Stopped] && s.now + d <= s.lastFrame + READ_DEADLINE
      && (s.pc.Sleeping? ==> s.now + d <= s.nextTick)
    case Write(_) => s.pc.Sleeping? && s.now == s.nextTick
    case Count => s.pc.Wrote?
    case Compare => s.pc.Counted?
    case Timeout => s.now == s.lastFrame + READ_DEADLINE
    case _ => true
  }

  function Do(s: State, a: Action): State
    requires Enabled(s, a)
  {
    match a
    case Pass(d) => s.(now := s.now + d)
    case Write(ok) =>
      if ok then s.(pc := Wrote, written := s.written + 1, nextTick := s.nextTick + INTERVAL)
      else s.(pc := Stopped)
    case Count => s.(pc := Counted, sent := s.sent + 1)
    case Compare =>
      if s.sent - s.acked >= LAG_THRESHOLD then s.(pc := Stopped, closed := Some(AckLag))
      else s.(pc := Sleeping)
    case Ack => s.(acked := s.acked + 1, lastFrame := s.now)
    case OtherFrame => s.(lastFrame := s.now)
    case Timeout => s.(closed := Some(ReadTimeout))
    case PeerClose => s.(closed := Some(Other))
  }

  /** A connection that has just joined. */
  predicate Init(s: State) {
    && s.pc.Sleeping? && s.nextTick == s.now + INTERVAL && s.lastFrame == s.now
    && s.written == s.sent == s.acked == 0 && s.closed.None?
  }

  predicate StepAt(run: seq<State>, acts: seq<Action>, i: nat)
    requires |run| == |acts| + 1 && i < |acts|
  {
    Enabled(run[i], acts[i]) && run[i + 1] == Do(run[i], acts[i])
  }

  ghost predicate IsRun(run: seq<State>, acts: seq<Action>) {
    |run| == |acts| + 1 && Init(run[0]) && forall i :: 0 <= i < |acts| ==> StepAt(run, acts, i)
  }

  predicate Inv(s: State) {
    && s.written == s.sent + (if s.pc.Wrote? then 1 else 0)
    && s.now <= s.lastFrame + READ_DEADLINE && s.lastFrame <= s.now
    && (s.pc.Sleeping? ==> s.nextTick - INTERVAL <= s.now <= s.nextTick)
    && (s.pc in [Wrote, Counted] ==> s.now == s.nextTick - INTERVAL)
    && (s.pc.Sleeping? ==> s.sent - s.acked < LAG_THRESHOLD)
  }

  lemma {:induction false} RunKeeps(run: seq<State>, acts: seq<Action>, i: nat)
    requires IsRun(run, acts) && i < |run|
    ensures Inv(run[i])
  {
    if i > 0 {
      RunKeeps(run, acts, i - 1);
      assert StepAt(run, acts, i - 1);
    }
  }

  /** While the heartbeat loop sleeps on an open connection, at most one heartbeat is unacknowledged. */
  lemma LagBetweenTicks(run: seq<State>, acts: seq<Action>, i: nat)
    requires IsRun(run, acts) && i < |run| && run[i].pc.Sleeping?
    ensures run[i].sent - run[i].acked <= 1
  {
    RunKeeps(run, acts, i);
  }

  /** A step closes the connection for lag exactly if it compares while two heartbeats are unacknowledged. */
  lemma LagClosesExactly(run: seq<State>, acts: seq<Action>, i: nat)
    requires IsRun(run, acts) && i < |acts|
    ensures run[i + 1].closed == Some(AckLag) <==> acts[i].Compare? && run[i].written - run[i].acked >= 2
  {
    RunKeeps(run, acts, i);
    assert StepAt(run, acts, i);
  }

  /** The read deadline: no frame is ever more than 60 seconds old, and a step closes for it exactly at 60 seconds. */
  lemma TimeoutExact(run: seq<State>, acts: seq<Action>, i: nat)
    requires IsRun(run, acts) && i < |acts|
    ensures run[i].now <= run[i].lastFrame + 60
    ensures run[i + 1].closed == Some(ReadTimeout) <==> acts[i].Timeout? && run[i].now == run[i].lastFrame + 60
  {
    RunKeeps(run, acts, i);
    assert StepAt(run, acts, i);
  }

  // ----- soundness -----

  /** No acknowledgement is read for a heartbeat that was not written. */
  predicate Honest(s: State, a: Action) { a.Ack? ==> s.acked < s.written }

  /** When a tick comes, every earlier heartbeat's acknowledgement has been read. */
  predicate Timely(s: State, a: Action) { a.Write? ==> s.acked >= s.written }

  ghost predicate AlwaysTimely(run: seq<State>, acts: seq<Action>)
    requires |run| == |acts| + 1
  {
    forall i :: 0 <= i < |acts| ==> Timely(run[i], acts[i])
  }

  ghost predicate AlwaysHonest(run: seq<State>, acts: seq<Action>)
    requires |run| == |acts| + 1
  {
    forall i :: 0 <= i < |acts| ==> Honest(run[i], acts[i])
  }

  lemma {:induction false} TimelyKeeps(run: seq<State>, acts: seq<Action>, i: nat)
    requires IsRun(run, acts) && AlwaysTimely(run, acts) && i < |run|
    ensures run[i].written - run[i].acked <= 1 && run[i].closed != Some(AckLag)
  {
    if i > 0 {
      TimelyKeeps(run, acts, i - 1);
      RunKeeps(run, acts, i - 1);
      assert StepAt(run, acts, i - 1) && Timely(run[i - 1], acts[i - 1]);
    }
  }

  /** If each heartbeat's acknowledgement is read before the next tick, the connection is never closed for lag. */
  lemma NoFalseLag(run: seq<State>, acts: seq<Action>, i: nat)
    requires IsRun(run, acts) && AlwaysTimely(run, acts) && i < |run|
    ensures run[i].closed != Some(AckLag)
  {
    TimelyKeeps(run, acts, i);
  }

  ghost predicate NoWriteFails(acts: seq<Action>) { forall i :: 0 <= i < |acts| ==> acts[i] != Write(false) }

  /** With honest, timely acknowledgements the last frame is never older than two intervals. */
  lemma {:induction false} FramesAreRecent(run: seq<State>, acts: seq<Action>, i: nat)
    requires IsRun(run, acts) && AlwaysTimely(run, acts) && AlwaysHonest(run, acts) && NoWriteFails(acts) && i < |run|
    ensures var s := run[i];
            && s.acked <= s.written && s.closed !in [Some(AckLag), Some(ReadTimeout)]
            && (s.closed.None? ==>
                  && !s.pc.Stopped?
                  && s.lastFrame >= s.nextTick - INTERVAL - (if s.acked == s.written then 0 else INTERVAL))
  {
    if i > 0 {
      FramesAreRecent(run, acts, i - 1);
      RunKeeps(run, acts, i - 1);
      TimelyKeeps(run, acts, i);
      assert StepAt(run, acts, i - 1) && Timely(run[i - 1], acts[i - 1]) && Honest(run[i - 1], acts[i - 1]);
      assert acts[i - 1] != Write(false);
    }
  }

  /** And if writes succeed too, the agent never closes the connection on its own at all. */
  lemma HealthyStaysOpen(run: seq<State>, acts: seq<Action>, i: nat)
    requires IsRun(run, acts) && AlwaysTimely(run, acts) && AlwaysHonest(run, acts) && NoWriteFails(acts) && i < |run|
    ensures run[i].closed !in [Some(AckLag), Some(ReadTimeout)]
  {
    FramesAreRecent(run, acts, i);
  }

  // ----- the bound -----

  /** From state i to state j no acknowledgement is read and no write fails. */
  ghost predicate SilentBetween(acts: seq<Action>, i: nat, j: nat) {
    i <= j <= |acts| && forall k :: i <= k < j ==> !acts[k].Ack? && acts[k] != Write(false)
  }

  lemma {:induction false} HonestKeeps(run: seq<State>, acts: seq<Action>, i: nat)
    requires IsRun(run, acts) && AlwaysHonest(run, acts) && i < |run|
    ensures run[i].acked <= run[i].written
  {
    if i > 0 {
      HonestKeeps(run, acts, i - 1);
      assert StepAt(run, acts, i - 1) && Honest(run[i - 1], acts[i - 1]);
    }
  }

  /**
   The ticks since the silence began: an open connection has seen at most one,
   or is about to compare after the second.
   */
  lemma {:induction false} TicksSinceSilence(run: seq<State>, acts: seq<Action>, i: nat, j: nat)
    requires IsRun(run, acts) && AlwaysHonest(run, acts) && SilentBetween(acts, i, j)
    requires !run[i].pc.Stopped?
    ensures var s, t := run[i], run[j];
            var ticks := t.written - s.written;
            && ticks >= 0 && t.acked == s.acked && t.nextTick == s.nextTick + INTERVAL * ticks
            && (t.closed.None? ==> !t.pc.Stopped? && (ticks <= 1 || (ticks == 2 && !t.pc.Sleeping?)))
  {
    RunKeeps(run, acts, j);
    if i < j {
      assert SilentBetween(acts, i, j - 1);
      TicksSinceSilence(run, acts, i, j - 1);
      RunKeeps(run, acts, j - 1);
      HonestKeeps(run, acts, i);
      assert StepAt(run, acts, j - 1);
      assert !acts[j - 1].Ack? && acts[j - 1] != Write(false);
    } else {
      HonestKeeps(run, acts, i);
    }
  }

  /**
   If writes succeed and no acknowledgement is read from some moment on, the
   connection is closed at most two intervals after that moment: it cannot be
   open later.
   */
  lemma DeadPeerIsClosed(run: seq<State>, acts: seq<Action>, i: nat, j: nat)
    requires IsRun(run, acts) && AlwaysHonest(run, acts) && SilentBetween(acts, i, j)
    requires run[i].closed.None? && !run[i].pc.Stopped?
    ensures run[j].closed.None? ==> run[j].now <= run[i].now + 50
  {
    RunKeeps(run, acts, i);
    RunKeeps(run, acts, j);
    TicksSinceSilence(run, acts, i, j);
  }

  /** An open connection can always take a step that is not a fault: time never has to stop. */
  lemma NeverStuck(run: seq<State>, acts: seq<Action>, i: nat)
    requires IsRun(run, acts) && i < |run| && run[i].closed.None?
    ensures Enabled(run[i], Pass(1)) || Enabled(run[i], Write(true)) || Enabled(run[i], Count)
            || Enabled(run[i], Compare) || Enabled(run[i], Timeout)
  {
    RunKeeps(run, acts, i);
  }

  // ----- the loop -----

  function Sum(s: seq<nat>): nat { if s == [] then 0 else Sum(s[..|s| - 1]) + s[|s| - 1] }

  /** The lag tick n computes, given the acknowledgements read before each tick. */
  function LagAt(acks: seq<nat>, n: nat): int
    requires n < |acks|
  {
    n + 1 - Sum(acks[..n + 1])
  }

  /**
   The heartbeat goroutine over a schedule: before tick n the read loop counts
   acks[n] acknowledgements, and writes[n] tells whether the write succeeds.  The
   loop ends at the first tick whose write fails or whose lag reaches the
   threshold, and closes the connection only in the second case.
   */
  method HeartbeatLoop(acks: seq<nat>, writes: seq<bool>) returns (ticks: nat, reason: Option<Reason>)
    requires |acks| == |writes|
    ensures ticks <= |acks|
    ensures forall n :: 0 <= n < ticks - 1 ==> writes[n] && LagAt(acks, n) <= 1
    ensures reason.Some? <==> ticks > 0 && writes[ticks - 1] && LagAt(acks, ticks - 1) >= 2
    ensures reason.Some? ==> reason == Some(AckLag)
    ensures reason.None? ==> ticks == |acks| || (ticks > 0 && !writes[ticks - 1])
  {
    var hbSent: int, hbAcked: int := 0, 0;
    reason := None;
    ticks := 0;
    while ticks < |acks|
      invariant ticks <= |acks| && hbSent == ticks && hbAcked == Sum(acks[..ticks])
      invariant forall n :: 0 <= n < ticks ==> writes[n] && LagAt(acks, n) < LAG_THRESHOLD
    {
      assert acks[..ticks + 1][..ticks] == acks[..ticks];
      hbAcked := hbAcked + acks[ticks];
      ticks := ticks + 1;
      if !writes[ticks - 1] {
        return;
      }
      hbSent := hbSent + 1;
      var lag: int := hbSent - hbAcked;
      if lag >= LAG_THRESHOLD {
        reason := Some(AckLag);
        return;
      }
    }
  }
}
