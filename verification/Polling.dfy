/**
 The polling loops: AwaitTaskCompletion in `internal/proxmox/actions.go` and
 waitForClusterStateMatch in `internal/runtime/runtime.go`.
 */
module Polling {
  import opened Common
  import opened HandlerProgram
  import opened World

  function EndOf(answer: Option<TaskState>): TaskEnd {
    match answer
    case Some(Stopped(exit)) => if exit == "OK" then ExitOk else ExitOther
    case _ => AwaitError
  }

  /**
   Polls until the task has stopped, the deadline has passed, a poll fails or
   the context is cancelled.  Since a sleep lasts at least the interval, there
   are at most timeout/500 + 2 polls, and how the wait ends is what the last
   poll saw; it is given up only on a failed poll, on cancellation, or late.
   */
  method AwaitTaskCompletion(w: World, timeout: nat) returns (end: TaskEnd)
    modifies w`now, w`rows, w`polls, w`cancelled
    ensures old(w.polls) <= w.polls && w.now >= old(w.now)
    ensures var made := w.polls[|old(w.polls)|..];
            && 1 <= |made| <= timeout / 500 + 2
            && (forall i :: 0 <= i < |made| - 1 ==> made[i].answer == Some(Working))
            && var last := made[|made| - 1].answer;
               && (end == ExitOk <==> last == Some(Stopped("OK")))
               && (end == ExitOther <==> last.Some? && last.value.Stopped? && last.value.exitStatus != "OK")
               && (end == AwaitError <==> last == None || last == Some(Working))
               && (last == Some(Working) ==> w.cancelled || w.now > old(w.now) + timeout)
  {
    var start := w.now;
    var deadline := w.now + timeout;
    ghost var tick := 0;
    while true
      invariant |w.polls| == |old(w.polls)| + tick && old(w.polls) <= w.polls
      invariant w.now >= start + 500 * tick
      invariant tick > 0 ==> 500 * (tick - 1) <= timeout
      invariant forall i :: |old(w.polls)| <= i < |w.polls| ==> w.polls[i].answer == Some(Working)
      decreases timeout + 2 * 500 - 500 * tick
    {
      var st := w.TaskStatus();
      end := EndOf(st);
      if st.None? || st.value.Stopped? {
        return;
      }
      if w.now > deadline {
        return;
      }
      var woke := w.Sleep(500);
      if !woke {
        return;
      }
      tick := tick + 1;
    }
  }

  /** What the cluster is expected to show after an action, and how long to wait for it. */
  function ExpectedStateFor(kind: string): Option<(string, nat)> {
    if kind in ["start", "resume", "reboot"] then Some(("running", 10_000))
    else if kind in ["stop", "shutdown"] then Some(("stopped", 10_000))
    else if kind == "suspend" then Some(("paused", 10_000))
    else None
  }

  /** The table of expectations: each of the six power actions, and nothing else, has one, of ten seconds. */
  lemma ExpectedStateExact(kind: string)
    ensures var e := ExpectedStateFor(kind);
            && (e == Some(("running", 10_000)) <==> kind == "start" || kind == "resume" || kind == "reboot")
            && (e == Some(("stopped", 10_000)) <==> kind == "stop" || kind == "shutdown")
            && (e == Some(("paused", 10_000)) <==> kind == "suspend")
            && (e == None <==> kind !in {"start", "resume", "reboot", "stop", "shutdown", "suspend"})
  {
  }

  /** The search of hasGuestState. */
  method HasGuestState(entries: seq<Entry>, vmid: int, expected: string) returns (found: bool)
    ensures found <==> Entry(vmid, expected) in entries
  {
    for i := 0 to |entries|
      invariant Entry(vmid, expected) !in entries[..i]
    {
      if entries[i].vmid == vmid && entries[i].status == expected {
        assert entries[i] == Entry(vmid, expected);
        return true;
      }
      assert entries[..i + 1] == entries[..i] + [entries[i]];
    }
    assert entries[..|entries|] == entries;
    return false;
  }

  predicate Shows(answer: Option<seq<Entry>>, vmid: int, expected: string) {
    answer.Some? && Entry(vmid, expected) in answer.value
  }

  /**
   Waits until the guest shows the expected status.  At most ceil(timeout/500)
   polls, none for a kind without an expectation or a payload without a guest.
   The wait ends at the first poll that shows the status; otherwise it was
   cancelled or lasted the full timeout.
   */
  method WaitForClusterStateMatch(w: World, kind: string, guest: Option<int>) returns (seen: bool)
    modifies w`now, w`clusterPolls, w`cancelled
    ensures w.now >= old(w.now) && old(w.clusterPolls) <= w.clusterPolls
    ensures match ExpectedStateFor(kind)
            case None => w.clusterPolls == old(w.clusterPolls) && !seen
            case Some((expected, timeout)) =>
              var made := w.clusterPolls[|old(w.clusterPolls)|..];
              if guest.None? then made == [] && !seen else
              var vmid := guest.value;
              && |made| <= (timeout + 499) / 500
              && (forall i :: 0 <= i < |made| - 1 ==> !Shows(made[i], vmid, expected))
              && (seen <==> made != [] && Shows(made[|made| - 1], vmid, expected))
              && (!seen ==> w.cancelled || w.now >= old(w.now) + timeout)
  {
    seen := false;
    var wanted := ExpectedStateFor(kind);
    if wanted.None? {
      return;
    }
    if guest.None? {
      return;
    }
    var (expected, timeout) := wanted.value;
    var vmid := guest.value;
    var start := w.now;
    var deadline := w.now + timeout;
    ghost var tick := 0;
    while w.now < deadline
      invariant |w.clusterPolls| == |old(w.clusterPolls)| + tick && old(w.clusterPolls) <= w.clusterPolls
      invariant w.now >= start + 500 * tick
      invariant tick > 0 ==> 500 * (tick - 1) < timeout
      invariant forall i :: |old(w.clusterPolls)| <= i < |w.clusterPolls| ==> !Shows(w.clusterPolls[i], vmid, expected)
      invariant !seen
      decreases deadline - w.now
    {
      var resources := w.ClusterResources();
      if resources.Some? {
        seen := HasGuestState(resources.value, vmid, expected);
        if seen {
          return;
        }
      }
      var woke := w.Sleep(500);
      if !woke {
        return;
      }
      tick := tick + 1;
    }
  }
}
