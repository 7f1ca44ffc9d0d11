/**
 The two `Handle` functions in the form of the source, proved to be runs of
 `HandlerProgram`, the program the handlers of `Claims` execute.
 */
module Dispatcher {
  import opened Common
  import opened Routing
  import opened HandlerProgram
  import opened Claims
  import opened World
  import opened SupabaseClient
  import Polling
  import Query
  import Whitelist

  // ----- what a PATCH with its retry does to the program -----

  /** Where the program stands after a claim that ended with this answer. */
  function AfterClaim(expired: bool, answer: Answer): Pc {
    if !answer.Hit? then Returned else if expired then Completing(Expired, false) else Deciding
  }

  lemma ClaimRuns(cmd: Cmd, hasKey: bool, expired: bool, events: seq<Event>, answer: Answer)
    requires PatchTrace(events, answer)
    ensures Run(cmd, hasKey, Claiming(expired, false), events) == Some(AfterClaim(expired, answer))
  {
    PatchRuns(cmd, hasKey, Claiming(expired, false), ClaimReauth(expired), Claiming(expired, true),
              AfterClaim(expired, answer), events, answer);
  }

  lemma CompleteRuns(cmd: Cmd, hasKey: bool, final: Final, events: seq<Event>, answer: Answer)
    requires PatchTrace(events, answer)
    ensures Run(cmd, hasKey, Completing(final, false), events) == Some(Returned)
  {
    PatchRuns(cmd, hasKey, Completing(final, false), CompleteReauth(final), Completing(final, true),
              Returned, events, answer);
  }

  lemma PatchRuns(cmd: Cmd, hasKey: bool, first: Pc, reauth: Pc, second: Pc, last: Pc,
                  events: seq<Event>, answer: Answer)
    requires PatchTrace(events, answer)
    requires !answer.Unauthorized? ==> Step(cmd, hasKey, first, Answered(answer)) == Some(last)
    requires Step(cmd, hasKey, first, Answered(Unauthorized)) == Some(reauth)
    requires Step(cmd, hasKey, reauth, Refreshed(true)) == Some(second)
    requires answer == Refused ==> Step(cmd, hasKey, reauth, Refreshed(false)) == Some(last)
    requires Step(cmd, hasKey, second, Answered(answer)) == Some(last)
    ensures Run(cmd, hasKey, first, events) == Some(last)
  {
    OneEvent(cmd, hasKey, second, Answered(answer));
    if |events| == 1 {
      OneEvent(cmd, hasKey, first, events[0]);
    } else if |events| == 2 {
      OneEvent(cmd, hasKey, reauth, events[1]);
      assert events[1..] == [events[1]];
    } else {
      assert events[1..][1..] == [events[2]];
    }
  }

  lemma OneEvent(cmd: Cmd, hasKey: bool, pc: Pc, e: Event)
    ensures Run(cmd, hasKey, pc, [e]) == Step(cmd, hasKey, pc, e)
  {
    assert [e][1..] == [];
  }

  // ----- what a handler returns -----

  predicate StoreFault(e: Event) {
    match e
    case Answered(a) => !a.Hit? && !a.Miss?
    case Refreshed(ok) => !ok
    case _ => false
  }

  /**
   Whether Handle returns an error: exactly if the last store request failed,
   except that the failed claim of an expired row is passed over.
   */
  predicate Fails(events: seq<Event>) {
    && events != [] && StoreFault(events[|events| - 1])
    && (events[0] == Checked(true) ==> Answered(Hit) in events)
  }

  /** The status a row ends with, from what was seen, called and polled. */
  function Verdict(cmd: Cmd, expired: bool, made: seq<Asked>, watched: seq<Poll>): Final {
    if expired then Expired
    else if made == [] || !made[0].ok then Failed
    else if cmd.Read? then Done
    else if watched != [] && watched[|watched| - 1].answer == Some(Stopped("OK")) then Done
    else Failed
  }

  /** Done means a live row whose call succeeded and, for a write, whose task was last seen stopped with OK. */
  lemma VerdictExact(cmd: Cmd, expired: bool, made: seq<Asked>, watched: seq<Poll>)
    ensures Verdict(cmd, expired, made, watched) == Expired <==> expired
    ensures Verdict(cmd, expired, made, watched) == Done <==>
              && !expired && made != [] && made[0].ok
              && (cmd.Read? || (watched != [] && watched[|watched| - 1].answer == Some(Stopped("OK"))))
  {
  }

  // ----- the dispatcher -----

  class Handlers {
    const world: World
    const client: Client
    /** Whether PrivateKey is set; the read dispatcher has none. */
    const hasKey: bool

    constructor (world: World, client: Client, hasKey: bool)
      requires client.world == world
      ensures this.world == world && this.client == client && this.hasKey == hasKey
    {
      this.world, this.client, this.hasKey := world, client, hasKey;
    }

    ghost predicate Ready()
      reads this, client
    {
      client.world == world && client.Valid() && client.session.process.Up?
    }

    /** The program counter after everything recorded since the record had length `from`. */
    ghost function PcSince(cmd: Cmd, from: nat): Option<Pc>
      requires from <= |world.log|
      reads world
    {
      Run(cmd, hasKey, Begin, world.log[from..])
    }

    method Note(ghost cmd: Cmd, ghost from: nat, e: Event, ghost pc: Pc)
      requires from <= |world.log| && PcSince(cmd, from) == Some(pc) && Step(cmd, hasKey, pc, e).Some?
      modifies world`log
      ensures world.log == old(world.log) + [e]
      ensures PcSince(cmd, from) == Step(cmd, hasKey, pc, e)
    {
      RunAppend(cmd, hasKey, Begin, world.log[from..], [e]);
      OneEvent(cmd, hasKey, pc, e);
      assert (world.log + [e])[from..] == world.log[from..] + [e];
      world.Record(e);
    }

    /** CompleteCommand or CompleteReadCommand, as the last thing a handler does. */
    method Finish(key: Key, ghost cmd: Cmd, ghost from: nat, final: Final) returns (failed: bool)
      requires Ready() && from <= |world.log| && PcSince(cmd, from) == Some(Completing(final, false))
      modifies client`access, client`session, client`steps
      modifies world`now, world`log, world`answers, world`refreshes, world`fileOps
      modifies world`rows, world`writes
      ensures Ready() && world.now >= old(world.now)
      ensures old(world.log) < world.log && PcSince(cmd, from) == Some(Returned)
      ensures failed <==> StoreFault(world.log[|world.log| - 1])
      ensures world.writes == old(world.writes) || world.writes == old(world.writes) + [Change(key, Finished(final))]
    {
      ghost var before := world.log;
      failed := client.Complete(key, final);
      ghost var added := world.log[|before|..];
      ghost var answer :| PatchTrace(added, answer) && (failed <==> !answer.Hit? && !answer.Miss?);
      CompleteRuns(cmd, hasKey, final, added, answer);
      RunAppend(cmd, hasKey, Begin, before[from..], added);
      assert world.log[from..] == before[from..] + added;
    }

    /** ClaimCommand or ClaimReadCommand, right after the TTL check. */
    method Take(key: Key, ghost cmd: Cmd, ghost from: nat, ghost expired: bool) returns (claimed: bool, failed: bool)
      requires Ready() && from <= |world.log| && PcSince(cmd, from) == Some(Claiming(expired, false))
      modifies client`access, client`session, client`steps
      modifies world`now, world`log, world`answers, world`refreshes, world`fileOps
      modifies world`rows, world`writes
      ensures Ready() && world.now >= old(world.now) && old(world.log) < world.log
      ensures failed <==> StoreFault(world.log[|world.log| - 1])
      ensures claimed <==> Answered(Hit) in world.log[|old(world.log)|..]
      ensures PcSince(cmd, from) == 
                Some(if !claimed then Returned else if expired then Completing(Expired, false) else Deciding)
      ensures claimed ==> world.writes == old(world.writes) + [Change(key, Claimed)]
      ensures world.writes == old(world.writes) || world.writes == old(world.writes) + [Change(key, Claimed)]
    {
      ghost var before := world.log;
      claimed, failed := client.Claim(key);
      ghost var added := world.log[|before|..];
      ghost var answer :|
        PatchTrace(added, answer) && (claimed <==> answer.Hit?) && (failed <==> !answer.Hit? && !answer.Miss?);
      ClaimRuns(cmd, hasKey, expired, added, answer);
      RunAppend(cmd, hasKey, Begin, before[from..], added);
      assert world.log[from..] == before[from..] + added;
    }

    /** The password of an lxc.create. */
    method ResolveLXCPassword(p: Payload) returns (password: Option<string>)
      requires p.Payload?
      ensures password == ResolvePassword(hasKey, p)
      ensures forall pw :: password == Some(pw) <==> PasswordIs(p, hasKey, pw)
    {
      if p.passwordEnc.Sealed? {
        if !hasKey {
          return None;
        }
        return p.passwordEnc.plaintext;
      }
      if p.password != "" {
        return Some(p.password);
      }
      return None;
    }

    /** Steps 3 and 4 of Handle up to the Proxmox call: validate the action and payload, pick the call. */
    method RouteCommand(kind: string, payload: Payload) returns (plan: Plan)
      ensures plan == Route(Cmd.Write(kind, payload), hasKey)
      ensures forall c :: plan == Invoke(c) <==> Performs(kind, c) && Targets(payload, hasKey, c)
    {
      ghost var routed := Route(Cmd.Write(kind, payload), hasKey);
      forall c ensures routed == Invoke(c) <==> Performs(kind, c) && Targets(payload, hasKey, c)
      {
        RouteWriteExact(kind, payload, hasKey, c);
      }
      if !IsKnown(kind) {
        return Reject(UnknownKind);
      }
      if payload.Malformed? {
        return Reject(BadPayload);
      }
      if payload.guestKind != "qemu" && payload.guestKind != "lxc" {
        return Reject(UnknownGuestKind);
      }
      if payload.node == "" || payload.vmid <= 0 {
        return Reject(MissingNodeOrVmid);
      }
      var guest := Guest(payload.guestKind, payload.node, payload.vmid);
      if IsPowerAction(kind) {
        plan := Invoke(PerformAction(guest, kind));
      } else if IsSnapshotAction(kind) {
        if !SnapshotName(payload.name) {
          return Reject(BadSnapshotName);
        }
        if kind == "snapshot.create" {
          plan := Invoke(CreateSnapshot(guest, payload.name));
        } else if kind == "snapshot.delete" {
          plan := Invoke(DeleteSnapshot(guest, payload.name));
        } else {
          plan := Invoke(RollbackSnapshot(guest, payload.name));
        }
      } else if kind == "guest.delete" {
        plan := Invoke(DeleteGuest(guest));
      } else if kind == "vm.create" {
        plan := Invoke(CreateVM(payload.node, payload.vmid, payload.name));
      } else {
        var password := ResolveLXCPassword(payload);
        if password.None? {
          return Reject(BadPassword);
        }
        plan := Invoke(CreateLXC(payload.node, payload.vmid, password.value));
      }
    }

    /** The whitelist and params checks of the read dispatcher. */
    method RouteReadCommand(endpoint: string, params: Query.Params, order: seq<string>, escape: string -> string)
      returns (plan: Plan, path: string)
      requires params.Object? ==> Query.VisitOrder(order, params.fields)
      ensures plan == Route(Cmd.Read(endpoint, params), hasKey)
      ensures plan.Invoke? ==> Some(path) == Query.PathOf(endpoint, params, escape)
    {
      path := endpoint;
      var allowed := Whitelist.EndpointAllowed(endpoint);
      if !allowed {
        return Reject(EndpointNotAllowed), path;
      }
      var built := Query.BuildPath(endpoint, params, order, escape);
      if !built.Path? {
        return Reject(BadParams), path;
      }
      plan, path := Invoke(GetRaw(endpoint, params)), built.text;
    }

    /** The calls a handler has made for a row it took live: the one the row asks for, or none if it asks for none. */
    predicate Served(cmd: Cmd, made: seq<Asked>) {
      match Route(cmd, hasKey)
      case Reject(_) => made == []
      case Invoke(c) => |made| == 1 && made[0].call == c
    }

    /** Every GET made has this path. */
    ghost predicate PathsAre(path: Option<string>, made: seq<Asked>) { forall a :: a in made ==> Some(a.path) == path }

    /** What one handler may have written to its row, called for it and polled, stated without the program. */
    ghost predicate Outcome(key: Key, cmd: Cmd, expired: bool, wrote: seq<Change>, made: seq<Asked>,
                            watched: seq<Poll>)
    {
      && (wrote == [] || wrote == [Change(key, Claimed)] ||
          (wrote == [Change(key, Claimed), Change(key, Finished(Verdict(cmd, expired, made, watched)))]
           && (if expired then made == [] else Served(cmd, made))))
      && (made != [] ==> wrote != [] && !expired && Served(cmd, made))
      && (watched != [] ==> made != [] && made[0].ok)
    }

    /** What a handler that has claimed a live row writes, calls and polls from then on. */
    ghost predicate Executed(key: Key, cmd: Cmd, before: seq<Change>, after: seq<Change>, made: seq<Asked>,
                             watched: seq<Poll>)
    {
      && (after == before || after == before + [Change(key, Finished(Verdict(cmd, false, made, watched)))])
      && Served(cmd, made)
      && (watched != [] ==> made != [] && made[0].ok)
    }

    /**
     The wait for a task kept to its timeout: not many more polls than fit into it,
     and it gave up on a working task only late or because the context ended.
     */
    ghost predicate Patient(timeout: nat, before: int, after: int, watched: seq<Poll>)
      reads world`cancelled
    {
      && |watched| <= timeout / 500 + 2
      && (watched != [] && watched[|watched| - 1].answer == Some(Working) ==>
            world.cancelled || after > before + timeout)
    }

    /** Steps 5 and 6 of Dispatcher.Handle: "done" is written only after a poll saw the task stopped with OK. */
    method AwaitAndFinish(key: Key, ghost cmd: Cmd, actionTimeout: nat, ghost from: nat) returns (failed: bool)
      requires Ready() && from <= |world.log| && cmd.Write? && PcSince(cmd, from) == Some(Awaiting)
      modifies client`access, client`session, client`steps
      modifies world`now, world`log, world`answers, world`refreshes, world`fileOps
      modifies world`rows, world`writes, world`polls, world`cancelled
      ensures Ready() && world.now >= old(world.now)
      ensures old(world.log) < world.log && PcSince(cmd, from) == Some(Returned)
      ensures failed <==> StoreFault(world.log[|world.log| - 1])
      ensures old(world.polls) < world.polls
      ensures Patient(actionTimeout, old(world.now), world.now, world.polls[|old(world.polls)|..])
      ensures var done := world.polls[|world.polls| - 1].answer == Some(Stopped("OK"));
              || world.writes == old(world.writes)
              || world.writes == old(world.writes) + [Change(key, Finished(if done then Done else Failed))]
    {
      var end := Polling.AwaitTaskCompletion(world, actionTimeout);
      Note(cmd, from, TaskEnded(end), Awaiting);
      failed := Finish(key, cmd, from, if end.ExitOk? then Done else Failed);
    }

    /** Steps 4 to 6 of Dispatcher.Handle: call Proxmox, wait for the task, complete. */
    method CallAndAwait(key: Key, kind: string, payload: Payload, call: Call, actionTimeout: nat, ghost from: nat)
      returns (failed: bool)
      requires Ready() && from <= |world.log| && PcSince(Cmd.Write(kind, payload), from) == Some(Invoking(call))
      requires Route(Cmd.Write(kind, payload), hasKey) == Invoke(call)
      modifies client`access, client`session, client`steps
      modifies world`now, world`log, world`answers, world`refreshes, world`fileOps
      modifies world`rows, world`writes, world`calls, world`polls, world`cancelled
      ensures Ready() && world.now >= old(world.now)
      ensures old(world.log) < world.log && PcSince(Cmd.Write(kind, payload), from) == Some(Returned)
      ensures failed <==> StoreFault(world.log[|world.log| - 1])
      ensures old(world.calls) <= world.calls && old(world.polls) <= world.polls
      ensures Executed(key, Cmd.Write(kind, payload), old(world.writes), world.writes,
                       world.calls[|old(world.calls)|..], world.polls[|old(world.polls)|..])
      ensures Patient(actionTimeout, old(world.now), world.now, world.polls[|old(world.polls)|..])
    {
      ghost var cmd := Cmd.Write(kind, payload);
      var ok := world.Call(call, "");
      Note(cmd, from, CallReturned(ok), Invoking(call));
      assert world.calls[|old(world.calls)|..] == [Asked(call, "", ok)];
      if !ok {
        failed := Finish(key, cmd, from, Failed);
        return;
      }
      failed := AwaitAndFinish(key, cmd, actionTimeout, from);
    }

    /** Steps 3 to 6 of Dispatcher.Handle: validate, then as above. */
    method ExecuteCommand(key: Key, kind: string, payload: Payload, actionTimeout: nat, ghost from: nat)
      returns (failed: bool)
      requires Ready() && from <= |world.log| && PcSince(Cmd.Write(kind, payload), from) == Some(Deciding)
      modifies client`access, client`session, client`steps
      modifies world`now, world`log, world`answers, world`refreshes, world`fileOps
      modifies world`rows, world`writes, world`calls, world`polls, world`cancelled
      ensures Ready() && world.now >= old(world.now)
      ensures old(world.log) < world.log && PcSince(Cmd.Write(kind, payload), from) == Some(Returned)
      ensures failed <==> StoreFault(world.log[|world.log| - 1])
      ensures old(world.calls) <= world.calls && old(world.polls) <= world.polls
      ensures Executed(key, Cmd.Write(kind, payload), old(world.writes), world.writes,
                       world.calls[|old(world.calls)|..], world.polls[|old(world.polls)|..])
      ensures Patient(actionTimeout, old(world.now), world.now, world.polls[|old(world.polls)|..])
    {
      ghost var cmd := Cmd.Write(kind, payload);
      var plan := RouteCommand(kind, payload);
      Note(cmd, from, Decided, Deciding);
      if plan.Reject? {
        failed := Finish(key, cmd, from, Failed);
        RejectExecutes(key, cmd, old(world.writes), world.writes);
        return;
      }
      failed := CallAndAwait(key, kind, payload, plan.call, actionTimeout, from);
    }

    /** A row that asks for no call is completed as failed, if at all, and nothing is called. */
    lemma RejectExecutes(key: Key, cmd: Cmd, before: seq<Change>, after: seq<Change>)
      requires Route(cmd, hasKey).Reject? && (after == before || after == before + [Change(key, Finished(Failed))])
      ensures Executed(key, cmd, before, after, [], [])
    {
    }

    /** GET, then complete. */
    method GetAndFinish(key: Key, ghost cmd: Cmd, call: Call, path: string, ghost from: nat) returns (failed: bool)
      requires Ready() && from <= |world.log| && cmd.Read? && PcSince(cmd, from) == Some(Invoking(call))
      requires Route(cmd, hasKey) == Invoke(call)
      modifies client`access, client`session, client`steps
      modifies world`now, world`log, world`answers, world`refreshes, world`fileOps
      modifies world`rows, world`writes, world`calls
      ensures Ready() && world.now >= old(world.now)
      ensures old(world.log) < world.log && PcSince(cmd, from) == Some(Returned)
      ensures failed <==> StoreFault(world.log[|world.log| - 1])
      ensures old(world.calls) <= world.calls && PathsAre(Some(path), world.calls[|old(world.calls)|..])
      ensures Executed(key, cmd, old(world.writes), world.writes, world.calls[|old(world.calls)|..], [])
    {
      var ok := world.Call(call, path);
      Note(cmd, from, CallReturned(ok), Invoking(call));
      assert world.calls[|old(world.calls)|..] == [Asked(call, path, ok)];
      failed := Finish(key, cmd, from, if ok then Done else Failed);
    }

    /** The rest of ReadDispatcher.Handle: whitelist, params, GET, complete. */
    method ExecuteReadCommand(key: Key, endpoint: string, params: Query.Params, order: seq<string>,
                              escape: string -> string, ghost from: nat) returns (failed: bool)
      requires Ready() && from <= |world.log| && PcSince(Cmd.Read(endpoint, params), from) == Some(Deciding)
      requires params.Object? ==> Query.VisitOrder(order, params.fields)
      modifies client`access, client`session, client`steps
      modifies world`now, world`log, world`answers, world`refreshes, world`fileOps
      modifies world`rows, world`writes, world`calls
      ensures Ready() && old(world.log) < world.log && PcSince(Cmd.Read(endpoint, params), from) == Some(Returned)
      ensures failed <==> StoreFault(world.log[|world.log| - 1])
      ensures old(world.calls) <= world.calls
      ensures Executed(key, Cmd.Read(endpoint, params), old(world.writes), world.writes,
                       world.calls[|old(world.calls)|..], [])
      ensures PathsAre(Query.PathOf(endpoint, params, escape), world.calls[|old(world.calls)|..])
    {
      ghost var cmd := Cmd.Read(endpoint, params);
      var plan, path := RouteReadCommand(endpoint, params, order, escape);
      Note(cmd, from, Decided, Deciding);
      if plan.Reject? {
        failed := Finish(key, cmd, from, Failed);
        RejectExecutes(key, cmd, old(world.writes), world.writes);
        assert world.calls[|old(world.calls)|..] == [];
        return;
      }
      failed := GetAndFinish(key, cmd, plan.call, path, from);
    }

    /** The expired branch of both Handle functions: claim the row anyway, to mark it. */
    method Expire(key: Key, ghost cmd: Cmd, ghost from: nat) returns (failed: bool)
      requires Ready() && from <= |world.log| && PcSince(cmd, from) == Some(Claiming(true, false))
      modifies client`access, client`session, client`steps
      modifies world`now, world`log, world`answers, world`refreshes, world`fileOps
      modifies world`rows, world`writes
      ensures Ready() && world.now >= old(world.now)
      ensures old(world.log) < world.log && PcSince(cmd, from) == Some(Returned)
      ensures failed <==> StoreFault(world.log[|world.log| - 1]) && Answered(Hit) in world.log[|old(world.log)|..]
      ensures old(world.writes) <= world.writes && Outcome(key, cmd, true, world.writes[|old(world.writes)|..], [], [])
    {
      var claimed, _ := Take(key, cmd, from, true);
      if !claimed {
        return false;
      }
      failed := Finish(key, cmd, from, Expired);
    }

    /** The outcome of a handler that took a live row and executed it. */
    lemma LiveOutcome(key: Key, cmd: Cmd, start: seq<Change>, after: seq<Change>, made: seq<Asked>, watched: seq<Poll>)
      requires Executed(key, cmd, start + [Change(key, Claimed)], after, made, watched)
      ensures start <= after && Outcome(key, cmd, false, after[|start|..], made, watched)
    {
      var tail := after[|start|..];
      assert
        || tail == [Change(key, Claimed)]
        || tail == [Change(key, Claimed), Change(key, Finished(Verdict(cmd, false, made, watched)))];
    }

    /** What Handle returns for a live row, from the events after the check. */
    lemma LiveFails(before: seq<Event>, log: seq<Event>)
      requires before + [Checked(false)] < log
      ensures Fails(log[|before|..]) <==> StoreFault(log[|log| - 1])
    {
      assert log[|before|..][0] == Checked(false);
    }

    lemma LateFails(before: seq<Event>, log: seq<Event>)
      requires before + [Checked(true)] < log
      ensures Fails(log[|before|..]) <==> StoreFault(log[|log| - 1]) && Answered(Hit) in log[|before| + 1..]
    {
      assert log[|before|..] == [Checked(true)] + log[|before| + 1..];
    }

    /** The live branch of Dispatcher.Handle: claim, then execute what was claimed. */
    method HandleLive(key: Key, kind: string, payload: Payload, actionTimeout: nat, ghost from: nat)
      returns (failed: bool)
      requires Ready() && from <= |world.log| && PcSince(Cmd.Write(kind, payload), from) == Some(Claiming(false, false))
      modifies client`access, client`session, client`steps
      modifies world`now, world`log, world`answers, world`refreshes, world`fileOps
      modifies world`rows, world`writes, world`calls, world`polls, world`cancelled
      ensures Ready() && world.now >= old(world.now)
      ensures old(world.log) < world.log && PcSince(Cmd.Write(kind, payload), from) == Some(Returned)
      ensures failed <==> StoreFault(world.log[|world.log| - 1])
      ensures old(world.writes) <= world.writes && old(world.calls) <= world.calls && old(world.polls) <= world.polls
      ensures Outcome(key, Cmd.Write(kind, payload), false,
                      world.writes[|old(world.writes)|..], world.calls[|old(world.calls)|..],
                      world.polls[|old(world.polls)|..])
      ensures Patient(actionTimeout, old(world.now), world.now, world.polls[|old(world.polls)|..])
    {
      ghost var cmd := Cmd.Write(kind, payload);
      var claimed;
      claimed, failed := Take(key, cmd, from, false);
      if !claimed {
        return;
      }
      failed := ExecuteCommand(key, kind, payload, actionTimeout, from);
      LiveOutcome(key, cmd, old(world.writes), world.writes, world.calls[|old(world.calls)|..],
                  world.polls[|old(world.polls)|..]);
    }

    /** The live branch of ReadDispatcher.Handle. */
    method HandleLiveRead(key: Key, endpoint: string, params: Query.Params, order: seq<string>,
                          escape: string -> string, ghost from: nat) returns (failed: bool)
      requires Ready() && from <= |world.log|
      requires PcSince(Cmd.Read(endpoint, params), from) == Some(Claiming(false, false))
      requires params.Object? ==> Query.VisitOrder(order, params.fields)
      modifies client`access, client`session, client`steps
      modifies world`now, world`log, world`answers, world`refreshes, world`fileOps
      modifies world`rows, world`writes, world`calls
      ensures Ready() && old(world.log) < world.log && PcSince(Cmd.Read(endpoint, params), from) == Some(Returned)
      ensures failed <==> StoreFault(world.log[|world.log| - 1])
      ensures old(world.writes) <= world.writes && old(world.calls) <= world.calls
      ensures Outcome(key, Cmd.Read(endpoint, params), false, world.writes[|old(world.writes)|..],
                      world.calls[|old(world.calls)|..], [])
      ensures PathsAre(Query.PathOf(endpoint, params, escape), world.calls[|old(world.calls)|..])
    {
      ghost var cmd := Cmd.Read(endpoint, params);
      var claimed;
      claimed, failed := Take(key, cmd, from, false);
      if !claimed {
        return;
      }
      failed := ExecuteReadCommand(key, endpoint, params, order, escape, from);
      LiveOutcome(key, cmd, old(world.writes), world.writes, world.calls[|old(world.calls)|..], []);
    }

    /**
     Dispatcher.Handle.  Whatever the database and Proxmox answer, what it did is
     a run of the handler program from its beginning to its return; it claimed
     its row before anything else, made at most the one call the row asks for,
     and none if the row was expired; and it wrote "done" only after a poll saw
     the task stopped with OK.
     */
    method HandleCommand(key: Key, kind: string, payload: Payload, expires: Option<int>, actionTimeout: nat)
      returns (failed: bool)
      requires Ready()
      modifies client`access, client`session, client`steps
      modifies world`now, world`log, world`answers, world`refreshes, world`fileOps
      modifies world`rows, world`writes, world`calls, world`polls, world`cancelled
      ensures Ready()
      ensures old(world.log) < world.log && PcSince(Cmd.Write(kind, payload), |old(world.log)|) == Some(Returned)
      ensures world.log[|old(world.log)|] == Checked(old(expires.Some? && world.now > expires.value))
      ensures failed <==> Fails(world.log[|old(world.log)|..])
      ensures old(world.writes) <= world.writes && old(world.calls) <= world.calls && old(world.polls) <= world.polls
      ensures Outcome(key, Cmd.Write(kind, payload), old(expires.Some? && world.now > expires.value),
                      world.writes[|old(world.writes)|..], world.calls[|old(world.calls)|..],
                      world.polls[|old(world.polls)|..])
      ensures Patient(actionTimeout, old(world.now), world.now, world.polls[|old(world.polls)|..])
    {
      ghost var cmd := Cmd.Write(kind, payload);
      ghost var from := |world.log|;
      var late := expires.Some? && world.now > expires.value;
      Note(cmd, from, Checked(late), Begin);
      if late {
        failed := Expire(key, cmd, from);
        LateFails(old(world.log), world.log);
        return;
      }
      failed := HandleLive(key, kind, payload, actionTimeout, from);
      LiveFails(old(world.log), world.log);
    }

    /** ReadDispatcher.Handle: the same program without a task to await. */
    method HandleReadCommand(key: Key, endpoint: string, params: Query.Params, order: seq<string>,
                             escape: string -> string, expires: Option<int>)
      returns (failed: bool)
      requires Ready() && (params.Object? ==> Query.VisitOrder(order, params.fields))
      modifies client`access, client`session, client`steps
      modifies world`now, world`log, world`answers, world`refreshes, world`fileOps
      modifies world`rows, world`writes, world`calls
      ensures Ready()
      ensures old(world.log) < world.log && PcSince(Cmd.Read(endpoint, params), |old(world.log)|) == Some(Returned)
      ensures world.log[|old(world.log)|] == Checked(old(expires.Some? && world.now > expires.value))
      ensures failed <==> Fails(world.log[|old(world.log)|..])
      ensures old(world.writes) <= world.writes && old(world.calls) <= world.calls
      ensures Outcome(key, Cmd.Read(endpoint, params), old(expires.Some? && world.now > expires.value),
                      world.writes[|old(world.writes)|..], world.calls[|old(world.calls)|..], [])
      ensures PathsAre(Query.PathOf(endpoint, params, escape), world.calls[|old(world.calls)|..])
    {
      ghost var cmd := Cmd.Read(endpoint, params);
      ghost var from := |world.log|;
      var late := expires.Some? && world.now > expires.value;
      Note(cmd, from, Checked(late), Begin);
      if late {
        failed := Expire(key, cmd, from);
        LateFails(old(world.log), world.log);
        return;
      }
      failed := HandleLiveRead(key, endpoint, params, order, escape, from);
      LiveFails(old(world.log), world.log);
    }
  }
}
