/**
 The registry of active subscriptions and the central broadcaster
 (`internal/supabase/client.go`), shared by one reconnect loop per topic
 (`internal/supabase/realtime.go`).
 */
module Registry {
  import opened Common

  type Topic = string
  type ConnId = nat

  // ----- all interleavings -----

  /** One attempt to push an access token. */
  datatype Push = Push(topic: Topic, conn: ConnId, token: int)

  /**
   Where the reconnect loop of a topic stands: backing off or dialling, joined
   and about to register, reading, or returning from subscribeOnce with the
   deferred unregister still to run.
   */
  datatype Loop = Outside | Joined(conn: ConnId) | Inside(conn: ConnId) | Returning(conn: ConnId)

  /** The broadcaster: idle, holding a fresh token, or pushing it to what is left of its snapshot. */
  datatype Broadcast =
    | Idle
    | Refreshed(token: int)
    | Pushing(token: int, snapshot: map<Topic, ConnId>, todo: set<Topic>, made: seq<Push>)

  datatype State = State(loops: map<Topic, Loop>, subs: map<Topic, ConnId>, next: ConnId, broadcast: Broadcast)

  datatype Action =
    | StartLoop(topic: Topic)
    | Join(topic: Topic)
    | Register(topic: Topic)
    | Close(topic: Topic)             // the read fails or the context ends
    | Unregister(topic: Topic)
    | Tick(refreshed: Option<int>)
    | Snapshot
    | PushOne(topic: Topic, ok: bool)
    | EndTick

  predicate Enabled(s: State, a: Action) {
    match a
    case StartLoop(t) => t !in s.loops
    case Join(t) => t in s.loops && s.loops[t].Outside?
    case Register(t) => t in s.loops && s.loops[t].Joined?
    case Close(t) => t in s.loops && s.loops[t].Inside?
    case Unregister(t) => t in s.loops && s.loops[t].Returning?
    case Tick(_) => s.broadcast.Idle?
    case Snapshot => s.broadcast.Refreshed?
    case PushOne(t, _) => s.broadcast.Pushing? && t in s.broadcast.todo && t in s.broadcast.snapshot
    case EndTick => s.broadcast.Pushing? && s.broadcast.todo == {}
  }

  function Do(s: State, a: Action): State
    requires Enabled(s, a)
  {
    match a
    case StartLoop(t) => s.(loops := s.loops[t := Outside])
    case Join(t) => s.(loops := s.loops[t := Joined(s.next)], next := s.next + 1)
    case Register(t) => s.(loops := s.loops[t := Inside(s.loops[t].conn)], subs := s.subs[t := s.loops[t].conn])
    case Close(t) => s.(loops := s.loops[t := Returning(s.loops[t].conn)])
    case Unregister(t) => s.(loops := s.loops[t := Outside], subs := s.subs - {t})
    case Tick(refreshed) => s.(broadcast := if refreshed.None? then Idle else Refreshed(refreshed.value))
    case Snapshot => s.(broadcast := Pushing(s.broadcast.token, s.subs, s.subs.Keys, []))
    case PushOne(t, ok) =>
      var b := s.broadcast;
      s.(broadcast := b.(todo := b.todo - {t}, made := b.made + [Push(t, b.snapshot[t], b.token)]))
    case EndTick => s.(broadcast := Idle)
  }

  ghost predicate Next(s: State, s': State) { exists a :: Enabled(s, a) && s' == Do(s, a) }

  predicate Init(s: State) { s.loops == map[] && s.subs == map[] && s.broadcast.Idle? }

  ghost predicate StepAt(run: seq<State>, i: nat)
    requires i + 1 < |run|
  {
    Next(run[i], run[i + 1])
  }

  ghost predicate IsRun(run: seq<State>) {
    run != [] && Init(run[0]) && forall i :: 0 <= i < |run| - 1 ==> StepAt(run, i)
  }

  /** Between the register and the unregister of one subscribeOnce. */
  predicate Subscribed(s: State, t: Topic) {
    t in s.loops && (s.loops[t].Inside? || s.loops[t].Returning?)
  }

  /**
   The registry holds exactly the connections of the loops between register and
   unregister; newer connections have higher numbers.
   */
  ghost predicate RegistryOk(s: State) {
    && (forall t :: t in s.subs <==> Subscribed(s, t))
    && (forall t :: t in s.subs ==> s.subs[t] == s.loops[t].conn)
    && (forall t :: t in s.loops && !s.loops[t].Outside? ==> s.loops[t].conn < s.next)
    && (forall t, u :: t in s.loops && u in s.loops && t != u && !s.loops[t].Outside? && !s.loops[u].Outside? ==>
          s.loops[t].conn != s.loops[u].conn)
  }

  /** What has been pushed and what is left make up the snapshot, each entry once. */
  predicate BroadcastOk(b: Broadcast) {
    b.Pushing? ==>
      && b.todo <= b.snapshot.Keys
      && (forall t :: t in b.snapshot && t !in b.todo ==> Push(t, b.snapshot[t], b.token) in b.made)
      && (forall p :: p in b.made ==>
            && p.topic in b.snapshot && p.topic !in b.todo
            && p == Push(p.topic, b.snapshot[p.topic], b.token))
      && (forall i, j :: 0 <= i < j < |b.made| ==> b.made[i].topic != b.made[j].topic)
  }

  lemma PushKeeps(b: Broadcast, t: Topic)
    requires b.Pushing? && BroadcastOk(b) && t in b.todo && t in b.snapshot
    ensures BroadcastOk(b.(todo := b.todo - {t}, made := b.made + [Push(t, b.snapshot[t], b.token)]))
  {
    var p := Push(t, b.snapshot[t], b.token);
    var made := b.made + [p];
    assert made[|b.made|] == p;
    forall u | u in b.snapshot && u !in b.todo - {t} ensures Push(u, b.snapshot[u], b.token) in made {
      if u != t { assert Push(u, b.snapshot[u], b.token) in b.made; }
    }
    forall i, j | 0 <= i < j < |made| ensures made[i].topic != made[j].topic {
      if j == |b.made| { assert b.made[i] in b.made; }
    }
  }

  /** A join gets a connection number of its own. */
  lemma JoinKeeps(s: State, t: Topic)
    requires RegistryOk(s) && Enabled(s, Join(t))
    ensures RegistryOk(Do(s, Join(t)))
  {
  }

  lemma LoopsKeep(s: State, a: Action)
    requires RegistryOk(s) && Enabled(s, a)
    ensures RegistryOk(Do(s, a))
  {
    if a.Join? { JoinKeeps(s, a.topic); }
  }

  lemma StepKeeps(s: State, a: Action)
    requires RegistryOk(s) && BroadcastOk(s.broadcast) && Enabled(s, a)
    ensures RegistryOk(Do(s, a)) && BroadcastOk(Do(s, a).broadcast)
  {
    LoopsKeep(s, a);
    if a.PushOne? { PushKeeps(s.broadcast, a.topic); }
  }

  lemma {:induction false} RunKeeps(run: seq<State>, i: nat)
    requires IsRun(run) && i < |run|
    ensures RegistryOk(run[i]) && BroadcastOk(run[i].broadcast)
  {
    if i > 0 {
      RunKeeps(run, i - 1);
      assert StepAt(run, i - 1);
      var a :| Enabled(run[i - 1], a) && run[i] == Do(run[i - 1], a);
      StepKeeps(run[i - 1], a);
    }
  }

  /**
   In every interleaving, a topic is registered exactly from the register of its
   subscribeOnce to the deferred unregister, with the connection of that very
   subscribeOnce, which is no other topic's; and what an unregister removes is its
   own connection, never a newer one.
   */
  lemma OwnConnectionOnly(run: seq<State>, i: nat, t: Topic)
    requires IsRun(run) && i < |run|
    ensures t in run[i].subs <==>
              t in run[i].loops && (run[i].loops[t].Inside? || run[i].loops[t].Returning?)
    ensures t in run[i].subs ==> run[i].subs[t] == run[i].loops[t].conn
    ensures forall u :: t in run[i].subs && u in run[i].subs && u != t ==> run[i].subs[u] != run[i].subs[t]
    ensures Enabled(run[i], Unregister(t)) ==>
              && t in run[i].subs && run[i].subs[t] == run[i].loops[t].conn
              && Do(run[i], Unregister(t)).subs == run[i].subs - {t}
    ensures Enabled(run[i], Register(t)) ==> t !in run[i].subs
  {
    RunKeeps(run, i);
  }

  /** Exactly one attempt per entry, to its connection and with this token. */
  predicate OneEach(made: seq<Push>, snapshot: map<Topic, ConnId>, token: int) {
    && (forall t :: t in snapshot ==> Push(t, snapshot[t], token) in made)
    && (forall p :: p in made ==> p.topic in snapshot && p == Push(p.topic, snapshot[p.topic], token))
    && (forall j, k :: 0 <= j < k < |made| ==> made[j].topic != made[k].topic)
  }

  /**
   When a tick ends, whatever joined, left or failed meanwhile, it has attempted
   exactly one push per entry of its snapshot.
   */
  lemma OnePushEach(run: seq<State>, i: nat)
    requires IsRun(run) && i < |run| && Enabled(run[i], EndTick)
    ensures var b := run[i].broadcast;
            OneEach(b.made, b.snapshot, b.token)
    ensures var b := run[i].broadcast;
            && (forall t :: t in b.snapshot ==> Push(t, b.snapshot[t], b.token) in b.made)
            && (forall p :: p in b.made ==> p.topic in b.snapshot && p == Push(p.topic, b.snapshot[p.topic], b.token))
            && (forall j, k :: 0 <= j < k < |b.made| ==> b.made[j].topic != b.made[k].topic)
  {
    RunKeeps(run, i);
  }

  /** A tick that is pushing always has a push or its end to do next. */
  lemma TickNeverBlocks(run: seq<State>, i: nat)
    requires IsRun(run) && i < |run| && run[i].broadcast.Pushing?
    ensures
      || Enabled(run[i], EndTick)
      || exists t :: Enabled(run[i], PushOne(t, true)) && Enabled(run[i], PushOne(t, false))
  {
    RunKeeps(run, i);
    var b := run[i].broadcast;
    if b.todo != {} {
      var t :| t in b.todo;
      assert Enabled(run[i], PushOne(t, true)) && Enabled(run[i], PushOne(t, false));
    }
  }

  // ----- the registry object -----

  /**
   The registry and the reconnect loops that share it.  `run` is the run of the
   transition system above that the calls so far have made: every method takes
   steps of it and leaves the fields as its last state has them.
   */
  class ActiveSubs {
    var subs: map<Topic, ConnId>
    var loops: map<Topic, Loop>
    var next: ConnId
    var attempts: seq<Push>
    ghost var run: seq<State>

    ghost predicate Valid()
      reads this
    {
      IsRun(run) && Now().subs == subs && Now().loops == loops && Now().next == next
    }

    ghost function Now(): State
      requires run != []
      reads this`run
    {
      run[|run| - 1]
    }

    constructor ()
      ensures Valid() && Now().broadcast.Idle? && subs == map[] && attempts == []
    {
      subs, loops, next, attempts := map[], map[], 0, [];
      run := [State(map[], map[], 0, Idle)];
    }

    ghost method Take(a: Action)
      requires IsRun(run) && Enabled(Now(), a)
      modifies this`run
      ensures IsRun(run) && run == old(run) + [Do(old(Now()), a)]
    {
      var s := Now();
      run := run + [Do(s, a)];
      forall i | 0 <= i < |run| - 1 ensures StepAt(run, i) {
        if i < |run| - 2 { assert StepAt(old(run), i); } else { assert Next(s, Do(s, a)); }
      }
    }

    /** registerSubscription: takes the Register step of the topic's loop; no older connection is there to replace. */
    method RegisterSubscription(topic: Topic, conn: ConnId)
      requires Valid() && topic in loops && loops[topic] == Joined(conn)
      modifies this`subs, this`loops, this`run
      ensures Valid() && run == old(run) + [Do(old(Now()), Register(topic))]
      ensures topic !in old(subs) && topic in subs && subs[topic] == conn
    {
      RunKeeps(run, |run| - 1);
      Take(Register(topic));
      loops := loops[topic := Inside(conn)];
      subs := subs[topic := conn];
    }

    /** unregisterSubscription, deferred to the return of subscribeOnce: removes the connection that call registered. */
    method UnregisterSubscription(topic: Topic, ghost conn: ConnId)
      requires Valid() && topic in loops && loops[topic] == Returning(conn)
      modifies this`subs, this`loops, this`run
      ensures Valid() && run == old(run) + [Do(old(Now()), Unregister(topic))]
      ensures topic in old(subs) && old(subs)[topic] == conn && topic !in subs
    {
      RunKeeps(run, |run| - 1);
      Take(Unregister(topic));
      loops := loops[topic := Outside];
      subs := subs - {topic};
    }

    /** Other goroutines start, join, register, close and return as often as they like. */
    method Others()
      requires Valid()
      modifies this`subs, this`loops, this`next, this`run
      ensures Valid() && old(run) <= run && Now().broadcast == old(Now()).broadcast
    {
      var steps: int := *;
      while 0 < steps
        invariant Valid() && old(run) <= run && Now().broadcast == old(Now()).broadcast
      {
        steps := steps - 1;
        var topic: Topic := *;
        if topic !in loops {
          Take(StartLoop(topic));
          loops := loops[topic := Outside];
        } else {
          match loops[topic] {
            case Outside =>
              Take(Join(topic));
              loops, next := loops[topic := Joined(next)], next + 1;
            case Joined(conn) => RegisterSubscription(topic, conn);
            case Inside(conn) =>
              Take(Close(topic));
              loops := loops[topic := Returning(conn)];
            case Returning(conn) => UnregisterSubscription(topic, conn);
          }
        }
      }
    }

    /** The push loop of refreshAndPushAll over its snapshot, in any order and whichever pushes fail. */
    method PushAll(token: int, entries: map<Topic, ConnId>) returns (pushed: nat)
      requires Valid() && Now().broadcast == Pushing(token, entries, entries.Keys, [])
      modifies this
      ensures Valid() && Now().broadcast.Idle? && old(run) < run
      ensures old(attempts) <= attempts && OneEach(attempts[|old(attempts)|..], entries, token)
      ensures pushed <= |entries|
    {
      pushed := 0;
      var todo := entries.Keys;
      while todo != {}
        invariant Valid() && old(run) <= run
        invariant pushed + |todo| <= |entries.Keys|
        invariant old(attempts) <= attempts
        invariant Now().broadcast == Pushing(token, entries, todo, attempts[|old(attempts)|..])
      {
        Others();
        var topic :| topic in todo;
        var delivered: bool := *;
        RunKeeps(run, |run| - 1);
        Take(PushOne(topic, delivered));
        attempts := attempts + [Push(topic, entries[topic], token)];
        todo := todo - {topic};
        if delivered {
          pushed := pushed + 1;
        }
      }
      OnePushEach(run, |run| - 1);
      Take(EndTick);
      assert |entries.Keys| == |entries|;
    }

    /**
     refreshAndPushAll, while subscriptions come and go: nothing is pushed if the
     refresh failed; otherwise every subscription registered at the moment of the
     snapshot, state `at` of the run, gets exactly one attempt with the fresh
     token.
     */
    method RefreshAndPushAll(minted: Option<int>) returns (pushed: nat, ghost at: nat)
      requires Valid() && Now().broadcast.Idle?
      modifies this
      ensures Valid() && Now().broadcast.Idle? && old(run) < run && |old(run)| <= at < |run|
      ensures minted.None? ==> attempts == old(attempts) && pushed == 0
      ensures minted.Some? ==>
                && old(attempts) <= attempts && OneEach(attempts[|old(attempts)|..], run[at].subs, minted.value)
                && pushed <= |run[at].subs|
    {
      Others();
      Take(Tick(minted));
      at := |run| - 1;
      if minted.None? {
        return 0, at;
      }
      Others();
      var entries := subs;
      Take(Snapshot);
      at := |run| - 1;
      pushed := PushAll(minted.value, entries);
    }
  }
}
