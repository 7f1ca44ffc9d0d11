/**
 How long the tokens of registered subscriptions live
 (`internal/supabase/client.go`, `internal/supabase/realtime.go`): a token lives
 60 minutes, a join uses the cached one, and every 30 minutes after the first
 registration a tick refreshes and pushes.  Times are in seconds; a tick's
 refresh and pushes take no time.
 */
module Broadcast {
  import opened Common

  type Topic = string

  const LIFETIME: int := 3600
  const INTERVAL: int := 1800
  const SKEW: int := 30

  /** A token: when it dies, and the last tick at or after which it was issued (0: since startup). */
  datatype Token = Token(dies: int, epoch: nat)

  /**
   A token as a join read it or a tick pushed it: how many ticks there had been
   by then, and when the last refresh was.
   */
  datatype Held = Held(token: Token, seen: nat, renewed: int)

  /**
   `booted` is the time of the startup refresh, `renewed` that of the last one,
   `first` that of the first registration, which starts the ticker, and `anchor`
   the time of the last refresh before it.  `joining` are joins that have read
   their token and are not registered yet.
   */
  datatype State = State(now: int, booted: int, memory: Token, renewed: int, first: Option<int>, anchor: int,
                         ticks: nat, joining: map<Topic, Held>, subs: map<Topic, Held>)

  datatype Action =
    | Pass(seconds: nat)
    | Renew                                            // a refresh by some other request
    | Access(topic: Topic)                             // subscribeOnce reads its token
    | Register(topic: Topic)
    | JoinFails(topic: Topic)
    | Leave(topic: Topic)
    | Tick(refreshed: bool, pushed: set<Topic>)        // the topics whose push succeeds

  function TickTime(s: State, n: int): int
    requires s.first.Some?
  {
    s.first.value + INTERVAL * n
  }

  function Issue(s: State): Token { Token(s.now + LIFETIME, s.ticks) }

  function Renewed(s: State): State { s.(memory := Issue(s), renewed := s.now) }

  function InMemory(s: State): Held { Held(s.memory, s.ticks, s.renewed) }

  predicate Enabled(s: State, a: Action) {
    match a
    case Pass(d) => s.first.Some? ==> s.now + d <= TickTime(s, s.ticks + 1)
    case Renew => true
    case Access(t) => t !in s.joining && t !in s.subs
    case Register(t) => t in s.joining
    case JoinFails(t) => t in s.joining
    case Leave(t) => t in s.subs
    case Tick(_, pushed) => s.first.Some? && s.now == TickTime(s, s.ticks + 1) && pushed <= s.subs.Keys
  }

  function Do(s: State, a: Action): State
    requires Enabled(s, a)
  {
    match a
    case Pass(d) => s.(now := s.now + d)
    case Renew => Renewed(s)
    case Access(t) =>
      var u := if s.memory.dies - s.now > SKEW then s else Renewed(s);
      u.(joining := u.joining[t := InMemory(u)])
    case Register(t) =>
      var u := s.(joining := s.joining - {t}, subs := s.subs[t := s.joining[t]]);
      if s.first.Some? then u else u.(first := Some(s.now), anchor := s.renewed)
    case JoinFails(t) => s.(joining := s.joining - {t})
    case Leave(t) => s.(subs := s.subs - {t})
    case Tick(refreshed, pushed) =>
      var u := s.(ticks := s.ticks + 1);
      if !refreshed then u
      else Renewed(u).(subs := map t | t in s.subs :: if t in pushed then InMemory(Renewed(u)) else s.subs[t])
  }

  /** Right after the startup refresh. */
  predicate Init(s: State) {
    && s.now == s.booted == s.renewed && s.memory == Token(s.booted + LIFETIME, 0) && s.first.None? && s.ticks == 0
    && s.joining == map[] && s.subs == map[]
  }

  /** A run, given by its actions. */
  ghost predicate IsRun(run: seq<State>, acts: seq<Action>) {
    && |run| == |acts| + 1 && Init(run[0])
    && forall i :: 0 <= i < |acts| ==> StepAt(run, acts, i)
  }

  predicate StepAt(run: seq<State>, acts: seq<Action>, i: nat)
    requires |run| == |acts| + 1 && i < |acts|
  {
    Enabled(run[i], acts[i]) && run[i + 1] == Do(run[i], acts[i])
  }

  // ----- the timed invariant -----

  /** The earliest moment at which a token of this epoch can have been issued. */
  function Base(s: State, epoch: nat): int
    requires epoch > 0 ==> s.first.Some?
  {
    if epoch == 0 then s.booted else TickTime(s, epoch)
  }

  predicate TokenOk(s: State, token: Token) {
    && token.epoch <= s.ticks && (token.epoch > 0 ==> s.first.Some?)
    && token.dies >= Base(s, token.epoch) + LIFETIME
  }

  predicate HeldOk(s: State, h: Held) {
    && TokenOk(s, h.token) && h.token.dies == h.renewed + LIFETIME
    && h.renewed <= s.now && h.seen <= s.ticks
  }

  predicate Inv(s: State) {
    && s.booted <= s.now
    && (s.first.None? ==> s.ticks == 0)
    && (s.first.Some? ==> s.booted <= s.first.value && TickTime(s, s.ticks) <= s.now <= TickTime(s, s.ticks + 1))
    && HeldOk(s, InMemory(s))
    && (forall t :: t in s.joining ==> HeldOk(s, s.joining[t]))
    && (forall t :: t in s.subs ==> HeldOk(s, s.subs[t]))
    && (s.subs != map[] ==> s.first.Some?)
  }

  lemma StepKeeps(s: State, a: Action)
    requires Inv(s) && Enabled(s, a)
    ensures Inv(Do(s, a))
  {
    match a {
      case Tick(_, _) => TickKeeps(s, a);
      case Access(_) => RefreshKeeps(s, a);
      case Renew => RefreshKeeps(s, a);
      case Register(t) => assert HeldOk(s, s.joining[t]);
      case _ =>
    }
  }

  lemma RefreshKeeps(s: State, a: Action)
    requires Inv(s) && Enabled(s, a) && (a.Renew? || a.Access?)
    ensures Inv(Do(s, a))
  {
    assert forall h :: HeldOk(s, h) ==> HeldOk(Renewed(s), h);
    assert HeldOk(Renewed(s), InMemory(Renewed(s)));
  }

  lemma TickKeeps(s: State, a: Action)
    requires Inv(s) && Enabled(s, a) && a.Tick?
    ensures Inv(Do(s, a))
  {
    assert forall h :: HeldOk(s, h) ==> HeldOk(Do(s, a), h);
  }

  lemma {:induction false} RunKeeps(run: seq<State>, acts: seq<Action>, i: nat)
    requires IsRun(run, acts) && i < |run|
    ensures Inv(run[i])
  {
    if i > 0 {
      RunKeeps(run, acts, i - 1);
      assert StepAt(run, acts, i - 1);
      StepKeeps(run[i - 1], acts[i - 1]);
    }
  }

  /** Validity a registered subscription will have left at the next tick. */
  function LeftAtNextTick(s: State, t: Topic): int
    requires t in s.subs && s.first.Some?
  {
    s.subs[t].token.dies - TickTime(s, s.ticks + 1)
  }

  /**
   What a join reads: the cached token if that has more than 30 seconds left,
   otherwise a fresh one that lives an hour; and what a tick does: on a fresh
   token, the reached subscriptions hold it and all others what they held.
   */
  lemma JoinAndTickExact(s: State, t: Topic, pushed: set<Topic>)
    ensures Enabled(s, Access(t)) ==>
              var u := Do(s, Access(t));
              && t in u.joining
              && (s.memory.dies > s.now + 30 ==> u.joining[t].token == s.memory && u.memory == s.memory)
              && (s.memory.dies <= s.now + 30 ==> u.joining[t].token == u.memory && u.memory.dies == s.now + 3600)
    ensures Enabled(s, Tick(true, pushed)) ==>
              var u := Do(s, Tick(true, pushed));
              && s.first.Some? && s.now == s.first.value + 1800 * (s.ticks + 1) && u.subs.Keys == s.subs.Keys
              && u.memory.dies == s.now + 3600
              && forall x :: x in s.subs ==> if x in pushed then u.subs[x].token == u.memory else u.subs[x] == s.subs[x]
  {
  }

  /**
   With failing refreshes and pushes and joins that straddle ticks: a
   subscription whose token is `behind` ticks old has at least 30 minutes, less
   30 for every tick it is behind, left at the next tick; and before any tick
   has reached it, 30 minutes less the time from the startup refresh to the
   first registration.
   */
  lemma TokenLeft(run: seq<State>, acts: seq<Action>, i: nat, t: Topic)
    requires IsRun(run, acts) && i < |run| && t in run[i].subs
    ensures var s := run[i];
            var behind := s.ticks - s.subs[t].token.epoch;
            && s.first.Some? && behind >= 0
            && LeftAtNextTick(s, t) >= 1800 - 1800 * behind
                 - (if s.subs[t].token.epoch == 0 then s.first.value - s.booted else 0)
  {
    RunKeeps(run, acts, i);
    assert HeldOk(run[i], run[i].subs[t]);
  }

  predicate Refreshes(s: State, a: Action) { a.Renew? || (a.Access? && s.memory.dies - s.now <= SKEW) }

  /**
   A tick that refreshes, reaches every subscription and finds no join under
   way; and, before the first registration, no refresh while a join is under way.
   */
  predicate Smooth(s: State, a: Action) {
    && (a.Tick? ==> a.refreshed && a.pushed == s.subs.Keys && s.joining == map[])
    && (Refreshes(s, a) && s.first.None? ==> s.joining == map[])
  }

  ghost predicate SmoothRun(run: seq<State>, acts: seq<Action>)
    requires |run| == |acts| + 1
  {
    forall i :: 0 <= i < |acts| ==> Smooth(run[i], acts[i])
  }

  /** Every token in use was issued at or after the last tick. */
  predicate AllRecent(s: State) {
    && s.memory.epoch == s.ticks
    && (forall t :: t in s.joining ==> s.joining[t].token.epoch == s.ticks)
    && (forall t :: t in s.subs ==> s.subs[t].token.epoch == s.ticks)
  }

  /** Before the first registration all joins hold the cached token; after it no token is older than the anchor. */
  predicate Anchored(s: State) {
    if s.first.None? then forall t :: t in s.joining ==> s.joining[t].token == s.memory
    else
      && s.anchor <= s.first.value
      && s.memory.dies >= s.anchor + LIFETIME
      && (forall t :: t in s.joining ==> s.joining[t].token.dies >= s.anchor + LIFETIME)
      && (forall t :: t in s.subs ==> s.subs[t].token.dies >= s.anchor + LIFETIME)
  }

  lemma SmoothStep(s: State, a: Action)
    requires Inv(s) && Enabled(s, a) && Smooth(s, a) && AllRecent(s) && Anchored(s)
    ensures AllRecent(Do(s, a)) && Anchored(Do(s, a))
  {
  }

  lemma {:induction false} SmoothKeepsRecent(run: seq<State>, acts: seq<Action>, i: nat)
    requires IsRun(run, acts) && SmoothRun(run, acts) && i < |run|
    ensures AllRecent(run[i]) && Anchored(run[i])
  {
    if i > 0 {
      SmoothKeepsRecent(run, acts, i - 1);
      RunKeeps(run, acts, i - 1);
      assert StepAt(run, acts, i - 1) && Smooth(run[i - 1], acts[i - 1]);
      SmoothStep(run[i - 1], acts[i - 1]);
    }
  }

  /**
   The broadcast invariant: if every tick refreshes and reaches every
   subscription and no join straddles a tick, then after the first tick every
   registered subscription has at least 30 minutes left at the next one, and
   before it at least 30 minutes less the time from the last refresh to the
   first registration.
   */
  lemma HalfHourLeft(run: seq<State>, acts: seq<Action>, i: nat, t: Topic)
    requires IsRun(run, acts) && SmoothRun(run, acts) && i < |run| && t in run[i].subs
    ensures var s := run[i];
            && s.first.Some? && s.booted <= s.first.value
            && (s.ticks > 0 ==> LeftAtNextTick(s, t) >= 1800)
            && (s.ticks == 0 ==> LeftAtNextTick(s, t) >= 1800 - (s.first.value - s.anchor))
  {
    SmoothKeepsRecent(run, acts, i);
    RunKeeps(run, acts, i);
    TokenLeft(run, acts, i, t);
  }

  // ----- where the bound is exact -----

  /**
   Before the first tick, in every run: a subscription has 30 minutes left at
   it exactly if there was a refresh between the first registration and the
   moment its join read the token, and any time left exactly if the last
   refresh before that moment was less than 30 minutes before the first
   registration.
   */
  lemma FirstTickExact(run: seq<State>, acts: seq<Action>, i: nat, t: Topic)
    requires IsRun(run, acts) && i < |run| && t in run[i].subs && run[i].ticks == 0
    ensures var s := run[i];
            && s.first.Some?
            && (LeftAtNextTick(s, t) >= 1800 <==> s.subs[t].renewed >= s.first.value)
            && (LeftAtNextTick(s, t) > 0 <==> s.first.value - s.subs[t].renewed < 1800)
  {
    RunKeeps(run, acts, i);
    assert HeldOk(run[i], run[i].subs[t]);
  }

  /** Every tick refreshes and reaches every registered subscription; joins may straddle ticks. */
  predicate Reaches(s: State, a: Action) { a.Tick? ==> a.refreshed && a.pushed == s.subs.Keys }

  ghost predicate ReachingRun(run: seq<State>, acts: seq<Action>)
    requires |run| == |acts| + 1
  {
    forall i :: 0 <= i < |acts| ==> Reaches(run[i], acts[i])
  }

  /**
   A token read since the last tick was issued at that tick or later; one read
   before a tick was not issued after it.
   */
  predicate Dated(s: State, h: Held) {
    && (0 < s.ticks == h.seen && s.first.Some? ==> h.renewed >= TickTime(s, s.ticks))
    && (h.seen < s.ticks && s.first.Some? ==> h.renewed <= TickTime(s, h.seen + 1))
  }

  predicate AllDated(s: State) {
    && Dated(s, InMemory(s))
    && (forall t :: t in s.joining ==> Dated(s, s.joining[t]))
    && (forall t :: t in s.subs ==> Dated(s, s.subs[t]))
  }

  lemma DatedStep(s: State, a: Action)
    requires Inv(s) && Enabled(s, a) && Reaches(s, a) && AllDated(s)
    ensures AllDated(Do(s, a))
  {
    assert forall h :: HeldOk(s, h) && Dated(s, h) && h.seen <= s.ticks < Do(s, a).ticks ==> Dated(Do(s, a), h);
    if a.Register? { assert HeldOk(s, s.joining[a.topic]) && Dated(s, s.joining[a.topic]); }
  }

  lemma {:induction false} DatedRun(run: seq<State>, acts: seq<Action>, i: nat)
    requires IsRun(run, acts) && ReachingRun(run, acts) && i < |run|
    ensures AllDated(run[i])
  {
    if i > 0 {
      DatedRun(run, acts, i - 1);
      RunKeeps(run, acts, i - 1);
      assert StepAt(run, acts, i - 1) && Reaches(run[i - 1], acts[i - 1]);
      DatedStep(run[i - 1], acts[i - 1]);
    }
  }

  /**
   After the first tick, if every tick refreshes and reaches everyone: a
   subscription has 30 minutes left at the next tick exactly if its join read
   its token after the last tick, or it was pushed one by that tick, or what it
   read was issued at the very instant of that tick.  A token read `seen` ticks
   in leaves at most 30 minutes for each tick from there on, so after two missed
   ticks nothing.
   */
  lemma StraddlingExact(run: seq<State>, acts: seq<Action>, i: nat, t: Topic)
    requires IsRun(run, acts) && ReachingRun(run, acts) && i < |run| && t in run[i].subs && run[i].ticks > 0
    ensures var s, h := run[i], run[i].subs[t];
            && s.first.Some?
            && (LeftAtNextTick(s, t) >= 1800 <==> h.seen == s.ticks || h.renewed == TickTime(s, s.ticks))
            && (h.seen < s.ticks ==> LeftAtNextTick(s, t) <= 1800 * (h.seen + 2 - s.ticks))
  {
    DatedRun(run, acts, i);
    RunKeeps(run, acts, i);
    var s, h := run[i], run[i].subs[t];
    assert HeldOk(s, h) && Dated(s, h);
  }

  /** A run goes on with any action enabled at its end. */
  lemma Then(run: seq<State>, acts: seq<Action>, a: Action) returns (run': seq<State>, acts': seq<Action>)
    requires IsRun(run, acts) && ReachingRun(run, acts) && Enabled(run[|acts|], a) && Reaches(run[|acts|], a)
    ensures run' == run + [Do(run[|acts|], a)] && acts' == acts + [a] && |acts'| == |acts| + 1
    ensures IsRun(run', acts') && ReachingRun(run', acts')
  {
    run', acts' := run + [Do(run[|acts|], a)], acts + [a];
    forall i | 0 <= i < |acts'| ensures StepAt(run', acts', i) && Reaches(run'[i], acts'[i]) {
      if i < |acts| { assert StepAt(run, acts, i) && Reaches(run[i], acts[i]); }
    }
  }

  /**
   A run in which every tick refreshes and reaches everyone, and a subscription
   is left with nothing at the next tick: its join reads the token before the
   first tick and registers after it.
   */
  lemma StraddlingJoin(t: Topic, u: Topic)
    requires t != u
    ensures exists run: seq<State>, acts: seq<Action> ::
              && IsRun(run, acts) && ReachingRun(run, acts)
              && var s := run[|acts|];
                 u in s.subs && s.first.Some? && s.ticks == 1 && LeftAtNextTick(s, u) == 0
  {
    var early := Held(Token(LIFETIME, 0), 0, 0);
    var run, acts := [State(0, 0, early.token, 0, None, 0, 0, map[], map[])], [];
    run, acts := Then(run, acts, Access(t));
    run, acts := Then(run, acts, Register(t));
    run, acts := Then(run, acts, Access(u));
    run, acts := Then(run, acts, Pass(INTERVAL));
    assert run[4].subs.Keys == {t};
    run, acts := Then(run, acts, Tick(true, {t}));
    run, acts := Then(run, acts, Register(u));
    assert run[6].subs[u] == early;
  }

  /**
   A run, smooth throughout, in which a registered subscription outlives its
   token before the first tick: the first join comes 40 minutes after startup
   and uses the startup token.
   */
  lemma LateFirstJoin(t: Topic)
    ensures exists run: seq<State>, acts: seq<Action> ::
              && IsRun(run, acts) && SmoothRun(run, acts)
              && var s := run[|acts|];
                 t in s.subs && s.subs[t].token.dies <= s.now && s.first.Some? && s.now < TickTime(s, 1)
  {
    var s0 := State(0, 0, Token(LIFETIME, 0), 0, None, 0, 0, map[], map[]);
    var acts := [Pass(2400), Access(t), Register(t), Pass(1200)];
    var s1 := Do(s0, acts[0]);
    var s2 := Do(s1, acts[1]);
    var s3 := Do(s2, acts[2]);
    var s4 := Do(s3, acts[3]);
    var run := [s0, s1, s2, s3, s4];
    assert forall i :: 0 <= i < |acts| ==> StepAt(run, acts, i) && Smooth(run[i], acts[i]);
    assert run[|acts|] == s4;
  }
}
