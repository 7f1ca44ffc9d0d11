/**
 The claim / execute / complete protocol as a labelled transition system: any
 number of rows in either table, any number of handlers of any number of
 agents, spawned any number of times for the same row, and a network that may
 refuse, lose or delay every request.
 */
module Claims {
  import opened Common
  import opened Routing
  import opened HandlerProgram

  datatype Status = Pending | Claimed | Finished(final: Final)

  type HandlerId = nat

  /** A row is named by its table and id. */
  datatype Key = Key(isRead: bool, id: int)

  /** One Proxmox call, with the handler that made it and the time. */
  datatype Performed = Performed(maker: HandlerId, call: Call, at: int)

  /**
   A row of `commands` or `read_commands`.  `owner`, `history` and `calls` are
   not stored anywhere: they record whose conditional PATCH flipped the row, the
   statuses it went through, and the Proxmox calls made for it.
   */
  datatype Row = Row(cmd: Cmd, expires: Option<int>, status: Status,
                     owner: Option<HandlerId>, history: seq<Status>, calls: seq<Performed>)

  datatype Request = Claim | Complete(final: Final)

  /** The PATCH of a handler: none, on its way to the server, or answered. */
  datatype Wire = Idle | Sent(request: Request) | Answer(answer: Answer)

  /** `expired` is what the TTL check saw; `faulty` that the handler met a crash or a store error. */
  datatype Handler = Handler(key: Key, hasKey: bool, pc: Pc, wire: Wire, expired: Option<bool>, faulty: bool)

  datatype State = State(now: int, rows: map<Key, Row>, handlers: map<HandlerId, Handler>)

  /** What the server does with a request that reaches it. */
  datatype Serving =
    | Apply(reply: Wire)   // perform it; the reply is the true one, garbled (Refused) or lost (Idle)
    | Deny                 // 401: nothing is changed
    | Fail                 // any other error: nothing is changed
    | Drop                 // the request never arrives

  datatype Action =
    | Tick(elapsed: nat)
    | Insert(key: Key, cmd: Cmd, expires: Option<int>)
    | Spawn(h: HandlerId, key: Key, hasKey: bool)
    | Check(h: HandlerId)
    | Serve(h: HandlerId, serving: Serving)
    | Receive(h: HandlerId)
    | GiveUp(h: HandlerId)
    | Reauth(h: HandlerId, ok: bool)
    | Decide(h: HandlerId)
    | Perform(h: HandlerId, ok: bool)
    | EndTask(h: HandlerId, end: TaskEnd)
    | Kill(h: HandlerId)

  predicate PastExpiry(r: Row, now: int) { r.expires.Some? && now > r.expires.value }

  predicate Waiting(pc: Pc) { pc.Claiming? || pc.Completing? }

  /** The request a handler sends when it enters a waiting point. */
  function Sending(pc: Pc): Wire {
    match pc
    case Claiming(_, _) => Sent(Claim)
    case Completing(final, _) => Sent(Complete(final))
    case _ => Idle
  }

  predicate IsFault(pc: Pc, e: Event) {
    match e
    case Answered(a) => a.Refused? || a.Silence? || (a.Unauthorized? && (pc.Claiming? || pc.Completing?) && pc.second)
    case Refreshed(ok) => !ok
    case _ => false
  }

  /** The handler after an event of its program; a request still on its way stays on its way. */
  function Advance(x: Handler, cmd: Cmd, e: Event): Handler
    requires Step(cmd, x.hasKey, x.pc, e).Some?
  {
    var pc := Step(cmd, x.hasKey, x.pc, e).value;
    x.(pc := pc,
       wire := if Waiting(pc) then Sending(pc) else if x.wire.Sent? then x.wire else Idle,
       faulty := x.faulty || IsFault(x.pc, e))
  }

  predicate Live(s: State, h: HandlerId) { h in s.handlers && s.handlers[h].key in s.rows }

  predicate Enabled(s: State, a: Action) {
    match a
    case Tick(_) => true
    case Insert(key, cmd, _) => key !in s.rows && key.isRead == cmd.Read?
    case Spawn(h, key, _) => h !in s.handlers && key in s.rows
    case Check(h) => Live(s, h) && s.handlers[h].pc.Begin?
    case Serve(h, serving) =>
      Live(s, h) && s.handlers[h].wire.Sent? &&
      (serving.Apply? ==> serving.reply in [Idle, Answer(Refused), TrueReply(s, h)])
    case Receive(h) => Live(s, h) && Waiting(s.handlers[h].pc) && s.handlers[h].wire.Answer?
    case GiveUp(h) => Live(s, h) && Waiting(s.handlers[h].pc)
    case Reauth(h, _) => Live(s, h) && (s.handlers[h].pc.ClaimReauth? || s.handlers[h].pc.CompleteReauth?)
    case Decide(h) => Live(s, h) && s.handlers[h].pc.Deciding?
    case Perform(h, _) => Live(s, h) && s.handlers[h].pc.Invoking?
    case EndTask(h, _) => Live(s, h) && s.handlers[h].pc.Awaiting?
    case Kill(h) => Live(s, h)
  }

  /** PostgREST's answer to a request that is applied: whether its filter matched the row. */
  function TrueReply(s: State, h: HandlerId): Wire
    requires Live(s, h) && s.handlers[h].wire.Sent?
  {
    var x := s.handlers[h];
    Answer(if x.wire.request.Claim? && !s.rows[x.key].status.Pending? then Miss else Hit)
  }

  /** The effect of a PATCH: the claim is filtered on status=pending, the completion on nothing. */
  function Patch(r: Row, request: Request, h: HandlerId): Row {
    match request
    case Claim =>
      if r.status.Pending? then r.(status := Claimed, owner := Some(h), history := r.history + [Claimed]) else r
    case Complete(final) => r.(status := Finished(final), history := r.history + [Finished(final)])
  }

  /** An answer reaches a handler only while it waits for one. */
  function Hear(x: Handler, reply: Wire): Handler { x.(wire := if Waiting(x.pc) then reply else Idle) }

  function SetHandler(s: State, h: HandlerId, x: Handler): State { s.(handlers := s.handlers[h := x]) }

  /** Actions that only let the program of a handler react. */
  predicate Reacts(a: Action) { a.Receive? || a.GiveUp? || a.Reauth? || a.Decide? || a.EndTask? }

  function EventOf(x: Handler, a: Action): Event
    requires Reacts(a) && (a.Receive? ==> x.wire.Answer?)
  {
    match a
    case Receive(_) => Answered(x.wire.answer)
    case GiveUp(_) => Answered(Silence)
    case Reauth(_, ok) => Refreshed(ok)
    case Decide(_) => Decided
    case EndTask(_, end) => TaskEnded(end)
  }

  function Do(s: State, a: Action): State
    requires Enabled(s, a)
  {
    match a
    case Tick(elapsed) => s.(now := s.now + elapsed)
    case Insert(key, cmd, expires) =>
      s.(rows := s.rows[key := Row(cmd, expires, Pending, None, [Pending], [])])
    case Spawn(h, key, hasKey) => SetHandler(s, h, Handler(key, hasKey, Begin, Idle, None, false))
    case Check(h) =>
      var x := s.handlers[h];
      var r := s.rows[x.key];
      var expired := PastExpiry(r, s.now);
      SetHandler(s, h, Advance(x, r.cmd, Checked(expired)).(expired := Some(expired)))
    case Serve(h, serving) =>
      var x := s.handlers[h];
      if serving.Apply? then
        SetHandler(s, h, Hear(x, serving.reply)).(rows := s.rows[x.key := Patch(s.rows[x.key], x.wire.request, h)])
      else
        var reply := if serving.Deny? then Answer(Unauthorized) else if serving.Fail? then Answer(Refused) else Idle;
        SetHandler(s, h, Hear(x, reply))
    case Perform(h, ok) =>
      var x := s.handlers[h];
      var r := s.rows[x.key];
      SetHandler(s, h, Advance(x, r.cmd, CallReturned(ok)))
        .(rows := s.rows[x.key := r.(calls := r.calls + [Performed(h, x.pc.call, s.now)])])
    case Kill(h) =>
      var x := s.handlers[h];
      SetHandler(s, h, x.(pc := Returned, faulty := true, wire := if x.wire.Sent? then x.wire else Idle))
    case _ =>
      var x := s.handlers[a.h];
      SetHandler(s, a.h, Advance(x, s.rows[x.key].cmd, EventOf(x, a)))
  }

  ghost predicate Next(s: State, s': State) { exists a :: Enabled(s, a) && s' == Do(s, a) }

  predicate Init(s: State) { s.rows == map[] && s.handlers == map[] }

  ghost predicate StepAt(run: seq<State>, i: nat)
    requires i + 1 < |run|
  {
    Next(run[i], run[i + 1])
  }

  /** A run from an initial state. */
  ghost predicate IsRun(run: seq<State>) {
    run != [] && Init(run[0]) && forall i :: 0 <= i < |run| - 1 ==> StepAt(run, i)
  }

  // ----- the inductive invariant -----

  /** A final status a handler may write, given what it saw and what was called. */
  predicate Justified(x: Handler, r: Row, final: Final) {
    match final
    case Expired => x.expired == Some(true) && r.calls == []
    case Done => x.expired == Some(false) && |r.calls| == 1
    case Failed => x.expired == Some(false) && (r.calls == [] ==> Route(r.cmd, x.hasKey).Reject?)
  }

  predicate Owns(h: HandlerId, r: Row) { r.owner == Some(h) }

  /** The handler owns a row that it has not completed yet. */
  predicate Holding(h: HandlerId, r: Row) { Owns(h, r) && r.status == Claimed }

  predicate WireOk(h: HandlerId, x: Handler, r: Row) {
    match x.wire
    case Idle => true
    case Sent(Claim) => !Owns(h, r) && x.expired.Some? && (x.pc.Claiming? || (x.pc.Returned? && x.faulty))
    case Sent(Complete(f)) =>
      && Holding(h, r) && Justified(x, r, f)
      && ((x.pc.Completing? && x.pc.final == f) || (x.pc.Returned? && x.faulty))
    case Answer(a) =>
      && Waiting(x.pc)
      && (x.pc.Claiming? ==>
            && (a.Hit? ==> Holding(h, r))
            && (a.Miss? ==> !r.status.Pending? && !Owns(h, r))
            && (a.Unauthorized? ==> !Owns(h, r)))
      && (x.pc.Completing? ==>
            && (a.Unauthorized? ==> Holding(h, r))
            && (a.Hit? || a.Miss? ==> r.status == Finished(x.pc.final)))
  }

  predicate PcOk(h: HandlerId, x: Handler, r: Row) {
    match x.pc
    case Begin => !Owns(h, r) && x.wire.Idle? && x.expired.None? && !x.faulty
    case Claiming(e, _) => x.expired == Some(e) && (Owns(h, r) ==> Holding(h, r) && r.calls == [])
    case ClaimReauth(e) => x.expired == Some(e) && !Owns(h, r) && x.wire.Idle?
    case Deciding => x.expired == Some(false) && Holding(h, r) && r.calls == [] && x.wire.Idle?
    case Invoking(c) =>
      && x.expired == Some(false) && Holding(h, r) && r.calls == [] && x.wire.Idle?
      && Route(r.cmd, x.hasKey) == Invoke(c)
    case Awaiting => x.expired == Some(false) && Holding(h, r) && |r.calls| == 1 && x.wire.Idle?
    case Completing(f, _) => Owns(h, r) && Justified(x, r, f)
    case CompleteReauth(f) => Holding(h, r) && Justified(x, r, f) && x.wire.Idle?
    case Returned => !x.faulty ==> !r.status.Pending? && (Owns(h, r) ==> r.status.Finished?)
  }

  predicate HandlerOk(now: int, h: HandlerId, x: Handler, r: Row) {
    && (x.expired == Some(true) ==> PastExpiry(r, now))
    && WireOk(h, x, r) && PcOk(h, x, r)
  }

  predicate RowOk(k: Key, r: Row) {
    && (r.status.Pending? <==> r.owner.None?)
    && r.history == (match r.status
                     case Pending => [Pending]
                     case Claimed => [Pending, Claimed]
                     case Finished(f) => [Pending, Claimed, Finished(f)])
    && |r.calls| <= (if r.status.Pending? then 0 else 1)
    && k.isRead == r.cmd.Read?
  }

  /** What the row says about the handler that owns it. */
  predicate OwnerOk(h: HandlerId, x: Handler, r: Row) {
    && x.expired.Some?
    && (r.status.Finished? ==> Justified(x, r, r.status.final))
    && (|r.calls| == 1 ==>
          && r.calls[0].maker == h && x.expired == Some(false)
          && Route(r.cmd, x.hasKey) == Invoke(r.calls[0].call))
  }

  predicate RowInv(s: State, k: Key)
    requires k in s.rows
  {
    var r := s.rows[k];
    && RowOk(k, r)
    && (r.owner.Some? ==>
          && r.owner.value in s.handlers
          && s.handlers[r.owner.value].key == k
          && OwnerOk(r.owner.value, s.handlers[r.owner.value], r))
  }

  predicate HandlerInv(s: State, h: HandlerId)
    requires h in s.handlers
  {
    Live(s, h) && HandlerOk(s.now, h, s.handlers[h], s.rows[s.handlers[h].key])
  }

  predicate Inv(s: State) {
    && (forall h :: h in s.handlers ==> HandlerInv(s, h))
    && (forall k :: k in s.rows ==> RowInv(s, k))
  }

  // ----- every step keeps the invariant -----

  /** What a step of handler h does: it replaces the handler and the row of that handler, nothing else. */
  predicate Replaces(s: State, s': State, h: HandlerId, x': Handler, r': Row) {
    && Live(s, h) && s' == s.(handlers := s.handlers[h := x'], rows := s.rows[s.handlers[h].key := r'])
    && x'.key == s.handlers[h].key && x'.hasKey == s.handlers[h].hasKey
  }

  /** A handler changes its row only by taking it while nobody owns it, or while owning it. */
  predicate Polite(h: HandlerId, r: Row, r': Row) {
    && r'.cmd == r.cmd && r'.expires == r.expires && (r'.status.Pending? ==> r.status.Pending?)
    && (r' == r || (r.owner.None? && r'.owner == Some(h)) || (r.owner == Some(h) && r'.owner == r.owner))
  }

  lemma OthersKeep(now: int, h: HandlerId, g: HandlerId, y: Handler, r: Row, r': Row)
    requires g != h && Polite(h, r, r') && HandlerOk(now, g, y, r)
    ensures HandlerOk(now, g, y, r')
  {
  }

  /** The invariant of a handler and its row, as values. */
  predicate PairOk(now: int, k: Key, h: HandlerId, x: Handler, r: Row) {
    x.key == k && HandlerOk(now, h, x, r) && RowOk(k, r) && (Owns(h, r) ==> OwnerOk(h, x, r))
  }

  lemma PairAt(s: State, h: HandlerId)
    requires Inv(s) && h in s.handlers
    ensures Live(s, h) && PairOk(s.now, s.handlers[h].key, h, s.handlers[h], s.rows[s.handlers[h].key])
  {
    assert HandlerInv(s, h);
    assert RowInv(s, s.handlers[h].key);
  }

  lemma LocalKeeps(s: State, s': State, h: HandlerId, x': Handler, r': Row)
    requires Inv(s) && Replaces(s, s', h, x', r')
    requires Polite(h, s.rows[x'.key], r') && PairOk(s.now, x'.key, h, x', r')
    ensures Inv(s')
  {
    var r := s.rows[x'.key];
    assert HandlerInv(s, h) && RowInv(s, x'.key);
    forall g | g in s'.handlers ensures HandlerInv(s', g) {
      if g != h {
        assert HandlerInv(s, g);
        if s.handlers[g].key == x'.key { OthersKeep(s.now, h, g, s.handlers[g], r, r'); }
      }
    }
    forall k | k in s'.rows ensures RowInv(s', k) {
      assert RowInv(s, k);
    }
  }

  lemma EventKeeps(now: int, k: Key, h: HandlerId, x: Handler, r: Row, e: Event)
    requires PairOk(now, k, h, x, r) && Step(r.cmd, x.hasKey, x.pc, e).Some?
    requires !e.Checked? && !e.CallReturned?
    requires e.Answered? ==> e.answer.Silence? || (x.wire.Answer? && e.answer == x.wire.answer)
    ensures PairOk(now, k, h, Advance(x, r.cmd, e), r)
  {
  }

  lemma CheckKeeps(now: int, k: Key, h: HandlerId, x: Handler, r: Row)
    requires PairOk(now, k, h, x, r) && x.pc.Begin?
    ensures var expired := PastExpiry(r, now);
            PairOk(now, k, h, Advance(x, r.cmd, Checked(expired)).(expired := Some(expired)), r)
  {
  }

  lemma PerformKeeps(now: int, k: Key, h: HandlerId, x: Handler, r: Row, ok: bool)
    requires PairOk(now, k, h, x, r) && x.pc.Invoking?
    ensures PairOk(now, k, h, Advance(x, r.cmd, CallReturned(ok)),
                   r.(calls := r.calls + [Performed(h, x.pc.call, now)]))
  {
  }

  lemma KillKeeps(now: int, k: Key, h: HandlerId, x: Handler, r: Row)
    requires PairOk(now, k, h, x, r)
    ensures PairOk(now, k, h, x.(pc := Returned, faulty := true, wire := if x.wire.Sent? then x.wire else Idle), r)
  {
  }

  lemma ApplyKeeps(now: int, k: Key, h: HandlerId, x: Handler, r: Row, reply: Wire)
    requires PairOk(now, k, h, x, r) && x.wire.Sent?
    requires reply in [Idle, Answer(Refused), Answer(if x.wire.request.Claim? && !r.status.Pending? then Miss else Hit)]
    ensures PairOk(now, k, h, Hear(x, reply), Patch(r, x.wire.request, h)) && Polite(h, r, Patch(r, x.wire.request, h))
  {
  }

  lemma NoEffectKeeps(now: int, k: Key, h: HandlerId, x: Handler, r: Row, reply: Wire)
    requires PairOk(now, k, h, x, r) && x.wire.Sent? && reply in [Idle, Answer(Refused), Answer(Unauthorized)]
    ensures PairOk(now, k, h, Hear(x, reply), r)
  {
  }

  lemma ServeKeeps(s: State, h: HandlerId, serving: Serving)
    requires Inv(s) && Enabled(s, Serve(h, serving))
    ensures Inv(Do(s, Serve(h, serving)))
  {
    PairAt(s, h);
    var s', x := Do(s, Serve(h, serving)), s.handlers[h];
    var r := s.rows[x.key];
    match serving
    case Apply(reply) =>
      ApplyKeeps(s.now, x.key, h, x, r, reply);
      LocalKeeps(s, s', h, Hear(x, reply), Patch(r, x.wire.request, h));
    case _ =>
      var reply := if serving.Deny? then Answer(Unauthorized) else if serving.Fail? then Answer(Refused) else Idle;
      NoEffectKeeps(s.now, x.key, h, x, r, reply);
      LocalKeeps(s, s', h, Hear(x, reply), r);
  }

  lemma ReactionKeeps(s: State, a: Action)
    requires Inv(s) && Enabled(s, a) && Reacts(a)
    ensures Inv(Do(s, a))
  {
    PairAt(s, a.h);
    var x := s.handlers[a.h];
    var r := s.rows[x.key];
    assert s.rows[x.key := r] == s.rows;
    EventKeeps(s.now, x.key, a.h, x, r, EventOf(x, a));
    LocalKeeps(s, Do(s, a), a.h, Advance(x, r.cmd, EventOf(x, a)), r);
  }

  lemma CheckStepKeeps(s: State, h: HandlerId)
    requires Inv(s) && Enabled(s, Check(h))
    ensures Inv(Do(s, Check(h)))
  {
    var s', x := Do(s, Check(h)), s.handlers[h];
    var r := s.rows[x.key];
    PairAt(s, h);
    CheckKeeps(s.now, x.key, h, x, r);
    LocalKeeps(s, s', h, s'.handlers[h], s'.rows[x.key]);
  }

  lemma PerformStepKeeps(s: State, h: HandlerId, ok: bool)
    requires Inv(s) && Enabled(s, Perform(h, ok))
    ensures Inv(Do(s, Perform(h, ok)))
  {
    var s', x := Do(s, Perform(h, ok)), s.handlers[h];
    var r := s.rows[x.key];
    PairAt(s, h);
    PerformKeeps(s.now, x.key, h, x, r, ok);
    LocalKeeps(s, s', h, s'.handlers[h], s'.rows[x.key]);
  }

  lemma KillStepKeeps(s: State, h: HandlerId)
    requires Inv(s) && Enabled(s, Kill(h))
    ensures Inv(Do(s, Kill(h)))
  {
    var s', x := Do(s, Kill(h)), s.handlers[h];
    var r := s.rows[x.key];
    PairAt(s, h);
    KillKeeps(s.now, x.key, h, x, r);
    LocalKeeps(s, s', h, s'.handlers[h], s'.rows[x.key]);
  }

  lemma EnvironmentKeeps(s: State, a: Action)
    requires Inv(s) && Enabled(s, a)
    requires a.Tick? || a.Insert? || a.Spawn?
    ensures Inv(Do(s, a))
  {
    var s' := Do(s, a);
    forall g | g in s'.handlers ensures HandlerInv(s', g) {
      if g in s.handlers { assert HandlerInv(s, g); }
      else { assert RowInv(s, s'.handlers[g].key); }
    }
    forall k | k in s'.rows ensures RowInv(s', k) {
      if k in s.rows { assert RowInv(s, k); }
    }
  }

  /** The invariant holds initially and every step keeps it. */
  lemma StepKeeps(s: State, a: Action)
    requires Inv(s) && Enabled(s, a)
    ensures Inv(Do(s, a))
  {
    match a {
      case Serve(h, serving) => ServeKeeps(s, h, serving);
      case Tick(_) => EnvironmentKeeps(s, a);
      case Insert(_, _, _) => EnvironmentKeeps(s, a);
      case Spawn(_, _, _) => EnvironmentKeeps(s, a);
      case Check(h) => CheckStepKeeps(s, h);
      case Perform(h, ok) => PerformStepKeeps(s, h, ok);
      case Kill(h) => KillStepKeeps(s, h);
      case _ => ReactionKeeps(s, a);
    }
  }

  lemma {:induction false} RunKeeps(run: seq<State>, i: nat)
    requires IsRun(run) && i < |run|
    ensures Inv(run[i])
  {
    if i > 0 {
      RunKeeps(run, i - 1);
      assert StepAt(run, i - 1);
      var a :| Enabled(run[i - 1], a) && run[i] == Do(run[i - 1], a);
      StepKeeps(run[i - 1], a);
    }
  }

  // ----- main results over every run -----

  /**
   In every reachable state a row has at most one Proxmox call.  It was made by
   the handler whose conditional PATCH flipped the row, which had seen the row
   unexpired, and it is the call the row asks for.
   */
  lemma AtMostOneCall(run: seq<State>, i: nat, k: Key)
    requires IsRun(run) && i < |run| && k in run[i].rows
    ensures var s, r := run[i], run[i].rows[k];
            && |r.calls| <= 1
            && forall p :: p in r.calls ==>
                 && r.owner == Some(p.maker) && p.maker in s.handlers
                 && s.handlers[p.maker].key == k && s.handlers[p.maker].expired == Some(false)
                 && Route(r.cmd, s.handlers[p.maker].hasKey) == Invoke(p.call)
  {
    RunKeeps(run, i);
    CallsOf(run[i], k);
  }

  lemma CallsOf(s: State, k: Key)
    requires Inv(s) && k in s.rows
    ensures |s.rows[k].calls| <= 1
    ensures forall p :: p in s.rows[k].calls ==>
              && s.rows[k].owner == Some(p.maker) && p.maker in s.handlers
              && s.handlers[p.maker].key == k && s.handlers[p.maker].expired == Some(false)
              && Route(s.rows[k].cmd, s.handlers[p.maker].hasKey) == Invoke(p.call)
  {
    assert RowInv(s, k);
    var calls := s.rows[k].calls;
    if calls != [] { assert calls == [calls[0]]; }
  }

  /** What the TTL check of a handler saw stays with the handler. */
  lemma {:induction false} SeenStays(run: seq<State>, i: nat, j: nat, h: HandlerId)
    requires IsRun(run) && i <= j < |run| && h in run[i].handlers && run[i].handlers[h].expired.Some?
    ensures h in run[j].handlers && run[j].handlers[h].expired == run[i].handlers[h].expired
  {
    if i < j {
      SeenStays(run, i, j - 1, h);
      RunKeeps(run, j - 1);
      assert StepAt(run, j - 1);
      var a :| Enabled(run[j - 1], a) && run[j] == Do(run[j - 1], a);
      StepSeen(run[j - 1], a, h);
    }
  }

  lemma StepSeen(s: State, a: Action, h: HandlerId)
    requires Inv(s) && Enabled(s, a) && h in s.handlers && s.handlers[h].expired.Some?
    ensures h in Do(s, a).handlers && Do(s, a).handlers[h].expired == s.handlers[h].expired
  {
    assert HandlerInv(s, h);
  }

  /**
   A handler whose TTL check sees its row expired makes no call at any point of
   the run, before or after, for any row.
   */
  lemma ExpiredMakesNoCall(run: seq<State>, i: nat, j: nat, h: HandlerId, k: Key)
    requires IsRun(run) && i < |run| && j < |run| && h in run[i].handlers && k in run[j].rows
    requires run[i].handlers[h].expired == Some(true)
    ensures forall p :: p in run[j].rows[k].calls ==> p.maker != h
  {
    var last := if i < j then j else i;
    SeenStays(run, i, last, h);
    FinalIsForever(run, j, last, k);
    AtMostOneCall(run, last, k);
    assert forall p :: p in run[j].rows[k].calls ==> p in run[last].rows[k].calls;
  }

  /** What the TTL check sees: expired exactly if the row has an expiry and the clock is past it. */
  lemma CheckExact(s: State, h: HandlerId)
    requires Enabled(s, Check(h))
    ensures h in Do(s, Check(h)).handlers && s.handlers[h].key in s.rows
    ensures var r := s.rows[s.handlers[h].key];
            Do(s, Check(h)).handlers[h].expired == Some(r.expires.Some? && s.now > r.expires.value)
  {
  }

  lemma {:induction false} TimePasses(run: seq<State>, i: nat, j: nat)
    requires IsRun(run) && i <= j < |run|
    ensures run[i].now <= run[j].now
  {
    if i < j {
      TimePasses(run, i, j - 1);
      assert StepAt(run, j - 1);
      var a :| Enabled(run[j - 1], a) && run[j] == Do(run[j - 1], a);
    }
  }

  /** A step never makes a handler see a row as live after the row's expiry. */
  lemma StaysUnseen(s: State, a: Action, h: HandlerId, k: Key)
    requires Inv(s) && Enabled(s, a) && k in s.rows
    requires s.rows[k].expires.Some? && s.now > s.rows[k].expires.value
    requires h in s.handlers && s.handlers[h].key == k ==> s.handlers[h].expired != Some(false)
    ensures var s' := Do(s, a);
            h in s'.handlers && s'.handlers[h].key == k ==> s'.handlers[h].expired != Some(false)
  {
    if h in s.handlers { assert HandlerInv(s, h); }
    if a.Check? { CheckExact(s, a.h); }
  }

  lemma PastForever(run: seq<State>, i: nat, j: nat, k: Key)
    requires IsRun(run) && i <= j < |run| && k in run[i].rows
    requires run[i].rows[k].expires.Some? && run[i].now > run[i].rows[k].expires.value
    ensures Inv(run[j]) && k in run[j].rows
    ensures run[j].rows[k].expires.Some? && run[j].now > run[j].rows[k].expires.value
  {
    RunKeeps(run, j);
    FinalIsForever(run, i, j, k);
    TimePasses(run, i, j);
  }

  lemma {:induction false} NeverSeenLive(run: seq<State>, i: nat, j: nat, h: HandlerId, k: Key)
    requires IsRun(run) && i <= j < |run| && k in run[i].rows
    requires run[i].rows[k].expires.Some? && run[i].now > run[i].rows[k].expires.value
    requires h in run[i].handlers ==> run[i].handlers[h].pc.Begin?
    ensures h in run[j].handlers && run[j].handlers[h].key == k ==> run[j].handlers[h].expired != Some(false)
  {
    if i == j {
      RunKeeps(run, i);
      if h in run[i].handlers { assert HandlerInv(run[i], h); }
    } else {
      NeverSeenLive(run, i, j - 1, h, k);
      PastForever(run, i, j - 1, k);
      assert StepAt(run, j - 1);
      var a :| Enabled(run[j - 1], a) && run[j] == Do(run[j - 1], a);
      StaysUnseen(run[j - 1], a, h, k);
    }
  }

  /**
   Once a row is past its expiry, no handler that has not yet made its TTL check,
   or is not yet started, ever calls for it.
   */
  lemma LateMakesNoCall(run: seq<State>, i: nat, j: nat, h: HandlerId, k: Key)
    requires IsRun(run) && i <= j < |run| && k in run[i].rows
    requires run[i].rows[k].expires.Some? && run[i].now > run[i].rows[k].expires.value
    requires h in run[i].handlers ==> run[i].handlers[h].pc.Begin?
    ensures k in run[j].rows && forall p :: p in run[j].rows[k].calls ==> p.maker != h
  {
    NeverSeenLive(run, i, j, h, k);
    FinalIsForever(run, i, j, k);
    AtMostOneCall(run, j, k);
  }

  /** A handler that checks a row that has no expiry, or is not past it, never finishes it as expired. */
  lemma EarlyIsNotExpired(run: seq<State>, i: nat, j: nat, h: HandlerId)
    requires IsRun(run) && i < j < |run| && Enabled(run[i], Check(h)) && run[i + 1] == Do(run[i], Check(h))
    requires var r := run[i].rows[run[i].handlers[h].key];
             r.expires.Some? ==> run[i].now <= r.expires.value
    ensures var k := run[i].handlers[h].key;
            k in run[j].rows && (run[j].rows[k].owner == Some(h) ==> run[j].rows[k].status != Finished(Expired))
  {
    var k := run[i].handlers[h].key;
    CheckExact(run[i], h);
    SeenStays(run, i + 1, j, h);
    FinalIsForever(run, i, j, k);
    RunKeeps(run, j);
    assert RowInv(run[j], k);
  }

  /**
   The history of every row is a prefix of pending, claimed, final.  An expired
   row had passed its expiry and no call was made for it; a done row had its one
   call.
   */
  lemma RowHistory(run: seq<State>, i: nat, k: Key)
    requires IsRun(run) && i < |run| && k in run[i].rows
    ensures var r := run[i].rows[k];
            && (exists f :: r.history <= [Pending, Claimed, Finished(f)])
            && r.history != [] && r.history[|r.history| - 1] == r.status
            && (r.status == Finished(Expired) ==> r.calls == [] && r.expires.Some? && run[i].now > r.expires.value)
            && (r.status == Finished(Done) ==> |r.calls| == 1)
  {
    RunKeeps(run, i);
    assert RowInv(run[i], k);
    var r := run[i].rows[k];
    if r.status.Finished? {
      assert HandlerInv(run[i], r.owner.value);
      assert r.history <= [Pending, Claimed, Finished(r.status.final)];
    } else {
      assert r.history <= [Pending, Claimed, Finished(Done)];
    }
  }

  /**
   What counts as a fault of a handler: a crash, a refresh that failed, an answer
   that is an error or never comes, a second 401.
   */
  lemma FaultExact(s: State, a: Action, h: HandlerId)
    requires Inv(s) && Enabled(s, a) && h in s.handlers && !s.handlers[h].faulty
    ensures h in Do(s, a).handlers
    ensures Do(s, a).handlers[h].faulty <==>
              || a == Kill(h) || a == Reauth(h, false) || a == GiveUp(h)
              || (a == Receive(h)
                  && (s.handlers[h].wire.answer in [Refused, Silence]
                      || (s.handlers[h].wire.answer == Unauthorized && s.handlers[h].pc.second)))
  {
    assert HandlerInv(s, h);
  }

  /**
   Without crashes and store errors of its own, a handler that won its row and
   returned has made exactly the call the row asks for, or none if the row was
   expired or asks for none, and has completed it once.
   */
  lemma WinnerCompletes(run: seq<State>, i: nat, h: HandlerId)
    requires IsRun(run) && i < |run| && h in run[i].handlers
    requires run[i].handlers[h].pc.Returned? && !run[i].handlers[h].faulty
    ensures run[i].handlers[h].key in run[i].rows
    ensures var r := run[i].rows[run[i].handlers[h].key];
            var x := run[i].handlers[h];
            r.owner == Some(h) ==>
              && r.status.Finished? && r.history == [Pending, Claimed, r.status]
              && if x.expired == Some(true) then r.status.final == Expired && r.calls == []
                 else match Route(r.cmd, x.hasKey)
                   case Reject(_) => r.status.final == Failed && r.calls == []
                   case Invoke(c) =>
                     r.status.final != Expired && |r.calls| == 1 && r.calls[0].maker == h && r.calls[0].call == c
  {
    RunKeeps(run, i);
    assert HandlerInv(run[i], h);
    assert RowInv(run[i], run[i].handlers[h].key);
  }

  /**
   A handler step other than a call or an applied PATCH replaces the handler
   alone; once checked, what it saw stays.
   */
  lemma QuietStep(s: State, a: Action)
    requires Inv(s) && Enabled(s, a) && ActorOf(a).Some?
    requires !a.Perform? && !(a.Serve? && a.serving.Apply?)
    ensures var x := s.handlers[a.h];
            && Replaces(s, Do(s, a), a.h, Do(s, a).handlers[a.h], s.rows[x.key])
            && (Owns(a.h, s.rows[x.key]) ==> Do(s, a).handlers[a.h].expired == x.expired)
  {
    assert HandlerInv(s, a.h);
    assert s.rows[s.handlers[a.h].key := s.rows[s.handlers[a.h].key]] == s.rows;
  }

  /** From one state to the next, a row only grows: histories and call lists are extended, a final row is frozen. */
  predicate Grows(r: Row, r': Row) {
    && r'.cmd == r.cmd && r'.expires == r.expires
    && r.history <= r'.history && r.calls <= r'.calls
    && (r.owner.Some? ==> r'.owner == r.owner)
    && (r.status.Finished? ==> r' == r)
  }

  lemma StepGrows(s: State, a: Action, k: Key)
    requires Inv(s) && Enabled(s, a) && k in s.rows
    ensures k in Do(s, a).rows && Grows(s.rows[k], Do(s, a).rows[k])
  {
    assert RowInv(s, k);
    if a.Serve? || a.Perform? { assert HandlerInv(s, a.h); }
  }

  /**
   No final status is ever overwritten, no call is ever added to a final row,
   and the owner of a row never changes.
   */
  lemma {:induction false} FinalIsForever(run: seq<State>, i: nat, j: nat, k: Key)
    requires IsRun(run) && i <= j < |run| && k in run[i].rows
    ensures k in run[j].rows && Grows(run[i].rows[k], run[j].rows[k])
    ensures var r, r' := run[i].rows[k], run[j].rows[k];
            && r'.cmd == r.cmd && r'.expires == r.expires && r.history <= r'.history && r.calls <= r'.calls
            && (r.owner.Some? ==> r'.owner == r.owner) && (r.status.Finished? ==> r' == r)
  {
    if i < j {
      FinalIsForever(run, i, j - 1, k);
      RunKeeps(run, j - 1);
      assert StepAt(run, j - 1);
      var a :| Enabled(run[j - 1], a) && run[j] == Do(run[j - 1], a);
      StepGrows(run[j - 1], a, k);
    }
  }

  // ----- progress -----

  function ActorOf(a: Action): Option<HandlerId> {
    if a.Tick? || a.Insert? || a.Spawn? then None else Some(a.h)
  }

  /** Steps a handler and its request can still take. */
  function Work(x: Handler): nat {
    3 * StepsLeft(x.pc) + (match x.wire case Idle => 0 case Sent(_) => 2 case Answer(_) => 1)
  }

  /** Every step of an unreturned handler uses up some of its work; nobody else's step changes it. */
  lemma WorkDescends(s: State, a: Action, h: HandlerId)
    requires Enabled(s, a) && h in s.handlers && !s.handlers[h].pc.Returned?
    ensures h in Do(s, a).handlers
    ensures if ActorOf(a) == Some(h) then Work(Do(s, a).handlers[h]) < Work(s.handlers[h])
            else Do(s, a).handlers[h] == s.handlers[h]
  {
    var x := s.handlers[h];
    if ActorOf(a) == Some(h) {
      var cmd := s.rows[x.key].cmd;
      if Reacts(a) { StepsDescend(cmd, x.hasKey, x.pc, EventOf(x, a)); }
    }
  }

  /** A handler that has not returned always has a step it can take without any fault of its agent. */
  lemma HandlerNeverStuck(s: State, h: HandlerId)
    requires Inv(s) && h in s.handlers && !s.handlers[h].pc.Returned?
    ensures exists a :: ActorOf(a) == Some(h) && Enabled(s, a) && !a.Kill?
  {
    assert HandlerInv(s, h);
    var x := s.handlers[h];
    var a := match x.pc
      case Begin => Check(h)
      case Claiming(_, _) => if x.wire.Sent? then Serve(h, Fail) else if x.wire.Answer? then Receive(h) else GiveUp(h)
      case Completing(_, _) => if x.wire.Sent? then Serve(h, Fail) else if x.wire.Answer? then Receive(h) else GiveUp(h)
      case ClaimReauth(_) => Reauth(h, true)
      case CompleteReauth(_) => Reauth(h, true)
      case Deciding => Decide(h)
      case Invoking(_) => Perform(h, true)
      case Awaiting => EndTask(h, ExitOk);
    assert ActorOf(a) == Some(h) && Enabled(s, a);
  }
}
