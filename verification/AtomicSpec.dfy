/**
 The atomic specification of the command protocol: no handlers, no network, no
 requests.  A pending row is taken once, either because it has expired or to be
 executed; a row taken to be executed has at most one call; then it gets one
 final result.  `RunRefines` maps every run of `Claims` to a run of this system.
 */
module AtomicSpec {
  import opened Common
  import opened Routing
  import opened HandlerProgram
  import Claims

  datatype Phase =
    | Open
    | Taken(live: bool)
    | Acted(call: Call)
    | Closed(final: Final, made: Option<Call>)

  datatype Row = Row(cmd: Cmd, expires: Option<int>, phase: Phase)

  datatype State = State(now: int, rows: map<Claims.Key, Row>)

  /** A row that an agent with or without a key refuses to route. */
  predicate Rejectable(cmd: Cmd) { Route(cmd, true).Reject? || Route(cmd, false).Reject? }

  predicate PhaseStep(now: int, r: Row, p: Phase) {
    match (r.phase, p)
    case (Open, Taken(live)) => live || (r.expires.Some? && now > r.expires.value)
    case (Taken(live), Acted(c)) => live && (Route(r.cmd, true) == Invoke(c) || Route(r.cmd, false) == Invoke(c))
    case (Taken(false), Closed(f, c)) => c == None && f == Expired
    case (Taken(true), Closed(f, c)) => c == None && f == Failed && Rejectable(r.cmd)
    case (Acted(c), Closed(f, d)) => d == Some(c) && f != Expired
    case _ => false
  }

  ghost predicate Next(t: State, t': State) {
    || (t'.rows == t.rows && t.now <= t'.now)
    || (exists k, cmd, expires :: k !in t.rows && t' == t.(rows := t.rows[k := Row(cmd, expires, Open)]))
    || (exists k, p ::
          && k in t.rows && PhaseStep(t.now, t.rows[k], p)
          && t' == t.(rows := t.rows[k := t.rows[k].(phase := p)]))
  }

  // ----- what the specification says on its own -----

  /** A done row had a call, an expired row had none, and a failed row without one could not be routed. */
  predicate Consistent(cmd: Cmd, q: Phase) {
    q.Closed? ==>
      match q.final
      case Done => q.made.Some?
      case Expired => q.made.None?
      case Failed => q.made.None? ==> Rejectable(cmd)
  }

  /** The phases a row may have later. */
  predicate Leads(cmd: Cmd, p: Phase, q: Phase) {
    p == q ||
    match p
    case Open => Consistent(cmd, q)
    case Taken(true) => Consistent(cmd, q) && (q.Acted? || (q.Closed? && q.final != Expired))
    case Taken(false) => q == Closed(Expired, None)
    case Acted(c) => q.Closed? && q.made == Some(c) && q.final != Expired
    case Closed(_, _) => false
  }

  ghost predicate StepAt(t: seq<State>, i: nat)
    requires i + 1 < |t|
  {
    Next(t[i], t[i + 1])
  }

  ghost predicate IsTrace(t: seq<State>) {
    t != [] && t[0].rows == map[] && forall i :: 0 <= i < |t| - 1 ==> StepAt(t, i)
  }

  lemma NextLeads(t: State, t': State, k: Claims.Key)
    requires Next(t, t') && k in t.rows
    ensures k in t'.rows && t'.rows[k].cmd == t.rows[k].cmd && Leads(t.rows[k].cmd, t.rows[k].phase, t'.rows[k].phase)
  {
    if t'.rows == t.rows {
    } else if l, p :|
        && l in t.rows && PhaseStep(t.now, t.rows[l], p)
        && t' == t.(rows := t.rows[l := t.rows[l].(phase := p)])
    {
    }
  }

  /** Over a whole specification run, a row is taken at most once, acted on at most once and closed at most once. */
  lemma {:induction false} TraceLeads(t: seq<State>, i: nat, j: nat, k: Claims.Key)
    requires IsTrace(t) && i <= j < |t| && k in t[i].rows
    ensures k in t[j].rows && t[j].rows[k].cmd == t[i].rows[k].cmd
    ensures var p, q := t[i].rows[k].phase, t[j].rows[k].phase;
            && (p.Closed? ==> q == p)
            && (p.Acted? ==> q == p || (q.Closed? && q.made == Some(p.call) && q.final != Expired))
            && (p.Taken? ==> !q.Open? && (q.Taken? ==> q == p))
            && (p == Taken(false) ==> q == p || q == Closed(Expired, None))
    ensures Leads(t[i].rows[k].cmd, t[i].rows[k].phase, t[j].rows[k].phase)
  {
    if i < j {
      TraceLeads(t, i, j - 1, k);
      assert StepAt(t, j - 1);
      NextLeads(t[j - 1], t[j], k);
    }
  }

  // ----- the refinement -----

  /** The phase of a row; `live` tells whether its owner had seen it unexpired. */
  function PhaseOf(r: Claims.Row, live: bool): Phase {
    var call := if r.calls == [] then None else Some(r.calls[0].call);
    match r.status
    case Pending => Open
    case Claimed => if call.Some? then Acted(call.value) else Taken(live)
    case Finished(f) => Closed(f, call)
  }

  function IsLive(x: Claims.Handler): bool { x.expired == Some(false) }

  function AbsRow(s: Claims.State, k: Claims.Key): Row
    requires k in s.rows && Claims.RowInv(s, k)
  {
    var r := s.rows[k];
    Row(r.cmd, r.expires, PhaseOf(r, r.owner.Some? && IsLive(s.handlers[r.owner.value])))
  }

  function Abs(s: Claims.State): State
    requires Claims.Inv(s)
  {
    State(s.now, map k | k in s.rows :: AbsRow(s, k))
  }

  /** Applying a claim takes an open row, applying a completion closes a row, and neither does anything else. */
  lemma ApplyPhase(now: int, k: Claims.Key, h: Claims.HandlerId, x: Claims.Handler, r: Claims.Row)
    requires Claims.PairOk(now, k, h, x, r) && x.wire.Sent?
    ensures var r' := Claims.Patch(r, x.wire.request, h);
            || r' == r
            || (r'.owner == Some(h) && (r.owner == Some(h) || r.status.Pending?)
                && r'.cmd == r.cmd && r'.expires == r.expires
                && PhaseStep(now, Row(r.cmd, r.expires, PhaseOf(r, IsLive(x))), PhaseOf(r', IsLive(x))))
  {
    assert |r.calls| == 0 ==> r.calls == [];
    if x.wire.request.Claim? && r.status.Pending? {
      assert x.expired.value ==> x.expired == Some(true);
    }
  }

  /** A Proxmox call acts on a row that was taken live and not acted on before. */
  lemma PerformPhase(now: int, k: Claims.Key, h: Claims.HandlerId, x: Claims.Handler, r: Claims.Row)
    requires Claims.PairOk(now, k, h, x, r) && x.pc.Invoking?
    ensures var r' := r.(calls := r.calls + [Claims.Performed(h, x.pc.call, now)]);
            r.owner == Some(h) && PhaseStep(now, Row(r.cmd, r.expires, PhaseOf(r, IsLive(x))), PhaseOf(r', IsLive(x)))
  {
    assert Route(r.cmd, x.hasKey) == Invoke(x.pc.call);
  }

  /** Rows other than the acting handler's keep their image. */
  lemma OtherRows(s: Claims.State, s': Claims.State, h: Claims.HandlerId, x': Claims.Handler, r': Claims.Row,
                  k: Claims.Key)
    requires Claims.Inv(s) && Claims.Inv(s') && Claims.Replaces(s, s', h, x', r')
    requires k in s.rows && k != x'.key
    ensures k in s'.rows && AbsRow(s', k) == AbsRow(s, k)
  {
    assert Claims.RowInv(s, k);
  }

  lemma SameImage(s: Claims.State, s': Claims.State)
    requires Claims.Inv(s) && Claims.Inv(s') && s.now <= s'.now && s'.rows.Keys == s.rows.Keys
    requires forall k :: k in s.rows ==> AbsRow(s', k) == AbsRow(s, k)
    ensures Next(Abs(s), Abs(s'))
  {
    assert Abs(s').rows == Abs(s).rows;
  }

  lemma OneRowImage(s: Claims.State, s': Claims.State, key: Claims.Key)
    requires Claims.Inv(s) && Claims.Inv(s') && s.now == s'.now && s'.rows.Keys == s.rows.Keys && key in s.rows
    requires forall k :: k in s.rows && k != key ==> AbsRow(s', k) == AbsRow(s, k)
    requires AbsRow(s', key) == AbsRow(s, key).(phase := AbsRow(s', key).phase)
    requires PhaseStep(s.now, AbsRow(s, key), AbsRow(s', key).phase)
    ensures Next(Abs(s), Abs(s'))
  {
    RowStepIsNext(Abs(s), Abs(s'), key);
  }

  lemma RowStepIsNext(t: State, t': State, key: Claims.Key)
    requires t.now == t'.now && t'.rows.Keys == t.rows.Keys && key in t.rows
    requires forall k :: k in t.rows && k != key ==> t'.rows[k] == t.rows[k]
    requires t'.rows[key] == t.rows[key].(phase := t'.rows[key].phase)
    requires PhaseStep(t.now, t.rows[key], t'.rows[key].phase)
    ensures Next(t, t')
  {
    assert t'.rows == t.rows[key := t.rows[key].(phase := t'.rows[key].phase)];
  }

  /** A step of one handler is, in the image, a stutter or one step of the row of that handler. */
  lemma ActorRefines(s: Claims.State, s': Claims.State, h: Claims.HandlerId, x': Claims.Handler, r': Claims.Row)
    requires Claims.Inv(s) && Claims.Inv(s') && Claims.Replaces(s, s', h, x', r')
    requires AbsRow(s', x'.key) == AbsRow(s, x'.key) ||
             (AbsRow(s', x'.key) == AbsRow(s, x'.key).(phase := AbsRow(s', x'.key).phase)
              && PhaseStep(s.now, AbsRow(s, x'.key), AbsRow(s', x'.key).phase))
    ensures Next(Abs(s), Abs(s'))
  {
    var k := x'.key;
    forall l | l in s.rows && l != k ensures AbsRow(s', l) == AbsRow(s, l) { OtherRows(s, s', h, x', r', l); }
    if AbsRow(s', k) == AbsRow(s, k) { SameImage(s, s'); } else { OneRowImage(s, s', k); }
  }

  lemma ApplyRefines(s: Claims.State, h: Claims.HandlerId, reply: Claims.Wire)
    requires Claims.Inv(s) && Claims.Enabled(s, Claims.Serve(h, Claims.Apply(reply)))
    ensures Claims.Inv(Claims.Do(s, Claims.Serve(h, Claims.Apply(reply))))
    ensures Next(Abs(s), Abs(Claims.Do(s, Claims.Serve(h, Claims.Apply(reply)))))
  {
    Claims.ServeKeeps(s, h, Claims.Apply(reply));
    var s', x := Claims.Do(s, Claims.Serve(h, Claims.Apply(reply))), s.handlers[h];
    var r := s.rows[x.key];
    assert Claims.HandlerInv(s, h) && Claims.RowInv(s, x.key);
    ApplyPhase(s.now, x.key, h, x, r);
    ActorRefines(s, s', h, Claims.Hear(x, reply), Claims.Patch(r, x.wire.request, h));
  }

  lemma PerformRefines(s: Claims.State, h: Claims.HandlerId, ok: bool)
    requires Claims.Inv(s) && Claims.Enabled(s, Claims.Perform(h, ok))
    ensures Claims.Inv(Claims.Do(s, Claims.Perform(h, ok)))
    ensures Next(Abs(s), Abs(Claims.Do(s, Claims.Perform(h, ok))))
  {
    Claims.PerformStepKeeps(s, h, ok);
    var s', x := Claims.Do(s, Claims.Perform(h, ok)), s.handlers[h];
    assert Claims.HandlerInv(s, h) && Claims.RowInv(s, x.key);
    PerformPhase(s.now, x.key, h, x, s.rows[x.key]);
    ActorRefines(s, s', h, s'.handlers[h], s'.rows[x.key]);
  }

  /** A step of a handler that changes no row is a stutter. */
  lemma QuietRefines(s: Claims.State, a: Claims.Action)
    requires Claims.Inv(s) && Claims.Enabled(s, a) && Claims.ActorOf(a).Some?
    requires !a.Perform? && !(a.Serve? && a.serving.Apply?)
    ensures Claims.Inv(Claims.Do(s, a)) && Next(Abs(s), Abs(Claims.Do(s, a)))
  {
    Claims.StepKeeps(s, a);
    var s', x := Claims.Do(s, a), s.handlers[a.h];
    assert Claims.HandlerInv(s, a.h) && Claims.RowInv(s, x.key);
    Claims.QuietStep(s, a);
    ActorRefines(s, s', a.h, s'.handlers[a.h], s.rows[x.key]);
  }

  lemma InsertRefines(s: Claims.State, key: Claims.Key, cmd: Cmd, expires: Option<int>)
    requires Claims.Inv(s) && Claims.Enabled(s, Claims.Insert(key, cmd, expires))
    ensures Claims.Inv(Claims.Do(s, Claims.Insert(key, cmd, expires)))
    ensures Next(Abs(s), Abs(Claims.Do(s, Claims.Insert(key, cmd, expires))))
  {
    var s' := Claims.Do(s, Claims.Insert(key, cmd, expires));
    Claims.EnvironmentKeeps(s, Claims.Insert(key, cmd, expires));
    var t, t' := Abs(s), Abs(s');
    forall k | k in s.rows ensures AbsRow(s', k) == AbsRow(s, k) { assert Claims.RowInv(s, k); }
    assert t'.rows == t.rows[key := Row(cmd, expires, Open)];
    InsertIsNext(t, t', key, cmd, expires);
  }

  lemma InsertIsNext(t: State, t': State, key: Claims.Key, cmd: Cmd, expires: Option<int>)
    requires key !in t.rows && t' == State(t.now, t.rows[key := Row(cmd, expires, Open)])
    ensures Next(t, t')
  {
  }

  lemma OutsideRefines(s: Claims.State, a: Claims.Action)
    requires Claims.Inv(s) && Claims.Enabled(s, a) && (a.Tick? || a.Spawn?)
    ensures Claims.Inv(Claims.Do(s, a)) && Next(Abs(s), Abs(Claims.Do(s, a)))
  {
    Claims.EnvironmentKeeps(s, a);
    var s' := Claims.Do(s, a);
    forall k | k in s.rows ensures AbsRow(s', k) == AbsRow(s, k) { assert Claims.RowInv(s, k); }
    SameImage(s, s');
  }

  lemma StepRefines(s: Claims.State, a: Claims.Action)
    requires Claims.Inv(s) && Claims.Enabled(s, a)
    ensures Claims.Inv(Claims.Do(s, a)) && Next(Abs(s), Abs(Claims.Do(s, a)))
  {
    if a.Insert? { InsertRefines(s, a.key, a.cmd, a.expires); }
    else if Claims.ActorOf(a).None? { OutsideRefines(s, a); }
    else if a.Perform? { PerformRefines(s, a.h, a.ok); }
    else if a.Serve? && a.serving.Apply? { ApplyRefines(s, a.h, a.serving.reply); }
    else { QuietRefines(s, a); }
  }

  /** The image of a row has its status and its call. */
  lemma ImageExact(s: Claims.State, k: Claims.Key)
    requires Claims.Inv(s) && k in s.rows
    ensures k in Abs(s).rows
    ensures var r, q := s.rows[k], Abs(s).rows[k];
            && q.cmd == r.cmd && q.expires == r.expires
            && (q.phase.Open? <==> r.status.Pending?)
            && (q.phase.Taken? || q.phase.Acted? <==> r.status.Claimed?)
            && (forall f :: q.phase.Closed? && q.phase.final == f <==> r.status == Claims.Finished(f))
            && (forall c :: q.phase == Acted(c) || (q.phase.Closed? && q.phase.made == Some(c)) <==>
                  r.calls != [] && r.calls[0].call == c)
  {
    assert Claims.RowInv(s, k);
    assert |s.rows[k].calls| == 0 <==> s.rows[k].calls == [];
  }

  /** The image of a run of the protocol. */
  ghost function AbsRun(run: seq<Claims.State>): (t: seq<State>)
    requires Claims.IsRun(run)
    ensures |t| == |run|
  {
    seq(|run|, i requires 0 <= i < |run| => (Claims.RunKeeps(run, i); Abs(run[i])))
  }

  /**
   Every concurrent run maps, state by state, to a run of the atomic
   specification with the same clock, rows, statuses and Proxmox calls.  The
   correspondence is spelled out: open is pending, taken or acted on is claimed,
   closed is finished with the same result, and the call is the one made.
   */
  lemma RunRefines(run: seq<Claims.State>)
    requires Claims.IsRun(run)
    ensures IsTrace(AbsRun(run))
    ensures forall i :: 0 <= i < |run| ==> Claims.Inv(run[i]) && AbsRun(run)[i] == Abs(run[i])
    ensures forall i :: 0 <= i < |run| ==>
              AbsRun(run)[i].now == run[i].now && AbsRun(run)[i].rows.Keys == run[i].rows.Keys
    ensures forall i, k :: 0 <= i < |run| && k in run[i].rows ==>
              var r, q := run[i].rows[k], AbsRun(run)[i].rows[k];
              && q.cmd == r.cmd && q.expires == r.expires
              && (q.phase.Open? <==> r.status.Pending?)
              && (q.phase.Taken? || q.phase.Acted? <==> r.status.Claimed?)
              && (forall f :: q.phase.Closed? && q.phase.final == f <==> r.status == Claims.Finished(f))
              && (forall c :: q.phase == Acted(c) || (q.phase.Closed? && q.phase.made == Some(c)) <==>
                    r.calls != [] && r.calls[0].call == c)
  {
    var t := AbsRun(run);
    forall i | 0 <= i < |run| ensures Claims.Inv(run[i]) && t[i] == Abs(run[i]) { Claims.RunKeeps(run, i); }
    forall i | 0 <= i < |t| - 1 ensures StepAt(t, i) {
      assert Claims.StepAt(run, i);
      var a :| Claims.Enabled(run[i], a) && run[i + 1] == Claims.Do(run[i], a);
      StepRefines(run[i], a);
    }
    assert t[0].rows == map[];
    forall i, k | 0 <= i < |run| && k in run[i].rows
      ensures
        var r, q := run[i].rows[k], t[i].rows[k];
        && q.cmd == r.cmd && q.expires == r.expires
        && (q.phase.Open? <==> r.status.Pending?)
        && (q.phase.Taken? || q.phase.Acted? <==> r.status.Claimed?)
        && (forall f :: q.phase.Closed? && q.phase.final == f <==> r.status == Claims.Finished(f))
        && (forall c :: q.phase == Acted(c) || (q.phase.Closed? && q.phase.made == Some(c)) <==>
              r.calls != [] && r.calls[0].call == c)
    {
      ImageExact(run[i], k);
    }
  }
}
