/**
 One agent's subscription wired to its command handlers: reconnects, the join
 and the catch-up query after it (`internal/supabase/realtime.go`,
 `internal/runtime/runtime.go`), the pipeline of `Pipeline`, and the handlers of
 `Claims` that every delivered or caught-up row gets.

 The table and cluster are fixed; `mine` holds the ids of their rows.  Rows of
 other tables and clusters, and the handlers of other agents, act through
 `Protocol` steps at any time.
 */
module Subscription {
  import opened Common
  import opened Routing
  import opened Pipeline
  import Page
  import Claims

  const LIMIT: nat := 200

  /** The catch-up of the current connection: not answered yet, failed, or answered with this many rows. */
  datatype CatchUp = Asked | QueryFailed | Caught(rows: nat)

  /**
   `socket` holds frames sent and not yet read; `since` the ids inserted since
   the join, and `own` the handlers this agent has started since then.
   */
  datatype Conn = Closed | Joined(socket: seq<Frame>, catchUp: CatchUp, since: set<int>, own: set<Claims.HandlerId>)

  function Own(c: Conn): set<Claims.HandlerId> { if c.Joined? then c.own else {} }

  function Started(c: Conn, h: Claims.HandlerId): Conn { if c.Joined? then c.(own := c.own + {h}) else c }

  /** `handing` are caught-up rows whose handler is not started yet. */
  datatype State = State(proto: Claims.State, isRead: bool, mine: set<int>, conn: Conn, pipe: Pipe, handing: seq<int>)

  datatype Action =
    | Protocol(step: Claims.Action)
    | InsertMine(id: int, cmd: Cmd, expires: Option<int>, decodable: bool)
    | Send(frame: Frame)                        // any other frame from the server, repeats included
    | Join
    | Disconnect
    | ServeCatchUp(current: bool, ok: bool)     // the query is served, for this connection or an earlier one
    | HandOver(h: Claims.HandlerId, hasKey: bool)
    | ReadSocket
    | DeliverTo(h: Claims.HandlerId, hasKey: bool)
    | ReaderEnds
    | Internal(move: Move)

  function KeyOf(isRead: bool, id: int): Claims.Key { Claims.Key(isRead, id) }

  predicate IsPending(proto: Claims.State, k: Claims.Key) { k in proto.rows && proto.rows[k].status.Pending? }

  function Pending(s: State): set<int> { set id | id in s.mine && IsPending(s.proto, KeyOf(s.isRead, id)) }

  function SpawnFor(s: State, h: Claims.HandlerId, id: int, hasKey: bool): Claims.Action {
    Claims.Spawn(h, KeyOf(s.isRead, id), hasKey)
  }

  predicate Enabled(s: State, a: Action) {
    match a
    case Protocol(b) => Claims.Enabled(s.proto, b)
    case InsertMine(id, cmd, expires, _) => Claims.Enabled(s.proto, Claims.Insert(KeyOf(s.isRead, id), cmd, expires))
    case Send(frame) => s.conn.Joined? && (RecordOf(frame).Some? ==> RecordOf(frame).value.id in s.mine)
    case Join => s.conn.Closed? && !s.pipe.cancelled
    case Disconnect => s.conn.Joined?
    case ServeCatchUp(current, _) => current ==> s.conn.Joined? && s.conn.catchUp.Asked?
    case HandOver(h, hasKey) => s.handing != [] && Claims.Enabled(s.proto, SpawnFor(s, h, s.handing[0], hasKey))
    case ReadSocket => s.conn.Joined? && s.conn.socket != [] && CanMove(s.pipe, ReadFrame(s.conn.socket[0]))
    case DeliverTo(h, hasKey) =>
      CanMove(s.pipe, Deliver) && Claims.Enabled(s.proto, SpawnFor(s, h, s.pipe.out[0].id, hasKey))
    case ReaderEnds => CanMove(s.pipe, ReaderQuits)
    case Internal(m) => !m.ReadFrame? && !m.Deliver? && !m.ReaderQuits? && CanMove(s.pipe, m)
  }

  ghost function Do(s: State, a: Action): State
    requires Enabled(s, a)
  {
    match a
    case Protocol(b) => s.(proto := Claims.Do(s.proto, b))
    case InsertMine(id, cmd, expires, decodable) =>
      var frame := Frame("", "postgres_changes", Change("INSERT", Record(id, decodable)));
      s.(proto := Claims.Do(s.proto, Claims.Insert(KeyOf(s.isRead, id), cmd, expires)),
         mine := s.mine + {id},
         conn := if !s.conn.Joined? then s.conn
                 else s.conn.(socket := s.conn.socket + [frame], since := s.conn.since + {id}))
    case Send(frame) => s.(conn := s.conn.(socket := s.conn.socket + [frame]))
    case Join => s.(conn := Joined([], Asked, {}, {}))
    case Disconnect => s.(conn := Closed)
    case ServeCatchUp(current, ok) =>
      var page := if ok then Page.Lowest(Pending(s), LIMIT) else [];
      s.(handing := s.handing + page,
         conn := if current then s.conn.(catchUp := if ok then Caught(|page|) else QueryFailed) else s.conn)
    case HandOver(h, hasKey) =>
      s.(proto := Claims.Do(s.proto, SpawnFor(s, h, s.handing[0], hasKey)), handing := s.handing[1..],
         conn := Started(s.conn, h))
    case ReadSocket =>
      s.(conn := s.conn.(socket := s.conn.socket[1..]), pipe := Moved(s.pipe, ReadFrame(s.conn.socket[0])))
    case DeliverTo(h, hasKey) =>
      s.(proto := Claims.Do(s.proto, SpawnFor(s, h, s.pipe.out[0].id, hasKey)), pipe := Moved(s.pipe, Deliver),
         conn := Started(s.conn, h))
    case ReaderEnds => s.(conn := Closed, pipe := Moved(s.pipe, ReaderQuits))
    case Internal(m) => s.(pipe := Moved(s.pipe, m))
  }

  ghost predicate Next(s: State, s': State) { exists a :: Enabled(s, a) && s' == Do(s, a) }

  predicate Init(s: State) {
    Claims.Init(s.proto) && s.mine == {} && s.conn.Closed? && s.pipe == EMPTY && s.handing == []
  }

  ghost predicate StepAt(run: seq<State>, i: nat)
    requires i + 1 < |run|
  {
    Next(run[i], run[i + 1])
  }

  ghost predicate IsRun(run: seq<State>) {
    run != [] && Init(run[0]) && forall i :: 0 <= i < |run| - 1 ==> StepAt(run, i)
  }

  // ----- the protocol and the pipeline underneath -----

  /** The protocol step a system step takes, if any. */
  function ProtoStep(s: State, a: Action): Option<Claims.Action>
    requires Enabled(s, a)
  {
    match a
    case Protocol(b) => Some(b)
    case InsertMine(id, cmd, expires, _) => Some(Claims.Insert(KeyOf(s.isRead, id), cmd, expires))
    case HandOver(h, hasKey) => Some(SpawnFor(s, h, s.handing[0], hasKey))
    case DeliverTo(h, hasKey) => Some(SpawnFor(s, h, s.pipe.out[0].id, hasKey))
    case _ => None
  }

  /** Every system step is a step of the protocol or leaves it alone, and a move of the pipeline or leaves it alone. */
  lemma StepProjects(s: State, a: Action)
    requires Enabled(s, a)
    ensures match ProtoStep(s, a)
            case None => Do(s, a).proto == s.proto
            case Some(b) => Claims.Enabled(s.proto, b) && Do(s, a).proto == Claims.Do(s.proto, b)
    ensures Do(s, a).pipe == s.pipe || exists m :: CanMove(s.pipe, m) && Do(s, a).pipe == Moved(s.pipe, m)
    ensures Do(s, a).isRead == s.isRead && s.mine <= Do(s, a).mine
  {
    match a {
      case ReadSocket => assert CanMove(s.pipe, ReadFrame(s.conn.socket[0]));
      case DeliverTo(_, _) => assert CanMove(s.pipe, Deliver);
      case ReaderEnds => assert CanMove(s.pipe, ReaderQuits);
      case Internal(m) => assert CanMove(s.pipe, m);
      case _ =>
    }
  }

  // ----- coverage -----

  predicate HasRecord(records: seq<Record>, id: int) { exists i :: 0 <= i < |records| && records[i].id == id }

  predicate InSocket(conn: Conn, id: int) {
    && conn.Joined?
    && exists i ::
         0 <= i < |conn.socket| && RecordOf(conn.socket[i]).Some? && RecordOf(conn.socket[i]).value.id == id
  }

  predicate InPipe(p: Pipe, id: int) {
    || (p.held.Some? && p.held.value.id == id)
    || (p.decoding.Some? && p.decoding.value.id == id)
    || HasRecord(p.raw, id) || HasRecord(p.out, id)
  }

  /** One of these handlers has the row and has not returned. */
  predicate HandlerBusy(proto: Claims.State, own: set<Claims.HandlerId>, k: Claims.Key) {
    exists h :: h in own && h in proto.handlers && proto.handlers[h].key == k && !proto.handlers[h].pc.Returned?
  }

  /** One of these handlers has the row and met a crash or a store error. */
  predicate HandlerFaulty(proto: Claims.State, own: set<Claims.HandlerId>, k: Claims.Key) {
    exists h :: h in own && h in proto.handlers && proto.handlers[h].key == k && proto.handlers[h].faulty
  }

  /** A record of the row failed to decode. */
  predicate Undecodable(p: Pipe, id: int) {
    exists i :: 0 <= i < |p.taken| && p.taken[i].id == id && !p.taken[i].decodable
  }

  /** A handler that this agent started for the row since the join met a crash or a store error. */
  predicate Faulted(s: State, id: int) { HandlerFaulty(s.proto, Own(s.conn), KeyOf(s.isRead, id)) }

  /** The row is caught up and about to get a handler, or has one, started since the join, at work. */
  predicate Attended(s: State, id: int) { id in s.handing || HandlerBusy(s.proto, Own(s.conn), KeyOf(s.isRead, id)) }

  /** A row that was there at the join. */
  predicate OldCovered(s: State, id: int) {
    IsPending(s.proto, KeyOf(s.isRead, id)) ==> Faulted(s, id) || Attended(s, id)
  }

  /** A row inserted since the join. */
  predicate NewCovered(s: State, id: int) {
    IsPending(s.proto, KeyOf(s.isRead, id)) ==>
      Faulted(s, id) || Undecodable(s.pipe, id) || InSocket(s.conn, id) || InPipe(s.pipe, id) || Attended(s, id)
  }

  /** The catch-up of the current connection succeeded with a page that was not full. */
  predicate CaughtUp(s: State) { s.conn.Joined? && s.conn.catchUp.Caught? && s.conn.catchUp.rows < LIMIT }

  ghost predicate Inv(s: State) {
    && Claims.Inv(s.proto)
    && (forall id :: id in s.mine ==> KeyOf(s.isRead, id) in s.proto.rows)
    && (s.conn.Joined? ==> s.conn.since <= s.mine)
    && (s.conn.Joined? && !s.pipe.cancelled ==> forall id :: id in s.conn.since ==> NewCovered(s, id))
    && (CaughtUp(s) && !s.pipe.cancelled ==> forall id :: id in s.mine && id !in s.conn.since ==> OldCovered(s, id))
  }

  /** A protocol step keeps a row's handler at work, or marks a fault, or takes the row out of pending. */
  lemma ProtoCovers(t: Claims.State, b: Claims.Action, own: set<Claims.HandlerId>, k: Claims.Key)
    requires Claims.Inv(t) && Claims.Enabled(t, b) && k in t.rows
    requires IsPending(t, k) ==> HandlerFaulty(t, own, k) || HandlerBusy(t, own, k)
    ensures var t' := Claims.Do(t, b);
            IsPending(t', k) ==> HandlerFaulty(t', own, k) || HandlerBusy(t', own, k)
  {
    var t' := Claims.Do(t, b);
    Claims.StepKeeps(t, b);
    Claims.StepGrows(t, b, k);
    if IsPending(t', k) {
      assert Claims.RowInv(t, k) && Claims.RowInv(t', k);
      assert t.rows[k].owner.None?;
      var h :| h in own && h in t.handlers && t.handlers[h].key == k &&
          (t.handlers[h].faulty || !t.handlers[h].pc.Returned?);
      HandlerStays(t, b, h);
      assert Claims.HandlerInv(t', h);
    }
  }

  lemma HandlerStays(t: Claims.State, b: Claims.Action, h: Claims.HandlerId)
    requires Claims.Enabled(t, b) && h in t.handlers
    ensures h in Claims.Do(t, b).handlers && Claims.Do(t, b).handlers[h].key == t.handlers[h].key
    ensures t.handlers[h].faulty ==> Claims.Do(t, b).handlers[h].faulty
  {
  }

  lemma FaultStays(t: Claims.State, b: Claims.Action, own: set<Claims.HandlerId>, k: Claims.Key)
    requires Claims.Enabled(t, b) && HandlerFaulty(t, own, k)
    ensures HandlerFaulty(Claims.Do(t, b), own, k)
  {
    var h :| h in own && h in t.handlers && t.handlers[h].key == k && t.handlers[h].faulty;
    HandlerStays(t, b, h);
  }

  /** A new handler is at work. */
  lemma SpawnBusy(t: Claims.State, h: Claims.HandlerId, own: set<Claims.HandlerId>, k: Claims.Key, hasKey: bool)
    requires Claims.Enabled(t, Claims.Spawn(h, k, hasKey)) && h in own
    ensures HandlerBusy(Claims.Do(t, Claims.Spawn(h, k, hasKey)), own, k)
  {
    var t' := Claims.Do(t, Claims.Spawn(h, k, hasKey));
    assert h in t'.handlers && t'.handlers[h].key == k && !t'.handlers[h].pc.Returned?;
  }

  /** A move of the pipeline keeps a record in it, delivers it, or finds it undecodable. */
  lemma MoveCovers(p: Pipe, m: Move, id: int)
    requires CanMove(p, m) && !p.cancelled && InPipe(p, id)
    ensures var p' := Moved(p, m);
            InPipe(p', id) || Undecodable(p', id) || (m.Deliver? && p.out[0].id == id) || m.DecoderQuits?
  {
    var p' := Moved(p, m);
    if m.PushRaw? && p.held.value.id == id {
      assert p'.raw[|p.raw|].id == id;
    } else if m.PushOut? && p.decoding.value.id == id {
      assert p'.out[|p.out|].id == id;
    } else if HasRecord(p.raw, id) {
      var i :| 0 <= i < |p.raw| && p.raw[i].id == id;
      if m.TakeRaw? {
        if i == 0 { assert p'.taken[|p.taken|] == p.raw[0]; } else { assert p'.raw[i - 1].id == id; }
      } else {
        assert p'.raw[i].id == id;
      }
    } else if HasRecord(p.out, id) {
      var i :| 0 <= i < |p.out| && p.out[i].id == id;
      if m.Deliver? {
        if i > 0 { assert p'.out[i - 1].id == id; }
      } else {
        assert p'.out[i].id == id;
      }
    }
  }

  lemma UndecodableStays(p: Pipe, m: Move, id: int)
    requires CanMove(p, m) && Undecodable(p, id)
    ensures Undecodable(Moved(p, m), id)
  {
    var i :| 0 <= i < |p.taken| && p.taken[i].id == id && !p.taken[i].decodable;
    assert Moved(p, m).taken[i] == p.taken[i];
  }

  /** The pipeline move a system step takes, if any. */
  function PipeMove(s: State, a: Action): Option<Move>
    requires Enabled(s, a)
  {
    match a
    case ReadSocket => Some(ReadFrame(s.conn.socket[0]))
    case DeliverTo(_, _) => Some(Deliver)
    case ReaderEnds => Some(ReaderQuits)
    case Internal(m) => Some(m)
    case _ => None
  }

  lemma PipeMoves(s: State, a: Action)
    requires Enabled(s, a)
    ensures match PipeMove(s, a)
            case None => Do(s, a).pipe == s.pipe
            case Some(m) => CanMove(s.pipe, m) && Do(s, a).pipe == Moved(s.pipe, m)
  {
  }

  /**
   While the connection lasts, the handlers started since the join stay what
   they are: at work, faulty, or done with the row.
   */
  lemma ProtoPart(s: State, a: Action, id: int)
    requires Claims.Inv(s.proto) && Enabled(s, a) && KeyOf(s.isRead, id) in s.proto.rows && Lasts(s, a)
    ensures var k := KeyOf(s.isRead, id);
            var s' := Do(s, a);
            && (IsPending(s'.proto, k) ==> IsPending(s.proto, k))
            && (IsPending(s'.proto, k) && HandlerBusy(s.proto, Own(s.conn), k) ==> Faulted(s', id) || Attended(s', id))
            && (Faulted(s, id) ==> Faulted(s', id))
  {
    StepProjects(s, a);
    var k, own := KeyOf(s.isRead, id), Own(s.conn);
    assert own <= Own(Do(s, a).conn);
    match ProtoStep(s, a)
    case None =>
    case Some(b) =>
      Claims.StepGrows(s.proto, b, k);
      assert Claims.RowInv(s.proto, k);
      Claims.StepKeeps(s.proto, b);
      assert Claims.RowInv(Claims.Do(s.proto, b), k);
      if Faulted(s, id) { FaultStays(s.proto, b, own, k); }
      if HandlerBusy(s.proto, own, k) { ProtoCovers(s.proto, b, own, k); }
  }

  /** The connection is joined and this step does not end it. */
  predicate Lasts(s: State, a: Action) { s.conn.Joined? && !a.Disconnect? && !a.ReaderEnds? }

  lemma SocketPart(s: State, a: Action, id: int)
    requires Enabled(s, a) && InSocket(s.conn, id) && !a.Disconnect? && !s.pipe.cancelled
    ensures InSocket(Do(s, a).conn, id) || InPipe(Do(s, a).pipe, id)
  {
    var q := s.conn.socket;
    var i :| 0 <= i < |q| && RecordOf(q[i]).Some? && RecordOf(q[i]).value.id == id;
    var c' := Do(s, a).conn;
    if a.ReadSocket? {
      if i > 0 { assert c'.socket[i - 1] == q[i]; }
    } else {
      assert c'.Joined? && c'.socket[i] == q[i];
    }
  }

  lemma PipePart(s: State, a: Action, id: int)
    requires Enabled(s, a) && InPipe(s.pipe, id) && !s.pipe.cancelled && Lasts(s, a)
    ensures InPipe(Do(s, a).pipe, id) || Undecodable(Do(s, a).pipe, id) || Attended(Do(s, a), id)
  {
    PipeMoves(s, a);
    if PipeMove(s, a).Some? {
      MoveCovers(s.pipe, PipeMove(s, a).value, id);
      if a.DeliverTo? && s.pipe.out[0].id == id {
        SpawnBusy(s.proto, a.h, Own(Do(s, a).conn), KeyOf(s.isRead, id), a.hasKey);
      }
    }
  }

  lemma HandingPart(s: State, a: Action, id: int)
    requires Enabled(s, a) && id in s.handing && Lasts(s, a)
    ensures Attended(Do(s, a), id)
  {
    if a.HandOver? {
      if s.handing[0] == id { SpawnBusy(s.proto, a.h, Own(Do(s, a).conn), KeyOf(s.isRead, id), a.hasKey); }
      else { assert s.handing == [s.handing[0]] + s.handing[1..]; }
    }
  }

  /** While the connection lasts, a row that was there at the join and is covered stays covered. */
  lemma OldStays(s: State, a: Action, id: int)
    requires Claims.Inv(s.proto) && Enabled(s, a) && KeyOf(s.isRead, id) in s.proto.rows
    requires Lasts(s, a) && OldCovered(s, id)
    ensures OldCovered(Do(s, a), id)
  {
    ProtoPart(s, a, id);
    StepProjects(s, a);
    if id in s.handing { HandingPart(s, a, id); }
  }

  /** And so does a row inserted since. */
  lemma NewStays(s: State, a: Action, id: int)
    requires Claims.Inv(s.proto) && Enabled(s, a) && KeyOf(s.isRead, id) in s.proto.rows
    requires Lasts(s, a) && !s.pipe.cancelled && NewCovered(s, id)
    ensures NewCovered(Do(s, a), id)
  {
    ProtoPart(s, a, id);
    StepProjects(s, a);
    PipeMoves(s, a);
    if IsPending(Do(s, a).proto, KeyOf(s.isRead, id)) {
      if Undecodable(s.pipe, id) {
        if PipeMove(s, a).Some? { UndecodableStays(s.pipe, PipeMove(s, a).value, id); }
      } else if InSocket(s.conn, id) {
        SocketPart(s, a, id);
      } else if InPipe(s.pipe, id) {
        PipePart(s, a, id);
      } else if id in s.handing {
        HandingPart(s, a, id);
      }
    }
  }

  /** A row inserted while joined is on the socket. */
  lemma InsertCovers(s: State, a: Action)
    requires Enabled(s, a) && a.InsertMine? && s.conn.Joined?
    ensures NewCovered(Do(s, a), a.id)
  {
    var c' := Do(s, a).conn;
    assert RecordOf(c'.socket[|s.conn.socket|]).value.id == a.id;
  }

  /** A successful catch-up with a page that is not full hands over every pending row. */
  lemma CatchUpCovers(s: State, a: Action, id: int)
    requires Enabled(s, a) && a == ServeCatchUp(true, true) && CaughtUp(Do(s, a)) && id in s.mine
    ensures OldCovered(Do(s, a), id)
  {
    var page := Page.Lowest(Pending(s), LIMIT);
    Page.LowestIsPage(Pending(s), LIMIT);
    if IsPending(s.proto, KeyOf(s.isRead, id)) {
      Page.ShortPageIsAll(Pending(s), LIMIT);
      assert id in Pending(s);
      assert Do(s, a).conn.catchUp.rows == |page| < LIMIT;
      assert id in Page.ToSet(page);
      assert id in page && id in Do(s, a).handing;
    }
  }

  lemma StepKeeps(s: State, a: Action)
    requires Inv(s) && Enabled(s, a)
    ensures Inv(Do(s, a))
  {
    StepProjects(s, a);
    PipeMoves(s, a);
    var s' := Do(s, a);
    if ProtoStep(s, a).Some? { Claims.StepKeeps(s.proto, ProtoStep(s, a).value); }
    forall id | id in s'.mine ensures KeyOf(s.isRead, id) in s'.proto.rows {
      if id in s.mine && ProtoStep(s, a).Some? {
        Claims.StepGrows(s.proto, ProtoStep(s, a).value, KeyOf(s.isRead, id));
      }
    }
    if s'.conn.Joined? && !s'.pipe.cancelled && !a.Join? {
      forall id | id in s'.conn.since ensures NewCovered(s', id) { SinceCovered(s, a, id); }
      if CaughtUp(s') {
        forall id | id in s'.mine && id !in s'.conn.since ensures OldCovered(s', id) { MineCovered(s, a, id); }
      }
    }
  }

  lemma SinceCovered(s: State, a: Action, id: int)
    requires Inv(s) && Enabled(s, a) && Do(s, a).conn.Joined? && !Do(s, a).pipe.cancelled && !a.Join?
    requires id in Do(s, a).conn.since
    ensures NewCovered(Do(s, a), id)
  {
    PipeMoves(s, a);
    if id in s.conn.since { NewStays(s, a, id); } else { InsertCovers(s, a); }
  }

  lemma MineCovered(s: State, a: Action, id: int)
    requires Inv(s) && Enabled(s, a) && CaughtUp(Do(s, a)) && !Do(s, a).pipe.cancelled && !a.Join?
    requires id in Do(s, a).mine && id !in Do(s, a).conn.since
    ensures OldCovered(Do(s, a), id)
  {
    PipeMoves(s, a);
    if CaughtUp(s) { OldStays(s, a, id); } else { CatchUpCovers(s, a, id); }
  }

  lemma {:induction false} RunKeeps(run: seq<State>, i: nat)
    requires IsRun(run) && i < |run|
    ensures Inv(run[i])
  {
    if i > 0 {
      RunKeeps(run, i - 1);
      assert StepAt(run, i - 1);
      var a :| Enabled(run[i - 1], a) && run[i] == Do(run[i - 1], a);
      StepKeeps(run[i - 1], a);
    }
  }

  /** The words of the two theorems below, spelled out. */
  lemma WhereItIs(s: State, id: int)
    requires s.conn.Joined?
    ensures id in Pending(s) <==>
              && id in s.mine && Claims.Key(s.isRead, id) in s.proto.rows
              && s.proto.rows[Claims.Key(s.isRead, id)].status == Claims.Pending
    ensures Faulted(s, id) <==>
              exists h :: && h in s.conn.own && h in s.proto.handlers
                          && s.proto.handlers[h].key == Claims.Key(s.isRead, id) && s.proto.handlers[h].faulty
    ensures Attended(s, id) <==>
              || id in s.handing
              || exists h :: && h in s.conn.own && h in s.proto.handlers
                             && s.proto.handlers[h].key == Claims.Key(s.isRead, id) && !s.proto.handlers[h].pc.Returned?
    ensures InSocket(s.conn, id) <==>
              exists f :: f in s.conn.socket && RecordOf(f).Some? && RecordOf(f).value.id == id
    ensures InPipe(s.pipe, id) <==>
              || (exists r: Record :: r in s.pipe.raw && r.id == id)
              || (exists r: Record :: r in s.pipe.out && r.id == id)
              || (s.pipe.held.Some? && s.pipe.held.value.id == id)
              || (s.pipe.decoding.Some? && s.pipe.decoding.value.id == id)
    ensures Undecodable(s.pipe, id) <==> exists r: Record :: r in s.pipe.taken && r.id == id && !r.decodable
  {
    assert HasRecord(s.pipe.raw, id) <==> exists r: Record :: r in s.pipe.raw && r.id == id;
    assert HasRecord(s.pipe.out, id) <==> exists r: Record :: r in s.pipe.out && r.id == id;
  }

  /**
   No row is missed: in every reachable state of an agent that is not stopping,
   if the connection is joined and its catch-up succeeded with fewer than 200
   rows, every pending row of the cluster is attended, unless a handler that
   this agent started for it since the join met a fault.  A row inserted since
   the join may also be on the socket or in the pipeline, or have a record that
   failed to decode.  Nothing that went wrong before the join matters.
   */
  lemma NoRowIsMissed(run: seq<State>, i: nat, id: int)
    requires IsRun(run) && i < |run|
    requires run[i].conn.Joined? && run[i].conn.catchUp.Caught? && run[i].conn.catchUp.rows < 200
    requires !run[i].pipe.cancelled && id in Pending(run[i])
    ensures var s := run[i];
            || Faulted(s, id) || Attended(s, id)
            || (id in s.conn.since && (InSocket(s.conn, id) || InPipe(s.pipe, id) || Undecodable(s.pipe, id)))
  {
    RunKeeps(run, i);
  }

  /** Whatever the catch-up does, a row inserted since the join is not missed either. */
  lemma NoNewRowIsMissed(run: seq<State>, i: nat, id: int)
    requires IsRun(run) && i < |run|
    requires run[i].conn.Joined? && !run[i].pipe.cancelled && id in run[i].conn.since && id in Pending(run[i])
    ensures var s := run[i];
            || Faulted(s, id) || Undecodable(s.pipe, id)
            || InSocket(s.conn, id) || InPipe(s.pipe, id) || Attended(s, id)
  {
    RunKeeps(run, i);
  }

  /**
   With stream and catch-up delivering the same rows any number of times, a row
   still has at most one Proxmox call.
   */
  lemma AtMostOneCall(run: seq<State>, i: nat, k: Claims.Key)
    requires IsRun(run) && i < |run| && k in run[i].proto.rows
    ensures |run[i].proto.rows[k].calls| <= 1
  {
    RunKeeps(run, i);
    Claims.CallsOf(run[i].proto, k);
  }
}
