/**
 The in-process half of a Realtime subscription (`internal/supabase/realtime.go`):
 the read loop's filter, the two 16-slot channels, the decoding goroutine, and
 how all of them end when the context is cancelled.
 */
module Pipeline {
  import opened Common

  // ----- frames -----

  /** The text of a row in a frame; `decodable` tells whether it decodes into a command. */
  datatype Record = Record(id: int, decodable: bool)

  datatype Payload = Unparsable | Change(kind: string, record: Record)

  datatype Frame = Garbage | Frame(topic: string, event: string, payload: Payload)

  predicate IsAck(f: Frame) { f.Frame? && f.event == "phx_reply" && f.topic == "phoenix" }

  /** The record a frame carries, if it is a postgres_changes frame of an INSERT. */
  function RecordOf(f: Frame): Option<Record> {
    if f.Frame? && f.event == "postgres_changes" && f.payload.Change? && f.payload.kind == "INSERT"
    then Some(f.payload.record) else None
  }

  /** The records of the INSERT frames, in order. */
  function Inserts(frames: seq<Frame>): seq<Record> {
    if frames == [] then []
    else
      var n := |frames| - 1;
      Inserts(frames[..n]) + Opt(RecordOf(frames[n]))
  }

  function Acks(frames: seq<Frame>): nat {
    if frames == [] then 0 else Acks(frames[..|frames| - 1]) + (if IsAck(frames[|frames| - 1]) then 1 else 0)
  }

  function Opt<T>(x: Option<T>): seq<T> { if x.None? then [] else [x.value] }

  /** The records that decode, in order. */
  function Good(records: seq<Record>): seq<Record> {
    if records == [] then []
    else
      var n := |records| - 1;
      Good(records[..n]) + (if records[n].decodable then [records[n]] else [])
  }

  /** `at` lists the members of a set of numbers in ascending order. */
  ghost predicate Lists(at: seq<nat>, members: set<nat>) {
    && (forall i, j :: 0 <= i < j < |at| ==> at[i] < at[j])
    && (forall n: nat :: n in at <==> n in members)
  }

  lemma ListsMore(at: seq<nat>, members: set<nat>, n: nat)
    requires Lists(at, members) && forall m :: m in members ==> m < n
    ensures Lists(at + [n], members + {n})
  {
    forall i | 0 <= i < |at| ensures at[i] < n { assert at[i] in at; }
  }

  /** The numbers of the INSERT frames among the first n. */
  function InsertFrames(frames: seq<Frame>, n: nat): set<nat>
    requires n <= |frames|
  {
    set i: nat |
      && i < n && frames[i].Frame? && frames[i].event == "postgres_changes"
      && frames[i].payload.Change? && frames[i].payload.kind == "INSERT"
  }

  /** `sent` are the records of the INSERT frames among the first n, in their order. */
  ghost predicate Selects(frames: seq<Frame>, n: nat, at: seq<nat>, sent: seq<Record>)
    requires n <= |frames|
  {
    && Lists(at, InsertFrames(frames, n)) && |at| == |sent|
    && forall j :: 0 <= j < |at| ==>
         at[j] < n && frames[at[j]].Frame? && frames[at[j]].payload.Change? && frames[at[j]].payload.record == sent[j]
  }

  lemma {:induction false} InsertsExact(frames: seq<Frame>, n: nat) returns (at: seq<nat>)
    requires n <= |frames|
    ensures Selects(frames, n, at, Inserts(frames[..n]))
  {
    at := [];
    if n > 0 {
      var front := InsertsExact(frames, n - 1);
      assert frames[..n][..n - 1] == frames[..n - 1];
      var members := InsertFrames(frames, n - 1);
      if RecordOf(frames[n - 1]).Some? {
        ListsMore(front, members, n - 1);
        assert InsertFrames(frames, n) == members + {n - 1};
        at := front + [n - 1];
      } else {
        assert InsertFrames(frames, n) == members;
        at := front;
      }
    }
  }

  /** The heartbeat acknowledgements among the first n frames. */
  function AckFrames(frames: seq<Frame>, n: nat): set<nat>
    requires n <= |frames|
  {
    set i: nat | i < n && frames[i].Frame? && frames[i].event == "phx_reply" && frames[i].topic == "phoenix"
  }

  lemma {:induction false} AcksExact(frames: seq<Frame>, n: nat)
    requires n <= |frames|
    ensures Acks(frames[..n]) == |AckFrames(frames, n)|
  {
    if n > 0 {
      AcksExact(frames, n - 1);
      assert frames[..n][..n - 1] == frames[..n - 1];
      var before := AckFrames(frames, n - 1);
      assert AckFrames(frames, n) == if IsAck(frames[n - 1]) then before + {n - 1} else before;
    } else {
      assert AckFrames(frames, 0) == {};
    }
  }

  /**
   The read loop's filter over the frames that arrive before the read that
   fails: it forwards exactly the records of the INSERT frames, in order, and
   counts exactly the replies on the heartbeat topic.
   */
  method ReadLoop(frames: seq<Frame>) returns (sent: seq<Record>, acked: nat)
    ensures sent == Inserts(frames)
    ensures acked == Acks(frames)
    ensures exists at :: Selects(frames, |frames|, at, sent)
    ensures acked == |set i: nat |
                        && i < |frames| && frames[i].Frame?
                        && frames[i].event == "phx_reply" && frames[i].topic == "phoenix"|
  {
    sent, acked := [], 0;
    for i := 0 to |frames|
      invariant sent == Inserts(frames[..i]) && acked == Acks(frames[..i])
    {
      var raw := frames[i];
      assert frames[..i + 1][..i] == frames[..i];
      if raw.Garbage? {
        continue;
      }
      if raw.event == "phx_reply" && raw.topic == "phoenix" {
        acked := acked + 1;
        continue;
      }
      if raw.event != "postgres_changes" {
        continue;
      }
      if raw.payload.Unparsable? {
        continue;
      }
      if raw.payload.kind != "INSERT" {
        continue;
      }
      sent := sent + [raw.payload.record];
    }
    assert frames[..|frames|] == frames;
    AcksExact(frames, |frames|);
    ghost var at := InsertsExact(frames, |frames|);
  }

  // ----- the pipeline -----

  const CAPACITY: nat := 16

  /**
   `held` is a record the read loop is sending into `raw`, `decoding` a command
   the decoder is sending into `out`.  `frames`, `taken` and `delivered` record
   all frames read, all records taken by the decoder and all commands delivered,
   across reconnects.
   */
  datatype Pipe = Pipe(
    held: Option<Record>, raw: seq<Record>, decoding: Option<Record>, out: seq<Record>,
    cancelled: bool, readerDone: bool, decoderDone: bool, consumerDone: bool,
    frames: seq<Frame>, taken: seq<Record>, delivered: seq<Record>)

  datatype Move =
    | ReadFrame(frame: Frame)
    | PushRaw
    | TakeRaw
    | PushOut
    | Deliver
    | Cancel
    | ReaderQuits       // runSubscription returns and closes raw
    | DecoderQuits      // the decoder returns and closes out
    | ConsumerQuits     // the dispatch loop ends because out is closed and drained

  /** With a cancelled context a read fails, and a goroutine that waits to send may give up. */
  predicate CanMove(p: Pipe, m: Move) {
    match m
    case ReadFrame(_) => p.held.None? && !p.cancelled && !p.readerDone
    case PushRaw => p.held.Some? && |p.raw| < CAPACITY && !p.readerDone
    case TakeRaw => p.raw != [] && p.decoding.None? && !p.decoderDone
    case PushOut => p.decoding.Some? && |p.out| < CAPACITY && !p.decoderDone
    case Deliver => p.out != [] && !p.consumerDone
    case Cancel => !p.cancelled
    case ReaderQuits => p.cancelled && !p.readerDone
    case DecoderQuits =>
      && !p.decoderDone
      && ((p.cancelled && p.decoding.Some?) || (p.readerDone && p.raw == [] && p.decoding.None?))
    case ConsumerQuits => !p.consumerDone && p.decoderDone && p.out == []
  }

  function Moved(p: Pipe, m: Move): Pipe
    requires CanMove(p, m)
  {
    match m
    case ReadFrame(f) => p.(frames := p.frames + [f], held := RecordOf(f))
    case PushRaw => p.(raw := p.raw + [p.held.value], held := None)
    case TakeRaw =>
      var r := p.raw[0];
      p.(raw := p.raw[1..], taken := p.taken + [r], decoding := if r.decodable then Some(r) else None)
    case PushOut => p.(out := p.out + [p.decoding.value], decoding := None)
    case Deliver => p.(out := p.out[1..], delivered := p.delivered + [p.out[0]])
    case Cancel => p.(cancelled := true)
    case ReaderQuits => p.(readerDone := true, held := None)
    case DecoderQuits => p.(decoderDone := true, decoding := None)
    case ConsumerQuits => p.(consumerDone := true)
  }

  const EMPTY: Pipe := Pipe(None, [], None, [], false, false, false, false, [], [], [])

  /** The pipe after a sequence of moves. */
  function Run(p: Pipe, moves: seq<Move>): Option<Pipe>
    decreases |moves|
  {
    if moves == [] then Some(p)
    else if !CanMove(p, moves[0]) then None
    else Run(Moved(p, moves[0]), moves[1..])
  }

  // ----- order and conservation -----

  /** Until cancellation nothing is lost, duplicated or reordered; the channels always keep to their size. */
  predicate Conserved(p: Pipe) {
    && |p.raw| <= CAPACITY && |p.out| <= CAPACITY
    && (!p.cancelled ==>
          && !p.readerDone && !p.decoderDone && !p.consumerDone
          && Inserts(p.frames) == p.taken + p.raw + Opt(p.held)
          && Good(p.taken) == p.delivered + p.out + Opt(p.decoding))
  }

  lemma GoodStep(records: seq<Record>, r: Record)
    ensures Good(records + [r]) == Good(records) + (if r.decodable then [r] else [])
  {
    assert (records + [r])[..|records|] == records;
  }

  lemma InsertsStep(frames: seq<Frame>, f: Frame)
    ensures Inserts(frames + [f]) == Inserts(frames) + Opt(RecordOf(f))
  {
    assert (frames + [f])[..|frames|] == frames;
  }

  lemma TakeConserves(p: Pipe)
    requires Conserved(p) && CanMove(p, TakeRaw) && !p.cancelled
    ensures Conserved(Moved(p, TakeRaw))
  {
    GoodStep(p.taken, p.raw[0]);
    assert p.taken + p.raw == p.taken + [p.raw[0]] + p.raw[1..];
  }

  lemma DeliverConserves(p: Pipe)
    requires Conserved(p) && CanMove(p, Deliver) && !p.cancelled
    ensures Conserved(Moved(p, Deliver))
  {
    assert p.delivered + p.out == p.delivered + [p.out[0]] + p.out[1..];
  }

  lemma PushConserves(p: Pipe, m: Move)
    requires Conserved(p) && CanMove(p, m) && !p.cancelled && (m.PushRaw? || m.PushOut?)
    ensures Conserved(Moved(p, m))
  {
    if m.PushRaw? {
      assert p.taken + (p.raw + [p.held.value]) == p.taken + p.raw + [p.held.value];
    } else {
      assert p.delivered + (p.out + [p.decoding.value]) == p.delivered + p.out + [p.decoding.value];
    }
  }

  lemma MoveConserves(p: Pipe, m: Move)
    requires Conserved(p) && CanMove(p, m)
    ensures Conserved(Moved(p, m))
  {
    if !p.cancelled {
      match m {
        case ReadFrame(f) => InsertsStep(p.frames, f);
        case TakeRaw => TakeConserves(p);
        case PushRaw => PushConserves(p, m);
        case PushOut => PushConserves(p, m);
        case Deliver => DeliverConserves(p);
        case _ =>
      }
    }
  }

  /**
   For every sequence of frames over any number of connections, and every
   interleaving of the goroutines: until cancellation the INSERT records read
   are, in arrival order, those already decoded or dropped, then those in the
   first channel, then the one being sent; and the decodable ones among the
   former are those delivered, then those in the second channel, then the one
   being sent.
   */
  lemma {:induction false} RunConserves(p: Pipe, moves: seq<Move>)
    requires Conserved(p) && Run(p, moves).Some?
    ensures Conserved(Run(p, moves).value)
    ensures var q := Run(p, moves).value;
            && |q.raw| <= 16 && |q.out| <= 16
            && (!q.cancelled ==>
                  && Inserts(q.frames) == q.taken + q.raw + Opt(q.held)
                  && Good(q.taken) == q.delivered + q.out + Opt(q.decoding))
    decreases |moves|
  {
    if moves != [] {
      MoveConserves(p, moves[0]);
      RunConserves(Moved(p, moves[0]), moves[1..]);
    }
  }

  /** `good` are the decodable ones among the first n records, in their order. */
  ghost predicate Keeps(records: seq<Record>, n: nat, at: seq<nat>, good: seq<Record>)
    requires n <= |records|
  {
    && Lists(at, set i: nat | i < n && records[i].decodable) && |at| == |good|
    && forall j :: 0 <= j < |at| ==> at[j] < n && records[at[j]] == good[j]
  }

  lemma {:induction false} GoodExact(records: seq<Record>, n: nat) returns (at: seq<nat>)
    requires n <= |records|
    ensures Keeps(records, n, at, Good(records[..n]))
  {
    at := [];
    if n > 0 {
      var front := GoodExact(records, n - 1);
      assert records[..n][..n - 1] == records[..n - 1];
      var members := set i: nat | i < n - 1 && records[i].decodable;
      var all := set i: nat | i < n && records[i].decodable;
      if records[n - 1].decodable {
        ListsMore(front, members, n - 1);
        assert all == members + {n - 1};
        at := front + [n - 1];
      } else {
        assert all == members;
        at := front;
      }
    }
  }

  lemma {:induction false} GoodAppend(a: seq<Record>, b: seq<Record>)
    ensures Good(a + b) == Good(a) + Good(b)
  {
    if b == [] {
      assert a + b == a;
    } else {
      var n := |b| - 1;
      assert (a + b)[..|a + b| - 1] == a + b[..n];
      GoodAppend(a, b[..n]);
      assert Good(a + b) == Good(a) + (Good(b[..n]) + (if b[n].decodable then [b[n]] else []));
    }
  }

  /**
   So what is delivered is at any time a prefix of the decodable INSERT records
   read, and all of them once the pipe is empty.
   */
  lemma DeliveredInOrder(moves: seq<Move>)
    requires Run(EMPTY, moves).Some? && !Run(EMPTY, moves).value.cancelled
    ensures var p := Run(EMPTY, moves).value;
            && p.delivered <= Good(Inserts(p.frames))
            && (p.held.None? && p.raw == [] && p.decoding.None? && p.out == [] ==>
                p.delivered == Good(Inserts(p.frames)))
  {
    RunConserves(EMPTY, moves);
    var p := Run(EMPTY, moves).value;
    GoodAppend(p.taken, p.raw + Opt(p.held));
    assert p.taken + p.raw + Opt(p.held) == p.taken + (p.raw + Opt(p.held));
  }

  // ----- shutdown -----

  predicate AllDone(p: Pipe) { p.readerDone && p.decoderDone && p.consumerDone }

  /** Moves left after cancellation, at most. */
  function Remaining(p: Pipe): nat {
    |Opt(p.held)| * 4 + |p.raw| * 3 + |Opt(p.decoding)| * 2 + |p.out|
    + (if p.readerDone then 0 else 1) + (if p.decoderDone then 0 else 1) + (if p.consumerDone then 0 else 1)
  }

  lemma MoveUsesUp(p: Pipe, m: Move)
    requires p.cancelled && CanMove(p, m)
    ensures Moved(p, m).cancelled && Remaining(Moved(p, m)) < Remaining(p)
  {
  }

  /**
   After cancellation some loop can always move until every loop has ended, and
   every move uses up what remains: no schedule can block or go on for ever.
   */
  lemma ShutdownNeverBlocks(p: Pipe)
    requires p.cancelled
    ensures AllDone(p) || exists m :: CanMove(p, m)
    ensures forall m :: CanMove(p, m) ==> Moved(p, m).cancelled && Remaining(Moved(p, m)) < Remaining(p)
  {
    forall m | CanMove(p, m) ensures Moved(p, m).cancelled && Remaining(Moved(p, m)) < Remaining(p) {
      MoveUsesUp(p, m);
    }
    if !p.readerDone { assert CanMove(p, ReaderQuits); }
    else if !p.decoderDone {
      if p.decoding.Some? || p.raw == [] { assert CanMove(p, DecoderQuits); } else { assert CanMove(p, TakeRaw); }
    } else if !p.consumerDone {
      if p.out == [] { assert CanMove(p, ConsumerQuits); } else { assert CanMove(p, Deliver); }
    }
  }

  /** A cancelled pipe that has stopped moving has ended all its loops, after at most `Remaining` moves. */
  lemma {:induction false} ShutdownEnds(p: Pipe, moves: seq<Move>)
    requires p.cancelled && Run(p, moves).Some?
    ensures |moves| <= Remaining(p)
    ensures (forall m :: !CanMove(Run(p, moves).value, m)) ==> AllDone(Run(p, moves).value)
    decreases |moves|
  {
    ShutdownNeverBlocks(p);
    if moves != [] { ShutdownEnds(Moved(p, moves[0]), moves[1..]); }
  }
}
