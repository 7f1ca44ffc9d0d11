/**
 How a backlog of pending rows drains, one catch-up page per join
 (`internal/supabase/commands.go`, `internal/runtime/runtime.go`).
 */
module Backlog {
  import opened Common
  import opened Subscription
  import Page
  import Claims

  /** The rows a catch-up hands over are exactly the 200 lowest pending ids, in order, or all of them. */
  lemma CatchUpPage(s: State, current: bool)
    requires Enabled(s, ServeCatchUp(current, true))
    ensures var s' := Do(s, ServeCatchUp(current, true));
            && s.handing <= s'.handing
            && Page.IsPage(Pending(s), 200, s'.handing[|s.handing|..])
            && |s'.handing| - |s.handing| == Min(|Pending(s)|, 200)
  {
    Page.LowestIsPage(Pending(s), LIMIT);
    var page := Page.Lowest(Pending(s), LIMIT);
    assert (s.handing + page)[|s.handing|..] == page;
  }

  ghost function PageOf(s: State): seq<int> { Page.Lowest(Pending(s), LIMIT) }

  predicate HasHandler(s: State, id: int) {
    exists h :: h in s.proto.handlers && s.proto.handlers[h].key == KeyOf(s.isRead, id)
  }

  /** Before the first round: nothing is about to get a handler and no pending row has had one. */
  predicate Fresh(s: State) { s.handing == [] && forall id :: id in Pending(s) ==> !HasHandler(s, id) }

  /**
   The row this step starts a handler for other than by handing over a caught-up
   row: from the stream, or in another agent.
   */
  function Stray(s: State, a: Action): Option<Claims.Key>
    requires Enabled(s, a)
  {
    match a
    case DeliverTo(_, _) => Some(KeyOf(s.isRead, s.pipe.out[0].id))
    case Protocol(b) => if b.Spawn? then Some(b.key) else None
    case _ => None
  }

  /**
   A step between two catch-ups: no new row, no further page, and no handler for
   a row of the backlog but from this agent's own page.
   */
  predicate Calm(s: State, a: Action, backlog: set<int>)
    requires Enabled(s, a)
  {
    && !a.InsertMine? && !(a.ServeCatchUp? && a.ok)
    && forall id :: id in backlog ==> Stray(s, a) != Some(KeyOf(s.isRead, id))
  }

  ghost predicate CalmAt(run: seq<State>, m: nat, backlog: set<int>)
    requires m + 1 < |run|
  {
    exists a :: Enabled(run[m], a) && run[m + 1] == Do(run[m], a) && Calm(run[m], a, backlog)
  }

  /** Every handler of a row of the backlog has returned, without a crash or store error. */
  predicate Finished(s: State, backlog: set<int>) {
    forall h, id :: h in s.proto.handlers && id in backlog && s.proto.handlers[h].key == KeyOf(s.isRead, id) ==>
      s.proto.handlers[h].pc.Returned? && !s.proto.handlers[h].faulty
  }

  /**
   One round, from point i to point j: step i serves a catch-up, the steps after
   it are calm, and at j every row of the page has been handed over and the
   handlers have finished.
   */
  ghost predicate Round(run: seq<State>, i: nat, j: nat) {
    && i < j < |run|
    && (exists current ::
          Enabled(run[i], ServeCatchUp(current, true)) && run[i + 1] == Do(run[i], ServeCatchUp(current, true)))
    && (forall m :: i < m < j ==> CalmAt(run, m, Pending(run[i])))
    && run[j].handing == [] && Finished(run[j], Pending(run[i]))
  }

  // ----- what a round does -----

  /** Within a round: the page is what is handed over or has handlers, the rest of the backlog has neither. */
  predicate OnTrack(s: State, isRead: bool, mine: set<int>, backlog: set<int>, page: seq<int>) {
    && s.isRead == isRead && s.mine == mine
    && (forall id :: id in s.handing ==> id in page)
    && (forall id :: id in page ==> id in s.handing || HasHandler(s, id))
    && (forall id :: id in backlog && id !in page ==> !HasHandler(s, id))
  }

  /** The row a step starts a handler for. */
  function Starts(s: State, a: Action): Option<Claims.Key>
    requires Enabled(s, a)
  {
    match ProtoStep(s, a)
    case Some(Spawn(_, key, _)) => Some(key)
    case _ => None
  }

  lemma StepKeepsHandlers(s: State, a: Action, id: int)
    requires Enabled(s, a) && (HasHandler(s, id) || Starts(s, a) == Some(KeyOf(s.isRead, id)))
    ensures HasHandler(Do(s, a), id)
  {
    StepProjects(s, a);
    var k := KeyOf(s.isRead, id);
    if HasHandler(s, id) {
      var h :| h in s.proto.handlers && s.proto.handlers[h].key == k;
      if ProtoStep(s, a).Some? { HandlerStays(s.proto, ProtoStep(s, a).value, h); }
    } else {
      var h := ProtoStep(s, a).value.h;
      assert h in Do(s, a).proto.handlers && Do(s, a).proto.handlers[h].key == k;
    }
  }

  lemma StepHandlers(s: State, a: Action, id: int)
    requires Enabled(s, a)
    ensures HasHandler(Do(s, a), id) <==> HasHandler(s, id) || Starts(s, a) == Some(KeyOf(s.isRead, id))
  {
    StepProjects(s, a);
    if HasHandler(s, id) || Starts(s, a) == Some(KeyOf(s.isRead, id)) {
      StepKeepsHandlers(s, a, id);
    } else {
      forall h | h in Do(s, a).proto.handlers ensures Do(s, a).proto.handlers[h].key != KeyOf(s.isRead, id) {
        if h in s.proto.handlers && ProtoStep(s, a).Some? { HandlerStays(s.proto, ProtoStep(s, a).value, h); }
      }
    }
  }

  lemma CalmStep(s: State, a: Action, mine: set<int>, backlog: set<int>, page: seq<int>)
    requires Enabled(s, a) && Calm(s, a, backlog) && OnTrack(s, s.isRead, mine, backlog, page)
    requires forall id :: id in page ==> id in backlog
    ensures OnTrack(Do(s, a), s.isRead, mine, backlog, page)
  {
    var s' := Do(s, a);
    if a.HandOver? { assert s.handing == [s.handing[0]] + s.handing[1..]; }
    forall id | id in page ensures id in s'.handing || HasHandler(s', id) {
      StepHandlers(s, a, id);
    }
    forall id | id in backlog && id !in page ensures !HasHandler(s', id) {
      StepHandlers(s, a, id);
    }
  }

  /** The catch-up puts a fresh backlog on track. */
  lemma PageServed(s: State, current: bool)
    requires Fresh(s) && Enabled(s, ServeCatchUp(current, true))
    ensures OnTrack(Do(s, ServeCatchUp(current, true)), s.isRead, s.mine, Pending(s), PageOf(s))
    ensures forall id :: id in PageOf(s) ==> id in Pending(s)
  {
    var s' := Do(s, ServeCatchUp(current, true));
    Page.LowestIsPage(Pending(s), LIMIT);
    assert s'.handing == PageOf(s);
    assert s'.proto == s.proto;
  }

  lemma {:induction false} StaysOnTrack(run: seq<State>, i: nat, j: nat, m: nat)
    requires IsRun(run) && Round(run, i, j) && i < m <= j && Fresh(run[i])
    ensures OnTrack(run[m], run[i].isRead, run[i].mine, Pending(run[i]), PageOf(run[i]))
    ensures forall id :: id in PageOf(run[i]) ==> id in Pending(run[i])
  {
    var s := run[i];
    if m == i + 1 {
      var current :| Enabled(s, ServeCatchUp(current, true)) && run[i + 1] == Do(s, ServeCatchUp(current, true));
      PageServed(s, current);
    } else {
      StaysOnTrack(run, i, j, m - 1);
      assert CalmAt(run, m - 1, Pending(s));
      var a :| Enabled(run[m - 1], a) && run[m] == Do(run[m - 1], a) && Calm(run[m - 1], a, Pending(s));
      CalmStep(run[m - 1], a, s.mine, Pending(s), PageOf(s));
    }
  }

  /**
   A row whose handlers have all finished, and that has one, is not pending; a
   row that never had one still is what it was.
   */
  lemma HandledOrNot(s: State, id: int, backlog: set<int>)
    requires Inv(s) && Finished(s, backlog) && id in backlog && id in s.mine
    ensures id in Pending(s) <==> !HasHandler(s, id)
  {
    var k := KeyOf(s.isRead, id);
    assert Claims.RowInv(s.proto, k);
    if HasHandler(s, id) {
      var h :| h in s.proto.handlers && s.proto.handlers[h].key == k;
      assert Claims.HandlerInv(s.proto, h);
    }
  }

  lemma StepKeepsPast(s: State, a: Action, id: int)
    requires Inv(s) && Enabled(s, a) && id in s.mine
    ensures id in Do(s, a).mine && Do(s, a).isRead == s.isRead
    ensures id in Pending(Do(s, a)) ==> id in Pending(s)
  {
    var k := KeyOf(s.isRead, id);
    StepProjects(s, a);
    if ProtoStep(s, a).Some? {
      var b := ProtoStep(s, a).value;
      Claims.StepGrows(s.proto, b, k);
      Claims.StepKeeps(s.proto, b);
      assert Claims.RowInv(s.proto, k) && Claims.RowInv(Claims.Do(s.proto, b), k);
    }
  }

  lemma RunStepKeepsPast(run: seq<State>, i: nat, id: int)
    requires IsRun(run) && i + 1 < |run| && id in run[i].mine
    ensures id in run[i + 1].mine && run[i + 1].isRead == run[i].isRead
    ensures id in Pending(run[i + 1]) ==> id in Pending(run[i])
  {
    RunKeeps(run, i);
    assert StepAt(run, i);
    var a :| Enabled(run[i], a) && run[i + 1] == Do(run[i], a);
    StepKeepsPast(run[i], a, id);
  }

  lemma {:induction false} NeverPendingAgain(run: seq<State>, i: nat, j: nat, id: int)
    requires IsRun(run) && i <= j < |run| && id in run[i].mine
    ensures id in run[j].mine && run[j].isRead == run[i].isRead
    ensures id in Pending(run[j]) ==> id in Pending(run[i])
  {
    if i < j {
      NeverPendingAgain(run, i, j - 1, id);
      RunStepKeepsPast(run, j - 1, id);
    }
  }

  /** One round takes exactly the page out of the backlog, and leaves the rest as fresh as it was. */
  lemma RoundDrains(run: seq<State>, i: nat, j: nat)
    requires IsRun(run) && Round(run, i, j) && Fresh(run[i])
    ensures Pending(run[j]) == Pending(run[i]) - Page.ToSet(PageOf(run[i]))
    ensures Fresh(run[j])
  {
    var s, t := run[i], run[j];
    RunKeeps(run, j);
    StaysOnTrack(run, i, j, j);
    forall id | id in s.mine ensures id in Pending(t) <==> id in Pending(s) && id !in PageOf(s) {
      NeverPendingAgain(run, i, j, id);
      if id in Pending(s) { HandledOrNot(t, id, Pending(s)); }
    }
    assert Pending(t) == Pending(s) - Page.ToSet(PageOf(s));
  }

  lemma PageTaken(before: set<int>, after: set<int>)
    requires after == before - Page.ToSet(Page.Lowest(before, LIMIT))
    ensures |after| == |before| - Min(|before|, LIMIT)
  {
    var page := Page.Lowest(before, LIMIT);
    Page.LowestIsPage(before, LIMIT);
    Page.AscendingSize(page);
    Page.ShortPageIsAll(before, LIMIT);
    assert before == after + Page.ToSet(page);
  }

  ghost predicate RoundAt(run: seq<State>, points: seq<nat>, i: nat)
    requires 0 < i < |points|
  {
    Round(run, points[i - 1], points[i])
  }

  /** The points of a run between which rounds follow each other. */
  ghost predicate Rounds(run: seq<State>, points: seq<nat>) {
    forall i :: 0 < i < |points| ==> RoundAt(run, points, i)
  }

  /** What k pages leave of n rows: max(0, n - 200 k). */
  function LeftAfter(n: nat, k: nat): (left: nat)
    ensures k > 0 ==> left == LeftAfter(n, k - 1) - Min(LeftAfter(n, k - 1), LIMIT)
  {
    if n <= LIMIT * k then 0 else n - LIMIT * k
  }

  /** From a fresh backlog of n rows, k rounds leave exactly max(0, n - 200 k) pending. */
  lemma {:induction false} BacklogDrains(run: seq<State>, points: seq<nat>, k: nat)
    requires IsRun(run) && Rounds(run, points) && k < |points|
    requires points[0] < |run| && Fresh(run[points[0]])
    ensures points[k] < |run| && Fresh(run[points[k]])
    ensures |Pending(run[points[k]])| == LeftAfter(|Pending(run[points[0]])|, k)
    ensures var n := |Pending(run[points[0]])|;
            |Pending(run[points[k]])| == if n <= 200 * k then 0 else n - 200 * k
    decreases k
  {
    if k > 0 {
      var i, j := points[k - 1], points[k];
      assert RoundAt(run, points, k);
      BacklogDrains(run, points, k - 1);
      RoundDrains(run, i, j);
      PageTaken(Pending(run[i]), Pending(run[j]));
    }
  }
}
