/**
 Refreshes that overlap (`refresh` in `internal/supabase/client.go`): the mutex
 is held to read the refresh token and to store the new one, and released in
 between, so any number of refreshes may be on their way at once.
 */
module Overlap {
  import opened Common

  type Token = nat

  /**
   One refresh.  `Read` holds the token read from memory, and records what was
   so at that moment: the server's token, whether another refresh had been served
   and not stored, and whether the session was lost.
   */
  datatype Refresh =
    | Read(current: Token, seen: Token, flying: bool, lost: bool)
    | Served(issued: Token)       // accepted and rotated by the server
    | Persisted(issued: Token)
    | Stored
    | Refused                     // ErrRefreshRevoked
    | Failed

  datatype State = State(server: Token, disk: Token, memory: Token, refreshes: map<nat, Refresh>)

  datatype Action =
    | Begin(id: nat)      // read the token under the mutex
    | Post(id: nat)       // the POST reaches the server
    | Persist(id: nat)
    | Store(id: nat)      // store token and expiry under the mutex
    | Fail(id: nat)       // no answer, another error, or a failed persist

  predicate InFlight(s: State, id: nat) {
    id in s.refreshes && (s.refreshes[id].Served? || s.refreshes[id].Persisted?)
  }

  predicate SomeInFlight(s: State) { exists id :: InFlight(s, id) && id in s.refreshes }

  /** Memory is behind the server and no refresh is about to change that. */
  predicate Lost(s: State) { s.memory != s.server && !SomeInFlight(s) }

  predicate Enabled(s: State, a: Action) {
    if a.Begin? then a.id !in s.refreshes
    else
      a.id in s.refreshes &&
      match a
      case Post(id) => s.refreshes[id].Read?
      case Persist(id) => s.refreshes[id].Served?
      case Store(id) => s.refreshes[id].Persisted?
      case _ => s.refreshes[a.id].Read? || s.refreshes[a.id].Served?
  }

  function With(s: State, id: nat, r: Refresh): State { s.(refreshes := s.refreshes[id := r]) }

  function Do(s: State, a: Action): State
    requires Enabled(s, a)
  {
    match a
    case Begin(id) => With(s, id, Read(s.memory, s.server, SomeInFlight(s), Lost(s)))
    case Post(id) =>
      if s.refreshes[id].current == s.server then With(s, id, Served(s.server + 1)).(server := s.server + 1)
      else With(s, id, Refused)
    case Persist(id) => With(s, id, Persisted(s.refreshes[id].issued)).(disk := s.refreshes[id].issued)
    case Store(id) => With(s, id, Stored).(memory := s.refreshes[id].issued)
    case Fail(id) => With(s, id, Failed)
  }

  ghost predicate Next(s: State, s': State) { exists a :: Enabled(s, a) && s' == Do(s, a) }

  predicate Init(s: State) { s.server == s.disk == s.memory && s.refreshes == map[] }

  ghost predicate StepAt(run: seq<State>, i: nat)
    requires i + 1 < |run|
  {
    Next(run[i], run[i + 1])
  }

  ghost predicate IsRun(run: seq<State>) {
    run != [] && Init(run[0]) && forall i :: 0 <= i < |run| - 1 ==> StepAt(run, i)
  }

  predicate RefreshOk(s: State, r: Refresh) {
    match r
    case Read(current, seen, flying, lost) =>
      current <= seen <= s.server && current <= s.memory && (seen == current <==> !flying && !lost)
    case Served(issued) => issued == s.server && s.memory == s.server - 1 && s.disk == s.memory
    case Persisted(issued) => issued == s.server && s.memory == s.server - 1 && s.disk == s.server
    case _ => true
  }

  ghost predicate Inv(s: State) {
    && s.server - 1 <= s.memory <= s.server
    && (forall id :: id in s.refreshes ==> RefreshOk(s, s.refreshes[id]))
    && (forall i, j :: InFlight(s, i) && InFlight(s, j) ==> i == j)
    && (!SomeInFlight(s) ==> s.disk == s.memory)
  }

  lemma StepKeeps(s: State, a: Action)
    requires Inv(s) && Enabled(s, a)
    ensures Inv(Do(s, a))
  {
    var s' := Do(s, a);
    if !a.Begin? { assert RefreshOk(s, s.refreshes[a.id]); }
    forall id | id in s'.refreshes ensures RefreshOk(s', s'.refreshes[id]) {
      if id != a.id {
        assert RefreshOk(s, s.refreshes[id]);
        if InFlight(s, id) && !a.Begin? { OneInFlight(s, a, id); }
      }
    }
    forall i, j | InFlight(s', i) && InFlight(s', j) ensures i == j {
      if i != a.id {
        OneInFlight(s, a, i);
        assert j != a.id && InFlight(s, i) && InFlight(s, j);
      } else if j != a.id {
        OneInFlight(s, a, j);
      }
    }
    if SomeInFlight(s) {
      var id :| InFlight(s, id) && id in s.refreshes;
      if id != a.id { assert InFlight(s', id); }
      else if a.Persist? { assert InFlight(s', id); }
    }
    if a.Post? && s'.refreshes[a.id].Served? { assert InFlight(s', a.id); }
  }

  /** While one refresh is in flight, a step of another changes neither server, disk nor memory. */
  lemma OneInFlight(s: State, a: Action, id: nat)
    requires Inv(s) && Enabled(s, a) && InFlight(s, id) && id != a.id
    ensures var s' := Do(s, a);
            s'.server == s.server && s'.disk == s.disk && s'.memory == s.memory && !InFlight(s', a.id)
  {
    assert RefreshOk(s, s.refreshes[id]);
    if !a.Begin? {
      assert RefreshOk(s, s.refreshes[a.id]);
      assert !InFlight(s, a.id);
    }
  }

  lemma {:induction false} RunKeeps(run: seq<State>, i: nat)
    requires IsRun(run) && i < |run|
    ensures Inv(run[i])
  {
    if i > 0 {
      RunKeeps(run, i - 1);
      assert StepAt(run, i - 1);
      var a :| Enabled(run[i - 1], a) && run[i] == Do(run[i - 1], a);
      StepKeeps(run[i - 1], a);
    }
  }

  /**
   However refreshes overlap, at most one is between the server and memory at a
   time, and the chain holds: server, disk and memory agree, or one refresh is on
   its way and memory is one behind, or the session is lost and both are.
   */
  lemma ChainHolds(run: seq<State>, i: nat)
    requires IsRun(run) && i < |run|
    ensures var s := run[i];
            && (forall j, k :: InFlight(s, j) && InFlight(s, k) ==> j == k)
            && (if SomeInFlight(s) then s.memory == s.server - 1 && s.server - 1 <= s.disk <= s.server
                else s.disk == s.memory && (Lost(s) ==> s.memory == s.server - 1))
  {
    RunKeeps(run, i);
    var s := run[i];
    if SomeInFlight(s) {
      var id :| InFlight(s, id) && id in s.refreshes;
      assert RefreshOk(s, s.refreshes[id]);
    }
  }

  /**
   When its POST reaches the server, a refresh is answered with ErrRefreshRevoked
   exactly if another one was served since it read its token, or had been served
   and not stored when it did, or the session was lost then.
   */
  lemma RefusedExactly(run: seq<State>, i: nat, id: nat)
    requires IsRun(run) && i < |run| && id in run[i].refreshes && run[i].refreshes[id].Read?
    ensures var s, r := run[i], run[i].refreshes[id];
            Do(s, Post(id)).refreshes[id].Refused? <==> s.server != r.seen || r.flying || r.lost
  {
    RunKeeps(run, i);
    assert RefreshOk(run[i], run[i].refreshes[id]);
  }

  /** Overlap by itself never loses the session: a step does exactly if it fails a refresh that was served. */
  lemma LostOnlyByFailure(run: seq<State>, i: nat, a: Action)
    requires IsRun(run) && i < |run| && Enabled(run[i], a) && !Lost(run[i])
    ensures Lost(Do(run[i], a)) <==> a.Fail? && InFlight(run[i], a.id)
  {
    RunKeeps(run, i);
    var s, s' := run[i], Do(run[i], a);
    if SomeInFlight(s) {
      var id :| InFlight(s, id) && id in s.refreshes;
      assert RefreshOk(s, s.refreshes[id]);
      if id != a.id { assert InFlight(s', id); }
      else if a.Persist? { assert InFlight(s', id); }
      else { assert forall j :: InFlight(s', j) ==> j == id || InFlight(s, j); }
    } else {
      assert a.id in s.refreshes ==> !InFlight(s, a.id);
    }
    if a.Post? && s'.refreshes[a.id].Served? { assert InFlight(s', a.id); }
  }

  predicate Clean(s: State) { forall id :: id in s.refreshes ==> !s.refreshes[id].Failed? }

  ghost predicate CleanRun(run: seq<State>) { IsRun(run) && forall i :: 0 <= i < |run| ==> Clean(run[i]) }

  /** A run without failures goes on with any step that is not one. */
  lemma Then(run: seq<State>, a: Action) returns (run': seq<State>)
    requires CleanRun(run) && Enabled(run[|run| - 1], a) && !a.Fail?
    ensures CleanRun(run') && run' == run + [Do(run[|run| - 1], a)]
  {
    var s := run[|run| - 1];
    run' := run + [Do(s, a)];
    forall i | 0 <= i < |run'| - 1 ensures StepAt(run', i) {
      if i < |run| - 1 { assert StepAt(run, i); } else { assert Next(s, Do(s, a)); }
    }
    assert Clean(s);
  }

  /**
   A run without any failure in which a refresh of a healthy session is answered
   as revoked: two refreshes read the same token, and the first is through before
   the second reaches the server.
   */
  lemma HealthyButRefused()
    ensures exists run: seq<State> ::
              && CleanRun(run)
              && var s := run[|run| - 1];
                 && s.server == s.disk == s.memory && !Lost(s)
                 && 1 in s.refreshes && s.refreshes[1].Refused?
  {
    var run := [State(0, 0, 0, map[])];
    run := Then(run, Begin(0));
    run := Then(run, Begin(1));
    run := Then(run, Post(0));
    run := Then(run, Persist(0));
    run := Then(run, Store(0));
    run := Then(run, Post(1));
    var s := run[|run| - 1];
    assert s.server == s.memory == 1 && s.refreshes[1].Refused?;
  }

  // ----- any tokens in any order -----

  /** Which of the tokens presented, in the order the POSTs reach the server, it accepts; each acceptance rotates. */
  function Answers(server: Token, posts: seq<Token>): (accepted: seq<bool>)
    ensures |accepted| == |posts|
    decreases |posts|
  {
    if posts == [] then []
    else [posts[0] == server] + Answers(if posts[0] == server then server + 1 else server, posts[1..])
  }

  lemma {:induction false} UsedIsRefused(server: Token, posts: seq<Token>, k: nat)
    requires k < |posts| && posts[k] < server
    ensures !Answers(server, posts)[k]
    decreases |posts|
  {
    if k > 0 { UsedIsRefused(if posts[0] == server then server + 1 else server, posts[1..], k - 1); }
  }

  /** No token is accepted twice. */
  lemma {:induction false} AcceptedOnce(server: Token, posts: seq<Token>, i: nat, j: nat)
    requires i < j < |posts| && posts[i] == posts[j] && Answers(server, posts)[i]
    ensures !Answers(server, posts)[j]
    decreases |posts|
  {
    var next := if posts[0] == server then server + 1 else server;
    if i == 0 { UsedIsRefused(next, posts[1..], j - 1); } else { AcceptedOnce(next, posts[1..], i - 1, j - 1); }
  }
}
