/**
 The REST half of `internal/supabase`: token cache and refresh
 (`client.go`), and the calls that retry once on a 401 (`commands.go`,
 `read_commands.go`, `rest.go`).
 */
module SupabaseClient {
  import opened Common
  import opened HandlerProgram
  import opened Claims
  import opened World
  import Tokens

  /**
   An access token as the client keeps it.  `expiresAt` is the client's own
   estimate, made when the token was stored; `dies` is the moment the server
   stops accepting it, fixed when it was issued.
   */
  datatype Access = Access(id: Tokens.Token, expiresAt: int, dies: int)

  /** Whether the cached token may not be used: there is none, or it has at most the skew of 30 s left. */
  predicate Stale(access: Option<Access>, now: int) { access.None? || access.value.expiresAt - now <= 30_000 }

  /** The steps with which a refresh fails. */
  predicate FailsRefresh(a: Tokens.Action) { a.ServerError? || a.Revoke? || a.LoseAnswer? || a.PersistError? }

  /**
   A token served from the cache is alive at the server, whenever it is asked
   for, exactly if storing it took at most the skew: `expiresAt - dies` is the
   time between issue and store.
   */
  lemma CacheIsSound(a: Access)
    ensures (forall now :: !Stale(Some(a), now) ==> now < a.dies) <==> a.expiresAt - a.dies <= 30_000
  {
    if a.expiresAt - a.dies > 30_000 {
      assert !Stale(Some(a), a.dies);
    }
  }

  /** What one PATCH with its retry adds to the record, and the answer it ends with. */
  predicate PatchTrace(events: seq<Event>, answer: Answer) {
    || (events == [Answered(answer)] && !answer.Unauthorized?)
    || (events == [Answered(Unauthorized), Refreshed(false)] && answer == Refused)
    || events == [Answered(Unauthorized), Refreshed(true), Answered(answer)]
  }

  /** How many answers of the database stand behind what a PATCH with its retry records. */
  predicate Attempted(events: seq<Event>, answers: seq<Answer>, answer: Answer) {
    || (events == [Answered(answer)] && answers == [answer])
    || (events == [Answered(answer)] && answers == [] && answer == Silence)       // no token
    || (events == [Answered(Unauthorized), Refreshed(false)] && answers == [Unauthorized])
    || (events == [Answered(Unauthorized), Refreshed(true), Answered(answer)] && answers == [Unauthorized, answer])
  }

  class Client {
    const world: World
    var access: Option<Access>
    var session: Tokens.State
    ghost const origin: Tokens.State
    ghost var steps: seq<Tokens.Action>

    /** The token chain has only taken steps of `Tokens`, and no refresh is under way. */
    ghost predicate Valid()
      reads this
    {
      && Tokens.DoAll(origin, steps) == Some(session)
      && (session.process.Up? ==> session.process.stage.Quiet? && session.process.phase.Running?)
    }

    constructor (world: World, session: Tokens.State)
      requires session.process.Up? && session.process.stage.Quiet? && session.process.phase.Running?
      ensures Valid() && this.world == world && this.session == session && access == None
    {
      this.world, this.session, this.origin := world, session, session;
      access, steps := None, [];
    }

    /** One step of the token chain. */
    method Advance(a: Tokens.Action)
      requires Tokens.DoAll(origin, steps) == Some(session) && Tokens.Enabled(session, a)
      modifies this`session, this`steps
      ensures session == Tokens.Do(old(session), a) && Tokens.DoAll(origin, steps) == Some(session)
      ensures steps == old(steps) + [a]
    {
      Tokens.DoAllAppend(origin, steps, [a]);
      assert Tokens.DoAll(session, [a]) == Some(Tokens.Do(session, a)) by { assert [a][1..] == []; }
      steps := steps + [a];
      session := Tokens.Do(session, a);
    }

    /**
     One refresh: POST, rotate, persist, store.  It succeeds exactly if the answer
     brings new tokens and config.yml is read, written and renamed; then memory,
     disk and server are in step, and the token's estimated expiry, counted from
     now, exceeds its real one by exactly the time since issue.  On failure memory
     and the cached access token are as before.  `revoked` is ErrRefreshRevoked:
     the server has seen the token used before.
     */
    method Refresh() returns (token: Option<Access>, revoked: bool)
      requires Valid() && session.process.Up?
      modifies this`access, this`session, this`steps, world`now, world`refreshes, world`fileOps
      ensures Valid() && session.process.Up? && world.now >= old(world.now)
      ensures |world.refreshes| == |old(world.refreshes)| + 1 && old(world.refreshes) < world.refreshes
      ensures OneRefresh(old(steps), steps, token.Some?)
      ensures token.Some? <==>
                && world.refreshes[|old(world.refreshes)|].Issued? && Tokens.Loaded(old(session.disk)).Some?
                && world.fileOps == old(world.fileOps) + [true, true, true]
      ensures revoked <==> world.refreshes[|old(world.refreshes)|].AlreadyUsed?
      ensures token.None? ==> access == old(access) && session.process == old(session.process)
      ensures revoked <==> steps[|steps| - 1] == Tokens.Revoke
      ensures revoked ==> token.None? && session == old(session) && session.process.memory != session.server
      ensures old(session.process.memory != session.server) ==> token.None?
      ensures token.Some? ==>
                && access == token
                && session.server == old(session.server) + 1
                && session.process.memory == session.server && Tokens.OnDisk(session, session.server)
                && token.value.id == session.server
                && token.value.expiresAt == world.now + 1000 * world.refreshes[|old(world.refreshes)|].expiresIn
                && 0 <= token.value.expiresAt - token.value.dies <= world.now - old(world.now)
    {
      token, revoked := None, false;
      Advance(Tokens.BeginRefresh);
      var answer, served, issued := world.PostRefresh(session.process.memory == session.server);
      if served {
        Advance(Tokens.Serve);
      }
      if !answer.Issued? {
        GiveUp(answer, served);
        return None, answer.AlreadyUsed?;
      }
      Advance(Tokens.Arrive);
      token := Keep(answer.expiresIn, issued);
    }

    /** A refresh whose answer brings no tokens. */
    method GiveUp(answer: RefreshAnswer, served: bool)
      requires Tokens.DoAll(origin, steps) == Some(session) && !answer.Issued? && (served ==> answer.NoAnswer?)
      requires session.process.Up? && session.process.phase.Running?
      requires if served then session.process.stage.Rotated? else session.process.stage.Posting?
      requires answer.AlreadyUsed? ==> session.process.memory != session.server
      modifies this`session, this`steps
      ensures Tokens.DoAll(origin, steps) == Some(session) && session == Tokens.At(old(session), Tokens.Quiet)
      ensures exists a :: steps == old(steps) + [a] && FailsRefresh(a) && (a.Revoke? <==> answer.AlreadyUsed?)
    {
      if answer.NoAnswer? && served {
        Advance(Tokens.LoseAnswer);
      } else if answer.AlreadyUsed? {
        Advance(Tokens.Revoke);
      } else {
        Advance(Tokens.ServerError);
      }
    }

    /** Persist and store what a refresh brought. */
    method Keep(expiresIn: int, issued: int) returns (token: Option<Access>)
      requires Tokens.DoAll(origin, steps) == Some(session) && issued <= world.now
      requires session.process.Up? && session.process.phase.Running? && session.process.stage.Received?
      modifies this`access, this`session, this`steps, world`now, world`fileOps
      ensures Tokens.DoAll(origin, steps) == Some(session) && world.now >= old(world.now)
      ensures old(steps) < steps && forall i :: |old(steps)| <= i < |steps| ==> steps[i] != Tokens.BeginRefresh
      ensures steps[|steps| - 1] == if token.Some? then Tokens.Store else Tokens.PersistError
      ensures token.Some? <==>
                Tokens.Loaded(old(session.disk)).Some? && world.fileOps == old(world.fileOps) + [true, true, true]
      ensures token.None? ==> access == old(access) && session == Tokens.At(old(session), Tokens.Quiet)
      ensures token.Some? ==>
                var t := old(session.process.stage.issued);
                && access == token
                && token == Some(Access(session.server, world.now + 1000 * expiresIn, issued + 1000 * expiresIn))
                && session.server == old(session.server) && Tokens.OnDisk(session, t)
                && session.process == old(session.process).(memory := t, stage := Tokens.Quiet)
    {
      token := None;
      var persisted := Persist();
      if !persisted {
        return;
      }
      world.Elapse(0);
      Advance(Tokens.Store);
      access := Some(Access(session.server, world.now + 1000 * expiresIn, issued + 1000 * expiresIn));
      token := access;
    }

    /** The chain took the steps of one refresh: it begins once, and ends with a store or a failure. */
    ghost predicate OneRefresh(before: seq<Tokens.Action>, after: seq<Tokens.Action>, ok: bool) {
      && before < after && |after| > |before| + 1 && after[|before|] == Tokens.BeginRefresh
      && (forall i :: |before| < i < |after| ==> after[i] != Tokens.BeginRefresh)
      && (if ok then after[|after| - 1] == Tokens.Store else FailsRefresh(after[|after| - 1]))
    }

    /** persistRefreshTo: reload config.yml, write a temp file with the new token, rename it over config.yml. */
    method Persist() returns (ok: bool)
      requires Tokens.DoAll(origin, steps) == Some(session)
      requires session.process.Up? && session.process.phase.Running? && session.process.stage.Received?
      modifies this`session, this`steps, world`now, world`fileOps
      ensures Tokens.DoAll(origin, steps) == Some(session) && world.now >= old(world.now)
      ensures old(steps) < steps && forall i :: |old(steps)| <= i < |steps| ==> steps[i] != Tokens.BeginRefresh
      ensures steps[|steps| - 1] == if ok then Tokens.Rename else Tokens.PersistError
      ensures session.server == old(session.server)
      ensures ok <==>
                Tokens.Loaded(old(session.disk)).Some? && world.fileOps == old(world.fileOps) + [true, true, true]
      ensures !ok ==> session == Tokens.At(old(session), Tokens.Quiet)
      ensures ok ==>
                && session.process == old(session.process).(stage := Tokens.Renamed(old(session.process.stage.issued)))
                && var c := Tokens.Loaded(old(session.disk)).value;
                   session.disk == Tokens.Whole(c.(refreshToken := old(session.process.stage.issued)))
    {
      ok := false;
      ghost var allDone := old(world.fileOps) + [true, true, true];
      var readable := world.FileOp();
      if !readable || Tokens.Loaded(session.disk).None? {
        Advance(Tokens.PersistError);
        assert |world.fileOps| < |allDone|;
        return;
      }
      Advance(Tokens.Reload);
      var saved := world.FileOp();
      if !saved {
        Advance(Tokens.PersistError);
        assert |world.fileOps| < |allDone|;
        return;
      }
      Advance(Tokens.SaveTemp);
      var renamed := world.FileOp();
      assert world.fileOps == old(world.fileOps) + [true, true, renamed];
      if !renamed {
        Advance(Tokens.PersistError);
        assert world.fileOps[|allDone| - 1] != allDone[|allDone| - 1];
        return;
      }
      Advance(Tokens.Rename);
      ok := true;
    }

    /** access: the cached token if it has more than the skew left, otherwise exactly one refresh. */
    method AccessToken() returns (token: Option<Access>, revoked: bool)
      requires Valid() && session.process.Up?
      modifies this`access, this`session, this`steps, world`now, world`refreshes, world`fileOps
      ensures Valid() && session.process.Up? && world.now >= old(world.now)
      ensures old(access.Some? && access.value.expiresAt - world.now > 30_000) ==>
                && token == old(access) && access == old(access) && session == old(session) && steps == old(steps)
                && world.now == old(world.now) && world.refreshes == old(world.refreshes) && !revoked
      ensures old(access.None? || access.value.expiresAt - world.now <= 30_000) ==>
                && OneRefresh(old(steps), steps, token.Some?)
                && |world.refreshes| == |old(world.refreshes)| + 1 && old(world.refreshes) < world.refreshes
                && (token.Some? <==>
                      && world.refreshes[|old(world.refreshes)|].Issued? && Tokens.Loaded(old(session.disk)).Some?
                      && world.fileOps == old(world.fileOps) + [true, true, true])
                && (token.Some? ==>
                      access == token && session.server == old(session.server) + 1 && token.value.id == session.server)
                && (revoked <==> world.refreshes[|old(world.refreshes)|].AlreadyUsed?)
      ensures revoked ==> token.None? && session.process.memory != session.server
    {
      if access.Some? && access.value.expiresAt - world.now > 30_000 {
        return access, false;
      }
      token, revoked := Refresh();
    }

    /** The second half of patchWithAuth, after a 401: refresh, and try again with the new token. */
    method PatchAgain(key: Key, request: Request) returns (answer: Answer)
      requires Valid() && session.process.Up?
      modifies this`access, this`session, this`steps
      modifies world`now, world`rows, world`log, world`answers, world`refreshes, world`fileOps, world`writes
      ensures Valid() && session.process.Up? && world.now >= old(world.now)
      ensures
        || (world.log == old(world.log) + [Refreshed(false)] && world.answers == old(world.answers) && answer == Refused
            && old(steps) < steps && FailsRefresh(steps[|steps| - 1]))
        || (world.log == old(world.log) + [Refreshed(true), Answered(answer)]
            && world.answers == old(world.answers) + [answer])
      ensures world.writes == old(world.writes) || world.writes == old(world.writes) + [Change(key, Target(request))]
      ensures answer.Hit? ==> world.writes == old(world.writes) + [Change(key, Target(request))]
      ensures request.Claim? && answer.Miss? ==> world.writes == old(world.writes)
    {
      var token, revoked := Refresh();
      world.Record(Refreshed(token.Some?));
      if token.None? {
        return Refused;
      }
      answer := world.ServePatch(key, request);
      world.Record(Answered(answer));
    }

    /**
     patchWithAuth.  At most two attempts, at most one change, and the answer is
     the last attempt's.
     */
    method PatchWithAuth(key: Key, request: Request) returns (answer: Answer)
      requires Valid() && session.process.Up?
      modifies this`access, this`session, this`steps
      modifies world`now, world`rows, world`log, world`answers, world`refreshes, world`fileOps, world`writes
      ensures Valid() && session.process.Up? && world.now >= old(world.now)
      ensures old(world.log) <= world.log && PatchTrace(world.log[|old(world.log)|..], answer)
      ensures |world.answers| <= |old(world.answers)| + 2 && old(world.answers) <= world.answers
      ensures Attempted(world.log[|old(world.log)|..], world.answers[|old(world.answers)|..], answer)
      ensures world.answers == old(world.answers) ==>
                && old(Stale(access, world.now)) && old(steps) < steps && FailsRefresh(steps[|steps| - 1])
      ensures world.log[|old(world.log)|..] == [Answered(Unauthorized), Refreshed(false)] ==>
                old(steps) < steps && FailsRefresh(steps[|steps| - 1])
      ensures world.writes == old(world.writes) || world.writes == old(world.writes) + [Change(key, Target(request))]
      ensures request.Claim? ==> (answer.Hit? ==> world.writes == old(world.writes) + [Change(key, Claimed)])
      ensures request.Claim? ==> (answer.Miss? ==> world.writes == old(world.writes))
      ensures request.Complete? && answer.Hit? ==> world.writes == old(world.writes) + [Change(key, Target(request))]
    {
      var token, revoked := AccessToken();
      if token.None? {
        answer := Silence;
        world.Record(Answered(answer));
        return;
      }
      answer := world.ServePatch(key, request);
      world.Record(Answered(answer));
      if answer.Unauthorized? {
        answer := PatchAgain(key, request);
      }
    }

    /** ClaimCommand and ClaimReadCommand: true exactly when this call flipped the row and was told so. */
    method Claim(key: Key) returns (claimed: bool, failed: bool)
      requires Valid() && session.process.Up?
      modifies this`access, this`session, this`steps
      modifies world`now, world`rows, world`log, world`answers, world`refreshes, world`fileOps, world`writes
      ensures Valid() && session.process.Up? && world.now >= old(world.now)
      ensures old(world.log) <= world.log
      ensures exists answer ::
                && PatchTrace(world.log[|old(world.log)|..], answer)
                && (claimed <==> answer.Hit?) && (failed <==> !answer.Hit? && !answer.Miss?)
      ensures |world.answers| <= |old(world.answers)| + 2
      ensures claimed ==> world.writes == old(world.writes) + [Change(key, Claimed)]
      ensures !claimed && !failed ==> world.writes == old(world.writes)
      ensures failed ==> world.writes == old(world.writes) || world.writes == old(world.writes) + [Change(key, Claimed)]
    {
      var answer := PatchWithAuth(key, Request.Claim);
      claimed := answer.Hit?;
      failed := !answer.Hit? && !answer.Miss?;
    }

    /** CompleteCommand and CompleteReadCommand. */
    method Complete(key: Key, final: Final) returns (failed: bool)
      requires Valid() && session.process.Up?
      modifies this`access, this`session, this`steps
      modifies world`now, world`rows, world`log, world`answers, world`refreshes, world`fileOps, world`writes
      ensures Valid() && session.process.Up? && world.now >= old(world.now)
      ensures old(world.log) <= world.log
      ensures exists answer ::
                && PatchTrace(world.log[|old(world.log)|..], answer)
                && (failed <==> !answer.Hit? && !answer.Miss?)
      ensures |world.answers| <= |old(world.answers)| + 2
      ensures world.writes == old(world.writes) || world.writes == old(world.writes) + [Change(key, Finished(final))]
    {
      var answer := PatchWithAuth(key, Request.Complete(final));
      failed := !answer.Hit? && !answer.Miss?;
    }

    /** postRow: at most two attempts and at most one row inserted; success means exactly one. */
    method PostRow() returns (failed: bool, revoked: bool)
      requires Valid() && session.process.Up?
      modifies this`access, this`session, this`steps
      modifies world`now, world`answers, world`refreshes, world`fileOps, world`inserted
      ensures Valid() && session.process.Up?
      ensures |world.answers| <= |old(world.answers)| + 2 && old(world.answers) <= world.answers
      ensures world.answers == old(world.answers) ==>
                failed && old(Stale(access, world.now)) && old(steps) < steps && FailsRefresh(steps[|steps| - 1])
      ensures old(world.answers) < world.answers ==> (failed <==> !world.answers[|world.answers| - 1].Hit?)
      ensures var made := world.answers[|old(world.answers)|..];
              && (|made| == 2 ==> made[0].Unauthorized?)
              && (made == [Unauthorized] ==> old(steps) < steps && FailsRefresh(steps[|steps| - 1]))
      ensures old(world.inserted) <= world.inserted <= old(world.inserted) + 1
      ensures !failed ==> world.inserted == old(world.inserted) + 1
      ensures revoked ==> failed && session.process.memory != session.server
    {
      var token;
      token, revoked := AccessToken();
      if token.None? {
        failed := true;
        return;
      }
      var answer := world.ServeInsert();
      if answer.Unauthorized? {
        token, revoked := Refresh();
        if token.None? {
          failed := true;
          return;
        }
        answer := world.ServeInsert();
      }
      failed := !answer.Hit?;
    }
  }
}
