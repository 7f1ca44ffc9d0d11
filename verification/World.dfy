/**
 What one agent process talks to while it handles rows: a clock, the two command
 tables (shared with other agents), Proxmox, and a record of what was sent.
 */
module World {
  import opened Common
  import opened Routing
  import opened HandlerProgram
  import opened Claims

  /** A status this agent's PATCH has written. */
  datatype Change = Change(key: Key, status: Status)

  /** One task poll: its answer, or None when the call failed. */
  datatype Poll = Poll(at: int, answer: Option<TaskState>)

  /** One call on Proxmox as it was made, with the path of a GET, and whether it succeeded. */
  datatype Asked = Asked(call: Call, path: string, ok: bool)

  datatype TaskState = Working | Stopped(exitStatus: string)

  /** One entry of /cluster/resources. */
  datatype Entry = Entry(vmid: int, status: string)

  /** The answer to a refresh: new tokens, a refusal as already used, another error, or none that can be read. */
  datatype RefreshAnswer = Issued(expiresIn: int) | AlreadyUsed | OtherError | NoAnswer

  /** Times are in milliseconds. */
  class World {
    var now: int
    var cancelled: bool         // the context
    var rows: map<Key, Status>
    var log: seq<Event>         // what the handler program has reacted to
    var answers: seq<Answer>    // the answers to HTTP attempts on the database, in order
    var refreshes: seq<RefreshAnswer>
    var fileOps: seq<bool>      // whether each file operation of a persist succeeded
    var writes: seq<Change>      // row changes made by this agent, in order
    var inserted: nat           // snapshot rows inserted by this agent
    var calls: seq<Asked>       // Proxmox calls, in order
    var polls: seq<Poll>
    var clusterPolls: seq<Option<seq<Entry>>>

    constructor () {
      now, cancelled, rows, log, answers, refreshes, fileOps := 0, false, map[], [], [], [], [];
      writes, inserted, calls, polls, clusterPolls := [], 0, [], [], [];
    }

    /** At least `least` milliseconds pass. */
    method Elapse(least: nat)
      modifies this`now
      ensures now >= old(now) + least
    {
      var more: int := *;
      now := now + least + (if more > 0 then more else 0);
    }

    /** Sleeps unless or until the context is cancelled. */
    method Sleep(least: nat) returns (woke: bool)
      modifies this`now, this`cancelled
      ensures now >= old(now) && (old(cancelled) ==> cancelled)
      ensures if woke then now >= old(now) + least else cancelled
    {
      var interrupted: bool := *;
      if interrupted {
        cancelled := true;
        Elapse(0);
        return false;
      }
      Elapse(least);
      return true;
    }

    /** Time passes while other agents do what they like with the tables. */
    method Meanwhile()
      modifies this`now, this`rows
      ensures now >= old(now)
    {
      Elapse(0);
      var others: map<Key, Status> := *;
      rows := others;
    }

    method Record(e: Event)
      modifies this`log
      ensures log == old(log) + [e]
    {
      log := log + [e];
    }

    /** One PATCH on one row.  A 401 changes nothing; any other answer may be lost after the change was made. */
    method ServePatch(key: Key, request: Request) returns (answer: Answer)
      modifies this`now, this`rows, this`answers, this`writes
      ensures now >= old(now) && answers == old(answers) + [answer]
      ensures writes == old(writes) || writes == old(writes) + [Change(key, Target(request))]
      ensures answer.Unauthorized? ==> writes == old(writes)
      ensures request.Claim? && answer.Hit? ==> writes == old(writes) + [Change(key, Claimed)]
      ensures request.Claim? && answer.Miss? ==> writes == old(writes)
      ensures request.Complete? && answer.Hit? ==> writes == old(writes) + [Change(key, Target(request))]
      ensures writes != old(writes) ==> key in rows && rows[key] == Target(request)
    {
      Meanwhile();
      var reaches: bool, answered: bool := *, *;
      var matches := reaches && key in rows && (request.Claim? ==> rows[key] == Pending);
      if matches {
        rows := rows[key := Target(request)];
        writes := writes + [Change(key, Target(request))];
      }
      if reaches && answered {
        answer := if matches then Hit else Miss;
      } else {
        var refused: bool, unauthorized: bool := *, *;
        answer := if unauthorized && !reaches then Unauthorized else if refused then Refused else Silence;
      }
      answers := answers + [answer];
    }

    /** One POST of a snapshot row; true in `ok` for a 2xx answer. */
    method ServeInsert() returns (answer: Answer)
      modifies this`now, this`answers, this`inserted
      ensures now >= old(now) && answers == old(answers) + [answer]
      ensures old(inserted) <= inserted <= old(inserted) + 1
      ensures answer.Unauthorized? ==> inserted == old(inserted)
      ensures answer.Hit? ==> inserted == old(inserted) + 1
    {
      Elapse(0);
      answer := *;
      answers := answers + [answer];
      var reached: bool := *;
      if answer.Hit? || (reached && !answer.Unauthorized?) { inserted := inserted + 1; }
    }

    /**
     One POST of a refresh token.  `current` says whether it is the token the
     server accepts, `served` whether the server accepted and rotated it, `issued`
     when it did.
     */
    method PostRefresh(current: bool) returns (answer: RefreshAnswer, served: bool, issued: int)
      modifies this`now, this`refreshes
      ensures refreshes == old(refreshes) + [answer] && old(now) <= issued <= now
      ensures served ==> current && (answer.Issued? || answer.NoAnswer?)
      ensures answer.Issued? ==> served
      ensures answer.AlreadyUsed? ==> !current
    {
      Elapse(0);
      issued := now;
      Elapse(0);
      answer := *;
      served := *;
      if !current && (answer.Issued? || served) {
        answer, served := AlreadyUsed, false;
      } else if current && answer.AlreadyUsed? {
        answer, served := OtherError, false;
      } else if answer.Issued? {
        served := true;
      } else if !answer.NoAnswer? {
        served := false;
      }
      refreshes := refreshes + [answer];
    }

    /** One file operation. */
    method FileOp() returns (ok: bool)
      modifies this`now, this`fileOps
      ensures now >= old(now) && fileOps == old(fileOps) + [ok]
    {
      Elapse(0);
      ok := *;
      fileOps := fileOps + [ok];
    }

    /** One call on Proxmox. */
    method Call(c: Call, path: string) returns (ok: bool)
      modifies this`now, this`rows, this`calls
      ensures now >= old(now) && calls == old(calls) + [Asked(c, path, ok)]
    {
      Meanwhile();
      ok := *;
      calls := calls + [Asked(c, path, ok)];
    }

    /** One task poll. */
    method TaskStatus() returns (answer: Option<TaskState>)
      modifies this`now, this`rows, this`polls
      ensures now >= old(now)
      ensures |polls| == |old(polls)| + 1 && polls[..|old(polls)|] == old(polls)
      ensures polls[|old(polls)|].answer == answer && old(now) <= polls[|old(polls)|].at <= now
    {
      Meanwhile();
      answer := *;
      polls := polls + [Poll(now, answer)];
    }

    /** One read of /cluster/resources, None when it fails. */
    method ClusterResources() returns (answer: Option<seq<Entry>>)
      modifies this`now, this`clusterPolls
      ensures now >= old(now) && clusterPolls == old(clusterPolls) + [answer]
    {
      Elapse(0);
      answer := *;
      clusterPolls := clusterPolls + [answer];
    }
  }

  function Target(request: Request): Status {
    match request
    case Claim => Claimed
    case Complete(final) => Finished(final)
  }
}
