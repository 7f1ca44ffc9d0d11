/**
 `Dispatcher.Handle` and `ReadDispatcher.Handle` as one program: a program
 counter and the answers it reacts to.  The two functions differ in what a row
 asks for (`Routing.Route`) and in that only a write row has a task to await.
 */
module HandlerProgram {
  import opened Common
  import opened Routing

  datatype Final = Done | Failed | Expired

  /**
   What one PATCH attempt tells the agent: rows were hit, none was, the token
   was refused, any other non-2xx or undecodable answer, or nothing at all
   (transport error, timeout, no token to send).
   */
  datatype Answer = Hit | Miss | Unauthorized | Refused | Silence

  /** How the wait for a Proxmox task ends: stopped with OK, stopped otherwise, or with an error. */
  datatype TaskEnd = ExitOk | ExitOther | AwaitError

  datatype Pc =
    | Begin
    | Claiming(expired: bool, second: bool)
    | ClaimReauth(expired: bool)
    | Deciding
    | Invoking(call: Call)
    | Awaiting
    | Completing(final: Final, second: bool)
    | CompleteReauth(final: Final)
    | Returned

  datatype Event =
    | Checked(expired: bool)
    | Answered(answer: Answer)
    | Refreshed(ok: bool)
    | Decided
    | CallReturned(ok: bool)
    | TaskEnded(end: TaskEnd)

  /** The program.  None: the event does not occur at this point. */
  function Step(cmd: Cmd, hasKey: bool, pc: Pc, e: Event): Option<Pc> {
    match (pc, e)
    case (Begin, Checked(expired)) => Some(Claiming(expired, false))
    case (Claiming(expired, second), Answered(a)) =>
      Some(if a.Hit? then (if expired then Completing(Expired, false) else Deciding)
           else if a.Unauthorized? && !second then ClaimReauth(expired)
           else Returned)
    case (ClaimReauth(expired), Refreshed(ok)) => Some(if ok then Claiming(expired, true) else Returned)
    case (Deciding, Decided) =>
      Some(match Route(cmd, hasKey)
           case Reject(_) => Completing(Failed, false)
           case Invoke(c) => Invoking(c))
    case (Invoking(_), CallReturned(ok)) =>
      Some(if !ok then Completing(Failed, false)
           else if cmd.Write? then Awaiting
           else Completing(Done, false))
    case (Awaiting, TaskEnded(end)) => Some(Completing(if end.ExitOk? then Done else Failed, false))
    case (Completing(final, second), Answered(a)) =>
      Some(if a.Unauthorized? && !second then CompleteReauth(final) else Returned)
    case (CompleteReauth(final), Refreshed(ok)) => Some(if ok then Completing(final, true) else Returned)
    case _ => None
  }

  /** The program counter after a sequence of events. */
  function Run(cmd: Cmd, hasKey: bool, pc: Pc, events: seq<Event>): Option<Pc>
    decreases |events|
  {
    if events == [] then Some(pc)
    else match Step(cmd, hasKey, pc, events[0])
      case None => None
      case Some(next) => Run(cmd, hasKey, next, events[1..])
  }

  lemma {:induction false} RunAppend(cmd: Cmd, hasKey: bool, pc: Pc, a: seq<Event>, b: seq<Event>)
    ensures Run(cmd, hasKey, pc, a + b) ==
            match Run(cmd, hasKey, pc, a) case None => None case Some(m) => Run(cmd, hasKey, m, b)
    decreases |a|
  {
    if a == [] {
      assert a + b == b;
    } else {
      assert (a + b)[1..] == a[1..] + b;
      match Step(cmd, hasKey, pc, a[0])
      case None =>
      case Some(next) => RunAppend(cmd, hasKey, next, a[1..], b);
    }
  }

  /** Own steps left at most. */
  function StepsLeft(pc: Pc): nat {
    match pc
    case Begin => 10
    case Claiming(_, second) => if second then 7 else 9
    case ClaimReauth(_) => 8
    case Deciding => 6
    case Invoking(_) => 5
    case Awaiting => 4
    case Completing(_, second) => if second then 1 else 3
    case CompleteReauth(_) => 2
    case Returned => 0
  }

  lemma StepsDescend(cmd: Cmd, hasKey: bool, pc: Pc, e: Event)
    requires Step(cmd, hasKey, pc, e).Some?
    ensures StepsLeft(Step(cmd, hasKey, pc, e).value) < StepsLeft(pc)
  {
  }

  /** However the environment answers, a handler returns after at most ten events. */
  lemma {:induction false} RunIsShort(cmd: Cmd, hasKey: bool, pc: Pc, events: seq<Event>)
    requires Run(cmd, hasKey, pc, events).Some?
    ensures |events| <= StepsLeft(pc) - StepsLeft(Run(cmd, hasKey, pc, events).value)
    ensures pc.Begin? ==> |events| <= 10
    decreases |events|
  {
    if events != [] {
      StepsDescend(cmd, hasKey, pc, events[0]);
      RunIsShort(cmd, hasKey, Step(cmd, hasKey, pc, events[0]).value, events[1..]);
    }
  }
}
