/** Failure-compatible result types shared by the models. */
module Outcomes {

  datatype Option<+T> = None | Some(value: T)

  /** The reason given to OOPS: once it is called the machine stops for good. */
  datatype Oops =
    | QueueNotRunning | QueueFull
    | ProcIdOutOfRange | LockInBadState | StopOfDeadProcess | CleanupOfLiveProcess
    | HatchInBadState | HatchWithoutEntry | HatchWithoutHeap | HatchedNotReady
    | SwitchToInvalidId | SwitchFromUser | SwitchToUnready | SwitchToLocked
    | LeaveInvalidId | LeaveInvalidState | LeaveKernelNotReady
    | CallbackIntoDeadProcess | PayloadTooLarge
    | ReplyTableFull | ReplyToNobody | FailOfEmptyToken | ListenerTableFull | NotificationRefused
    | DeviceInvalid | DeviceCallerNotRunning | ListenerWithoutHolder
    | ImageRejected | PageNotMapped
    | RunLoopToken | RunLoopItemState | RunLoopPayload
    | NoPageTable | IllegalPage | IllegalFrame | FrameInUse | FrameNotInUse
    | MapInconsistent

  /** Either a value, or the machine has halted. */
  datatype Outcome<+T> = Ok(value: T) | Halt(reason: Oops) {
    predicate IsFailure() {
      Halt?
    }

    function PropagateFailure<U>(): Outcome<U>
      requires Halt?
    {
      Halt(reason)
    }

    function Extract(): T
      requires Ok?
    {
      value
    }
  }

  /** A routine either returns, leaving the described state, or calls OOPS for the described reason. */
  ghost predicate Follows<S>(oops: Option<Oops>, after: S, described: Outcome<S>) {
    match described
    case Ok(s) => oops.None? && after == s
    case Halt(why) => oops == Some(why)
  }

  ghost predicate FollowsWith<S, T>(oops: Option<Oops>, after: S, result: T, described: Outcome<(S, T)>) {
    match described
    case Ok((s, r)) => oops.None? && after == s && result == r
    case Halt(why) => oops == Some(why)
  }
}
