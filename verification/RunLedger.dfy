/**
 * The run ledger of scripts/benchmark_ck07r1_lifecycle_scale.py: its images, the
 * file that holds them, and what one write of the file can do.
 */
module RunLedger {
  import opened Wrappers
  import Receipt

  /** `ChildStartVerified` occurs only as a mark in `process_states`, never as the ledger's own state. */
  datatype State =
    | PrelaunchVerified | ChildStartVerified | LaunchedConsumed
    | PrelaunchFailed | FailedAfterLaunch | Completed

  datatype Stage =
    | ChildStartHandshake | PostLaunchHandshake | ChildWait
    | EvidenceCollection | TerminalFailureFinalization | ReceiptParseValidation | ReceiptFinalization

  /** `cleanupFailed`: the recorded message says that the bounded child cleanup failed. */
  datatype Failure = Failure(stage: Stage, cleanupFailed: bool)

  /** `owner` is the launcher that created the file (`parent_pid`). */
  datatype Ledger = Ledger(
    owner: nat, state: State, tokenConsumed: bool, processStates: seq<State>,
    exitCode: Option<int>, timedOut: Option<bool>,
    receipt: Option<Receipt.Summary>, failure: Option<Failure>)

  predicate Terminal(state: State) {
    state.PrelaunchFailed? || state.FailedAfterLaunch? || state.Completed?
  }

  /** The image written by the exclusive creation. */
  function Initial(owner: nat): Ledger {
    Ledger(owner, PrelaunchVerified, false, [PrelaunchVerified], None, None, None, None)
  }

  /** The in-memory update that consumes the token. */
  function Launched(ledger: Ledger): Ledger {
    ledger.(state := LaunchedConsumed, tokenConsumed := true,
            processStates := ledger.processStates + [ChildStartVerified, LaunchedConsumed])
  }

  /** `_persist_terminal_failure`. */
  function FailedWith(ledger: Ledger, state: State, failure: Failure): Ledger {
    ledger.(state := state, failure := Some(failure), processStates := ledger.processStates + [state])
  }

  /** The in-memory update of a child that failed or timed out. */
  function FailedResult(ledger: Ledger, exitCode: int, timedOut: bool): Ledger {
    ledger.(state := FailedAfterLaunch, exitCode := Some(exitCode), timedOut := Some(timedOut),
            processStates := ledger.processStates + [FailedAfterLaunch])
  }

  /** The single finalized image of a successful run. */
  function CompletedResult(ledger: Ledger, exitCode: int, timedOut: bool, receipt: Receipt.Summary): Ledger {
    ledger.(state := Completed, exitCode := Some(exitCode), timedOut := Some(timedOut),
            receipt := Some(receipt), processStates := ledger.processStates + [Completed])
  }

  /** A ledger write returns, raises with the old image in place, or raises with the new image in place. */
  datatype WriteOutcome = Returned | RaisedBefore | RaisedAfter

  predicate Lands(outcome: WriteOutcome) {
    !outcome.RaisedBefore?
  }

  /** `Torn` is an exclusively created file whose first content was cut short. */
  datatype File =
    | Absent
    | Torn
    | Holding(image: Ledger, byChild: bool)

  function Put(file: File, image: Ledger, byChild: bool, outcome: WriteOutcome): File {
    if Lands(outcome) then Holding(image, byChild) else file
  }

  predicate Consumed(file: File) {
    file.Holding? && file.image.tokenConsumed
  }

  predicate Ended(file: File) {
    file.Holding? && Terminal(file.image.state)
  }

  /** What a power cut can leave after a write, given what it could leave before: a write that returned was flushed. */
  ghost function LeftByWrite<T>(left: set<T>, image: T, outcome: WriteOutcome): set<T> {
    match outcome
    case Returned => {image}
    case RaisedAfter => left + {image}
    case RaisedBefore => left
  }
}
