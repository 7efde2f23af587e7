/**
 * `_launch_exact` of scripts/benchmark_ck07r1_lifecycle_scale.py as a transition
 * system: any number of launchers share one ledger file, each with a forked child
 * behind a pipe.  A program point stands for one statement that can raise, be
 * interrupted, or be the last thing a crashing parent did.  An event that is not
 * enabled leaves the world unchanged, so every sequence of events is a run.
 */
module Launch {
  import opened Wrappers
  import opened RunLedger
  import Receipt

  // ---- State ------------------------------------------------------------

  datatype Exit = Raised | Code(code: int)

  datatype Pc =
    // before the first `try`
    | Preflight | Recovery | Create | Created
    // the first `try`
    | OpenPipe | Fork | Setup | Handshake | Record | Mark | PersistToken | MarkRelease | WriteRelease | CloseRelease
    // its handler
    | LaunchCaught | LaunchReap | LaunchReaped | LaunchPersist
    // the second `try` and its handler
    | AwaitChild | Waiting | WaitCaught | WaitReap | WaitReaped | WaitPersist
    // finalization
    | Collected | Evidence | PersistResult | Validate | PersistCompleted | FinalCaught | FinalPersist
    | Finished(result: int)
    | Exited(exit: Exit) | Crashed

  /** The child between fork and exit; `Escaped` runs the handler it inherited from `_launch_exact`. */
  datatype Child =
    | NotForked | Starting | Blocked | Admitted | Working | Returning(code: int) | Escaped | Dead(status: int)

  /** One process of a scan, with the outcome of the lexical command comparison. */
  datatype ProcessItem = ProcessItem(
    pid: int, parentPid: int, user: string, signature: string, commandSignature: string,
    argvMatches: bool, cwd: string)

  /** What the parent knows before the fork, and the pid the operating system will give the child. */
  datatype Identity = Identity(parentPid: int, childPid: int, user: string, signature: string, cwd: string)

  /** The test of `_observe_child_start` on one observed process. */
  predicate ExactChild(item: ProcessItem, identity: Identity) {
    && item.pid == identity.childPid
    && item.parentPid == identity.parentPid
    && item.user == identity.user
    && item.signature == identity.signature
    && item.commandSignature == identity.signature
    && item.argvMatches
    && item.cwd == identity.cwd
  }

  /** The locals of `_launch_exact`. `created` is true once `_exclusive_write` returned. */
  datatype Parent = Parent(
    pc: Pc, ledger: Ledger, created: bool, handshake: Option<ProcessItem>, childPid: bool, childReaped: bool,
    persistenceStarted: bool, tokenPersisted: bool, releaseStarted: bool, childReleased: bool,
    writeEnd: bool, cleanupFailed: bool, stage: Stage, exitCode: int, timedOut: bool,
    evidence: Option<Receipt.Evidence>, payload: Option<Receipt.Payload>)

  /** What happened in the run so far; no transition reads a mark. */
  datatype Marks = Marks(
    released: bool,       // the release byte was written
    entered: bool,        // the child entered its workload
    pidLost: bool,        // interrupted between fork and the assignment of its result
    midRecord: bool,      // interrupted between the in-memory consumption and its flag
    unguarded: bool,      // interrupted where no handler can persist a terminal image
    persistFailed: bool,  // the last-resort terminal write left the old image
    finalLanded: bool)    // the first finalization write put its image in place

  datatype Proc = Proc(
    parent: Parent, child: Child, reaped: bool, pipeByte: bool, launch: LaunchFacts, marks: Marks)

  /** The launch contract: the identities fixed before the fork. */
  datatype LaunchFacts = LaunchFacts(identity: Identity, binding: Receipt.Binding)

  /** `creator` is the launcher whose O_EXCL open succeeded. */
  datatype World = World(file: File, procs: seq<Proc>, creator: Option<nat>)

  datatype Event =
    // the parent's current statement
    | Proceed                                     // returns normally
    | Fail                                        // raises
    | Interrupt                                   // SIGINT or SIGTERM is converted to an exception
    | Crash
    | CreateBroken(torn: bool, crash: bool)       // the exclusive write stops after the open
    | ForkInterrupted                             // forked, but the pid never reached its variable
    | ReleaseInterrupted                          // the byte was written before the exception
    | Write(outcome: WriteOutcome)                // a ledger update
    | Scanned(items: seq<ProcessItem>)            // one process scan of the handshake
    | Reap(ok: bool)                              // `_reap_child`
    | ChildObserved                               // the wait reaps a dead child
    | ChildLost                                   // reaped by the wait, then interrupted
    | DeadlineExpired                             // the deadline passed; terminated and reaped
    | EvidenceBuilt(evidence: Receipt.Evidence)
    | Parsed(payload: Receipt.Payload)
    // the child
    | ChildBlocks | ChildReads | ChildEnters | ChildReturns(code: int) | ChildExits
    | ChildInterrupted | ChildKilled | ChildOverwrites(outcome: WriteOutcome)

  function StartParent(owner: nat): Parent {
    Parent(Preflight, Initial(owner), false, None, false, false, false, false, false, false,
           false, false, EvidenceCollection, 0, false, None, None)
  }

  function StartProc(owner: nat, launch: LaunchFacts): Proc {
    Proc(StartParent(owner), NotForked, false, false, launch, Marks(false, false, false, false, false, false, false))
  }

  function Start(launches: seq<LaunchFacts>): World {
    World(Absent, seq(|launches|, i requires 0 <= i < |launches| => StartProc(i, launches[i])), None)
  }

  // ---- The parent -------------------------------------------------------

  datatype Outcome = Outcome(file: File, proc: Proc)

  /** The three interrupt marks are as before. */
  predicate SameInterrupts(p: Proc, q: Proc) {
    && q.marks.unguarded == p.marks.unguarded
    && q.marks.pidLost == p.marks.pidLost
    && q.marks.midRecord == p.marks.midRecord
  }

  /** So are the two marks of the terminal writes. */
  predicate SameWrites(p: Proc, q: Proc) {
    q.marks.persistFailed == p.marks.persistFailed && q.marks.finalLanded == p.marks.finalLanded
  }

  function At(file: File, p: Proc, pc: Pc): (o: Outcome)
    ensures o.proc.launch == p.launch && SameInterrupts(p, o.proc) && SameWrites(p, o.proc)
  {
    Outcome(file, p.(parent := p.parent.(pc := pc)))
  }

  /** The process ends: its copy of the pipe's write end closes. */
  function Leave(file: File, p: Proc, exit: Exit): (o: Outcome)
    ensures o.proc.launch == p.launch && SameInterrupts(p, o.proc) && SameWrites(p, o.proc)
  {
    Outcome(file, p.(parent := p.parent.(pc := Exited(exit), writeEnd := false)))
  }

  function LeaveUnguarded(file: File, p: Proc): (o: Outcome)
    ensures o.proc.launch == p.launch && SameWrites(p, o.proc)
  {
    Leave(file, p.(marks := p.marks.(unguarded := true)), Raised)
  }

  predicate ParentAlive(p: Proc) {
    !p.parent.pc.Exited? && !p.parent.pc.Crashed?
  }

  /** Statements of the first `try`. */
  predicate InLaunchTry(pc: Pc) {
    pc.OpenPipe? || pc.Fork? || pc.Setup? || pc.Handshake? || pc.Record? || pc.Mark? || pc.PersistToken?
    || pc.MarkRelease? || pc.WriteRelease? || pc.CloseRelease?
  }

  /** Statements of the finalization's `try`. */
  predicate InFinalTry(pc: Pc) {
    pc.Evidence? || pc.PersistResult? || pc.Validate? || pc.PersistCompleted?
  }

  /** Where an interrupt leaves the function with no terminal image written for it. */
  predicate Unguarded(pc: Pc) {
    pc.Created? || pc.LaunchCaught? || pc.LaunchReaped? || pc.AwaitChild? || pc.WaitCaught? || pc.WaitReaped?
    || pc.Collected? || pc.FinalCaught?
  }

  /** Statements that run with SIGINT and SIGTERM ignored. */
  predicate Shielded(pc: Pc) {
    pc.LaunchReap? || pc.LaunchPersist? || pc.WaitReap? || pc.WaitPersist? || pc.FinalPersist?
  }

  /** The terminal state the first handler persists. */
  function HandlerState(a: Parent): State {
    if a.persistenceStarted || a.tokenPersisted || a.releaseStarted || a.childReleased then FailedAfterLaunch
    else PrelaunchFailed
  }

  function HandlerStage(a: Parent): Stage {
    if HandlerState(a).FailedAfterLaunch? then PostLaunchHandshake else ChildStartHandshake
  }

  function ProceedParent(file: File, p: Proc, owner: nat): (o: Outcome)
    ensures o.proc.launch == p.launch && SameInterrupts(p, o.proc) && SameWrites(p, o.proc)
  {
    var a := p.parent;
    match a.pc
    case Preflight => if file.Absent? then At(file, p, Recovery) else Leave(file, p, Raised)
    case Recovery => if file.Absent? then At(file, p, Create) else Leave(file, p, Raised)
    case Create =>
      if file.Absent? then
        Outcome(Holding(a.ledger, false), p.(parent := a.(pc := Created, created := true)))
      else Leave(file, p, Raised)
    case Created => At(file, p, OpenPipe)
    case OpenPipe => Outcome(file, p.(parent := a.(pc := Fork, writeEnd := true)))
    case Fork => Outcome(file, p.(parent := a.(pc := Setup, childPid := true), child := Starting))
    case Setup => At(file, p, Handshake)
    case Record => Outcome(file, p.(parent := a.(pc := Mark, ledger := Launched(a.ledger))))
    case Mark => Outcome(file, p.(parent := a.(pc := PersistToken, persistenceStarted := true)))
    case MarkRelease =>
      Outcome(file, p.(parent := a.(pc := WriteRelease, tokenPersisted := true, releaseStarted := true)))
    case WriteRelease =>
      Outcome(file, p.(parent := a.(pc := CloseRelease), pipeByte := true, marks := p.marks.(released := true)))
    case CloseRelease =>
      Outcome(file, p.(parent := a.(pc := AwaitChild, childReleased := true, writeEnd := false)))
    case LaunchCaught =>
      Outcome(file, p.(parent := a.(
                         pc := if a.childPid && !a.childReaped then LaunchReap else LaunchReaped, writeEnd := false)))
    case LaunchReaped => At(file, p, LaunchPersist)
    case AwaitChild => At(file, p, Waiting)
    case WaitCaught => At(file, p, if a.childPid && !a.childReaped then WaitReap else WaitReaped)
    case WaitReaped => At(file, p, WaitPersist)
    case Collected => Outcome(file, p.(parent := a.(pc := Evidence, stage := EvidenceCollection)))
    case FinalCaught => At(file, p, FinalPersist)
    case Finished(result) => Leave(file, p, Code(result))
    case _ => Outcome(file, p)
  }

  /** The current statement raises; an assignment cannot. */
  function FailParent(file: File, p: Proc): (o: Outcome)
    ensures o.proc.launch == p.launch && SameInterrupts(p, o.proc) && SameWrites(p, o.proc)
  {
    var pc := p.parent.pc;
    if pc.Preflight? || pc.Recovery? || pc.Create? then Leave(file, p, Raised)
    else if InLaunchTry(pc) && !pc.Mark? && !pc.MarkRelease? then At(file, p, LaunchCaught)
    else if pc.Waiting? then At(file, p, WaitCaught)
    else if InFinalTry(pc) then At(file, p, FinalCaught)
    else Outcome(file, p)
  }

  function InterruptParent(file: File, p: Proc): (o: Outcome)
    ensures o.proc.launch == p.launch && SameWrites(p, o.proc)
  {
    var pc := p.parent.pc;
    if Unguarded(pc) then LeaveUnguarded(file, p)
    else if InLaunchTry(pc) then
      At(file, p.(marks := p.marks.(midRecord := p.marks.midRecord || pc.Mark?)), LaunchCaught)
    else if pc.Waiting? then At(file, p, WaitCaught)
    else if InFinalTry(pc) then At(file, p, FinalCaught)
    else if Shielded(pc) then Outcome(file, p)
    else Leave(file, p, Raised)
  }

  /** The handshake loop: any other matching process raises, the exact child ends it, nothing polls again. */
  function ScanParent(file: File, p: Proc, items: seq<ProcessItem>): (o: Outcome)
    ensures o.proc.launch == p.launch && SameInterrupts(p, o.proc) && SameWrites(p, o.proc)
  {
    if !p.parent.pc.Handshake? then Outcome(file, p)
    else if exists i :: 0 <= i < |items| && items[i].pid != p.launch.identity.childPid then At(file, p, LaunchCaught)
    else if items != [] && ExactChild(items[0], p.launch.identity) then
      Outcome(file, p.(parent := p.parent.(pc := Record, handshake := Some(items[0]))))
    else if items != [] then ScanParent(file, p, items[1..])
    else Outcome(file, p)
  }

  /** A handler's terminal write; whether or not the write raises, the handler leaves by an exception. */
  function PersistLast(file: File, p: Proc, image: Ledger, outcome: WriteOutcome): (o: Outcome)
    ensures o.proc.launch == p.launch && SameInterrupts(p, o.proc)
  {
    var q := p.(parent := p.parent.(ledger := image),
                marks := p.marks.(persistFailed := p.marks.persistFailed || !Lands(outcome)));
    Leave(Put(file, image, false, outcome), q, Raised)
  }

  /** The first durable consumption. */
  function TokenWrite(file: File, p: Proc, outcome: WriteOutcome): (o: Outcome)
    ensures o.proc.launch == p.launch && SameInterrupts(p, o.proc) && SameWrites(p, o.proc)
  {
    At(Put(file, p.parent.ledger, false, outcome), p, if outcome.Returned? then MarkRelease else LaunchCaught)
  }

  /** The first finalization write; its exception goes to the finalization's handler. */
  function FinalizationWrite(file: File, p: Proc, image: Ledger, outcome: WriteOutcome): (o: Outcome)
    ensures o.proc.launch == p.launch && SameInterrupts(p, o.proc)
  {
    At(Put(file, image, false, outcome), p.(marks := p.marks.(finalLanded := Lands(outcome))),
       if outcome.Returned? then Finished(p.parent.exitCode) else FinalCaught)
  }

  /** The finalization's own last-resort write: it returns 70 unless the write raises. */
  function FallbackWrite(file: File, p: Proc, outcome: WriteOutcome): (o: Outcome)
    ensures o.proc.launch == p.launch && SameInterrupts(p, o.proc)
  {
    var image := FailedWith(p.parent.ledger, FailedAfterLaunch, Failure(p.parent.stage, false));
    var o := PersistLast(file, p, image, outcome);
    if outcome.Returned? then At(o.file, o.proc, Finished(70)) else o
  }

  function WriteParent(file: File, p: Proc, outcome: WriteOutcome): (o: Outcome)
    ensures o.proc.launch == p.launch && SameInterrupts(p, o.proc)
  {
    var a := p.parent;
    match a.pc
    case PersistToken => TokenWrite(file, p, outcome)
    case LaunchPersist =>
      PersistLast(file, p, FailedWith(a.ledger, HandlerState(a), Failure(HandlerStage(a), a.cleanupFailed)), outcome)
    case WaitPersist =>
      PersistLast(file, p, FailedWith(a.ledger, FailedAfterLaunch, Failure(ChildWait, a.cleanupFailed)), outcome)
    case PersistResult => FinalizationWrite(file, p, a.ledger, outcome)
    case PersistCompleted =>
      if a.payload.None? || a.evidence.None? then Outcome(file, p)
      else
        var summary := Receipt.SummaryOf(a.payload.value, a.evidence.value);
        FinalizationWrite(file, p, CompletedResult(a.ledger, a.exitCode, a.timedOut, summary), outcome)
    case FinalPersist => FallbackWrite(file, p, outcome)
    case _ => Outcome(file, p)
  }

  /** The status a reaped child reports: its own when it is dead, else the terminating signal. */
  function StatusOf(child: Child): int {
    if child.Dead? then child.status else -15
  }

  /** `_reap_child` in a handler: it fails for a child that was already reaped. */
  function ReapParent(file: File, p: Proc, ok: bool): (o: Outcome)
    ensures o.proc.launch == p.launch && SameInterrupts(p, o.proc) && SameWrites(p, o.proc)
  {
    var a := p.parent;
    if !a.pc.LaunchReap? && !a.pc.WaitReap? then Outcome(file, p)
    else
      var next := if a.pc.LaunchReap? then LaunchReaped else WaitReaped;
      if ok && !p.reaped then
        Outcome(file, p.(parent := a.(pc := next, childReaped := true), child := Dead(StatusOf(p.child)), reaped := true))
      else Outcome(file, p.(parent := a.(pc := next, cleanupFailed := true)))
  }

  /** `_wait_for_child` returns or is interrupted after its reap. */
  function WaitParent(file: File, p: Proc, e: Event): (o: Outcome)
    ensures o.proc.launch == p.launch && SameInterrupts(p, o.proc) && SameWrites(p, o.proc)
  {
    var a := p.parent;
    if !a.pc.Waiting? || p.reaped || (!p.child.Dead? && !e.DeadlineExpired?) then Outcome(file, p)
    else
      var q := p.(child := Dead(StatusOf(p.child)), reaped := true);
      if e.ChildLost? then At(file, q, WaitCaught)
      else Outcome(file, q.(parent := a.(pc := Collected, childReaped := true, exitCode := StatusOf(p.child),
                                         timedOut := e.DeadlineExpired?)))
  }

  /** The evidence is built; a failed or timed-out child is finalized without a receipt. */
  function EvidenceParent(file: File, p: Proc, evidence: Receipt.Evidence): (o: Outcome)
    ensures o.proc.launch == p.launch && SameInterrupts(p, o.proc) && SameWrites(p, o.proc)
  {
    var a := p.parent;
    if !a.pc.Evidence? || !Receipt.ValidEvidence(evidence) then Outcome(file, p)
    else if a.exitCode == 0 && !a.timedOut then
      Outcome(file, p.(parent := a.(pc := Validate, evidence := Some(evidence), stage := ReceiptParseValidation)))
    else
      Outcome(file, p.(parent := a.(pc := PersistResult, evidence := Some(evidence),
                                    ledger := FailedResult(a.ledger, a.exitCode, a.timedOut),
                                    stage := TerminalFailureFinalization)))
  }

  /** The output is parsed and validated. */
  function ParsedParent(file: File, p: Proc, payload: Receipt.Payload): (o: Outcome)
    ensures o.proc.launch == p.launch && SameInterrupts(p, o.proc) && SameWrites(p, o.proc)
  {
    var a := p.parent;
    if !a.pc.Validate? || a.evidence.None? then Outcome(file, p)
    else if Receipt.Accepted(payload, p.launch.binding, a.evidence.value) then
      Outcome(file, p.(parent := a.(pc := PersistCompleted, payload := Some(payload), stage := ReceiptFinalization)))
    else At(file, p, FinalCaught)
  }

  function CrashParent(file: File, p: Proc): (o: Outcome)
    ensures o.proc.launch == p.launch && SameInterrupts(p, o.proc) && SameWrites(p, o.proc)
  {
    Outcome(file, p.(parent := p.parent.(pc := Crashed, writeEnd := false)))
  }

  /** The exclusive creation stops after its open. */
  function CreateBrokenParent(file: File, p: Proc, torn: bool, crash: bool): (o: Outcome)
    ensures o.proc.launch == p.launch && SameInterrupts(p, o.proc) && SameWrites(p, o.proc)
  {
    if !p.parent.pc.Create? || !file.Absent? then Outcome(file, p)
    else
      Outcome(if torn then Torn else Holding(p.parent.ledger, false),
              p.(parent := p.parent.(pc := if crash then Crashed else Exited(Raised))))
  }

  function ForkInterruptedParent(file: File, p: Proc): (o: Outcome)
    ensures o.proc.launch == p.launch && SameWrites(p, o.proc)
  {
    if !p.parent.pc.Fork? then Outcome(file, p)
    else At(file, p.(child := Starting, marks := p.marks.(pidLost := true)), LaunchCaught)
  }

  function ReleaseInterruptedParent(file: File, p: Proc): (o: Outcome)
    ensures o.proc.launch == p.launch && SameInterrupts(p, o.proc) && SameWrites(p, o.proc)
  {
    if !p.parent.pc.WriteRelease? then Outcome(file, p)
    else At(file, p.(pipeByte := true, marks := p.marks.(released := true)), LaunchCaught)
  }

  // ---- The child --------------------------------------------------------

  /** The image an escaped child writes: its fork-time copy of the ledger, marked `prelaunch_failed`. */
  function ChildImage(owner: nat): Ledger {
    FailedWith(Initial(owner), PrelaunchFailed, Failure(ChildStartHandshake, false))
  }

  /** The child's own state; while blocked on the pipe it ignores signals. */
  function ChildMove(child: Child, e: Event, pipeByte: bool, writeEnd: bool): Child {
    if e.ChildKilled? then (if child.NotForked? || child.Dead? then child else Dead(-9))
    else
      match child
      case Starting => if e.ChildBlocks? then Blocked else if e.ChildInterrupted? then Escaped else child
      case Blocked => if !e.ChildReads? then child else if pipeByte then Admitted else if !writeEnd then Dead(71) else child
      case Admitted => if e.ChildEnters? then Working else if e.ChildInterrupted? then Escaped else child
      case Working => if e.ChildReturns? then Returning(e.code) else if e.ChildInterrupted? then Returning(70) else child
      case Returning(code) => if e.ChildExits? then Dead(code) else if e.ChildInterrupted? then Escaped else child
      case Escaped => if e.ChildInterrupted? || e.ChildOverwrites? then Dead(1) else child
      case _ => child
  }

  function ChildStep(file: File, p: Proc, e: Event, owner: nat): (o: Outcome)
    ensures o.proc.launch == p.launch && SameInterrupts(p, o.proc) && SameWrites(p, o.proc)
  {
    var child := ChildMove(p.child, e, p.pipeByte, p.parent.writeEnd);
    Outcome(
      if e.ChildOverwrites? && p.child.Escaped? then Put(file, ChildImage(owner), true, e.outcome) else file,
      p.(child := child,
         pipeByte := p.pipeByte && !(p.child.Blocked? && child.Admitted?),
         marks := p.marks.(entered := p.marks.entered || (p.child.Admitted? && child.Working?))))
  }

  // ---- Runs -------------------------------------------------------------

  predicate IsChildEvent(e: Event) {
    e.ChildBlocks? || e.ChildReads? || e.ChildEnters? || e.ChildReturns? || e.ChildExits? || e.ChildInterrupted?
    || e.ChildKilled? || e.ChildOverwrites?
  }

  function Next(file: File, p: Proc, e: Event, owner: nat): (o: Outcome)
    ensures o.proc.launch == p.launch
  {
    if IsChildEvent(e) then ChildStep(file, p, e, owner)
    else if !ParentAlive(p) then Outcome(file, p)
    else
      match e
      case Proceed => ProceedParent(file, p, owner)
      case Fail => FailParent(file, p)
      case Interrupt => InterruptParent(file, p)
      case Crash => CrashParent(file, p)
      case CreateBroken(torn, crash) => CreateBrokenParent(file, p, torn, crash)
      case ForkInterrupted => ForkInterruptedParent(file, p)
      case ReleaseInterrupted => ReleaseInterruptedParent(file, p)
      case Write(outcome) => WriteParent(file, p, outcome)
      case Scanned(items) => ScanParent(file, p, items)
      case Reap(ok) => ReapParent(file, p, ok)
      case ChildObserved => WaitParent(file, p, e)
      case ChildLost => WaitParent(file, p, e)
      case DeadlineExpired => WaitParent(file, p, e)
      case EvidenceBuilt(evidence) => EvidenceParent(file, p, evidence)
      case Parsed(payload) => ParsedParent(file, p, payload)
      case _ => Outcome(file, p)
  }

  /** One step of launcher `i`. */
  function Step(w: World, i: nat, e: Event): World {
    if i >= |w.procs| then w
    else
      var o := Next(w.file, w.procs[i], e, i);
      World(o.file, w.procs[i := o.proc], if w.file.Absent? && !o.file.Absent? then Some(i) else w.creator)
  }

  function Exec(w: World, schedule: seq<(nat, Event)>): (r: World)
    ensures |r.procs| == |w.procs|
    decreases |schedule|
  {
    if schedule == [] then w else Exec(Step(w, schedule[0].0, schedule[0].1), schedule[1..])
  }

  /** The run of a schedule from the start. */
  function Run(launches: seq<LaunchFacts>, schedule: seq<(nat, Event)>): (w: World)
    ensures |w.procs| == |launches|
  {
    Exec(Start(launches), schedule)
  }
}
