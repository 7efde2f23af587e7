/**
 * Concrete runs of one launcher: the fault-free run completes, and each claim
 * that fails of the code fails in a run given here event by event.
 */
module LaunchRuns {
  import opened Wrappers
  import opened RunLedger
  import opened Launch
  import opened LaunchInvariant
  import opened LaunchSteps
  import opened LaunchTheorems
  import opened LaunchOutcomes
  import opened LaunchFollows
  import opened LaunchEnds
  import Receipt

  /** The schedule brings the only launcher and the file to the given state. */
  predicate Reached(launch: LaunchFacts, schedule: seq<(nat, Event)>, file: File, p: Proc) {
    var w := Run([launch], schedule);
    w.file == file && w.procs[0] == p
  }

  lemma Then(launch: LaunchFacts, schedule: seq<(nat, Event)>, file: File, p: Proc, e: Event)
    returns (longer: seq<(nat, Event)>, o: Outcome)
    requires Reached(launch, schedule, file, p)
    ensures longer == schedule + [(0, e)] && o == Next(file, p, e, 0)
    ensures Reached(launch, longer, o.file, o.proc)
  {
    hide Next;
    longer, o := schedule + [(0, e)], Next(file, p, e, 0);
    RunSnoc([launch], schedule, 0, e);
  }

  lemma ThenProceed(launch: LaunchFacts, schedule: seq<(nat, Event)>, file: File, p: Proc)
    returns (longer: seq<(nat, Event)>, o: Outcome)
    requires Reached(launch, schedule, file, p) && ParentAlive(p)
    ensures longer == schedule + [(0, Proceed)] && o == ProceedParent(file, p, 0)
    ensures Reached(launch, longer, o.file, o.proc)
  {
    hide Next, ProceedParent, Reached;
    NextProceed(file, p, 0);
    longer, o := Then(launch, schedule, file, p, Proceed);
  }

  lemma ThenWrite(launch: LaunchFacts, schedule: seq<(nat, Event)>, file: File, p: Proc, outcome: WriteOutcome)
    returns (longer: seq<(nat, Event)>, o: Outcome)
    requires Reached(launch, schedule, file, p) && ParentAlive(p)
    ensures longer == schedule + [(0, Write(outcome))] && o == WriteParent(file, p, outcome)
    ensures Reached(launch, longer, o.file, o.proc)
  {
    hide Next, WriteParent, Reached;
    NextWrite(file, p, outcome, 0);
    longer, o := Then(launch, schedule, file, p, Write(outcome));
  }

  lemma ThenChild(launch: LaunchFacts, schedule: seq<(nat, Event)>, file: File, p: Proc, e: Event)
    returns (longer: seq<(nat, Event)>, o: Outcome)
    requires Reached(launch, schedule, file, p) && IsChildEvent(e)
    ensures longer == schedule + [(0, e)] && o == ChildStep(file, p, e, 0)
    ensures Reached(launch, longer, o.file, o.proc)
  {
    hide Next, ChildStep, Reached;
    NextChild(file, p, e, 0);
    longer, o := Then(launch, schedule, file, p, e);
  }

  lemma ThenEvidence(
    launch: LaunchFacts, schedule: seq<(nat, Event)>, file: File, p: Proc, evidence: Receipt.Evidence)
    returns (longer: seq<(nat, Event)>, o: Outcome)
    requires Reached(launch, schedule, file, p) && ParentAlive(p)
    ensures longer == schedule + [(0, EvidenceBuilt(evidence))] && o == EvidenceParent(file, p, evidence)
    ensures Reached(launch, longer, o.file, o.proc)
  {
    hide Next, EvidenceParent, Reached;
    NextEvidence(file, p, evidence, 0);
    longer, o := Then(launch, schedule, file, p, EvidenceBuilt(evidence));
  }

  lemma ThenInterrupt(launch: LaunchFacts, schedule: seq<(nat, Event)>, file: File, p: Proc)
    returns (longer: seq<(nat, Event)>, o: Outcome)
    requires Reached(launch, schedule, file, p) && ParentAlive(p)
    ensures longer == schedule + [(0, Interrupt)] && o == InterruptParent(file, p)
    ensures Reached(launch, longer, o.file, o.proc)
  {
    hide Next, InterruptParent, Reached;
    NextFail(file, p, 0);
    longer, o := Then(launch, schedule, file, p, Interrupt);
  }

  predicate Calm(schedule: seq<(nat, Event)>) {
    forall k :: 0 <= k < |schedule| ==> CalmEvent(schedule[k].1)
  }

  /** Calm, and nothing of the child's result is seen yet. */
  predicate Quiet(schedule: seq<(nat, Event)>) {
    forall k :: 0 <= k < |schedule| ==>
                  var e := schedule[k].1; CalmEvent(e) && !e.ChildReturns? && !e.EvidenceBuilt? && !e.Parsed?
  }

  // ---- States on the way ------------------------------------------------

  function ForkState(launch: LaunchFacts): Proc {
    StartProc(0, launch).(parent := StartParent(0).(pc := Fork, created := true, writeEnd := true))
  }

  function HandshakeState(launch: LaunchFacts): Proc {
    ForkState(launch).(parent := ForkState(launch).parent.(pc := Handshake, childPid := true), child := Starting)
  }

  function MarkState(launch: LaunchFacts, item: ProcessItem): Proc {
    HandshakeState(launch).(parent := HandshakeState(launch).parent.(
                           pc := Mark, handshake := Some(item), ledger := Launched(Initial(0))))
  }

  function WaitState(launch: LaunchFacts, item: ProcessItem): Proc {
    MarkState(launch, item).(
      parent := MarkState(launch, item).parent.(
        pc := Waiting, persistenceStarted := true, tokenPersisted := true, releaseStarted := true,
        childReleased := true, writeEnd := false),
      pipeByte := true, marks := MarkState(launch, item).marks.(released := true))
  }

  function WorkState(launch: LaunchFacts, item: ProcessItem): Proc {
    WaitState(launch, item).(child := Working, pipeByte := false,
                          marks := WaitState(launch, item).marks.(entered := true))
  }

  /** The child returned a code and is dead. */
  function DeathState(launch: LaunchFacts, item: ProcessItem, code: int): Proc {
    WorkState(launch, item).(child := Dead(code))
  }

  lemma ReachFork(launch: LaunchFacts) returns (s: seq<(nat, Event)>)
    ensures Reached(launch, s, Holding(Initial(0), false), ForkState(launch))
    ensures Quiet(s)
  {
    hide Next, ProceedParent, Initial;
    s := [];
    var p := StartProc(0, launch);
    assert Reached(launch, s, Absent, p);
    hide Reached;
    var o: Outcome;
    OpeningSteps(p, 0);
    s, o := ThenProceed(launch, s, Absent, p);
    OpeningSteps(o.proc, 0);
    s, o := ThenProceed(launch, s, Absent, o.proc);
    OpeningSteps(o.proc, 0);
    s, o := ThenProceed(launch, s, Absent, o.proc);
    SetupSteps(o.file, o.proc, 0);
    s, o := ThenProceed(launch, s, Holding(Initial(0), false), o.proc);
    SetupSteps(o.file, o.proc, 0);
    s, o := ThenProceed(launch, s, Holding(Initial(0), false), o.proc);
    assert o.proc == ForkState(launch);
  }

  lemma ReachMarking(launch: LaunchFacts, item: ProcessItem) returns (s: seq<(nat, Event)>)
    requires ExactChild(item, launch.identity)
    ensures Reached(launch, s, Holding(Initial(0), false), MarkState(launch, item))
    ensures Quiet(s)
  {
    hide Next, ProceedParent, Reached, Launched, Initial;
    s := ReachFork(launch);
    var file, o := Holding(Initial(0), false), Outcome(Holding(Initial(0), false), ForkState(launch));
    SetupSteps(file, o.proc, 0);
    s, o := ThenProceed(launch, s, file, o.proc);
    SetupSteps(file, o.proc, 0);
    s, o := ThenProceed(launch, s, file, o.proc);
    var p := HandshakeState(launch);
    assert o == Outcome(file, p);
    NextScan(file, p, [item], 0);
    s, o := Then(launch, s, file, p, Scanned([item]));
    p := p.(parent := p.parent.(pc := Record, handshake := Some(item)));
    assert o == Outcome(file, p);
    SetupSteps(file, p, 0);
    s, o := ThenProceed(launch, s, file, p);
    assert o == Outcome(file, MarkState(launch, item));
  }

  /** Released: the parent is about to wait. */
  function ReleasedState(launch: LaunchFacts, item: ProcessItem): Proc {
    WaitState(launch, item).(parent := WaitState(launch, item).parent.(pc := AwaitChild))
  }

  lemma ReachRelease(launch: LaunchFacts, item: ProcessItem) returns (s: seq<(nat, Event)>)
    requires ExactChild(item, launch.identity)
    ensures Reached(launch, s, Holding(Launched(Initial(0)), false), ReleasedState(launch, item))
    ensures Quiet(s)
  {
    hide Next, Receipt.Accepted, ChildStep, Launched, Initial;
    s := ReachMarking(launch, item);
    var file, p := Holding(Initial(0), false), MarkState(launch, item);
    var o: Outcome;
    s, o := ThenProceed(launch, s, file, p);
    p := p.(parent := p.parent.(pc := PersistToken, persistenceStarted := true));
    assert o == Outcome(file, p);
    s, o := ThenWrite(launch, s, file, p, Returned);
    file, p := Holding(Launched(Initial(0)), false), p.(parent := p.parent.(pc := MarkRelease));
    assert o == Outcome(file, p);
    s, o := ThenProceed(launch, s, file, p);
    p := p.(parent := p.parent.(pc := WriteRelease, tokenPersisted := true, releaseStarted := true));
    assert o == Outcome(file, p);
    s := ReleaseFrom(launch, s, file, p);
  }

  /** From the release write to the second `try`. */
  lemma ReleaseFrom(launch: LaunchFacts, before: seq<(nat, Event)>, file: File, p: Proc)
    returns (s: seq<(nat, Event)>)
    requires Reached(launch, before, file, p) && p.parent.pc.WriteRelease? && Quiet(before)
    ensures Quiet(s)
    ensures Reached(launch, s, file,
                    p.(parent := p.parent.(pc := AwaitChild, childReleased := true, writeEnd := false),
                       pipeByte := true, marks := p.marks.(released := true)))
  {
    hide Next, Receipt.Accepted, ProceedParent, Launched, Initial, Reached;
    var o: Outcome;
    ReleaseStep(file, p, 0);
    s, o := ThenProceed(launch, before, file, p);
    CloseStep(file, o.proc, 0);
    s, o := ThenProceed(launch, s, file, o.proc);
  }

  lemma ReachWait(launch: LaunchFacts, item: ProcessItem) returns (s: seq<(nat, Event)>)
    requires ExactChild(item, launch.identity)
    ensures Reached(launch, s, Holding(Launched(Initial(0)), false), WaitState(launch, item))
    ensures Quiet(s)
  {
    hide Next, ProceedParent, Launched, Initial, Reached;
    s := ReachRelease(launch, item);
    var file, p := Holding(Launched(Initial(0)), false), ReleasedState(launch, item);
    var o: Outcome;
    AwaitStep(file, p, 0);
    s, o := ThenProceed(launch, s, file, p);
  }

  lemma ReachWork(launch: LaunchFacts, item: ProcessItem) returns (s: seq<(nat, Event)>)
    requires ExactChild(item, launch.identity)
    ensures Reached(launch, s, Holding(Launched(Initial(0)), false), WorkState(launch, item)) && Quiet(s)
  {
    hide Next, Receipt.Accepted, ProceedParent, Launched, Initial;
    s := ReachWait(launch, item);
    var o := Outcome(Holding(Launched(Initial(0)), false), WaitState(launch, item));
    s, o := ThenChild(launch, s, o.file, o.proc, ChildBlocks);
    s, o := ThenChild(launch, s, o.file, o.proc, ChildReads);
    s, o := ThenChild(launch, s, o.file, o.proc, ChildEnters);
    assert o.proc == WorkState(launch, item);
  }

  /** The parent has collected a child that exited by itself. */
  function CollectedState(launch: LaunchFacts, item: ProcessItem, code: int, timedOut: bool): Proc {
    DeathState(launch, item, code).(
      parent := DeathState(launch, item, code).parent.(
        pc := Collected, childReaped := true, exitCode := code, timedOut := timedOut),
      reaped := true)
  }

  lemma ReachCollected(launch: LaunchFacts, item: ProcessItem, result: ChildResult, timedOut: bool)
    returns (s: seq<(nat, Event)>)
    requires ExactChild(item, launch.identity)
    ensures Reached(launch, s, Holding(Launched(Initial(0)), false), CollectedState(launch, item, result.code, timedOut))
    ensures Follows(s, 0, result) && (!timedOut ==> Calm(s))
  {
    var code := result.code;
    hide Next, Receipt.Accepted, ProceedParent, Launched, Initial;
    s := ReachWork(launch, item);
    var file, p := Holding(Launched(Initial(0)), false), WorkState(launch, item);
    var o: Outcome;
    s, o := ThenChild(launch, s, file, p, ChildReturns(code));
    p := p.(child := Returning(code));
    assert o == Outcome(file, p);
    s, o := ThenChild(launch, s, file, p, ChildExits);
    p := DeathState(launch, item, code);
    assert o == Outcome(file, p);
    NextWait(file, p, if timedOut then DeadlineExpired else ChildObserved, 0);
    s, o := Then(launch, s, file, p, if timedOut then DeadlineExpired else ChildObserved);
    assert o == Outcome(file, CollectedState(launch, item, code, timedOut));
  }

  function EvidenceState(launch: LaunchFacts, item: ProcessItem, code: int, timedOut: bool): Proc {
    CollectedState(launch, item, code, timedOut).(
      parent := CollectedState(launch, item, code, timedOut).parent.(pc := Evidence, stage := EvidenceCollection))
  }

  lemma ReachEvidence(launch: LaunchFacts, item: ProcessItem, result: ChildResult, timedOut: bool)
    returns (s: seq<(nat, Event)>)
    requires ExactChild(item, launch.identity)
    ensures Reached(launch, s, Holding(Launched(Initial(0)), false), EvidenceState(launch, item, result.code, timedOut))
    ensures Follows(s, 0, result) && (!timedOut ==> Calm(s))
  {
    hide Next, Launched, Initial, Reached;
    s := ReachCollected(launch, item, result, timedOut);
    var file, p := Holding(Launched(Initial(0)), false), CollectedState(launch, item, result.code, timedOut);
    CollectedStep(file, p, 0);
    var o: Outcome;
    s, o := Then(launch, s, file, p, Proceed);
  }

  // ---- The fault-free run -----------------------------------------------

  /** The receipt was accepted with this evidence; only the completed image is left to write. */
  function AcceptedState(
    launch: LaunchFacts, item: ProcessItem, evidence: Receipt.Evidence, payload: Receipt.Payload): Proc
  {
    var p := EvidenceState(launch, item, 0, false);
    p.(parent := p.parent.(pc := PersistCompleted, evidence := Some(evidence), payload := Some(payload),
                           stage := ReceiptFinalization))
  }

  lemma ReachAccepted(
    launch: LaunchFacts, item: ProcessItem, evidence: Receipt.Evidence, payload: Receipt.Payload)
    returns (s: seq<(nat, Event)>)
    requires ExactChild(item, launch.identity)
    requires Receipt.ValidEvidence(evidence) && Receipt.Accepted(payload, launch.binding, evidence)
    ensures Reached(launch, s, Holding(Launched(Initial(0)), false), AcceptedState(launch, item, evidence, payload))
    ensures Calm(s) && Follows(s, 0, ChildResult(0, Some(payload)))
  {
    hide Next, Receipt.Accepted, Receipt.ValidEvidence, ChildStep, ProceedParent, WriteParent, Launched, Initial;
    s := ReachEvidence(launch, item, ChildResult(0, Some(payload)), false);
    var o := Outcome(Holding(Launched(Initial(0)), false), EvidenceState(launch, item, 0, false));
    s, o := ThenEvidence(launch, s, o.file, o.proc, evidence);
    var p := EvidenceState(launch, item, 0, false);
    assert o.proc == p.(parent := p.parent.(pc := Validate, evidence := Some(evidence), stage := ReceiptParseValidation));
    NextParsed(o.file, o.proc, payload, 0);
    s, o := Then(launch, s, o.file, o.proc, Parsed(payload));
    assert o.proc == AcceptedState(launch, item, evidence, payload);
  }

  /** With an accepted payload and no fault, the run reaches `completed` and returns 0. */
  lemma FaultFreeRunCompletes(
    launch: LaunchFacts, item: ProcessItem, evidence: Receipt.Evidence, payload: Receipt.Payload)
    returns (s: seq<(nat, Event)>)
    requires ExactChild(item, launch.identity)
    requires Receipt.ValidEvidence(evidence) && Receipt.Accepted(payload, launch.binding, evidence)
    ensures Calm(s) && Follows(s, 0, ChildResult(0, Some(payload)))
    ensures var w := Run([launch], s);
            && w.file.Holding? && w.file.image.state.Completed?
            && w.file.image.receipt
               == Some(Receipt.Summary(payload.schema, payload.workloadDigest, payload.publicationDigest, evidence))
            && w.procs[0].parent.pc == Exited(Code(0))
  {
    hide Next, Receipt.Accepted, Receipt.ValidEvidence, Launched, Initial, CompletedResult;
    hide WriteParent, ProceedParent;
    s := ReachAccepted(launch, item, evidence, payload);
    var p := AcceptedState(launch, item, evidence, payload);
    var o := Outcome(Holding(Launched(Initial(0)), false), p);
    var image := CompletedResult(Base(0), 0, false, Receipt.SummaryOf(payload, evidence));
    CompletedResultFacts(0, p.parent, Receipt.SummaryOf(payload, evidence));
    ResultStep(o.file, p, Returned, 0);
    s, o := Then(launch, s, o.file, p, Write(Returned));
    assert o.file == Holding(image, false) && o.proc.parent.pc == Finished(0);
    LastStep(o.file, o.proc, 0);
    s, o := Then(launch, s, o.file, o.proc, Proceed);
  }

  /** A child that exits with another code, or too late, is recorded as failed, and its code is returned. */
  lemma FailedChildIsRecorded(
    launch: LaunchFacts, item: ProcessItem, evidence: Receipt.Evidence, result: ChildResult, timedOut: bool)
    returns (s: seq<(nat, Event)>)
    requires ExactChild(item, launch.identity) && Receipt.ValidEvidence(evidence)
    requires result.output.Some? && (result.code != 0 || timedOut)
    ensures Follows(s, 0, result) && (!timedOut ==> Calm(s))
    ensures var w := Run([launch], s);
            && w.procs[0].parent.pc == Exited(Code(result.code))
            && w.file.Holding? && w.file.image.state.FailedAfterLaunch? && w.file.image.tokenConsumed
            && w.file.image.exitCode == Some(result.code)
  {
    hide Next, Receipt.ValidEvidence, Launched, Initial, FailedResult, WriteParent, ProceedParent;
    var code := result.code;
    s := ReachEvidence(launch, item, result, timedOut);
    var p := EvidenceState(launch, item, code, timedOut);
    var o := Outcome(Holding(Launched(Initial(0)), false), p);
    var image := FailedResult(Base(0), code, timedOut);
    FailedResultFacts(0, p.parent);
    EvidenceStep(o.file, p, evidence, 0);
    s, o := Then(launch, s, o.file, p, EvidenceBuilt(evidence));
    var q := p.(parent := p.parent.(pc := PersistResult, evidence := Some(evidence), ledger := image,
                                    stage := TerminalFailureFinalization));
    assert o.proc == q;
    ResultStep(o.file, q, Returned, 0);
    s, o := Then(launch, s, o.file, q, Write(Returned));
    assert o.file == Holding(image, false) && o.proc.parent.pc == Finished(code);
    hide FinalizationWrite, EvidenceState;
    LastStep(o.file, o.proc, 0);
    s, o := Then(launch, s, o.file, o.proc, Proceed);
  }

  /** A timely exit 0 with a payload that the validator rejects is recorded as failed, and 70 is returned. */
  lemma RejectedChildIsRecorded(
    launch: LaunchFacts, item: ProcessItem, evidence: Receipt.Evidence, payload: Receipt.Payload)
    returns (s: seq<(nat, Event)>)
    requires ExactChild(item, launch.identity) && Receipt.ValidEvidence(evidence)
    requires !Receipt.Accepted(payload, launch.binding, evidence)
    ensures Calm(s) && Follows(s, 0, ChildResult(0, Some(payload)))
    ensures var w := Run([launch], s);
            && w.procs[0].parent.pc == Exited(Code(70))
            && w.file.Holding? && w.file.image.state.FailedAfterLaunch? && w.file.image.tokenConsumed
            && w.file.image.failure == Some(Failure(ReceiptParseValidation, false))
  {
    hide Next, Receipt.ValidEvidence, Receipt.Accepted, Launched, Initial, FailedWith, WriteParent, ProceedParent;
    s := ReachEvidence(launch, item, ChildResult(0, Some(payload)), false);
    var p := EvidenceState(launch, item, 0, false);
    var o := Outcome(Holding(Launched(Initial(0)), false), p);
    EvidenceStep(o.file, p, evidence, 0);
    s, o := Then(launch, s, o.file, p, EvidenceBuilt(evidence));
    OutputStep(o.file, o.proc, Some(payload), 0);
    s, o := Then(launch, s, o.file, o.proc, Parsed(payload));
    assert o.proc.parent.pc == FinalCaught && o.proc.parent.ledger == Base(0);
    ImageFacts(0);
    s := FallbackFrom(launch, s, o.file, o.proc);
  }

  /** From the finalization's handler: the fallback is written, and 70 is returned. */
  lemma FallbackFrom(launch: LaunchFacts, before: seq<(nat, Event)>, file: File, p: Proc) returns (s: seq<(nat, Event)>)
    requires Reached(launch, before, file, p) && p.parent.pc.FinalCaught?
    ensures s == before + [(0, Proceed)] + [(0, Write(Returned))] + [(0, Proceed)]
    ensures var w := Run([launch], s);
            && w.procs[0].parent.pc == Exited(Code(70))
            && w.file.Holding?
            && w.file.image == FailedWith(p.parent.ledger, FailedAfterLaunch, Failure(p.parent.stage, false))
            && w.file.image.state.FailedAfterLaunch? && w.file.image.tokenConsumed == p.parent.ledger.tokenConsumed
            && w.file.image.failure == Some(Failure(p.parent.stage, false))
  {
    hide Next, FailedWith;
    FailedWithFacts(p.parent.ledger, FailedAfterLaunch, Failure(p.parent.stage, false));
    var o: Outcome;
    CaughtStep(file, p, 0);
    s, o := Then(launch, before, file, p, Proceed);
    FallbackStep(o.file, o.proc, Returned, 0);
    s, o := Then(launch, s, o.file, o.proc, Write(Returned));
    LastStep(o.file, o.proc, 0);
    s, o := Then(launch, s, o.file, o.proc, Proceed);
  }

  /**
   * A child that left no output is recorded as failed at the evidence stage, without its
   * exit code, and 70 is returned; nothing but the missing output disturbs the run.
   */
  lemma UnevidencedChildIsRecorded(launch: LaunchFacts, item: ProcessItem, code: int) returns (s: seq<(nat, Event)>)
    requires ExactChild(item, launch.identity)
    ensures Follows(s, 0, ChildResult(code, None)) && UndisturbedRun([launch], s, 0, ChildResult(code, None))
    ensures var w := Run([launch], s);
            && w.procs[0].parent.pc == Exited(Code(70))
            && w.file.Holding? && w.file.image.state.FailedAfterLaunch? && w.file.image.tokenConsumed
            && w.file.image.exitCode == None && w.file.image.failure == Some(Failure(EvidenceCollection, false))
  {
    hide Next, Launched, Initial;
    s := ReachEvidence(launch, item, ChildResult(code, None), false);
    var n := |s|;
    var file, p := Holding(Launched(Initial(0)), false), EvidenceState(launch, item, code, false);
    BaseHasNoCode(0);
    EvidenceFails(file, p, 0);
    var o: Outcome;
    var before := s;
    s, o := Then(launch, s, file, p, Fail);
    s := FallbackFrom(launch, s, file, o.proc);
    assert s[..n] == before && s[n] == (0, Fail);
    assert forall k :: 0 <= k < |s| && k != n ==> CalmEvent(s[k].1);
  }

  lemma BaseHasNoCode(owner: nat)
    ensures var ledger := Launched(Initial(owner));
            && ledger.tokenConsumed
            && FailedWith(ledger, FailedAfterLaunch, Failure(EvidenceCollection, false)).exitCode == None
  {
  }

  /**
   * Every result of a child is met: an undisturbed launch whose child does just that is
   * left after an exact handshake.
   */
  lemma EveryResultIsMet(launch: LaunchFacts, item: ProcessItem, evidence: Receipt.Evidence, result: ChildResult)
    returns (s: seq<(nat, Event)>)
    requires ExactChild(item, launch.identity) && Receipt.ValidEvidence(evidence)
    ensures Follows(s, 0, result) && UndisturbedRun([launch], s, 0, result)
    ensures var p := Run([launch], s).procs[0].parent; p.pc.Exited? && p.handshake.Some?
  {
    hide Receipt.ValidEvidence, Receipt.Accepted, Follows, Run;
    if result.output.None? {
      s := UnevidencedChildIsRecorded(launch, item, result.code);
    } else {
      if result.code != 0 {
        s := FailedChildIsRecorded(launch, item, evidence, result, false);
      } else if Receipt.Accepted(result.output.value, launch.binding, evidence) {
        s := FaultFreeRunCompletes(launch, item, evidence, result.output.value);
      } else {
        s := RejectedChildIsRecorded(launch, item, evidence, result.output.value);
      }
      CalmIsUndisturbed(launch, s, result);
    }
    ConsumedHasHandshake([launch], s, 0);
  }

  lemma CalmIsUndisturbed(launch: LaunchFacts, schedule: seq<(nat, Event)>, result: ChildResult)
    requires Calm(schedule)
    ensures UndisturbedRun([launch], schedule, 0, result)
  {
  }

  /** A code is returned only after the handshake. */
  lemma ConsumedHasHandshake(launches: seq<LaunchFacts>, schedule: seq<(nat, Event)>, i: nat)
    requires i < |launches|
    requires var p := Run(launches, schedule).procs[i].parent; p.pc.Exited? && p.pc.exit.Code?
    ensures Run(launches, schedule).procs[i].parent.handshake.Some?
  {
    RunKeeps(launches, schedule);
    var w := Run(launches, schedule);
    hide Run;
    ReturnedHasHandshake(w.file, w.procs[i], i);
  }

  lemma ReturnedHasHandshake(file: File, p: Proc, owner: nat)
    requires Inv(file, p, owner) && p.parent.pc.Exited? && p.parent.pc.exit.Code?
    ensures p.parent.handshake.Some?
  {
    hide Receipt.Accepted;
  }

  /** Some run, with or without faults, in which the child follows its result leaves a completed image. */
  ghost predicate CanComplete(launch: LaunchFacts, result: ChildResult) {
    exists s :: Follows(s, 0, result) && Completes(launch, s)
  }

  predicate Completes(launch: LaunchFacts, schedule: seq<(nat, Event)>) {
    var file := Run([launch], schedule).file;
    file.Holding? && file.image.state.Completed?
  }

  /** A launch can complete exactly if its child returns 0 and leaves an output that the validator accepts. */
  lemma CanCompleteExactly(launch: LaunchFacts, result: ChildResult)
    ensures CanComplete(launch, result) <==> Succeeds(result, launch.binding)
  {
    hide Run, Follows, Receipt.Accepted, Receipt.ValidEvidence;
    if CanComplete(launch, result) && !Succeeds(result, launch.binding) {
      var s :| Follows(s, 0, result) && Completes(launch, s);
      OnlySuccessCompletes([launch], s, [result]);
    }
    if Succeeds(result, launch.binding) {
      var evidence :| Receipt.ValidEvidence(evidence)
                      && Receipt.Accepted(result.output.value, launch.binding, evidence);
      var child := launch.identity;
      var item := ProcessItem(child.childPid, child.parentPid, child.user, child.signature, child.signature,
                              true, child.cwd);
      var s := FaultFreeRunCompletes(launch, item, evidence, result.output.value);
      assert Completes(launch, s);
    }
  }

  // ---- Claims that fail -------------------------------------------------

  /**
   * One interrupt, with no other fault, can end the launcher with the durable state
   * still `launched_consumed`: it hits after the wait and before the finalization's `try`.
   */
  lemma OneInterruptLeavesLaunchedConsumed(launch: LaunchFacts, item: ProcessItem)
    returns (s: seq<(nat, Event)>)
    requires ExactChild(item, launch.identity)
    ensures Calm(s)
    ensures var w := Run([launch], s + [(0, Interrupt)]);
            && w.procs[0].parent.pc == Exited(Raised) && w.procs[0].reaped
            && w.file == Holding(Launched(Initial(0)), false)
  {
    hide Next, Receipt.Accepted, ChildStep, ProceedParent, Launched, Initial;
    s := ReachCollected(launch, item, ChildResult(0, None), false);
    var _, _ :=
      ThenInterrupt(launch, s, Holding(Launched(Initial(0)), false), CollectedState(launch, item, 0, false));
  }

  /**
   * One interrupt after the release and before the second `try` leaves a released child
   * that nobody reaps and no image mentions, under a state that is not terminal.
   */
  lemma InterruptedHandoverLeavesTheChild(launch: LaunchFacts, item: ProcessItem) returns (s: seq<(nat, Event)>)
    requires ExactChild(item, launch.identity)
    ensures Calm(s)
    ensures var w := Run([launch], s + [(0, Interrupt)]);
            && w.procs[0].parent.pc == Exited(Raised) && w.procs[0].marks.released
            && !Ended(w.file) && !ChildAccounted(w.file, w.procs[0])
            && HappenedAt([launch], s + [(0, Interrupt)], 0, ChildLeftBehind)
  {
    hide Next, Receipt.Accepted, ProceedParent, Launched, Initial;
    s := ReachRelease(launch, item);
    var file, p := Holding(Launched(Initial(0)), false), ReleasedState(launch, item);
    ImageFacts(0);
    var longer, o := ThenInterrupt(launch, s, file, p);
    assert longer[..|s|] == s && longer[|s|] == (0, Interrupt);
    assert ChildLeftBehind(longer[|s|].1, Run([launch], longer[..|s|]).procs[0]);
  }

  /** A timed-out child that exits 0 makes the launcher return 0 over a `failed_after_launch` image. */
  lemma TimedOutZeroReturnsZero(
    launch: LaunchFacts, item: ProcessItem, evidence: Receipt.Evidence, payload: Receipt.Payload)
    returns (s: seq<(nat, Event)>)
    requires ExactChild(item, launch.identity) && Receipt.ValidEvidence(evidence)
    ensures Follows(s, 0, ChildResult(0, Some(payload)))
    ensures var w := Run([launch], s);
            && w.procs[0].parent.pc == Exited(Code(0))
            && w.file.Holding? && w.file.image.state.FailedAfterLaunch?
  {
    s := FailedChildIsRecorded(launch, item, evidence, ChildResult(0, Some(payload)), true);
  }

  /**
   * A `prelaunch_failed` image with an unconsumed token over a child that entered its
   * workload: an interrupt of the returning child carries it into the inherited handler.
   */
  lemma EscapedChildHidesTheLaunch(launch: LaunchFacts, item: ProcessItem) returns (s: seq<(nat, Event)>)
    requires ExactChild(item, launch.identity)
    ensures var w := Run([launch], s);
            && w.procs[0].marks.entered
            && w.file == Holding(Ledger(0, PrelaunchFailed, false, [PrelaunchVerified, PrelaunchFailed], None, None, None,
                                        Some(Failure(ChildStartHandshake, false))), true)
  {
    hide Next, Receipt.Accepted, ProceedParent;
    s := ReachWork(launch, item);
    var o := Outcome(Holding(Launched(Initial(0)), false), WorkState(launch, item));
    s, o := ThenChild(launch, s, o.file, o.proc, ChildReturns(0));
    s, o := ThenChild(launch, s, o.file, o.proc, ChildInterrupted);
    s, o := ThenChild(launch, s, o.file, o.proc, ChildOverwrites(Returned));
  }

  /** An interrupt between the in-memory consumption and its flag persists `prelaunch_failed` with a consumed token. */
  lemma MidRecordInterruptMislabels(launch: LaunchFacts, item: ProcessItem) returns (s: seq<(nat, Event)>)
    requires ExactChild(item, launch.identity)
    ensures var w := Run([launch], s);
            && w.file.Holding? && w.file.image.state.PrelaunchFailed? && w.file.image.tokenConsumed
            && !w.procs[0].marks.released
  {
    hide Next, Receipt.Accepted, InterruptParent, ProceedParent, Initial, Launched, FailedWith;
    ImageFacts(0);
    s := ReachMarking(launch, item);
    var p := MarkState(launch, item);
    var o := Outcome(Holding(Initial(0), false), p);
    var caught := p.(parent := p.parent.(pc := LaunchCaught), marks := p.marks.(midRecord := true));
    MarkInterrupted(o.file, o.proc);
    s, o := ThenInterrupt(launch, s, o.file, o.proc);
    assert o == Outcome(Holding(Initial(0), false), caught);
    HandlerStep(o.file, o.proc, 0);
    s, o := ThenProceed(launch, s, o.file, o.proc);
    assert o.proc == caught.(parent := caught.parent.(pc := LaunchReap, writeEnd := false));
    NextReap(o.file, o.proc, true, 0);
    s, o := Then(launch, s, o.file, o.proc, Reap(true));
    var reaped := caught.(parent := caught.parent.(pc := LaunchReaped, writeEnd := false, childReaped := true),
                          child := Dead(-15), reaped := true);
    assert o.proc == reaped;
    s := MislabelFrom(launch, s, o.file, reaped);
  }

  /** The first handler, after the child's cleanup and before the flag was set, persists `prelaunch_failed`. */
  lemma MislabelFrom(launch: LaunchFacts, before: seq<(nat, Event)>, file: File, p: Proc)
    returns (s: seq<(nat, Event)>)
    requires Reached(launch, before, file, p) && p.parent.pc.LaunchReaped?
    requires HandlerState(p.parent).PrelaunchFailed?
    ensures var w := Run([launch], s);
            && w.file == Holding(
                 FailedWith(p.parent.ledger, PrelaunchFailed, Failure(ChildStartHandshake, p.parent.cleanupFailed)), false)
            && w.procs[0].parent.pc == Exited(Raised)
            && w.procs[0].child == p.child && w.procs[0].reaped == p.reaped && w.procs[0].marks == p.marks
            && w.file.image.state.PrelaunchFailed? && w.file.image.tokenConsumed == p.parent.ledger.tokenConsumed
            && w.file.image.failure == Some(Failure(ChildStartHandshake, p.parent.cleanupFailed))
  {
    hide Next, ProceedParent, Initial, Launched, FailedWith;
    var o: Outcome;
    SetupSteps(file, p, 0);
    s, o := ThenProceed(launch, before, file, p);
    var q := p.(parent := p.parent.(pc := LaunchPersist));
    assert o == Outcome(file, q);
    FailedWithFacts(p.parent.ledger, PrelaunchFailed, Failure(ChildStartHandshake, p.parent.cleanupFailed));
    s, o := ThenWrite(launch, s, file, q, Returned);
  }

  /** An interrupt on the fork leaves a child that is neither reaped nor mentioned in the terminal image. */
  lemma InterruptedForkLosesTheChild(launch: LaunchFacts) returns (s: seq<(nat, Event)>)
    ensures var w := Run([launch], s);
            && w.procs[0].parent.pc == Exited(Raised) && Ended(w.file)
            && !ChildAccounted(w.file, w.procs[0])
  {
    hide Next, ProceedParent, Initial, FailedWith;
    s := ReachFork(launch);
    var p := ForkState(launch);
    var o := Outcome(Holding(Initial(0), false), p);
    var caught := p.(parent := p.parent.(pc := LaunchCaught), child := Starting, marks := p.marks.(pidLost := true));
    NextBroken(o.file, o.proc, false, false, 0);
    s, o := Then(launch, s, o.file, o.proc, ForkInterrupted);
    assert o.proc == caught;
    HandlerStep(o.file, o.proc, 0);
    s, o := ThenProceed(launch, s, o.file, o.proc);
    var settled := caught.(parent := caught.parent.(pc := LaunchReaped, writeEnd := false));
    assert o.proc == settled;
    s := MislabelFrom(launch, s, o.file, settled);
  }
}
