/**
 * How an undisturbed launch ends: whatever the other launchers do, its durable image and
 * its returned code are decided by what its child returned and left behind.
 */
module LaunchEnds {
  import opened Wrappers
  import opened RunLedger
  import opened Launch
  import opened LaunchInvariant
  import opened LaunchSteps
  import opened LaunchTheorems
  import opened LaunchFrames
  import opened LaunchFollows
  import Receipt

  /** Nothing raises, is interrupted, or crashes, and every write returns. */
  predicate CalmEvent(e: Event) {
    e.Proceed? || e.Scanned? || e == Write(Returned) || e.ChildObserved? || e.EvidenceBuilt? || e.Parsed?
    || e.ChildBlocks? || e.ChildReads? || e.ChildEnters? || e.ChildReturns? || e.ChildExits?
  }

  /** A calm event, or the missing output that makes the evidence raise. */
  predicate Undisturbed(e: Event, p: Proc, result: ChildResult) {
    CalmEvent(e) || (e.Fail? && p.parent.pc.Evidence? && result.output.None?)
  }

  /** Launcher `i` is undisturbed throughout the run; nothing is said of the others. */
  ghost predicate UndisturbedRun(
    launches: seq<LaunchFacts>, schedule: seq<(nat, Event)>, i: nat, result: ChildResult)
    requires i < |launches|
  {
    forall k :: 0 <= k < |schedule| && schedule[k].0 == i ==>
                  Undisturbed(schedule[k].1, Run(launches, schedule[..k]).procs[i], result)
  }

  // ---- The ends ---------------------------------------------------------

  /** The stage at which the finalization raises: no output to hash, or a timely exit 0 with one that is rejected. */
  ghost predicate RaisesAt(stage: Stage, result: ChildResult, binding: Receipt.Binding) {
    if result.output.None? then stage == EvidenceCollection
    else stage == ReceiptParseValidation && result.code == 0 && !Acceptable(result.output.value, binding)
  }

  /** The states of a launch that ends in the given one, in the order of their marks. */
  function History(last: State): seq<State> {
    [PrelaunchVerified, ChildStartVerified, LaunchedConsumed, last]
  }

  ghost predicate FailedImage(image: Ledger, owner: nat, result: ChildResult, binding: Receipt.Binding) {
    exists stage :: RaisesAt(stage, result, binding)
                    && image == Ledger(owner, FailedAfterLaunch, true, History(FailedAfterLaunch), None, None, None,
                                       Some(Failure(stage, false)))
  }

  predicate ResultImageOf(image: Ledger, owner: nat, code: int) {
    image == Ledger(owner, FailedAfterLaunch, true, History(FailedAfterLaunch), Some(code), Some(false), None, None)
  }

  /** The receipt holds the fields of the accepted payload, and the evidence it was accepted with. */
  ghost predicate CompletedImageOf(image: Ledger, owner: nat, payload: Receipt.Payload, binding: Receipt.Binding) {
    exists evidence :: Receipt.Accepted(payload, binding, evidence)
                       && image == Ledger(owner, Completed, true, History(Completed), Some(0), Some(false),
                                          Some(Receipt.Summary(payload.schema, payload.workloadDigest,
                                                               payload.publicationDigest, evidence)), None)
  }

  /** The exact image and returned code for each result of the child. */
  ghost predicate EndsBy(file: File, code: int, owner: nat, result: ChildResult, binding: Receipt.Binding) {
    && ParentImage(file)
    && if result.output.Some? && result.code != 0 then
         code == result.code && ResultImageOf(file.image, owner, code)
       else if Succeeds(result, binding) then
         code == 0 && CompletedImageOf(file.image, owner, result.output.value, binding)
       else code == 70 && FailedImage(file.image, owner, result, binding)
  }

  lemma FailedResultImage(owner: nat, code: int)
    ensures ResultImageOf(FailedResult(Base(owner), code, false), owner, code)
  {
    assert Base(owner).processStates + [FailedAfterLaunch] == History(FailedAfterLaunch);
  }

  lemma FallbackImage(owner: nat, stage: Stage)
    ensures FailedWith(Base(owner), FailedAfterLaunch, Failure(stage, false))
            == Ledger(owner, FailedAfterLaunch, true, History(FailedAfterLaunch), None, None, None,
                      Some(Failure(stage, false)))
  {
    assert Base(owner).processStates + [FailedAfterLaunch] == History(FailedAfterLaunch);
  }

  lemma CompletionImage(owner: nat, payload: Receipt.Payload, evidence: Receipt.Evidence)
    ensures CompletedResult(Base(owner), 0, false, Receipt.SummaryOf(payload, evidence))
            == Ledger(owner, Completed, true, History(Completed), Some(0), Some(false),
                      Some(Receipt.Summary(payload.schema, payload.workloadDigest, payload.publicationDigest, evidence)),
                      None)
  {
    assert Base(owner).processStates + [Completed] == History(Completed);
  }

  // ---- The invariant of an undisturbed launcher -------------------------

  /** The child has not been killed, and cannot find the pipe closed before its byte is there. */
  predicate Healthy(p: Proc, result: ChildResult) {
    && !p.child.Escaped? && !p.child.NotForked?
    && (p.child.Returning? ==> p.child.code == result.code)
    && (p.child.Dead? ==> p.child.status == result.code)
    && (p.child.Starting? || p.child.Blocked? ==> p.pipeByte || p.parent.writeEnd)
  }

  predicate ByteIsThere(p: Proc) {
    p.child.Starting? || p.child.Blocked? ==> p.pipeByte
  }

  /** The exit code of the child is known, and it was in time. */
  predicate InTime(p: Proc, owner: nat, result: ChildResult) {
    p.parent.ledger == Base(owner) && p.parent.exitCode == result.code && !p.parent.timedOut
  }

  predicate EvidenceIsValid(p: Proc) {
    p.parent.evidence.Some? && Receipt.ValidEvidence(p.parent.evidence.value)
  }

  /** What holds at each program point of an undisturbed launcher; it comes to no other. */
  ghost predicate Calmly(file: File, p: Proc, owner: nat, result: ChildResult) {
    var a := p.parent;
    match a.pc
    case Preflight | Recovery | Create | Created | OpenPipe => a.handshake.None? && p.child.NotForked?
    case Fork => a.handshake.None? && p.child.NotForked? && a.writeEnd
    case Setup | Handshake => a.handshake.None? && a.writeEnd && Healthy(p, result)
    case Record | Mark | PersistToken | MarkRelease | WriteRelease => a.writeEnd && Healthy(p, result)
    case CloseRelease | AwaitChild | Waiting => Healthy(p, result) && ByteIsThere(p)
    case Collected => InTime(p, owner, result)
    case Evidence => InTime(p, owner, result) && a.stage == EvidenceCollection
    case Validate =>
      && InTime(p, owner, result) && result.code == 0 && result.output.Some?
      && a.stage == ReceiptParseValidation && EvidenceIsValid(p)
    case PersistResult =>
      && result.output.Some? && result.code != 0 && a.exitCode == result.code
      && a.ledger == FailedResult(Base(owner), result.code, false)
    case PersistCompleted =>
      InTime(p, owner, result) && result.code == 0 && a.payload == result.output && AcceptedPayload(p)
    case FinalCaught | FinalPersist => a.ledger == Base(owner) && RaisesAt(a.stage, result, p.launch.binding)
    case Finished(code) => EndsBy(file, code, owner, result, p.launch.binding)
    case Exited(exit) =>
      if exit.Code? then EndsBy(file, exit.code, owner, result, p.launch.binding) else a.handshake.None?
    case LaunchCaught | LaunchReap | LaunchReaped | LaunchPersist => a.handshake.None?
    case _ => false
  }

  // ---- The child --------------------------------------------------------

  lemma ChildStaysHealthy(file: File, p: Proc, e: Event, owner: nat, result: ChildResult)
    requires Healthy(p, result) && IsChildEvent(e) && CalmEvent(e) && EventFollows(e, result)
    ensures var q := ChildStep(file, p, e, owner).proc;
            Healthy(q, result) && (ByteIsThere(p) ==> ByteIsThere(q)) && q.parent == p.parent
  {
  }

  lemma CalmChild(file: File, p: Proc, e: Event, owner: nat, result: ChildResult)
    requires Calmly(file, p, owner, result) && IsChildEvent(e) && CalmEvent(e) && EventFollows(e, result)
    ensures var o := ChildStep(file, p, e, owner); Calmly(o.file, o.proc, owner, result)
  {
    hide EndsBy, RaisesAt, Healthy, Receipt.Accepted, Receipt.ValidEvidence, ByteIsThere;
    ChildFrame(file, p, e, owner);
    if Healthy(p, result) {
      ChildStaysHealthy(file, p, e, owner, result);
    }
    hide ChildStep;
  }

  lemma ChildFrame(file: File, p: Proc, e: Event, owner: nat)
    requires IsChildEvent(e) && CalmEvent(e)
    ensures var o := ChildStep(file, p, e, owner);
            o.file == file && o.proc.parent == p.parent && (p.child.NotForked? ==> o.proc.child.NotForked?)
  {
  }

  // ---- The parent -------------------------------------------------------

  /** Nothing more is asked of a launcher that is about to create the ledger or has just created it. */
  lemma UnforkedIsCalm(file: File, p: Proc, owner: nat, result: ChildResult)
    requires p.parent.handshake.None? && p.child.NotForked? && (Early(p.parent.pc) || p.parent.pc.Created?)
    ensures Calmly(file, p, owner, result)
  {
  }

  /** Without a handshake the function may be left by an exception. */
  lemma LeavingIsCalm(file: File, p: Proc, owner: nat, result: ChildResult)
    requires p.parent.handshake.None?
    ensures Calmly(file, Leave(file, p, Raised).proc, owner, result)
  {
  }

  lemma ClosedGateIsCalm(file: File, p: Proc, owner: nat, result: ChildResult)
    requires Early(p.parent.pc) && p.parent.handshake.None? && !file.Absent?
    ensures var o := ProceedParent(file, p, owner); Calmly(o.file, o.proc, owner, result)
  {
    hide Calmly, ProceedParent, Next;
    NextProceed(file, p, owner);
    ClosedGateRaises(file, p, owner);
    LeavingIsCalm(file, p, owner, result);
  }

  lemma OpenGateIsCalm(p: Proc, owner: nat, result: ChildResult)
    requires Early(p.parent.pc) && p.parent.handshake.None? && p.child.NotForked?
    ensures var o := ProceedParent(Absent, p, owner); Calmly(o.file, o.proc, owner, result)
  {
    hide Calmly, ProceedParent;
    OpeningSteps(p, owner);
    match p.parent.pc
    case Preflight => UnforkedIsCalm(Absent, p.(parent := p.parent.(pc := Recovery)), owner, result);
    case Recovery => UnforkedIsCalm(Absent, p.(parent := p.parent.(pc := Create)), owner, result);
    case Create =>
      UnforkedIsCalm(Holding(p.parent.ledger, false), p.(parent := p.parent.(pc := Created, created := true)),
                     owner, result);
  }

  lemma EarlyIsUnforked(file: File, p: Proc, owner: nat, result: ChildResult)
    requires Early(p.parent.pc) && Calmly(file, p, owner, result)
    ensures p.parent.handshake.None? && p.child.NotForked?
  {
  }

  lemma SetupIsCalm(file: File, p: Proc, owner: nat, result: ChildResult)
    requires p.parent.pc.Created? || p.parent.pc.OpenPipe? || p.parent.pc.Fork? || p.parent.pc.Setup?
    requires Calmly(file, p, owner, result)
    ensures var o := ProceedParent(file, p, owner); Calmly(o.file, o.proc, owner, result)
  {
    hide EndsBy, RaisesAt, AcceptedPayload, EvidenceIsValid;
  }

  lemma RecordIsCalm(file: File, p: Proc, owner: nat, result: ChildResult)
    requires p.parent.pc.Record? || p.parent.pc.Mark? || p.parent.pc.MarkRelease?
    requires Calmly(file, p, owner, result)
    ensures var o := ProceedParent(file, p, owner); Calmly(o.file, o.proc, owner, result)
  {
    hide EndsBy, RaisesAt, AcceptedPayload, EvidenceIsValid, Launched;
  }

  lemma ReleaseIsCalm(file: File, p: Proc, owner: nat, result: ChildResult)
    requires p.parent.pc.WriteRelease? || p.parent.pc.CloseRelease? || p.parent.pc.AwaitChild?
    requires Calmly(file, p, owner, result)
    ensures var o := ProceedParent(file, p, owner); Calmly(o.file, o.proc, owner, result)
  {
    hide EndsBy, RaisesAt, AcceptedPayload, EvidenceIsValid;
  }

  lemma HandlerIsCalm(file: File, p: Proc, owner: nat, result: ChildResult)
    requires p.parent.pc.LaunchCaught? || p.parent.pc.LaunchReaped?
    requires Calmly(file, p, owner, result)
    ensures var o := ProceedParent(file, p, owner); Calmly(o.file, o.proc, owner, result)
  {
    hide EndsBy, RaisesAt, AcceptedPayload, EvidenceIsValid, Healthy;
  }

  lemma CollectedIsCalm(file: File, p: Proc, owner: nat, result: ChildResult)
    requires p.parent.pc.Collected? && Calmly(file, p, owner, result)
    ensures var o := ProceedParent(file, p, owner); Calmly(o.file, o.proc, owner, result)
  {
    hide EndsBy, RaisesAt, AcceptedPayload, EvidenceIsValid, Healthy, Base, ProceedParent, Next;
    NextProceed(file, p, owner);
    CollectedStep(file, p, owner);
  }

  lemma CaughtIsCalm(file: File, p: Proc, owner: nat, result: ChildResult)
    requires p.parent.pc.FinalCaught? && Calmly(file, p, owner, result)
    ensures var o := ProceedParent(file, p, owner); Calmly(o.file, o.proc, owner, result)
  {
    hide EndsBy, RaisesAt, AcceptedPayload, EvidenceIsValid, Healthy, Base, ProceedParent, Next;
    NextProceed(file, p, owner);
    CaughtStep(file, p, owner);
  }

  lemma FinishedIsCalm(file: File, p: Proc, owner: nat, result: ChildResult)
    requires p.parent.pc.Finished? && Calmly(file, p, owner, result)
    ensures var o := ProceedParent(file, p, owner); Calmly(o.file, o.proc, owner, result)
  {
    hide EndsBy, RaisesAt, AcceptedPayload, EvidenceIsValid, Healthy, Base, ProceedParent, Next;
    NextProceed(file, p, owner);
    LastStep(file, p, owner);
  }

  lemma ProceedIsCalm(file: File, p: Proc, owner: nat, result: ChildResult)
    requires Calmly(file, p, owner, result)
    ensures var o := ProceedParent(file, p, owner); Calmly(o.file, o.proc, owner, result)
  {
    hide Calmly;
    match p.parent.pc
    case Preflight | Recovery | Create =>
      EarlyIsUnforked(file, p, owner, result);
      if file.Absent? {
        OpenGateIsCalm(p, owner, result);
      } else {
        ClosedGateIsCalm(file, p, owner, result);
      }
    case Created | OpenPipe | Fork | Setup => SetupIsCalm(file, p, owner, result);
    case Record | Mark | MarkRelease => RecordIsCalm(file, p, owner, result);
    case WriteRelease | CloseRelease | AwaitChild => ReleaseIsCalm(file, p, owner, result);
    case LaunchCaught | LaunchReaped => HandlerIsCalm(file, p, owner, result);
    case Collected => CollectedIsCalm(file, p, owner, result);
    case FinalCaught => CaughtIsCalm(file, p, owner, result);
    case Finished(_) => FinishedIsCalm(file, p, owner, result);
    case WaitCaught | WaitReaped => NotWaiting(file, p, owner, result);
    case _ =>
  }

  /** An undisturbed wait never comes to its handler. */
  lemma NotWaiting(file: File, p: Proc, owner: nat, result: ChildResult)
    requires Calmly(file, p, owner, result)
    ensures !p.parent.pc.WaitCaught? && !p.parent.pc.WaitReaped? && !p.parent.pc.WaitPersist? && !p.parent.pc.Crashed?
  {
    hide EndsBy, RaisesAt, AcceptedPayload, EvidenceIsValid, Healthy, Base;
  }

  lemma {:induction false} ScanIsCalm(file: File, p: Proc, items: seq<ProcessItem>, owner: nat, result: ChildResult)
    requires Calmly(file, p, owner, result)
    ensures var o := ScanParent(file, p, items); Calmly(o.file, o.proc, owner, result)
    decreases |items|
  {
    hide Calmly;
    if p.parent.pc.Handshake? {
      ScannedIsCalm(file, p, items, owner, result);
      if items != [] {
        ScanIsCalm(file, p, items[1..], owner, result);
      }
    }
  }

  lemma ScannedIsCalm(file: File, p: Proc, items: seq<ProcessItem>, owner: nat, result: ChildResult)
    requires Calmly(file, p, owner, result) && p.parent.pc.Handshake?
    ensures Calmly(file, p.(parent := p.parent.(pc := LaunchCaught)), owner, result)
    ensures items != [] ==>
              Calmly(file, p.(parent := p.parent.(pc := Record, handshake := Some(items[0]))), owner, result)
  {
    hide EndsBy, RaisesAt, AcceptedPayload, EvidenceIsValid, Base;
  }

  lemma WaitIsCalm(file: File, p: Proc, owner: nat, result: ChildResult)
    requires Calmly(file, p, owner, result) && p.parent.pc.Waiting? && p.parent.ledger == Base(owner)
    ensures var o := WaitParent(file, p, ChildObserved); Calmly(o.file, o.proc, owner, result)
  {
    hide Calmly, Base;
    if p.child.Dead? {
      ObservedIsCalm(file, p, owner, result);
    }
  }

  lemma ObservedIsCalm(file: File, p: Proc, owner: nat, result: ChildResult)
    requires Calmly(file, p, owner, result) && p.parent.pc.Waiting? && p.parent.ledger == Base(owner)
    requires p.child.Dead?
    ensures var q := p.parent.(pc := Collected, childReaped := true, exitCode := p.child.status, timedOut := false);
            Calmly(file, p.(parent := q, child := Dead(p.child.status), reaped := true), owner, result)
  {
    hide EndsBy, RaisesAt, AcceptedPayload, EvidenceIsValid, Base;
  }

  lemma EvidenceIsCalm(file: File, p: Proc, evidence: Receipt.Evidence, owner: nat, result: ChildResult)
    requires Calmly(file, p, owner, result) && p.parent.pc.Evidence? && result.output.Some?
    ensures var o := EvidenceParent(file, p, evidence); Calmly(o.file, o.proc, owner, result)
  {
    hide EndsBy, RaisesAt, Base, Receipt.ValidEvidence, FailedResult, Calmly;
    if Receipt.ValidEvidence(evidence) {
      BuiltIsCalm(file, p, evidence, owner, result);
    }
  }

  lemma BuiltIsCalm(file: File, p: Proc, evidence: Receipt.Evidence, owner: nat, result: ChildResult)
    requires Calmly(file, p, owner, result) && p.parent.pc.Evidence? && result.output.Some?
    requires Receipt.ValidEvidence(evidence)
    ensures var a := p.parent;
            var q := if a.exitCode == 0 && !a.timedOut then
                       a.(pc := Validate, evidence := Some(evidence), stage := ReceiptParseValidation)
                     else
                       a.(pc := PersistResult, evidence := Some(evidence),
                          ledger := FailedResult(a.ledger, a.exitCode, a.timedOut),
                          stage := TerminalFailureFinalization);
            Calmly(file, p.(parent := q), owner, result)
  {
    hide EndsBy, RaisesAt, AcceptedPayload, Base, Receipt.ValidEvidence, FailedResult, Healthy;
  }

  lemma MissingIsCalm(file: File, p: Proc, owner: nat, result: ChildResult)
    requires Calmly(file, p, owner, result) && p.parent.pc.Evidence? && result.output.None?
    ensures var o := Next(file, p, Fail, owner); Calmly(o.file, o.proc, owner, result)
  {
    hide EndsBy, AcceptedPayload, Base, Next, EvidenceIsValid;
    EvidenceFails(file, p, owner);
  }

  lemma ParsedIsCalm(file: File, p: Proc, payload: Receipt.Payload, owner: nat, result: ChildResult)
    requires Calmly(file, p, owner, result) && p.parent.pc.Validate? && result.output == Some(payload)
    ensures var o := ParsedParent(file, p, payload); Calmly(o.file, o.proc, owner, result)
  {
    hide Calmly, Receipt.Accepted;
    if p.parent.evidence.Some? && Receipt.Accepted(payload, p.launch.binding, p.parent.evidence.value) {
      AcceptedIsCalm(file, p, payload, owner, result);
    } else {
      RejectedIsCalm(file, p, payload, owner, result);
    }
  }

  lemma AcceptedIsCalm(file: File, p: Proc, payload: Receipt.Payload, owner: nat, result: ChildResult)
    requires Calmly(file, p, owner, result) && p.parent.pc.Validate? && result.output == Some(payload)
    requires p.parent.evidence.Some? && Receipt.Accepted(payload, p.launch.binding, p.parent.evidence.value)
    ensures var q := p.parent.(pc := PersistCompleted, payload := Some(payload), stage := ReceiptFinalization);
            Calmly(file, p.(parent := q), owner, result)
  {
    hide EndsBy, Base, Receipt.Accepted, Receipt.ValidEvidence, RaisesAt, Healthy;
  }

  lemma RejectedIsCalm(file: File, p: Proc, payload: Receipt.Payload, owner: nat, result: ChildResult)
    requires Calmly(file, p, owner, result) && p.parent.pc.Validate? && result.output == Some(payload)
    requires p.parent.evidence.Some? ==> !Receipt.Accepted(payload, p.launch.binding, p.parent.evidence.value)
    ensures Calmly(file, p.(parent := p.parent.(pc := FinalCaught)), owner, result)
  {
    hide EndsBy, Base, Receipt.Accepted, Receipt.ValidEvidence, Healthy;
    EvidenceMakesNoDifference(payload, p.launch.binding, p.parent.evidence.value);
    hide Acceptable;
  }

  lemma TokenIsCalm(file: File, p: Proc, owner: nat, result: ChildResult)
    requires Calmly(file, p, owner, result) && p.parent.pc.PersistToken?
    ensures var o := WriteParent(file, p, Returned); Calmly(o.file, o.proc, owner, result)
  {
    hide EndsBy, RaisesAt, AcceptedPayload, EvidenceIsValid;
  }

  lemma ResultIsCalm(file: File, p: Proc, owner: nat, result: ChildResult)
    requires Calmly(file, p, owner, result) && p.parent.pc.PersistResult?
    ensures var o := Next(file, p, Write(Returned), owner); Calmly(o.file, o.proc, owner, result)
  {
    hide Next, FailedResult, Base, CompletedImageOf, FailedImage, Succeeds, Healthy;
    FailedResultImage(owner, result.code);
    hide ResultImageOf;
    ResultStep(file, p, Returned, owner);
  }

  lemma CompletionIsCalm(file: File, p: Proc, owner: nat, result: ChildResult)
    requires Calmly(file, p, owner, result) && p.parent.pc.PersistCompleted?
    ensures var o := Next(file, p, Write(Returned), owner); Calmly(o.file, o.proc, owner, result)
  {
    hide Next, CompletedResult, Base, FailedImage, Healthy, Receipt.SummaryOf, Receipt.Accepted, History;
    CompletionImage(owner, p.parent.payload.value, p.parent.evidence.value);
    AcceptedIsAcceptable(p.parent.payload.value, p.launch.binding, p.parent.evidence.value);
    hide Acceptable;
    ResultStep(file, p, Returned, owner);
  }

  lemma FallbackIsCalm(file: File, p: Proc, owner: nat, result: ChildResult)
    requires Calmly(file, p, owner, result) && p.parent.pc.FinalPersist?
    ensures var o := Next(file, p, Write(Returned), owner); Calmly(o.file, o.proc, owner, result)
  {
    hide Next, FailedWith, Base, CompletedImageOf, Healthy, Acceptable, History;
    FallbackImage(owner, p.parent.stage);
    FallbackStep(file, p, Returned, owner);
  }

  /** The first handler leaves by an exception; the launcher had no handshake. */
  lemma HandlerWriteIsCalm(file: File, p: Proc, owner: nat, result: ChildResult)
    requires Calmly(file, p, owner, result) && p.parent.pc.LaunchPersist?
    ensures var o := WriteParent(file, p, Returned); Calmly(o.file, o.proc, owner, result)
  {
    HandlerHasNone(file, p, owner, result);
    hide FailedWith, Calmly, PersistLast;
    PersistedIsCalm(file, p, FailedWith(p.parent.ledger, HandlerState(p.parent),
                                        Failure(HandlerStage(p.parent), p.parent.cleanupFailed)), owner, result);
  }

  lemma PersistedIsCalm(file: File, p: Proc, image: Ledger, owner: nat, result: ChildResult)
    requires p.parent.handshake.None?
    ensures var o := PersistLast(file, p, image, Returned); Calmly(o.file, o.proc, owner, result)
  {
  }

  lemma HandlerHasNone(file: File, p: Proc, owner: nat, result: ChildResult)
    requires Calmly(file, p, owner, result) && p.parent.pc.LaunchPersist?
    ensures p.parent.handshake.None?
  {
  }

  lemma WriteIsCalm(file: File, p: Proc, owner: nat, result: ChildResult)
    requires Calmly(file, p, owner, result) && ParentAlive(p)
    ensures var o := WriteParent(file, p, Returned); Calmly(o.file, o.proc, owner, result)
  {
    hide Calmly, Next, TokenWrite, PersistLast, FinalizationWrite, FallbackWrite;
    NextWrite(file, p, Returned, owner);
    match p.parent.pc
    case PersistToken => TokenIsCalm(file, p, owner, result);
    case LaunchPersist => HandlerWriteIsCalm(file, p, owner, result);
    case PersistResult => ResultIsCalm(file, p, owner, result);
    case PersistCompleted => CompletionIsCalm(file, p, owner, result);
    case FinalPersist => FallbackIsCalm(file, p, owner, result);
    case WaitPersist => NotWaiting(file, p, owner, result);
    case _ =>
  }

  // ---- All events -------------------------------------------------------

  /** The in-memory ledger from the wait to the end of the evidence. */
  lemma LaunchedInMemory(file: File, p: Proc, owner: nat)
    requires Inv(file, p, owner) && p.parent.pc.Waiting?
    ensures p.parent.ledger == Base(owner)
  {
    hide FlagInv, ChildInv, ImageInv, PointInv;
  }

  lemma NextIsCalm(file: File, p: Proc, e: Event, owner: nat, result: ChildResult)
    requires Calmly(file, p, owner, result) && Undisturbed(e, p, result) && EventFollows(e, result)
    requires p.parent.pc.Waiting? ==> p.parent.ledger == Base(owner)
    ensures var o := Next(file, p, e, owner); Calmly(o.file, o.proc, owner, result)
  {
    hide Calmly, Next;
    if IsChildEvent(e) {
      NextChild(file, p, e, owner);
      CalmChild(file, p, e, owner, result);
    } else if !ParentAlive(p) {
      NextGone(file, p, e, owner);
    } else {
      match e
      case Proceed =>
        NextProceed(file, p, owner);
        ProceedIsCalm(file, p, owner, result);
      case Scanned(items) =>
        NextScan(file, p, items, owner);
        ScanIsCalm(file, p, items, owner, result);
      case Write(_) =>
        NextWrite(file, p, Returned, owner);
        WriteIsCalm(file, p, owner, result);
      case ChildObserved =>
        NextWait(file, p, e, owner);
        if p.parent.pc.Waiting? {
          WaitIsCalm(file, p, owner, result);
        }
      case EvidenceBuilt(evidence) =>
        NextEvidence(file, p, evidence, owner);
        if p.parent.pc.Evidence? {
          EvidenceIsCalm(file, p, evidence, owner, result);
        }
      case Parsed(payload) =>
        NextParsed(file, p, payload, owner);
        if p.parent.pc.Validate? {
          ParsedIsCalm(file, p, payload, owner, result);
        }
      case Fail => MissingIsCalm(file, p, owner, result);
    }
  }

  lemma CreatorIsLaunched(w: World, i: nat)
    requires WorldInv(w) && i < |w.procs|
    ensures w.procs[i].parent.pc.Waiting? ==> w.procs[i].parent.ledger == Base(i)
  {
    hide Inv, Base;
    if w.creator == Some(i) && w.procs[i].parent.pc.Waiting? {
      LaunchedInMemory(w.file, w.procs[i], i);
    }
  }

  /** The steps of the other launchers do not disturb it. */
  lemma OthersAreCalm(w: World, j: nat, e: Event, i: nat, result: ChildResult)
    requires WorldInv(w) && i < |w.procs| && j != i && Calmly(w.file, w.procs[i], i, result)
    ensures var after := Step(w, j, e); Calmly(after.file, after.procs[i], i, result)
  {
    hide Next, Inv, Calmly;
    if j < |w.procs| {
      if w.creator == Some(i) {
        PassiveStep(w.file, w.procs[j], e, j);
        CreatorHasFile(w, i);
      } else {
        PassiveIsCalm(w.file, Step(w, j, e).file, w.procs[i], i, result);
      }
    }
  }

  lemma CreatorHasFile(w: World, i: nat)
    requires WorldInv(w) && w.creator == Some(i)
    ensures !w.file.Absent?
  {
    hide Inv, Passive;
  }

  /** A launcher that created nothing does not depend on the file. */
  lemma PassiveIsCalm(file: File, after: File, p: Proc, owner: nat, result: ChildResult)
    requires Passive(p, owner) && Calmly(file, p, owner, result)
    ensures Calmly(after, p, owner, result)
  {
    hide EndsBy, RaisesAt, Healthy, AcceptedPayload, EvidenceIsValid, Base;
  }

  lemma StepIsCalm(w: World, j: nat, e: Event, i: nat, result: ChildResult)
    requires WorldInv(w) && i < |w.procs| && Calmly(w.file, w.procs[i], i, result)
    requires j == i ==> Undisturbed(e, w.procs[i], result) && EventFollows(e, result)
    ensures var after := Step(w, j, e); Calmly(after.file, after.procs[i], i, result)
  {
    hide WorldInv, Next, Calmly, Undisturbed, EventFollows;
    if j == i {
      CreatorIsLaunched(w, i);
      NextIsCalm(w.file, w.procs[i], e, i, result);
    } else {
      OthersAreCalm(w, j, e, i, result);
    }
  }

  lemma {:induction false} RunIsCalm(
    launches: seq<LaunchFacts>, schedule: seq<(nat, Event)>, i: nat, result: ChildResult)
    requires i < |launches| && Follows(schedule, i, result) && UndisturbedRun(launches, schedule, i, result)
    ensures var w := Run(launches, schedule); Calmly(w.file, w.procs[i], i, result)
    decreases |schedule|
  {
    if schedule == [] {
      UnforkedIsCalm(Absent, StartProc(i, launches[i]), i, result);
    } else {
      var init, last := schedule[..|schedule| - 1], schedule[|schedule| - 1];
      assert schedule == init + [last];
      assert forall k :: 0 <= k < |init| ==> init[..k] == schedule[..k] && init[k] == schedule[k];
      RunIsCalm(launches, init, i, result);
      RunSnoc(launches, init, last.0, last.1);
      RunKeeps(launches, init);
      hide WorldInv, Step, Calmly, EventFollows, Undisturbed;
      StepIsCalm(Run(launches, init), last.0, last.1, i, result);
    }
  }

  // ---- The end is decided -----------------------------------------------

  /**
   * Any number of launchers, the others free to fail, crash or be interrupted: a launcher
   * that is undisturbed, and whose function was left after an exact handshake, returned a
   * code, and code and durable image are exactly those of its child's result.
   */
  lemma EndIsDecided(launches: seq<LaunchFacts>, schedule: seq<(nat, Event)>, i: nat, result: ChildResult)
    requires i < |launches| && Follows(schedule, i, result) && UndisturbedRun(launches, schedule, i, result)
    requires var p := Run(launches, schedule).procs[i].parent; p.pc.Exited? && p.handshake.Some?
    ensures var w := Run(launches, schedule);
            && w.procs[i].parent.pc.exit.Code?
            && EndsBy(w.file, w.procs[i].parent.pc.exit.code, i, result, launches[i].binding)
  {
    RunIsCalm(launches, schedule, i, result);
    LaunchIsFixed(Start(launches), schedule, i);
    hide Run, Calmly, EndsBy;
    var w := Run(launches, schedule);
    CalmEnd(w.file, w.procs[i], i, result);
  }

  lemma CalmEnd(file: File, p: Proc, owner: nat, result: ChildResult)
    requires Calmly(file, p, owner, result) && p.parent.pc.Exited? && p.parent.handshake.Some?
    ensures p.parent.pc.exit.Code? && EndsBy(file, p.parent.pc.exit.code, owner, result, p.launch.binding)
  {
    hide EndsBy;
  }
}
