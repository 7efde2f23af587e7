/**
 * What a step of the launch protocol leaves alone: all but two events stay before the
 * release, and all but four learn nothing of the child's result.
 */
module LaunchFrames {
  import opened Wrappers
  import opened RunLedger
  import opened Launch
  import opened LaunchSteps
  import Receipt

  /** The consumption has returned: the release is next or has begun. */
  predicate PastConsumption(a: Parent) {
    a.pc.MarkRelease? || a.releaseStarted
  }

  /** A step that neither starts the release nor comes to the statement before it. */
  predicate DoesNotPass(p: Proc, q: Proc) {
    q.parent.releaseStarted == p.parent.releaseStarted && (q.parent.pc.MarkRelease? ==> p.parent.pc.MarkRelease?)
  }

  /** The child's status is known, and the evidence is not yet built. */
  predicate Knows(pc: Pc) {
    pc.Collected? || pc.Evidence?
  }

  /** The child has returned 0, or is dead with status 0. */
  predicate ZeroExit(child: Child) {
    child == Returning(0) || child == Dead(0)
  }

  /** A step at which the parent learns nothing of its child's result, and which gives the child no exit 0. */
  predicate LearnsNothing(p: Proc, q: Proc) {
    && q.parent.exitCode == p.parent.exitCode && q.parent.evidence == p.parent.evidence
    && q.parent.payload == p.parent.payload
    && (Knows(q.parent.pc) ==> q.parent.pc == p.parent.pc)
    && (ZeroExit(q.child) ==> ZeroExit(p.child))
  }

  /** Both. */
  predicate Ordinary(p: Proc, q: Proc) {
    DoesNotPass(p, q) && LearnsNothing(p, q)
  }

  lemma SameStays(p: Proc)
    ensures Ordinary(p, p) && DoesNotPass(p, p)
  {
  }

  lemma AtStays(file: File, p: Proc, q: Proc, pc: Pc)
    requires !pc.MarkRelease? && !Knows(pc) && q.parent == p.parent && (ZeroExit(q.child) ==> ZeroExit(p.child))
    ensures Ordinary(p, At(file, q, pc).proc)
  {
  }

  lemma LeaveStays(file: File, p: Proc, q: Proc, exit: Exit)
    requires q.parent == p.parent && q.child == p.child
    ensures Ordinary(p, Leave(file, q, exit).proc)
  {
  }

  lemma ParentStays(p: Proc, q: Proc)
    requires q.parent.releaseStarted == p.parent.releaseStarted && !q.parent.pc.MarkRelease? && !Knows(q.parent.pc)
    requires q.parent.exitCode == p.parent.exitCode && q.parent.evidence == p.parent.evidence
    requires q.parent.payload == p.parent.payload && (ZeroExit(q.child) ==> ZeroExit(p.child))
    ensures Ordinary(p, q)
  {
  }

  lemma StaysBehind(p: Proc, q: Proc)
    requires q.parent.releaseStarted == p.parent.releaseStarted && !q.parent.pc.MarkRelease?
    ensures DoesNotPass(p, q)
  {
  }

  lemma OpeningStays(file: File, p: Proc, owner: nat)
    requires p.parent.pc.Preflight? || p.parent.pc.Recovery? || p.parent.pc.Create?
    ensures Ordinary(p, ProceedParent(file, p, owner).proc)
  {
    hide At, Leave, Ordinary;
    AtStays(file, p, p, Recovery);
    AtStays(file, p, p, Create);
    LeaveStays(file, p, p, Raised);
    ParentStays(p, p.(parent := p.parent.(pc := Created, created := true)));
  }

  lemma SetupStays(file: File, p: Proc, owner: nat)
    requires p.parent.pc.Created? || p.parent.pc.OpenPipe? || p.parent.pc.Fork? || p.parent.pc.Setup?
    ensures Ordinary(p, ProceedParent(file, p, owner).proc)
  {
  }

  lemma RecordStays(file: File, p: Proc, owner: nat)
    requires p.parent.pc.Record? || p.parent.pc.Mark?
    ensures Ordinary(p, ProceedParent(file, p, owner).proc)
  {
    hide Launched;
  }

  lemma ReleaseStays(file: File, p: Proc, owner: nat)
    requires p.parent.pc.WriteRelease? || p.parent.pc.CloseRelease?
    ensures Ordinary(p, ProceedParent(file, p, owner).proc)
  {
  }

  lemma HandlerStays(file: File, p: Proc, owner: nat)
    requires p.parent.pc.LaunchCaught? || p.parent.pc.LaunchReaped?
    ensures Ordinary(p, ProceedParent(file, p, owner).proc)
  {
  }

  lemma AwaitStays(file: File, p: Proc, owner: nat)
    requires p.parent.pc.AwaitChild? || p.parent.pc.WaitCaught? || p.parent.pc.WaitReaped?
    ensures Ordinary(p, ProceedParent(file, p, owner).proc)
  {
  }

  lemma FinalStays(file: File, p: Proc, owner: nat)
    requires p.parent.pc.FinalCaught? || p.parent.pc.Finished?
    ensures Ordinary(p, ProceedParent(file, p, owner).proc)
  {
    hide At, Leave, Ordinary;
    AtStays(file, p, p, FinalPersist);
    if p.parent.pc.Finished? {
      LeaveStays(file, p, p, Code(p.parent.pc.result));
    }
  }

  /** The statement that begins the release learns nothing. */
  lemma MarkReleaseStays(file: File, p: Proc, owner: nat)
    requires p.parent.pc.MarkRelease?
    ensures LearnsNothing(p, ProceedParent(file, p, owner).proc)
  {
  }

  lemma CollectedStays(file: File, p: Proc, owner: nat)
    requires p.parent.pc.Collected?
    ensures DoesNotPass(p, ProceedParent(file, p, owner).proc)
  {
  }

  lemma ProceedStays(file: File, p: Proc, owner: nat)
    requires !p.parent.pc.MarkRelease? && !p.parent.pc.Collected?
    ensures Ordinary(p, ProceedParent(file, p, owner).proc)
  {
    SameStays(p);
    hide Ordinary;
    match p.parent.pc
    case Preflight => OpeningStays(file, p, owner);
    case Recovery => OpeningStays(file, p, owner);
    case Create => OpeningStays(file, p, owner);
    case Created => SetupStays(file, p, owner);
    case OpenPipe => SetupStays(file, p, owner);
    case Fork => SetupStays(file, p, owner);
    case Setup => SetupStays(file, p, owner);
    case Record => RecordStays(file, p, owner);
    case Mark => RecordStays(file, p, owner);
    case WriteRelease => ReleaseStays(file, p, owner);
    case CloseRelease => ReleaseStays(file, p, owner);
    case LaunchCaught => HandlerStays(file, p, owner);
    case LaunchReaped => HandlerStays(file, p, owner);
    case AwaitChild => AwaitStays(file, p, owner);
    case WaitCaught => AwaitStays(file, p, owner);
    case WaitReaped => AwaitStays(file, p, owner);
    case FinalCaught => FinalStays(file, p, owner);
    case Finished(_) => FinalStays(file, p, owner);
    case _ =>
  }

  lemma FailStays(file: File, p: Proc)
    ensures Ordinary(p, FailParent(file, p).proc)
  {
    hide FailParent, At, Leave, Ordinary;
    FailShape(file, p);
    AtStays(file, p, p, LaunchCaught);
    AtStays(file, p, p, WaitCaught);
    AtStays(file, p, p, FinalCaught);
    LeaveStays(file, p, p, Raised);
    SameStays(p);
  }

  lemma FailShape(file: File, p: Proc)
    ensures var o := FailParent(file, p);
            || o == At(file, p, LaunchCaught) || o == At(file, p, WaitCaught) || o == At(file, p, FinalCaught)
            || o == Leave(file, p, Raised) || o == Outcome(file, p)
  {
  }

  lemma InterruptStays(file: File, p: Proc)
    ensures Ordinary(p, InterruptParent(file, p).proc)
  {
    hide InterruptParent, At, Leave, Ordinary;
    var unguarded := p.(marks := p.marks.(unguarded := true));
    var recorded := p.(marks := p.marks.(midRecord := p.marks.midRecord || p.parent.pc.Mark?));
    InterruptShape(file, p);
    AtStays(file, p, recorded, LaunchCaught);
    AtStays(file, p, p, WaitCaught);
    AtStays(file, p, p, FinalCaught);
    LeaveStays(file, p, p, Raised);
    LeaveStays(file, p, unguarded, Raised);
    SameStays(p);
  }

  lemma InterruptShape(file: File, p: Proc)
    ensures var o := InterruptParent(file, p);
            || o == Leave(file, p.(marks := p.marks.(unguarded := true)), Raised)
            || o == At(file, p.(marks := p.marks.(midRecord := p.marks.midRecord || p.parent.pc.Mark?)), LaunchCaught)
            || o == At(file, p, WaitCaught) || o == At(file, p, FinalCaught)
            || o == Leave(file, p, Raised) || o == Outcome(file, p)
  {
  }

  lemma {:induction false} ScanStays(file: File, p: Proc, items: seq<ProcessItem>)
    ensures Ordinary(p, ScanParent(file, p, items).proc)
    decreases |items|
  {
    hide At, Ordinary;
    SameStays(p);
    AtStays(file, p, p, LaunchCaught);
    if items != [] {
      ParentStays(p, p.(parent := p.parent.(pc := Record, handshake := Some(items[0]))));
      ScanStays(file, p, items[1..]);
    }
  }

  lemma ReapStays(file: File, p: Proc, ok: bool)
    ensures Ordinary(p, ReapParent(file, p, ok).proc)
  {
    hide Ordinary;
    var a := p.parent;
    var next := if a.pc.LaunchReap? then LaunchReaped else WaitReaped;
    SameStays(p);
    ParentStays(p, p.(parent := a.(pc := next, cleanupFailed := true)));
    ParentStays(p, p.(parent := a.(pc := next, childReaped := true), child := Dead(StatusOf(p.child)), reaped := true));
  }

  lemma WaitStays(file: File, p: Proc, e: Event)
    ensures DoesNotPass(p, WaitParent(file, p, e).proc)
  {
    hide DoesNotPass;
    var a, q := p.parent, p.(child := Dead(StatusOf(p.child)), reaped := true);
    SameStays(p);
    StaysBehind(p, At(file, q, WaitCaught).proc);
    StaysBehind(p, q.(parent := a.(pc := Collected, childReaped := true, exitCode := StatusOf(p.child),
                                   timedOut := e.DeadlineExpired?)));
  }

  lemma EvidenceStays(file: File, p: Proc, evidence: Receipt.Evidence)
    ensures DoesNotPass(p, EvidenceParent(file, p, evidence).proc)
  {
    hide DoesNotPass, Receipt.ValidEvidence, FailedResult;
    var a := p.parent;
    SameStays(p);
    StaysBehind(p, p.(parent := a.(pc := Validate, evidence := Some(evidence), stage := ReceiptParseValidation)));
    StaysBehind(p, p.(parent := a.(pc := PersistResult, evidence := Some(evidence),
                                   ledger := FailedResult(a.ledger, a.exitCode, a.timedOut),
                                   stage := TerminalFailureFinalization)));
  }

  lemma ParsedStays(file: File, p: Proc, payload: Receipt.Payload)
    ensures DoesNotPass(p, ParsedParent(file, p, payload).proc)
  {
    hide DoesNotPass, Receipt.Accepted;
    SameStays(p);
    StaysBehind(p, At(file, p, FinalCaught).proc);
    StaysBehind(p, p.(parent := p.parent.(pc := PersistCompleted, payload := Some(payload), stage := ReceiptFinalization)));
  }

  lemma WriteStays(file: File, p: Proc, outcome: WriteOutcome)
    requires !(p.parent.pc.PersistToken? && outcome.Returned?)
    ensures Ordinary(p, WriteParent(file, p, outcome).proc)
  {
    hide FailedWith, CompletedResult, Receipt.SummaryOf, Put;
    match p.parent.pc
    case PersistToken => TokenStays(file, p, outcome);
    case LaunchPersist =>
      LastWriteStays(file, p, FailedWith(p.parent.ledger, HandlerState(p.parent),
                                         Failure(HandlerStage(p.parent), p.parent.cleanupFailed)), outcome);
    case WaitPersist =>
      LastWriteStays(file, p, FailedWith(p.parent.ledger, FailedAfterLaunch,
                                         Failure(ChildWait, p.parent.cleanupFailed)), outcome);
    case PersistResult => ResultStays(file, p, p.parent.ledger, outcome);
    case PersistCompleted => CompletedStays(file, p, outcome);
    case FinalPersist => FallbackStays(file, p, outcome);
    case _ =>
  }

  lemma TokenStays(file: File, p: Proc, outcome: WriteOutcome)
    requires !outcome.Returned?
    ensures Ordinary(p, TokenWrite(file, p, outcome).proc)
  {
    AtStays(Put(file, p.parent.ledger, false, outcome), p, p, LaunchCaught);
  }

  lemma LastWriteStays(file: File, p: Proc, image: Ledger, outcome: WriteOutcome)
    ensures Ordinary(p, PersistLast(file, p, image, outcome).proc)
  {
  }

  lemma FallbackStays(file: File, p: Proc, outcome: WriteOutcome)
    ensures Ordinary(p, FallbackWrite(file, p, outcome).proc)
  {
    hide FailedWith, Put;
  }

  lemma ResultStays(file: File, p: Proc, image: Ledger, outcome: WriteOutcome)
    ensures Ordinary(p, FinalizationWrite(file, p, image, outcome).proc)
  {
    hide Put;
  }

  lemma CompletedStays(file: File, p: Proc, outcome: WriteOutcome)
    requires p.parent.pc.PersistCompleted?
    ensures Ordinary(p, WriteParent(file, p, outcome).proc)
  {
    hide CompletedResult, Receipt.SummaryOf, FinalizationWrite;
    SameStays(p);
    if p.parent.payload.Some? && p.parent.evidence.Some? {
      var a := p.parent;
      ResultStays(file, p, CompletedResult(a.ledger, a.exitCode, a.timedOut,
                                           Receipt.SummaryOf(a.payload.value, a.evidence.value)), outcome);
    }
  }

  // ---- All events -------------------------------------------------------

  /** The only events that can take a launch past its consumption. */
  predicate Passes(e: Event, p: Proc) {
    (e == Write(Returned) && p.parent.pc.PersistToken?) || (e.Proceed? && p.parent.pc.MarkRelease?)
  }

  /** The only events of the parent by which it can learn of its child's result. */
  predicate Learns(e: Event, p: Proc) {
    || (e.Proceed? && p.parent.pc.Collected?) || e.ChildObserved? || e.ChildLost? || e.DeadlineExpired?
    || e.EvidenceBuilt? || e.Parsed?
  }

  lemma AliveStays(file: File, p: Proc, e: Event, owner: nat)
    requires !IsChildEvent(e) && ParentAlive(p)
    ensures Passes(e, p) || DoesNotPass(p, Next(file, p, e, owner).proc)
    ensures Learns(e, p) || LearnsNothing(p, Next(file, p, e, owner).proc)
  {
    hide Next, DoesNotPass, LearnsNothing;
    match e
    case Proceed =>
      NextProceed(file, p, owner);
      if p.parent.pc.MarkRelease? {
        MarkReleaseStays(file, p, owner);
      } else if p.parent.pc.Collected? {
        CollectedStays(file, p, owner);
      } else {
        ProceedStays(file, p, owner);
      }
    case Fail =>
      NextFail(file, p, owner);
      FailStays(file, p);
    case Interrupt =>
      NextFail(file, p, owner);
      InterruptStays(file, p);
    case Write(outcome) =>
      NextWrite(file, p, outcome, owner);
      if p.parent.pc.PersistToken? {
        TokenLearnsNothing(file, p, outcome);
      }
      if !(p.parent.pc.PersistToken? && outcome.Returned?) {
        WriteStays(file, p, outcome);
      }
    case Scanned(items) =>
      NextScan(file, p, items, owner);
      ScanStays(file, p, items);
    case Reap(ok) =>
      NextReap(file, p, ok, owner);
      ReapStays(file, p, ok);
    case EvidenceBuilt(evidence) =>
      NextEvidence(file, p, evidence, owner);
      EvidenceStays(file, p, evidence);
    case Parsed(payload) =>
      NextParsed(file, p, payload, owner);
      ParsedStays(file, p, payload);
    case Crash =>
      NextBroken(file, p, false, false, owner);
      StoppedStays(file, p, false, false);
    case CreateBroken(torn, crash) =>
      NextBroken(file, p, torn, crash, owner);
      StoppedStays(file, p, torn, crash);
    case ForkInterrupted =>
      NextBroken(file, p, false, false, owner);
      BrokenStays(file, p);
    case ReleaseInterrupted =>
      NextBroken(file, p, false, false, owner);
      BrokenStays(file, p);
    case _ =>
      NextWait(file, p, e, owner);
      WaitStays(file, p, e);
  }

  lemma StoppedStays(file: File, p: Proc, torn: bool, crash: bool)
    ensures Ordinary(p, CrashParent(file, p).proc) && Ordinary(p, CreateBrokenParent(file, p, torn, crash).proc)
  {
    hide Ordinary;
    SameStays(p);
    ParentStays(p, p.(parent := p.parent.(pc := Crashed, writeEnd := false)));
    ParentStays(p, p.(parent := p.parent.(pc := Crashed)));
    ParentStays(p, p.(parent := p.parent.(pc := Exited(Raised))));
  }

  lemma BrokenStays(file: File, p: Proc)
    ensures Ordinary(p, ForkInterruptedParent(file, p).proc) && Ordinary(p, ReleaseInterruptedParent(file, p).proc)
  {
    hide Ordinary, At;
    SameStays(p);
    AtStays(file, p, p.(child := Starting, marks := p.marks.(pidLost := true)), LaunchCaught);
    AtStays(file, p, p.(pipeByte := true, marks := p.marks.(released := true)), LaunchCaught);
  }

  lemma TokenLearnsNothing(file: File, p: Proc, outcome: WriteOutcome)
    requires p.parent.pc.PersistToken?
    ensures LearnsNothing(p, WriteParent(file, p, outcome).proc)
  {
    hide LearnsNothing, Put;
    var pc := if outcome.Returned? then MarkRelease else LaunchCaught;
    var q := p.(parent := p.parent.(pc := pc));
    OnlyMoves(p, q);
    assert WriteParent(file, p, outcome).proc == q;
  }

  lemma OnlyMoves(p: Proc, q: Proc)
    requires q == p.(parent := p.parent.(pc := q.parent.pc)) && !Knows(q.parent.pc)
    ensures LearnsNothing(p, q)
  {
  }

  /** The returned token write is the only way past the consumption. */
  lemma OnlyConsumptionPasses(file: File, p: Proc, e: Event, owner: nat)
    requires !PastConsumption(p.parent) && !(e == Write(Returned) && p.parent.pc.PersistToken?)
    ensures !PastConsumption(Next(file, p, e, owner).proc.parent)
  {
    hide Next;
    if IsChildEvent(e) {
      NextChild(file, p, e, owner);
    } else if !ParentAlive(p) {
      NextGone(file, p, e, owner);
    } else {
      AliveStays(file, p, e, owner);
    }
  }

  /** A child comes to an exit 0 only by returning it. */
  lemma ChildLearns(file: File, p: Proc, e: Event, owner: nat)
    requires e != ChildReturns(0)
    ensures var q := ChildStep(file, p, e, owner).proc;
            q.parent == p.parent && (ZeroExit(q.child) ==> ZeroExit(p.child))
  {
  }

  /** Every other event learns nothing. */
  lemma OtherEventsLearnNothing(file: File, p: Proc, e: Event, owner: nat)
    requires e != ChildReturns(0) && !Learns(e, p)
    ensures LearnsNothing(p, Next(file, p, e, owner).proc)
  {
    hide Next;
    if IsChildEvent(e) {
      NextChild(file, p, e, owner);
      ChildLearns(file, p, e, owner);
    } else if !ParentAlive(p) {
      NextGone(file, p, e, owner);
    } else {
      AliveStays(file, p, e, owner);
    }
  }
}
