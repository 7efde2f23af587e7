/**
 * Runs in which a launcher's child does what its own run decided: it returns one code and
 * leaves one output, or none.  Only a child that returned 0 and left an output that the
 * validator accepts can ever get a completed image, whatever else happens.
 */
module LaunchFollows {
  import opened Wrappers
  import opened RunLedger
  import opened Launch
  import opened LaunchInvariant
  import opened LaunchSteps
  import opened LaunchTheorems
  import opened LaunchFrames
  import Receipt

  /** What a child that works does: the code it returns, and the output file it leaves. */
  datatype ChildResult = ChildResult(code: int, output: Option<Receipt.Payload>)

  /** The child returns its code, and only its output is there to be hashed and parsed. */
  predicate EventFollows(e: Event, result: ChildResult) {
    && (e.ChildReturns? ==> e.code == result.code)
    && (e.EvidenceBuilt? ==> result.output.Some?)
    && (e.Parsed? ==> result.output == Some(e.payload))
  }

  /** The child of launcher `i` does what `result` says; signals and faults are free. */
  predicate Follows(schedule: seq<(nat, Event)>, i: nat, result: ChildResult) {
    forall k :: 0 <= k < |schedule| && schedule[k].0 == i ==> EventFollows(schedule[k].1, result)
  }

  /** The validator accepts the payload with some valid evidence. */
  ghost predicate Acceptable(payload: Receipt.Payload, binding: Receipt.Binding) {
    exists evidence :: Receipt.ValidEvidence(evidence) && Receipt.Accepted(payload, binding, evidence)
  }

  /** Which valid evidence it is makes no difference to the validator. */
  lemma EvidenceMakesNoDifference(payload: Receipt.Payload, binding: Receipt.Binding, evidence: Receipt.Evidence)
    requires Receipt.ValidEvidence(evidence)
    ensures Receipt.Accepted(payload, binding, evidence) <==> Acceptable(payload, binding)
  {
    hide Receipt.CheckWorkload, Receipt.CheckPublication;
  }

  /** A child that returned 0 and left an acceptable output. */
  ghost predicate Succeeds(result: ChildResult, binding: Receipt.Binding) {
    result.code == 0 && result.output.Some? && Acceptable(result.output.value, binding)
  }

  // ---- What the launcher has learned ------------------------------------

  predicate Learned(p: Proc, result: ChildResult) {
    var a := p.parent;
    && (ZeroExit(p.child) ==> result.code == 0)
    && ((Knows(a.pc) || a.evidence.Some?) && a.exitCode == 0 ==> result.code == 0)
    && (a.evidence.Some? ==> result.output.Some?)
    && (a.payload.Some? ==> result.code == 0 && a.payload == result.output)
  }

  lemma LearnedStays(p: Proc, q: Proc, result: ChildResult)
    requires Learned(p, result) && LearnsNothing(p, q)
    ensures Learned(q, result)
  {
  }

  lemma WaitLearns(file: File, p: Proc, e: Event, result: ChildResult)
    requires Learned(p, result)
    ensures Learned(WaitParent(file, p, e).proc, result)
  {
  }

  lemma EvidenceLearns(file: File, p: Proc, evidence: Receipt.Evidence, result: ChildResult)
    requires Learned(p, result) && result.output.Some?
    ensures Learned(EvidenceParent(file, p, evidence).proc, result)
  {
    hide Receipt.ValidEvidence, FailedResult, Learned;
    var a := p.parent;
    if a.pc.Evidence? {
      BuiltLearns(p, a.(pc := Validate, evidence := Some(evidence), stage := ReceiptParseValidation), result);
      BuiltLearns(p, a.(pc := PersistResult, evidence := Some(evidence),
                        ledger := FailedResult(a.ledger, a.exitCode, a.timedOut),
                        stage := TerminalFailureFinalization), result);
    }
  }

  lemma BuiltLearns(p: Proc, a: Parent, result: ChildResult)
    requires Learned(p, result) && result.output.Some? && p.parent.pc.Evidence?
    requires a.exitCode == p.parent.exitCode && a.payload == p.parent.payload && !Knows(a.pc)
    ensures Learned(p.(parent := a), result)
  {
  }

  lemma ParsedLearns(file: File, p: Proc, payload: Receipt.Payload, result: ChildResult)
    requires Learned(p, result) && result.output == Some(payload)
    requires p.parent.pc.Validate? ==> p.parent.exitCode == 0
    ensures Learned(ParsedParent(file, p, payload).proc, result)
  {
    hide Receipt.Accepted, Learned, LearnsNothing;
    OnlyMoves(p, p.(parent := p.parent.(pc := FinalCaught)));
    LearnedStays(p, p.(parent := p.parent.(pc := FinalCaught)), result);
    if p.parent.pc.Validate? && p.parent.evidence.Some? {
      AcceptedLearns(p, payload, result);
    }
  }

  lemma AcceptedLearns(p: Proc, payload: Receipt.Payload, result: ChildResult)
    requires Learned(p, result) && result.output == Some(payload)
    requires p.parent.evidence.Some? && p.parent.exitCode == 0
    ensures Learned(p.(parent := p.parent.(pc := PersistCompleted, payload := Some(payload),
                                           stage := ReceiptFinalization)), result)
  {
  }

  lemma CollectedLearns(file: File, p: Proc, owner: nat, result: ChildResult)
    requires Learned(p, result) && p.parent.pc.Collected?
    ensures Learned(Next(file, p, Proceed, owner).proc, result)
  {
    hide Next;
    CollectedStep(file, p, owner);
  }

  /** No event of a launcher whose child follows its result teaches the launcher anything else. */
  lemma NextLearns(file: File, p: Proc, e: Event, owner: nat, result: ChildResult)
    requires Learned(p, result) && EventFollows(e, result)
    requires p.parent.pc.Validate? ==> p.parent.exitCode == 0
    ensures Learned(Next(file, p, e, owner).proc, result)
  {
    hide Next;
    if e == ChildReturns(0) {
      NextChild(file, p, e, owner);
    } else if !Learns(e, p) {
      OtherEventsLearnNothing(file, p, e, owner);
      LearnedStays(p, Next(file, p, e, owner).proc, result);
    } else if !ParentAlive(p) {
      NextGone(file, p, e, owner);
    } else {
      hide Learned;
      match e
      case Proceed => CollectedLearns(file, p, owner, result);
      case EvidenceBuilt(evidence) =>
        NextEvidence(file, p, evidence, owner);
        EvidenceLearns(file, p, evidence, result);
      case Parsed(payload) =>
        NextParsed(file, p, payload, owner);
        ParsedLearns(file, p, payload, result);
      case _ =>
        NextWait(file, p, e, owner);
        WaitLearns(file, p, e, result);
    }
  }

  /** At the validation the exit code is 0, whoever the launcher is. */
  lemma ValidatesZero(w: World, i: nat)
    requires WorldInv(w) && i < |w.procs|
    ensures w.procs[i].parent.pc.Validate? ==> w.procs[i].parent.exitCode == 0
  {
    if w.creator == Some(i) {
      CreatorValidatesZero(w.file, w.procs[i], i);
    }
  }

  lemma CreatorValidatesZero(file: File, p: Proc, owner: nat)
    requires Inv(file, p, owner)
    ensures p.parent.pc.Validate? ==> p.parent.exitCode == 0
  {
    hide FlagInv, ChildInv, ImageInv;
  }

  lemma StepLearns(w: World, j: nat, e: Event, i: nat, result: ChildResult)
    requires WorldInv(w) && i < |w.procs| && Learned(w.procs[i], result) && (j == i ==> EventFollows(e, result))
    ensures Learned(Step(w, j, e).procs[i], result)
  {
    hide WorldInv, Next, Learned, EventFollows;
    if j == i {
      ValidatesZero(w, i);
      NextLearns(w.file, w.procs[i], e, i, result);
    }
  }

  lemma {:induction false} RunLearns(
    launches: seq<LaunchFacts>, schedule: seq<(nat, Event)>, i: nat, result: ChildResult)
    requires i < |launches| && Follows(schedule, i, result)
    ensures Learned(Run(launches, schedule).procs[i], result)
    decreases |schedule|
  {
    if schedule != [] {
      var init, last := schedule[..|schedule| - 1], schedule[|schedule| - 1];
      assert schedule == init + [last];
      RunLearns(launches, init, i, result);
      RunSnoc(launches, init, last.0, last.1);
      RunKeeps(launches, init);
      hide WorldInv, Step, Learned, EventFollows;
      StepLearns(Run(launches, init), last.0, last.1, i, result);
    }
  }

  // ---- What the launcher has seen ---------------------------------------

  /** The evidence and the payload it holds are those of events of the schedule. */
  predicate Seen(p: Proc, schedule: seq<(nat, Event)>, i: nat) {
    && (p.parent.evidence.Some? ==> (i, EvidenceBuilt(p.parent.evidence.value)) in schedule)
    && (p.parent.payload.Some? ==> (i, Parsed(p.parent.payload.value)) in schedule)
  }

  /** An event leaves evidence and payload alone, or is the one that brings them. */
  lemma NextSees(file: File, p: Proc, e: Event, owner: nat)
    ensures var q := Next(file, p, e, owner).proc;
            && (q.parent.evidence == p.parent.evidence
                || (e.EvidenceBuilt? && q.parent.evidence == Some(e.evidence)))
            && (q.parent.payload == p.parent.payload || (e.Parsed? && q.parent.payload == Some(e.payload)))
  {
    hide Next;
    if e == ChildReturns(0) {
      NextChild(file, p, e, owner);
    } else if !Learns(e, p) {
      OtherEventsLearnNothing(file, p, e, owner);
    } else if !ParentAlive(p) {
      NextGone(file, p, e, owner);
    } else {
      match e
      case Proceed => CollectedStep(file, p, owner);
      case EvidenceBuilt(evidence) =>
        NextEvidence(file, p, evidence, owner);
        EvidenceSees(file, p, evidence);
      case Parsed(payload) =>
        NextParsed(file, p, payload, owner);
        ParsedSees(file, p, payload);
      case _ =>
        NextWait(file, p, e, owner);
        WaitSees(file, p, e);
    }
  }

  lemma EvidenceSees(file: File, p: Proc, evidence: Receipt.Evidence)
    ensures var q := EvidenceParent(file, p, evidence).proc;
            && (q.parent.evidence == p.parent.evidence || q.parent.evidence == Some(evidence))
            && q.parent.payload == p.parent.payload
  {
    EvidenceShape(file, p, evidence);
    hide EvidenceParent, FailedResult;
  }

  lemma EvidenceShape(file: File, p: Proc, evidence: Receipt.Evidence)
    ensures var o, a := EvidenceParent(file, p, evidence), p.parent;
            || o == Outcome(file, p)
            || o == Outcome(file, p.(parent := a.(pc := Validate, evidence := Some(evidence),
                                                  stage := ReceiptParseValidation)))
            || o == Outcome(file, p.(parent := a.(pc := PersistResult, evidence := Some(evidence),
                                                  ledger := FailedResult(a.ledger, a.exitCode, a.timedOut),
                                                  stage := TerminalFailureFinalization)))
  {
    hide Receipt.ValidEvidence, FailedResult;
  }

  lemma ParsedSees(file: File, p: Proc, payload: Receipt.Payload)
    ensures var q := ParsedParent(file, p, payload).proc;
            && q.parent.evidence == p.parent.evidence
            && (q.parent.payload == p.parent.payload || q.parent.payload == Some(payload))
  {
    ParsedShape(file, p, payload);
    hide ParsedParent;
  }

  lemma ParsedShape(file: File, p: Proc, payload: Receipt.Payload)
    ensures var o, a := ParsedParent(file, p, payload), p.parent;
            || o == Outcome(file, p) || o == At(file, p, FinalCaught)
            || o == Outcome(file, p.(parent := a.(pc := PersistCompleted, payload := Some(payload),
                                                  stage := ReceiptFinalization)))
  {
    hide Receipt.Accepted, At;
  }

  lemma WaitSees(file: File, p: Proc, e: Event)
    ensures var q := WaitParent(file, p, e).proc;
            q.parent.evidence == p.parent.evidence && q.parent.payload == p.parent.payload
  {
    WaitShape(file, p, e);
    hide WaitParent, StatusOf;
  }

  lemma WaitShape(file: File, p: Proc, e: Event)
    ensures var o, a := WaitParent(file, p, e), p.parent;
            var q := p.(child := Dead(StatusOf(p.child)), reaped := true);
            || o == Outcome(file, p) || o == At(file, q, WaitCaught)
            || o == Outcome(file, q.(parent := a.(pc := Collected, childReaped := true, exitCode := StatusOf(p.child),
                                                  timedOut := e.DeadlineExpired?)))
  {
    hide StatusOf, At;
  }

  lemma {:induction false} RunSees(launches: seq<LaunchFacts>, schedule: seq<(nat, Event)>, i: nat)
    requires i < |launches|
    ensures Seen(Run(launches, schedule).procs[i], schedule, i)
    decreases |schedule|
  {
    if schedule != [] {
      var init, last := schedule[..|schedule| - 1], schedule[|schedule| - 1];
      RunSees(launches, init, i);
      LastEvent(launches, schedule, i);
      var w := Run(launches, init);
      NextSees(w.file, w.procs[i], last.1, i);
      hide Run, Next;
      assert forall event :: event in init ==> event in schedule;
      assert last in schedule;
    }
  }

  // ---- Only success completes -------------------------------------------

  /**
   * For any number of launchers, any schedule and all faults: a completed image belongs to
   * a launcher whose child returned 0 and left the very output that was parsed and accepted,
   * and its receipt holds that output's fields and the evidence that was built.
   */
  lemma CompletedIsEarned(launches: seq<LaunchFacts>, schedule: seq<(nat, Event)>, results: seq<ChildResult>)
    returns (owner: nat, evidence: Receipt.Evidence)
    requires |results| == |launches| && forall i :: 0 <= i < |launches| ==> Follows(schedule, i, results[i])
    requires var file := Run(launches, schedule).file; file.Holding? && file.image.state.Completed?
    ensures owner < |launches| && Run(launches, schedule).file.image.owner == owner
    ensures results[owner].code == 0 && results[owner].output.Some?
    ensures Receipt.Accepted(results[owner].output.value, launches[owner].binding, evidence)
    ensures (owner, EvidenceBuilt(evidence)) in schedule && (owner, Parsed(results[owner].output.value)) in schedule
    ensures var payload := results[owner].output.value;
            Run(launches, schedule).file.image.receipt == Some(Receipt.Summary(
              payload.schema, payload.workloadDigest, payload.publicationDigest, evidence))
  {
    var w := Run(launches, schedule);
    RunKeeps(launches, schedule);
    owner := w.creator.value;
    LaunchIsFixed(Start(launches), schedule, owner);
    RunLearns(launches, schedule, owner, results[owner]);
    RunSees(launches, schedule, owner);
    hide Run, Receipt.Accepted;
    evidence := CompletedBy(w.file, w.procs[owner], owner);
  }

  lemma CompletedBy(file: File, p: Proc, owner: nat) returns (evidence: Receipt.Evidence)
    requires Inv(file, p, owner) && file.Holding? && file.image.state.Completed?
    ensures file.image.owner == owner && AcceptedPayload(p) && evidence == p.parent.evidence.value
    ensures var payload := p.parent.payload.value;
            file.image.receipt == Some(Receipt.Summary(
              payload.schema, payload.workloadDigest, payload.publicationDigest, evidence))
  {
    hide FlagInv, PcInv, Receipt.Accepted;
    evidence := p.parent.evidence.value;
  }

  /** If no launcher's child succeeds, no schedule and no fault ever leaves a completed image. */
  lemma OnlySuccessCompletes(launches: seq<LaunchFacts>, schedule: seq<(nat, Event)>, results: seq<ChildResult>)
    requires |results| == |launches|
    requires forall i :: 0 <= i < |launches| ==>
                           Follows(schedule, i, results[i]) && !Succeeds(results[i], launches[i].binding)
    ensures var file := Run(launches, schedule).file; file.Holding? ==> !file.image.state.Completed?
  {
    hide Run, Receipt.Accepted;
    var file := Run(launches, schedule).file;
    if file.Holding? && file.image.state.Completed? {
      var owner, evidence := CompletedIsEarned(launches, schedule, results);
      AcceptedIsAcceptable(results[owner].output.value, launches[owner].binding, evidence);
    }
  }

  lemma AcceptedIsAcceptable(payload: Receipt.Payload, binding: Receipt.Binding, evidence: Receipt.Evidence)
    requires Receipt.Accepted(payload, binding, evidence)
    ensures Acceptable(payload, binding)
  {
  }
}
