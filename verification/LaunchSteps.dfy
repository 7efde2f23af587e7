/** What single events do at single program points of the launch protocol. */
module LaunchSteps {
  import opened Wrappers
  import opened RunLedger
  import opened Launch
  import Receipt

  lemma NextProceed(file: File, p: Proc, owner: nat)
    requires ParentAlive(p)
    ensures Next(file, p, Proceed, owner) == ProceedParent(file, p, owner)
  {
    hide ProceedParent, ChildStep;
  }

  lemma NextFail(file: File, p: Proc, owner: nat)
    requires ParentAlive(p)
    ensures Next(file, p, Fail, owner) == FailParent(file, p)
    ensures Next(file, p, Interrupt, owner) == InterruptParent(file, p)
  {
    hide FailParent, InterruptParent, ChildStep;
  }

  lemma NextWrite(file: File, p: Proc, outcome: WriteOutcome, owner: nat)
    requires ParentAlive(p)
    ensures Next(file, p, Write(outcome), owner) == WriteParent(file, p, outcome)
  {
    hide WriteParent, ChildStep;
  }

  lemma NextChild(file: File, p: Proc, e: Event, owner: nat)
    requires IsChildEvent(e)
    ensures Next(file, p, e, owner) == ChildStep(file, p, e, owner)
  {
    hide ChildStep;
  }

  lemma NextReap(file: File, p: Proc, ok: bool, owner: nat)
    requires ParentAlive(p)
    ensures Next(file, p, Reap(ok), owner) == ReapParent(file, p, ok)
  {
    hide ReapParent, ChildStep;
  }

  lemma NextScan(file: File, p: Proc, items: seq<ProcessItem>, owner: nat)
    requires ParentAlive(p)
    ensures Next(file, p, Scanned(items), owner) == ScanParent(file, p, items)
  {
    hide ScanParent, ChildStep;
  }

  lemma NextWait(file: File, p: Proc, e: Event, owner: nat)
    requires ParentAlive(p) && (e.ChildObserved? || e.ChildLost? || e.DeadlineExpired?)
    ensures Next(file, p, e, owner) == WaitParent(file, p, e)
  {
    hide WaitParent, ChildStep;
  }

  lemma NextEvidence(file: File, p: Proc, evidence: Receipt.Evidence, owner: nat)
    requires ParentAlive(p)
    ensures Next(file, p, EvidenceBuilt(evidence), owner) == EvidenceParent(file, p, evidence)
  {
    hide EvidenceParent, ChildStep;
  }

  lemma NextParsed(file: File, p: Proc, payload: Receipt.Payload, owner: nat)
    requires ParentAlive(p)
    ensures Next(file, p, Parsed(payload), owner) == ParsedParent(file, p, payload)
  {
    hide ParsedParent, ChildStep;
  }

  lemma NextBroken(file: File, p: Proc, torn: bool, crash: bool, owner: nat)
    requires ParentAlive(p)
    ensures Next(file, p, Crash, owner) == CrashParent(file, p)
    ensures Next(file, p, CreateBroken(torn, crash), owner) == CreateBrokenParent(file, p, torn, crash)
    ensures Next(file, p, ForkInterrupted, owner) == ForkInterruptedParent(file, p)
    ensures Next(file, p, ReleaseInterrupted, owner) == ReleaseInterruptedParent(file, p)
  {
    hide CrashParent, CreateBrokenParent, ForkInterruptedParent, ReleaseInterruptedParent, ChildStep;
  }

  /** A parent that is gone does nothing. */
  lemma NextGone(file: File, p: Proc, e: Event, owner: nat)
    requires !ParentAlive(p) && !IsChildEvent(e)
    ensures Next(file, p, e, owner) == Outcome(file, p)
  {
    hide ProceedParent, WriteParent, ScanParent, WaitParent, EvidenceParent, ParsedParent, ChildStep;
  }

  // ---- The launch -------------------------------------------------------

  /** The three statements before the first `try`, over an absent ledger file. */
  lemma OpeningSteps(p: Proc, owner: nat)
    ensures p.parent.pc.Preflight? ==>
              ProceedParent(Absent, p, owner) == Outcome(Absent, p.(parent := p.parent.(pc := Recovery)))
    ensures p.parent.pc.Recovery? ==>
              ProceedParent(Absent, p, owner) == Outcome(Absent, p.(parent := p.parent.(pc := Create)))
    ensures p.parent.pc.Create? ==>
              ProceedParent(Absent, p, owner)
              == Outcome(Holding(p.parent.ledger, false), p.(parent := p.parent.(pc := Created, created := true)))
  {
  }

  lemma SetupSteps(file: File, p: Proc, owner: nat)
    ensures p.parent.pc.Created? ==>
              ProceedParent(file, p, owner) == Outcome(file, p.(parent := p.parent.(pc := OpenPipe)))
    ensures p.parent.pc.OpenPipe? ==>
              ProceedParent(file, p, owner) == Outcome(file, p.(parent := p.parent.(pc := Fork, writeEnd := true)))
    ensures p.parent.pc.Fork? ==>
              ProceedParent(file, p, owner)
              == Outcome(file, p.(parent := p.parent.(pc := Setup, childPid := true), child := Starting))
    ensures p.parent.pc.Setup? ==>
              ProceedParent(file, p, owner) == Outcome(file, p.(parent := p.parent.(pc := Handshake)))
    ensures p.parent.pc.Record? ==>
              ProceedParent(file, p, owner)
              == Outcome(file, p.(parent := p.parent.(pc := Mark, ledger := Launched(p.parent.ledger))))
    ensures p.parent.pc.LaunchReaped? ==>
              ProceedParent(file, p, owner) == Outcome(file, p.(parent := p.parent.(pc := LaunchPersist)))
  {
    hide Launched;
  }

  lemma ReleaseStep(file: File, p: Proc, owner: nat)
    requires p.parent.pc.WriteRelease?
    ensures ProceedParent(file, p, owner)
            == Outcome(file, p.(parent := p.parent.(pc := CloseRelease), pipeByte := true,
                                marks := p.marks.(released := true)))
  {
  }

  lemma CloseStep(file: File, p: Proc, owner: nat)
    requires p.parent.pc.CloseRelease?
    ensures ProceedParent(file, p, owner)
            == Outcome(file, p.(parent := p.parent.(pc := AwaitChild, childReleased := true, writeEnd := false)))
  {
  }

  lemma AwaitStep(file: File, p: Proc, owner: nat)
    requires p.parent.pc.AwaitChild?
    ensures ProceedParent(file, p, owner) == Outcome(file, p.(parent := p.parent.(pc := Waiting)))
  {
  }

  lemma HandlerStep(file: File, p: Proc, owner: nat)
    requires p.parent.pc.LaunchCaught?
    ensures var next := if p.parent.childPid && !p.parent.childReaped then LaunchReap else LaunchReaped;
            ProceedParent(file, p, owner) == Outcome(file, p.(parent := p.parent.(pc := next, writeEnd := false)))
  {
  }

  lemma MarkInterrupted(file: File, p: Proc)
    requires p.parent.pc.Mark?
    ensures InterruptParent(file, p)
            == Outcome(file, p.(parent := p.parent.(pc := LaunchCaught), marks := p.marks.(midRecord := true)))
  {
  }

  // ---- The finalization -------------------------------------------------

  lemma CollectedStep(file: File, p: Proc, owner: nat)
    requires p.parent.pc.Collected?
    ensures Next(file, p, Proceed, owner)
            == Outcome(file, p.(parent := p.parent.(pc := Evidence, stage := EvidenceCollection)))
  {
    hide Next;
    NextProceed(file, p, owner);
  }

  lemma EvidenceFails(file: File, p: Proc, owner: nat)
    requires p.parent.pc.Evidence?
    ensures Next(file, p, Fail, owner) == Outcome(file, p.(parent := p.parent.(pc := FinalCaught)))
  {
    hide Next;
    NextFail(file, p, owner);
  }

  /** The evidence is built: a failed child is recorded in memory, a successful one goes to validation. */
  lemma EvidenceStep(file: File, p: Proc, evidence: Receipt.Evidence, owner: nat)
    requires p.parent.pc.Evidence? && Receipt.ValidEvidence(evidence)
    ensures var a := p.parent;
            Next(file, p, EvidenceBuilt(evidence), owner) == Outcome(file, p.(
              parent := if a.exitCode == 0 && !a.timedOut then
                          a.(pc := Validate, evidence := Some(evidence), stage := ReceiptParseValidation)
                        else
                          a.(pc := PersistResult, evidence := Some(evidence),
                             ledger := FailedResult(a.ledger, a.exitCode, a.timedOut),
                             stage := TerminalFailureFinalization)))
  {
    hide Next, Receipt.ValidEvidence, FailedResult;
    NextEvidence(file, p, evidence, owner);
  }

  /** The output is missing, rejected, or accepted. */
  lemma OutputStep(file: File, p: Proc, output: Option<Receipt.Payload>, owner: nat)
    requires p.parent.pc.Validate? && p.parent.evidence.Some?
    ensures var a := p.parent;
            Next(file, p, if output.None? then Fail else Parsed(output.value), owner) == Outcome(file, p.(
              parent := if output.Some? && Receipt.Accepted(output.value, p.launch.binding, a.evidence.value) then
                          a.(pc := PersistCompleted, payload := Some(output.value), stage := ReceiptFinalization)
                        else a.(pc := FinalCaught)))
  {
    hide Next, Receipt.Accepted;
    if output.None? {
      NextFail(file, p, owner);
    } else {
      NextParsed(file, p, output.value, owner);
    }
  }

  /** The first finalization write. */
  lemma ResultStep(file: File, p: Proc, outcome: WriteOutcome, owner: nat)
    requires p.parent.pc.PersistResult?
             || (p.parent.pc.PersistCompleted? && p.parent.payload.Some? && p.parent.evidence.Some?)
    ensures var a := p.parent;
            var image := if a.pc.PersistResult? then a.ledger
                         else CompletedResult(a.ledger, a.exitCode, a.timedOut,
                                              Receipt.SummaryOf(a.payload.value, a.evidence.value));
            Next(file, p, Write(outcome), owner) == FinalizationWrite(file, p, image, outcome)
  {
    hide Next, CompletedResult, Receipt.SummaryOf, FinalizationWrite;
    NextWrite(file, p, outcome, owner);
  }

  lemma CaughtStep(file: File, p: Proc, owner: nat)
    requires p.parent.pc.FinalCaught?
    ensures Next(file, p, Proceed, owner) == Outcome(file, p.(parent := p.parent.(pc := FinalPersist)))
  {
    hide Next;
    NextProceed(file, p, owner);
  }

  /** The last-resort write: 70 unless it raises. */
  lemma FallbackStep(file: File, p: Proc, outcome: WriteOutcome, owner: nat)
    requires p.parent.pc.FinalPersist?
    ensures var a := p.parent;
            var image := FailedWith(a.ledger, FailedAfterLaunch, Failure(a.stage, false));
            var o := Next(file, p, Write(outcome), owner);
            && o.file == Put(file, image, false, outcome) && o.proc.parent.ledger == image
            && o.proc.parent.pc == (if outcome.Returned? then Finished(70) else Exited(Raised))
  {
    hide Next, FailedWith, Put;
    NextWrite(file, p, outcome, owner);
    FallbackWriteStep(file, p, outcome);
  }

  lemma FallbackWriteStep(file: File, p: Proc, outcome: WriteOutcome)
    requires p.parent.pc.FinalPersist?
    ensures WriteParent(file, p, outcome) == FallbackWrite(file, p, outcome)
  {
    hide FallbackWrite;
  }

  /** `Finished` leaves with its code, and an exited parent stays where it is. */
  lemma LastStep(file: File, p: Proc, owner: nat)
    requires p.parent.pc.Finished? || p.parent.pc.Exited?
    ensures var o := Next(file, p, Proceed, owner);
            && o.file == file && o.proc.parent.ledger == p.parent.ledger
            && o.proc.parent.pc == (if p.parent.pc.Finished? then Exited(Code(p.parent.pc.result)) else p.parent.pc)
  {
    if p.parent.pc.Finished? {
      hide Next;
      NextProceed(file, p, owner);
    } else {
      hide ProceedParent, ChildStep;
    }
  }
}
