/**
 * From the publication stores of two profiles to the durable end of a launch: `run` gets
 * its receipts or raises, the child turns that into its exit code and its output, and the
 * launch ends by them.
 */
module EndToEnd {
  import opened Wrappers
  import opened RunLedger
  import opened Launch
  import opened LaunchInvariant
  import opened LaunchFollows
  import opened LaunchEnds
  import opened LaunchRuns
  import opened PublicationReceipts
  import Receipt

  /** Every gate is within its budget. */
  predicate WithinBudgets(measured: Receipt.Measured) {
    Receipt.EveryGateIsMeasured(measured);
    var measurements := Receipt.Measurements(measured);
    forall gate :: gate in Receipt.GATES ==> measurements[gate].lifecycle.maxMs <= Receipt.BudgetMs(gate)
  }

  /** What the child of one launch measures, and the two stores it publishes to; `names` are its profiles. */
  datatype Job = Job(names: (string, string), measured: Receipt.Measured, standard: Store, production: Store)

  ghost function OutcomeOf(job: Job, launch: LaunchFacts): RunOutcome {
    RunOf(job.names, job.measured, job.standard, job.production, launch.binding.prelaunchRecovery)
  }

  /** `_child_run`: a run that raised leaves no output. */
  function ResultOf(outcome: RunOutcome): ChildResult {
    ChildResult(ChildCode(outcome), if outcome.Returns? then Some(outcome.payload) else None)
  }

  /** The child of every launch does what its own run decides. */
  ghost predicate AllFollow(launches: seq<LaunchFacts>, schedule: seq<(nat, Event)>, jobs: seq<Job>) {
    |jobs| == |launches|
    && forall i :: 0 <= i < |launches| ==> Follows(schedule, i, ResultOf(OutcomeOf(jobs[i], launches[i])))
  }

  /** The measurements of the job with the publication parts of its two receipts. */
  function PublishedBy(job: Job): Receipt.Measured {
    Published(job.measured, job.standard, job.production)
  }

  /** The code of a child whose `run` returned: 0 exactly if every gate was within its budget. */
  lemma ReturnedCode(measured: Receipt.Measured, recovery: string)
    ensures ChildCode(Returns(Receipt.ChildPayload(measured, recovery))) == if WithinBudgets(measured) then 0 else 1
  {
    Receipt.EveryGateIsMeasured(measured);
    Receipt.FirstFailureIsLeast(Receipt.Measurements(measured), 0);
    hide Receipt.Measurements;
    if WithinBudgets(measured) {
      assert forall i :: 0 <= i < |Receipt.GATES| ==> Receipt.GATES[i] in Receipt.GATES;
    }
  }

  // ---- Under all faults -------------------------------------------------

  /**
   * Any number of launches, any schedule, all faults: a completed image belongs to a launch
   * whose `run` got both receipts, met every budget and saw the fixtures of its launcher.
   */
  lemma CompletedRunIsGood(launches: seq<LaunchFacts>, schedule: seq<(nat, Event)>, jobs: seq<Job>)
    returns (owner: nat)
    requires AllFollow(launches, schedule, jobs)
    requires var file := Run(launches, schedule).file; file.Holding? && file.image.state.Completed?
    ensures owner < |launches| && Run(launches, schedule).file.image.owner == owner
    ensures OutcomeOf(jobs[owner], launches[owner]).Returns?
    ensures WithinBudgets(PublishedBy(jobs[owner]))
    ensures jobs[owner].measured.fixtureIdentity == launches[owner].binding.fixtureIdentity
  {
    hide Run, Follows, Receipt.ChildPayload, WithinBudgets, ReceiptReturned;
    var results := seq(|launches|, i requires 0 <= i < |launches| => ResultOf(OutcomeOf(jobs[i], launches[i])));
    var evidence: Receipt.Evidence;
    owner, evidence := CompletedIsEarned(launches, schedule, results);
    var published, launch := PublishedBy(jobs[owner]), launches[owner];
    ReturnedCode(published, launch.binding.prelaunchRecovery);
    AcceptedFixtures(published, launch.binding, evidence);
  }

  lemma AcceptedFixtures(measured: Receipt.Measured, binding: Receipt.Binding, evidence: Receipt.Evidence)
    requires Receipt.Accepted(Receipt.ChildPayload(measured, binding.prelaunchRecovery), binding, evidence)
    ensures measured.fixtureIdentity == binding.fixtureIdentity
  {
    hide Receipt.CheckWorkload, Receipt.CheckPublication;
  }

  /**
   * With the two profiles that `run` publishes, if every production store keeps its table
   * and whatever else stores, launchers and children do: every `run` raises, and no
   * schedule and no fault ever leaves a completed image.
   */
  lemma ActualProfilesNeverComplete(launches: seq<LaunchFacts>, schedule: seq<(nat, Event)>, jobs: seq<Job>)
    requires AllFollow(launches, schedule, jobs)
    requires forall i :: 0 <= i < |jobs| ==>
                           jobs[i].names == ("standard", "production") && KeepsTable("production", jobs[i].production)
    ensures forall i :: 0 <= i < |jobs| ==> OutcomeOf(jobs[i], launches[i]).Raises?
    ensures var file := Run(launches, schedule).file; file.Holding? ==> !file.image.state.Completed?
  {
    hide KeepsTable, ReceiptReturned, Run, Follows;
    forall i | 0 <= i < |jobs| ensures OutcomeOf(jobs[i], launches[i]).Raises? {
      ProductionNeverReturns(jobs[i].production);
    }
    var file := Run(launches, schedule).file;
    if file.Holding? && file.image.state.Completed? {
      var _ := CompletedRunIsGood(launches, schedule, jobs);
    }
  }

  // ---- Undisturbed launches ---------------------------------------------

  /** The child of launch `i` follows its result, the launch is undisturbed, and it was left after an exact handshake. */
  ghost predicate LeftUndisturbed(launches: seq<LaunchFacts>, schedule: seq<(nat, Event)>, i: nat, result: ChildResult)
    requires i < |launches|
  {
    && Follows(schedule, i, result) && UndisturbedRun(launches, schedule, i, result)
    && var p := Run(launches, schedule).procs[i].parent; p.pc.Exited? && p.handshake.Some?
  }

  /** The launch returned the code and left its own image in the given state. */
  predicate EndsWith(launches: seq<LaunchFacts>, schedule: seq<(nat, Event)>, i: nat, state: State, code: int)
    requires i < |launches|
  {
    var w := Run(launches, schedule);
    && ParentImage(w.file) && w.file.image.owner == i && w.file.image.state == state
    && w.procs[i].parent.pc == Exited(Code(code))
  }

  /** The state and the code for each result of a child. */
  lemma StateAndCode(launches: seq<LaunchFacts>, schedule: seq<(nat, Event)>, i: nat, result: ChildResult)
    requires i < |launches| && LeftUndisturbed(launches, schedule, i, result)
    ensures if result.output.Some? && result.code != 0 then
              EndsWith(launches, schedule, i, FailedAfterLaunch, result.code)
            else if Succeeds(result, launches[i].binding) then EndsWith(launches, schedule, i, Completed, 0)
            else EndsWith(launches, schedule, i, FailedAfterLaunch, 70)
  {
    hide Run, Follows, UndisturbedRun, Succeeds, RaisesAt, Receipt.Accepted, Receipt.SummaryOf;
    EndIsDecided(launches, schedule, i, result);
  }

  /** A launch whose child's `run` raised fails at the evidence stage, whatever code the child had, and returns 70. */
  lemma RaisingRunFails(launches: seq<LaunchFacts>, schedule: seq<(nat, Event)>, i: nat)
    requires i < |launches| && LeftUndisturbed(launches, schedule, i, ResultOf(Raises))
    ensures EndsWith(launches, schedule, i, FailedAfterLaunch, 70)
    ensures ResultOf(Raises) == ChildResult(70, None)
    ensures Run(launches, schedule).file.image
            == Ledger(i, FailedAfterLaunch, true,
                      [PrelaunchVerified, ChildStartVerified, LaunchedConsumed, FailedAfterLaunch], None, None, None,
                      Some(Failure(EvidenceCollection, false)))
  {
    hide Run, Follows, UndisturbedRun;
    StateAndCode(launches, schedule, i, ResultOf(Raises));
    EndIsDecided(launches, schedule, i, ResultOf(Raises));
  }

  /** There is valid evidence. */
  lemma SomeEvidence() returns (evidence: Receipt.Evidence)
    ensures Receipt.ValidEvidence(evidence)
  {
    var digest := seq(64, _ => '0');
    evidence := Receipt.Evidence(Receipt.STDOUT_PATH, digest, Receipt.STDERR_PATH, digest, Receipt.OUTPUT_PATH, digest);
  }

  /** The child of a sound run succeeds exactly within all budgets and over the launcher's fixtures. */
  lemma SucceedsExactly(measured: Receipt.Measured, binding: Receipt.Binding)
    requires Receipt.HexDigests(measured) && Receipt.PublicationsSound(measured)
    ensures Succeeds(ResultOf(Returns(Receipt.ChildPayload(measured, binding.prelaunchRecovery))), binding)
            <==> WithinBudgets(measured) && measured.fixtureIdentity == binding.fixtureIdentity
  {
    var evidence := SomeEvidence();
    ReturnedCode(measured, binding.prelaunchRecovery);
    Receipt.ProducerValidatorAgree(measured, binding, evidence);
    EvidenceMakesNoDifference(Receipt.ChildPayload(measured, binding.prelaunchRecovery), binding, evidence);
    hide Receipt.HexDigests, Receipt.PublicationsSound, Receipt.ChildPayload, Acceptable, WithinBudgets;
  }

  /** How a launch ends whose child's `run` returned a payload from sound publications. */
  lemma ReturningRunEnds(
    launches: seq<LaunchFacts>, schedule: seq<(nat, Event)>, i: nat, measured: Receipt.Measured)
    requires i < |launches| && Receipt.HexDigests(measured) && Receipt.PublicationsSound(measured)
    requires LeftUndisturbed(launches, schedule, i,
                             ResultOf(Returns(Receipt.ChildPayload(measured, launches[i].binding.prelaunchRecovery))))
    ensures if !WithinBudgets(measured) then EndsWith(launches, schedule, i, FailedAfterLaunch, 1)
            else if measured.fixtureIdentity == launches[i].binding.fixtureIdentity then
              EndsWith(launches, schedule, i, Completed, 0)
            else EndsWith(launches, schedule, i, FailedAfterLaunch, 70)
  {
    var binding := launches[i].binding;
    var outcome := Returns(Receipt.ChildPayload(measured, binding.prelaunchRecovery));
    ReturnedCode(measured, binding.prelaunchRecovery);
    SucceedsExactly(measured, binding);
    hide Receipt.HexDigests, Receipt.PublicationsSound, Receipt.ChildPayload, WithinBudgets, LeftUndisturbed, EndsWith;
    hide Succeeds, ChildCode;
    StateAndCode(launches, schedule, i, ResultOf(outcome));
  }

  /**
   * Over two publication stores that do everything right, an undisturbed launch completes
   * exactly if both profiles are orderable, every gate is within its budget and both sides
   * saw the same fixtures; otherwise it ends `failed_after_launch`, with 70 when a profile
   * is not orderable.
   */
  lemma LaunchEndsExactly(launches: seq<LaunchFacts>, schedule: seq<(nat, Event)>, i: nat, job: Job)
    requires Correct(job.names.0, job.standard) && Correct(job.names.1, job.production)
    requires Receipt.HexDigests(job.measured)
    requires i < |launches| && LeftUndisturbed(launches, schedule, i, ResultOf(OutcomeOf(job, launches[i])))
    ensures var orderable := Orderable(job.names.0, |job.standard.answers|)
                             && Orderable(job.names.1, |job.production.answers|);
            && (OutcomeOf(job, launches[i]).Returns? <==> orderable)
            && if !orderable then EndsWith(launches, schedule, i, FailedAfterLaunch, 70)
               else if !WithinBudgets(PublishedBy(job)) then EndsWith(launches, schedule, i, FailedAfterLaunch, 1)
               else if job.measured.fixtureIdentity == launches[i].binding.fixtureIdentity then
                 EndsWith(launches, schedule, i, Completed, 0)
               else EndsWith(launches, schedule, i, FailedAfterLaunch, 70)
  {
    var names, measured, standard, production := job.names, job.measured, job.standard, job.production;
    var recovery := launches[i].binding.prelaunchRecovery;
    TailLimitsAgree(names, standard, production);
    hide Correct, Receipt.HexDigests, Orderable, WithinBudgets, EndsWith, LeftUndisturbed, Receipt.ChildPayload;
    RunReturnsExactly(names, measured, standard, production, recovery);
    if OutcomeOf(job, launches[i]).Returns? {
      ReturnedRunIsSound(names, measured, standard, production, recovery);
      PublishedDigests(measured, standard, production);
      ReturningRunEnds(launches, schedule, i, PublishedBy(job));
    } else {
      RaisingRunFails(launches, schedule, i);
    }
  }

  lemma PublishedDigests(measured: Receipt.Measured, standard: Store, production: Store)
    requires Receipt.HexDigests(measured)
    ensures Receipt.HexDigests(Published(measured, standard, production))
  {
    hide Receipt.IsHex64;
    var before, after := Receipt.Measurements(measured), Receipt.Measurements(Published(measured, standard, production));
    forall gate | gate in after ensures Receipt.IsHex64(after[gate].lifecycle.transitionDigest) {
      assert gate in before && before[gate].lifecycle == after[gate].lifecycle;
    }
  }

  lemma TailLimitsAgree(names: (string, string), standard: Store, production: Store)
    requires Correct(names.0, standard) && Correct(names.1, production)
    ensures OneTailLimits(standard) && OneTailLimits(production)
  {
  }
}
