/**
 * The receipt the child writes and the validator the parent runs on it
 * (scripts/benchmark_ck07r1_lifecycle_scale.py).  A payload holds exactly the
 * fields the validator reads.  A digest over structured data is modelled by the
 * data itself, so it is injective; a digest over bytes is a hexadecimal text.
 */
module Receipt {
  import opened Wrappers

  // ---- Frozen constants -------------------------------------------------

  const SCHEMA := "codex-usage-tracker.lifecycle-scale-requalification.v1"
  const FIXTURE_SEED: int := 20260728
  const STDOUT_PATH := "output/ck07r1/lifecycle-requalification-v2.stdout.txt"
  const STDERR_PATH := "output/ck07r1/lifecycle-requalification-v2.stderr.txt"
  const OUTPUT_PATH := "output/ck07r1/lifecycle-requalification-v2.json"

  datatype Gate = Standard30Day | ProductionAllTime | NoChange | OneCallTail | OneToolTail

  /** The gates in the order of the frozen budget table. */
  const GATES: seq<Gate> := [Standard30Day, ProductionAllTime, NoChange, OneCallTail, OneToolTail]

  function BudgetMs(gate: Gate): real {
    match gate
    case Standard30Day => 5000.0
    case ProductionAllTime => 120000.0
    case NoChange => 100.0
    case OneCallTail => 500.0
    case OneToolTail => 500.0
  }

  datatype TailLimits = TailLimits(
    selectedBytes: int, selectedRecords: int, observations: int, occurrences: int,
    affectedSessions: int, affectedTurns: int, affectedResources: int,
    affectedAllowanceCycles: int, dirtyKeys: int, projectionRows: int,
    expectedWalBytes: int, planningStalenessUs: int, modelCallTailRows: int)

  const FROZEN_TAIL_LIMITS := TailLimits(
    8388608, 32, 12000, 12000, 2000, 4000, 4000, 512, 16000, 16000, 16777216, 5000000, 32000)

  // ---- Entities ---------------------------------------------------------

  type Digest = string

  predicate IsHex64(digest: Digest) {
    |digest| == 64 && forall i :: 0 <= i < |digest| ==> '0' <= digest[i] <= '9' || 'a' <= digest[i] <= 'f'
  }

  datatype Descriptor = Descriptor(
    sourceProfile: string, historyPreset: string, modelCalls: nat, entities: nat, observations: nat,
    seed: int, profileFileSha256: Option<Digest>, vector: Digest)

  /** `_workload_transition_digest` over a list of descriptors. */
  datatype WorkloadDigest = WorkloadDigest(workloads: seq<(Descriptor, Digest)>)

  function WorkloadTransitionDigest(descriptors: seq<Descriptor>): WorkloadDigest {
    WorkloadDigest(seq(|descriptors|, i requires 0 <= i < |descriptors| => (descriptors[i], descriptors[i].vector)))
  }

  datatype Lifecycle = Lifecycle(maxMs: real, transitionDigest: Digest)

  datatype Publication = Publication(identityBindings: bool, planTailLimits: TailLimits)

  /** One entry of the linear work counters: a published profile or a bare tail sample. */
  datatype Measurement =
    | Profile(descriptor: Descriptor, lifecycle: Lifecycle, publication: Publication)
    | Tail(lifecycle: Lifecycle)

  datatype GateFailure = GateFailure(gate: Gate, observedMaxMs: real, budgetMs: real)

  datatype Payload = Payload(
    schema: string, fixtureIdentity: string, prelaunchRecovery: Option<string>,
    descriptors: Option<seq<Option<Descriptor>>>, workloadDigest: WorkloadDigest,
    publicationDigest: Digest, firstFailure: Option<GateFailure>,
    budgetChecks: map<Gate, bool>, measurements: map<Gate, Measurement>)

  datatype Evidence = Evidence(
    stdoutPath: string, stdoutSha256: Digest, stderrPath: string, stderrSha256: Digest,
    outputPath: string, outputSha256: Digest)

  /** The identities the parent fixed before the launch. */
  datatype Binding = Binding(fixtureIdentity: string, prelaunchRecovery: string)

  /** The receipt stored in the completed ledger image. */
  datatype Summary = Summary(
    schema: string, workloadDigest: WorkloadDigest, publicationDigest: Digest, evidence: Evidence)

  function SummaryOf(payload: Payload, evidence: Evidence): Summary {
    Summary(payload.schema, payload.workloadDigest, payload.publicationDigest, evidence)
  }

  // ---- The validator ----------------------------------------------------

  datatype Rejection =
    | SchemaMismatch | FixtureMismatch | RecoveryMismatch | EvidenceInvalid
    | DescriptorsMalformed | VectorMalformed(index: nat) | MeasurementMissing(gate: Gate)
    | DescriptorDrifted(gate: Gate) | VectorDrifted(gate: Gate) | TailFieldDrifted(gate: Gate)
    | DigestMismatch | ReportsFailure | BudgetGateFailed
    | IdentityBindingFailed(gate: Gate) | TailLimitsDrifted(gate: Gate)

  predicate ValidEvidence(evidence: Evidence) {
    && evidence.stdoutPath == STDOUT_PATH && IsHex64(evidence.stdoutSha256)
    && evidence.stderrPath == STDERR_PATH && IsHex64(evidence.stderrSha256)
    && evidence.outputPath == OUTPUT_PATH && IsHex64(evidence.outputSha256)
  }

  /** Entities and observations expected of the three tail descriptors. */
  function ExpectedTailEntities(gate: Gate): nat {
    if gate == NoChange then 0 else 1
  }

  /** One round of the descriptor loop of `_validate_workload_transition_digest`. */
  function CheckDescriptor(
    index: nat, entry: Option<Descriptor>, measurements: map<Gate, Measurement>): Option<Rejection>
    requires index < 5
  {
    if entry.None? then Some(DescriptorsMalformed)
    else
      var descriptor := entry.value;
      var gate := GATES[index];
      if !IsHex64(descriptor.vector) then Some(VectorMalformed(index))
      else if gate !in measurements then Some(MeasurementMissing(gate))
      else if index < 2 then
        if !measurements[gate].Profile? || descriptor != measurements[gate].descriptor then
          Some(DescriptorDrifted(gate))
        else if descriptor.vector != measurements[gate].lifecycle.transitionDigest then Some(VectorDrifted(gate))
        else None
      else if descriptor.sourceProfile != "synthetic_tail" then Some(TailFieldDrifted(gate))
      else if descriptor.historyPreset != "all_time" then Some(TailFieldDrifted(gate))
      else if descriptor.modelCalls != 0 then Some(TailFieldDrifted(gate))
      else if descriptor.entities != ExpectedTailEntities(gate) then Some(TailFieldDrifted(gate))
      else if descriptor.observations != ExpectedTailEntities(gate) then Some(TailFieldDrifted(gate))
      else if descriptor.seed != FIXTURE_SEED || descriptor.profileFileSha256.Some? then Some(TailFieldDrifted(gate))
      else if !measurements[gate].Tail? || descriptor.vector != measurements[gate].lifecycle.transitionDigest then
        Some(VectorDrifted(gate))
      else None
  }

  function CheckDescriptors(
    index: nat, entries: seq<Option<Descriptor>>, measurements: map<Gate, Measurement>): Option<Rejection>
    requires |entries| == 5 && index <= 5
    decreases 5 - index
  {
    if index == 5 then None
    else
      var rejection := CheckDescriptor(index, entries[index], measurements);
      if rejection.Some? then rejection else CheckDescriptors(index + 1, entries, measurements)
  }

  /** The descriptors of a list whose entries are all objects; other entries are skipped. */
  function Present(entries: seq<Option<Descriptor>>): seq<Descriptor> {
    if entries == [] then []
    else (if entries[0].Some? then [entries[0].value] else []) + Present(entries[1..])
  }

  function CheckWorkload(payload: Payload): Option<Rejection> {
    if payload.descriptors.None? || |payload.descriptors.value| != 5 then Some(DescriptorsMalformed)
    else
      var rejection := CheckDescriptors(0, payload.descriptors.value, payload.measurements);
      if rejection.Some? then rejection
      else if payload.workloadDigest != WorkloadTransitionDigest(Present(payload.descriptors.value)) then
        Some(DigestMismatch)
      else None
  }

  function CheckPublication(payload: Payload, gate: Gate): Option<Rejection> {
    if gate !in payload.measurements || !payload.measurements[gate].Profile? then Some(MeasurementMissing(gate))
    else
      var publication := payload.measurements[gate].publication;
      if !publication.identityBindings then Some(IdentityBindingFailed(gate))
      else if publication.planTailLimits != FROZEN_TAIL_LIMITS then Some(TailLimitsDrifted(gate))
      else None
  }

  const ALL_PASSED: map<Gate, bool> := map[
    Standard30Day := true, ProductionAllTime := true, NoChange := true, OneCallTail := true, OneToolTail := true]

  /** `_validate_receipt`: the first failed check, or `None` when the receipt is accepted. */
  function ValidateReceipt(payload: Payload, binding: Binding, evidence: Evidence): Option<Rejection> {
    if payload.schema != SCHEMA then Some(SchemaMismatch)
    else if payload.fixtureIdentity != binding.fixtureIdentity then Some(FixtureMismatch)
    else if payload.prelaunchRecovery != Some(binding.prelaunchRecovery) then Some(RecoveryMismatch)
    else if !ValidEvidence(evidence) then Some(EvidenceInvalid)
    else
      var workload := CheckWorkload(payload);
      if workload.Some? then workload
      else if payload.firstFailure.Some? then Some(ReportsFailure)
      else if payload.budgetChecks != ALL_PASSED then Some(BudgetGateFailed)
      else
        var standard := CheckPublication(payload, Standard30Day);
        if standard.Some? then standard else CheckPublication(payload, ProductionAllTime)
  }

  predicate Accepted(payload: Payload, binding: Binding, evidence: Evidence) {
    ValidateReceipt(payload, binding, evidence).None?
  }

  // ---- The producer -----------------------------------------------------

  /** What `_profile_run` measured and published for one profile. */
  datatype ProfileRun = ProfileRun(
    profile: string, historyPreset: string, modelCalls: nat, entities: nat, observations: nat,
    profileSha256: Digest, lifecycle: Lifecycle, publication: Publication)

  /** Everything `run` measured. */
  datatype Measured = Measured(
    fixtureIdentity: string, standard: ProfileRun, production: ProfileRun,
    noChange: Lifecycle, oneCallTail: Lifecycle, oneToolTail: Lifecycle, publicationDigest: Digest)

  function ProfileDescriptor(run: ProfileRun): Descriptor {
    Descriptor(run.profile, run.historyPreset, run.modelCalls, run.entities, run.observations,
               FIXTURE_SEED, Some(run.profileSha256), run.lifecycle.transitionDigest)
  }

  function TailDescriptor(entities: nat, lifecycle: Lifecycle): Descriptor {
    Descriptor("synthetic_tail", "all_time", 0, entities, entities, FIXTURE_SEED, None, lifecycle.transitionDigest)
  }

  function Measurements(measured: Measured): map<Gate, Measurement> {
    map[
      Standard30Day := Profile(
        ProfileDescriptor(measured.standard), measured.standard.lifecycle, measured.standard.publication),
      ProductionAllTime := Profile(
        ProfileDescriptor(measured.production), measured.production.lifecycle, measured.production.publication),
      NoChange := Tail(measured.noChange),
      OneCallTail := Tail(measured.oneCallTail),
      OneToolTail := Tail(measured.oneToolTail)]
  }

  /** The first gate, in frozen order from position `from`, whose maximum exceeds its budget. */
  function FirstFailure(measurements: map<Gate, Measurement>, from: nat): Option<GateFailure>
    requires from <= |GATES|
    requires forall gate :: gate in GATES ==> gate in measurements
    decreases |GATES| - from
  {
    if from == |GATES| then None
    else
      var gate := GATES[from];
      var observed := measurements[gate].lifecycle.maxMs;
      if observed <= BudgetMs(gate) then FirstFailure(measurements, from + 1)
      else Some(GateFailure(gate, observed, BudgetMs(gate)))
  }

  /** `_budget_checks`: one verdict per gate and the first failure. */
  method BudgetChecks(measurements: map<Gate, Measurement>)
    returns (checks: map<Gate, bool>, firstFailure: Option<GateFailure>)
    requires forall gate :: gate in GATES ==> gate in measurements
    ensures checks.Keys == set gate | gate in GATES
    ensures forall gate :: gate in GATES ==>
                             (checks[gate] <==> measurements[gate].lifecycle.maxMs <= BudgetMs(gate))
    ensures firstFailure == FirstFailure(measurements, 0)
    ensures firstFailure.None? <==> checks == ALL_PASSED
  {
    checks, firstFailure := map[], None;
    for i := 0 to |GATES|
      invariant checks.Keys == set gate | gate in GATES[..i]
      invariant forall gate :: gate in GATES[..i] ==>
                                 (checks[gate] <==> measurements[gate].lifecycle.maxMs <= BudgetMs(gate))
      invariant firstFailure.None? ==> FirstFailure(measurements, 0) == FirstFailure(measurements, i)
      invariant firstFailure.Some? ==> firstFailure == FirstFailure(measurements, 0)
      invariant firstFailure.None? <==> forall gate :: gate in GATES[..i] ==> checks[gate]
    {
      var gate := GATES[i];
      assert GATES[..i + 1] == GATES[..i] + [gate];
      var passed := measurements[gate].lifecycle.maxMs <= BudgetMs(gate);
      checks := checks[gate := passed];
      if !passed && firstFailure.None? {
        firstFailure := Some(GateFailure(gate, measurements[gate].lifecycle.maxMs, BudgetMs(gate)));
      }
    }
    assert GATES[..|GATES|] == GATES;
    AllPassed(checks);
  }

  lemma GatesComplete(gate: Gate)
    ensures gate in GATES && gate in ALL_PASSED && ALL_PASSED[gate]
  {
    match gate
    case Standard30Day => assert gate == GATES[0];
    case ProductionAllTime => assert gate == GATES[1];
    case NoChange => assert gate == GATES[2];
    case OneCallTail => assert gate == GATES[3];
    case OneToolTail => assert gate == GATES[4];
  }

  /** The frozen verdict map is the one that is true of every gate. */
  lemma AllPassed(checks: map<Gate, bool>)
    requires checks.Keys == set gate | gate in GATES
    ensures checks == ALL_PASSED <==> forall gate :: gate in GATES ==> checks[gate]
  {
    forall gate: Gate ensures gate in GATES && gate in ALL_PASSED && ALL_PASSED[gate] {
      GatesComplete(gate);
    }
    assert checks.Keys == ALL_PASSED.Keys;
  }

  /** The verdict map that `BudgetChecks` returns. */
  function Verdicts(measurements: map<Gate, Measurement>): map<Gate, bool>
    requires forall gate :: gate in GATES ==> gate in measurements
  {
    map gate | gate in GATES :: measurements[gate].lifecycle.maxMs <= BudgetMs(gate)
  }

  lemma EveryGateIsMeasured(measured: Measured)
    ensures forall gate :: gate in GATES ==> gate in Measurements(measured)
  {
  }

  function ProducedDescriptors(measured: Measured): seq<Descriptor> {
    [ProfileDescriptor(measured.standard), ProfileDescriptor(measured.production),
     TailDescriptor(0, measured.noChange), TailDescriptor(1, measured.oneCallTail),
     TailDescriptor(1, measured.oneToolTail)]
  }

  /** The payload `run` builds and `_child_run` completes with the recovery binding. */
  function ChildPayload(measured: Measured, prelaunchRecovery: string): Payload {
    EveryGateIsMeasured(measured);
    var measurements := Measurements(measured);
    var descriptors := ProducedDescriptors(measured);
    Payload(
      SCHEMA, measured.fixtureIdentity, Some(prelaunchRecovery),
      Some(seq(5, i requires 0 <= i < 5 => Some(descriptors[i]))), WorkloadTransitionDigest(descriptors),
      measured.publicationDigest, FirstFailure(measurements, 0), Verdicts(measurements), measurements)
  }

  /** The exit code of a child whose run raised nothing. */
  function ChildExitCode(payload: Payload): int {
    if payload.firstFailure.Some? then 1 else 0
  }

  // ---- Agreement --------------------------------------------------------

  /** Every transition digest is a SHA-256 hexadecimal text. */
  predicate HexDigests(measured: Measured) {
    forall gate :: gate in Measurements(measured) ==>
                     IsHex64(Measurements(measured)[gate].lifecycle.transitionDigest)
  }

  /** What `_publication_receipt` guarantees of the two receipts it returns. */
  predicate PublicationsSound(measured: Measured) {
    && measured.standard.publication == Publication(true, FROZEN_TAIL_LIMITS)
    && measured.production.publication == Publication(true, FROZEN_TAIL_LIMITS)
  }

  /** The first failure is absent exactly when every verdict is true, and otherwise is the least failing gate. */
  lemma {:induction false} FirstFailureIsLeast(measurements: map<Gate, Measurement>, from: nat)
    requires from <= |GATES|
    requires forall gate :: gate in GATES ==> gate in measurements
    ensures var failure := FirstFailure(measurements, from);
            && (failure.None? <==>
                forall i :: from <= i < |GATES| ==> measurements[GATES[i]].lifecycle.maxMs <= BudgetMs(GATES[i]))
            && (failure.Some? ==>
                  exists k :: from <= k < |GATES|
                              && failure.value == GateFailure(
                                   GATES[k], measurements[GATES[k]].lifecycle.maxMs, BudgetMs(GATES[k]))
                              && measurements[GATES[k]].lifecycle.maxMs > BudgetMs(GATES[k])
                              && forall i :: from <= i < k ==>
                                               measurements[GATES[i]].lifecycle.maxMs <= BudgetMs(GATES[i]))
    decreases |GATES| - from
  {
    if from < |GATES| && measurements[GATES[from]].lifecycle.maxMs <= BudgetMs(GATES[from]) {
      FirstFailureIsLeast(measurements, from + 1);
    }
  }

  lemma PresentOfComplete(entries: seq<Option<Descriptor>>, descriptors: seq<Descriptor>)
    requires |entries| == |descriptors|
    requires forall i :: 0 <= i < |entries| ==> entries[i] == Some(descriptors[i])
    ensures Present(entries) == descriptors
  {
    if entries != [] {
      PresentOfComplete(entries[1..], descriptors[1..]);
    }
  }

  /** Verdicts are all true exactly when there is no first failure. */
  lemma VerdictsAllPass(measurements: map<Gate, Measurement>)
    requires forall gate :: gate in GATES ==> gate in measurements
    ensures Verdicts(measurements) == ALL_PASSED <==> FirstFailure(measurements, 0).None?
  {
    FirstFailureIsLeast(measurements, 0);
    var verdicts := Verdicts(measurements);
    AllPassed(verdicts);
    if FirstFailure(measurements, 0).Some? {
      var k :| 0 <= k < |GATES| && measurements[GATES[k]].lifecycle.maxMs > BudgetMs(GATES[k]);
      assert !verdicts[GATES[k]];
    }
  }

  /** The descriptor loop passes exactly if every round does. */
  lemma {:induction false} DescriptorsPassExactly(
    index: nat, entries: seq<Option<Descriptor>>, measurements: map<Gate, Measurement>)
    requires |entries| == 5 && index <= 5
    ensures CheckDescriptors(index, entries, measurements).None?
            <==> forall k :: index <= k < 5 ==> CheckDescriptor(k, entries[k], measurements).None?
    decreases 5 - index
  {
    hide CheckDescriptor;
    if index < 5 {
      DescriptorsPassExactly(index + 1, entries, measurements);
    }
  }

  /** The workload part of every produced payload passes the independent recomputation. */
  lemma ProducedWorkloadPasses(measured: Measured, prelaunchRecovery: string)
    requires HexDigests(measured)
    ensures CheckWorkload(ChildPayload(measured, prelaunchRecovery)).None?
  {
    var payload := ChildPayload(measured, prelaunchRecovery);
    var entries, measurements := payload.descriptors.value, payload.measurements;
    PresentOfComplete(entries, ProducedDescriptors(measured));
    forall index | 0 <= index < 5 ensures CheckDescriptor(index, entries[index], measurements).None? {
      ProducedDescriptorPasses(measured, index);
      assert entries[index] == Some(ProducedDescriptors(measured)[index]);
    }
    DescriptorsPassExactly(0, entries, measurements);
    hide CheckDescriptor;
  }

  lemma ProducedDescriptorPasses(measured: Measured, index: nat)
    requires HexDigests(measured) && index < 5
    ensures CheckDescriptor(index, Some(ProducedDescriptors(measured)[index]), Measurements(measured)).None?
  {
    hide IsHex64;
    assert GATES[index] in Measurements(measured);
  }

  /**
   * Producer and validator agree: a payload built by `run` from sound
   * publications is accepted exactly when the child exits 0 and the parent and
   * the child saw the same fixtures.
   */
  lemma ProducerValidatorAgree(measured: Measured, binding: Binding, evidence: Evidence)
    requires HexDigests(measured) && PublicationsSound(measured) && ValidEvidence(evidence)
    ensures var payload := ChildPayload(measured, binding.prelaunchRecovery);
            Accepted(payload, binding, evidence) <==>
            ChildExitCode(payload) == 0 && measured.fixtureIdentity == binding.fixtureIdentity
  {
    ProducedWorkloadPasses(measured, binding.prelaunchRecovery);
    EveryGateIsMeasured(measured);
    VerdictsAllPass(Measurements(measured));
  }

  // ---- The contract of a receipt ----------------------------------------

  const HEX_DIGITS := "0123456789abcdef"

  predicate HexText(text: string) {
    |text| == 64 && forall i :: 0 <= i < |text| ==> text[i] in HEX_DIGITS
  }

  /** The descriptor of a published profile is the one in its measurement. */
  predicate DescribesProfile(d: Descriptor, measurements: map<Gate, Measurement>, gate: Gate) {
    && gate in measurements && measurements[gate].Profile? && d == measurements[gate].descriptor
    && d.vector == measurements[gate].lifecycle.transitionDigest
  }

  /** The descriptor of a tail has no model calls and the given number of entities and observations. */
  predicate DescribesTail(d: Descriptor, measurements: map<Gate, Measurement>, gate: Gate, n: nat) {
    && gate in measurements && measurements[gate].Tail?
    && d == Descriptor("synthetic_tail", "all_time", 0, n, n, FIXTURE_SEED, None,
                       measurements[gate].lifecycle.transitionDigest)
  }

  predicate Describes(k: nat, d: Descriptor, measurements: map<Gate, Measurement>) {
    && HexText(d.vector)
    && match k
       case 0 => DescribesProfile(d, measurements, Standard30Day)
       case 1 => DescribesProfile(d, measurements, ProductionAllTime)
       case 2 => DescribesTail(d, measurements, NoChange, 0)
       case 3 => DescribesTail(d, measurements, OneCallTail, 1)
       case _ => DescribesTail(d, measurements, OneToolTail, 1)
  }

  /** Five descriptors that describe the measurements, and a digest that lists them with their vectors. */
  predicate WorkloadMeets(payload: Payload) {
    && payload.descriptors.Some? && |payload.descriptors.value| == |payload.workloadDigest.workloads| == 5
    && forall k :: 0 <= k < 5 ==>
         var entry := payload.descriptors.value[k];
         && entry.Some? && Describes(k, entry.value, payload.measurements)
         && payload.workloadDigest.workloads[k] == (entry.value, entry.value.vector)
  }

  predicate PublicationMeets(payload: Payload, gate: Gate) {
    && gate in payload.measurements && payload.measurements[gate].Profile?
    && payload.measurements[gate].publication == Publication(true, FROZEN_TAIL_LIMITS)
  }

  /** What a receipt must be, without reference to the order of any check. */
  predicate MeetsContract(payload: Payload, binding: Binding, evidence: Evidence) {
    && payload.schema == SCHEMA && payload.fixtureIdentity == binding.fixtureIdentity
    && payload.prelaunchRecovery == Some(binding.prelaunchRecovery)
    && (evidence.stdoutPath, evidence.stderrPath, evidence.outputPath) == (STDOUT_PATH, STDERR_PATH, OUTPUT_PATH)
    && HexText(evidence.stdoutSha256) && HexText(evidence.stderrSha256) && HexText(evidence.outputSha256)
    && payload.firstFailure.None?
    && (forall gate: Gate :: gate in payload.budgetChecks && payload.budgetChecks[gate])
    && WorkloadMeets(payload)
    && PublicationMeets(payload, Standard30Day) && PublicationMeets(payload, ProductionAllTime)
  }

  lemma HexDigit(c: char)
    ensures c in HEX_DIGITS <==> '0' <= c <= '9' || 'a' <= c <= 'f'
  {
    if '0' <= c <= '9' {
      assert HEX_DIGITS[c as int - '0' as int] == c;
    } else if 'a' <= c <= 'f' {
      assert HEX_DIGITS[10 + c as int - 'a' as int] == c;
    }
  }

  lemma HexExactly(text: string)
    ensures IsHex64(text) <==> HexText(text)
  {
    forall i | 0 <= i < |text| ensures text[i] in HEX_DIGITS <==> '0' <= text[i] <= '9' || 'a' <= text[i] <= 'f' {
      HexDigit(text[i]);
    }
  }

  lemma DescribesExactly(k: nat, entry: Option<Descriptor>, measurements: map<Gate, Measurement>)
    requires k < 5
    ensures CheckDescriptor(k, entry, measurements).None? <==> entry.Some? && Describes(k, entry.value, measurements)
  {
    if entry.Some? {
      HexExactly(entry.value.vector);
    }
    hide IsHex64, HexText;
  }

  lemma WorkloadExactly(payload: Payload)
    ensures CheckWorkload(payload).None? <==> WorkloadMeets(payload)
  {
    if payload.descriptors.Some? && |payload.descriptors.value| == 5 {
      var entries, measurements := payload.descriptors.value, payload.measurements;
      forall k | 0 <= k < 5
        ensures CheckDescriptor(k, entries[k], measurements).None?
                <==> entries[k].Some? && Describes(k, entries[k].value, measurements)
      {
        DescribesExactly(k, entries[k], measurements);
      }
      DescriptorsPassExactly(0, entries, measurements);
      hide CheckDescriptor, CheckDescriptors, Describes;
      if forall k :: 0 <= k < 5 ==> entries[k].Some? {
        var present := seq(5, k requires 0 <= k < 5 => entries[k].value);
        PresentOfComplete(entries, present);
        var listed := WorkloadTransitionDigest(present).workloads;
        assert payload.workloadDigest.workloads == listed <==>
               && |payload.workloadDigest.workloads| == 5
               && forall k :: 0 <= k < 5 ==> payload.workloadDigest.workloads[k] == listed[k];
      }
    }
  }

  /** The validator accepts exactly the receipts that meet the contract. */
  lemma AcceptedExactly(payload: Payload, binding: Binding, evidence: Evidence)
    ensures Accepted(payload, binding, evidence) <==> MeetsContract(payload, binding, evidence)
  {
    HexExactly(evidence.stdoutSha256);
    HexExactly(evidence.stderrSha256);
    HexExactly(evidence.outputSha256);
    WorkloadExactly(payload);
    AllChecksPassed(payload.budgetChecks);
    hide IsHex64, HexText, CheckWorkload, WorkloadMeets, ALL_PASSED;
  }

  lemma AllChecksPassed(checks: map<Gate, bool>)
    ensures checks == ALL_PASSED <==> forall gate: Gate :: gate in checks && checks[gate]
  {
    forall gate: Gate ensures gate in ALL_PASSED && ALL_PASSED[gate] {
      GatesComplete(gate);
    }
  }

  /** The payload that a run builds, field by field, from what was measured. */
  lemma ProducedPayload(measured: Measured, prelaunchRecovery: string)
    ensures var payload, s, p := ChildPayload(measured, prelaunchRecovery), measured.standard, measured.production;
            && payload.schema == SCHEMA && payload.fixtureIdentity == measured.fixtureIdentity
            && payload.prelaunchRecovery == Some(prelaunchRecovery)
            && payload.publicationDigest == measured.publicationDigest
            && payload.measurements == map[
                 Standard30Day := Profile(
                   Descriptor(s.profile, s.historyPreset, s.modelCalls, s.entities, s.observations, FIXTURE_SEED,
                              Some(s.profileSha256), s.lifecycle.transitionDigest), s.lifecycle, s.publication),
                 ProductionAllTime := Profile(
                   Descriptor(p.profile, p.historyPreset, p.modelCalls, p.entities, p.observations, FIXTURE_SEED,
                              Some(p.profileSha256), p.lifecycle.transitionDigest), p.lifecycle, p.publication),
                 NoChange := Tail(measured.noChange),
                 OneCallTail := Tail(measured.oneCallTail),
                 OneToolTail := Tail(measured.oneToolTail)]
            && (payload.firstFailure.None? <==>
                  && s.lifecycle.maxMs <= 5000.0 && p.lifecycle.maxMs <= 120000.0 && measured.noChange.maxMs <= 100.0
                  && measured.oneCallTail.maxMs <= 500.0 && measured.oneToolTail.maxMs <= 500.0)
  {
    EveryGateIsMeasured(measured);
    FirstFailureIsLeast(Measurements(measured), 0);
    var s, p := measured.standard, measured.production;
    var m := Measurements(measured);
    assert m[GATES[0]].lifecycle == s.lifecycle && m[GATES[1]].lifecycle == p.lifecycle;
    assert m[GATES[2]].lifecycle == measured.noChange && m[GATES[3]].lifecycle == measured.oneCallTail;
    assert m[GATES[4]].lifecycle == measured.oneToolTail;
  }

  /**
   * The validator pins the whole workload: two accepted payloads with the same
   * counters carry the same five descriptors and the same workload digest.
   */
  lemma AcceptedWorkloadIsDetermined(
    left: Payload, right: Payload, binding: Binding, otherBinding: Binding, evidence: Evidence, otherEvidence: Evidence)
    requires Accepted(left, binding, evidence) && Accepted(right, otherBinding, otherEvidence)
    requires left.measurements == right.measurements
    ensures left.descriptors == right.descriptors
    ensures left.workloadDigest == right.workloadDigest
  {
    var l, r := left.descriptors.value, right.descriptors.value;
    DescriptorsPassExactly(0, l, left.measurements);
    DescriptorsPassExactly(0, r, right.measurements);
    hide CheckDescriptor, CheckPublication;
    forall k | 0 <= k < 5 ensures l[k] == r[k] {
      SameDescriptor(k, l[k], r[k], left.measurements);
    }
    assert l == r;
  }

  lemma SameDescriptor(k: nat, left: Option<Descriptor>, right: Option<Descriptor>, measurements: map<Gate, Measurement>)
    requires k < 5 && CheckDescriptor(k, left, measurements).None? && CheckDescriptor(k, right, measurements).None?
    ensures left == right
  {
    DescribesExactly(k, left, measurements);
    DescribesExactly(k, right, measurements);
    hide CheckDescriptor, HexText;
  }

  /**
   * The recomputed digest binds the descriptors: an accepted payload stops being
   * accepted when any descriptor entry is replaced and the digest is kept.
   */
  lemma TamperedDescriptorIsRejected(
    payload: Payload, binding: Binding, evidence: Evidence, index: nat, forged: Option<Descriptor>)
    requires Accepted(payload, binding, evidence)
    requires index < 5 && forged != payload.descriptors.value[index]
    ensures !Accepted(payload.(descriptors := Some(payload.descriptors.value[index := forged])), binding, evidence)
  {
    var tampered := payload.(descriptors := Some(payload.descriptors.value[index := forged]));
    assert tampered.descriptors.value[index] == forged;
    if Accepted(tampered, binding, evidence) {
      AcceptedWorkloadIsDetermined(payload, tampered, binding, binding, evidence, evidence);
    }
  }
}
