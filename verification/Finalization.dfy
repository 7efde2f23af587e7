/**
 * `_persist_terminal_failure` and `_finalize_child_result` of
 * scripts/benchmark_ck07r1_lifecycle_scale.py as methods on the in-memory ledger and
 * its file.  Each fault is an argument: evidence or output that cannot be read is
 * `None`, and every ledger write comes with its outcome.
 */
module Finalization {
  import opened Wrappers
  import opened RunLedger
  import opened Launch
  import opened LaunchSteps
  import Receipt

  /** What the finalization of one child meets. */
  datatype Conditions = Conditions(
    evidence: Option<Receipt.Evidence>, output: Option<Receipt.Payload>,
    first: WriteOutcome, fallback: WriteOutcome)

  datatype Final = Final(ledger: Ledger, file: File, exit: Exit)

  /** The ledger in a further state, with what its update says. */
  function InState(ledger: Ledger, state: State): Ledger {
    ledger.(state := state, processStates := ledger.processStates + [state])
  }

  /** The image of the first finalization write, field by field, or the stage that raised before it. */
  function FirstImage(ledger: Ledger, binding: Receipt.Binding, exitCode: int, timedOut: bool, c: Conditions)
    : Result<Ledger, Stage>
  {
    if c.evidence.None? then Err(EvidenceCollection)
    else if exitCode != 0 || timedOut then
      Ok(InState(ledger, FailedAfterLaunch).(exitCode := Some(exitCode), timedOut := Some(timedOut)))
    else if c.output.None? || !Receipt.Accepted(c.output.value, binding, c.evidence.value) then
      Err(ReceiptParseValidation)
    else
      var payload := c.output.value;
      Ok(InState(ledger, Completed).(
         exitCode := Some(0), timedOut := Some(false),
         receipt := Some(Receipt.Summary(
                           payload.schema, payload.workloadDigest, payload.publicationDigest, c.evidence.value))))
  }

  /** The fallback after a failure at `stage`. */
  function FellBack(ledger: Ledger, file: File, stage: Stage, fallback: WriteOutcome): Final {
    var image := InState(ledger, FailedAfterLaunch).(failure := Some(Failure(stage, false)));
    Final(image, if fallback.RaisedBefore? then file else Holding(image, false),
          if fallback.Returned? then Code(70) else Raised)
  }

  /** The first write of `image`, and the fallback if it raises. */
  function Written(
    ledger: Ledger, file: File, image: Ledger, stage: Stage, exitCode: int, first: WriteOutcome, fallback: WriteOutcome)
    : Final
  {
    match first
    case Returned => Final(ledger, Holding(image, false), Code(exitCode))
    case RaisedAfter => FellBack(ledger, Holding(image, false), stage, fallback)
    case RaisedBefore => FellBack(ledger, file, stage, fallback)
  }

  /** The ledger, file and exit of one finalization. */
  function Finalized(
    ledger: Ledger, file: File, binding: Receipt.Binding, exitCode: int, timedOut: bool, c: Conditions): Final
  {
    match FirstImage(ledger, binding, exitCode, timedOut, c)
    case Err(stage) => FellBack(ledger, file, stage, c.fallback)
    case Ok(image) =>
      if image.state.Completed? then Written(ledger, file, image, ReceiptFinalization, exitCode, c.first, c.fallback)
      else Written(image, file, image, TerminalFailureFinalization, exitCode, c.first, c.fallback)
  }

  /** Completion is durable and code 0 is returned exactly for an accepted receipt of a timely exit 0. */
  lemma CompletesExactly(
    ledger: Ledger, file: File, binding: Receipt.Binding, exitCode: int, timedOut: bool, c: Conditions)
    requires !file.Holding? || !file.image.state.Completed?
    requires Lands(c.fallback)
    ensures var final := Finalized(ledger, file, binding, exitCode, timedOut, c);
            && (final.file.Holding? && final.file.image.state.Completed? <==>
                && exitCode == 0 && !timedOut && c.first.Returned? && c.evidence.Some? && c.output.Some?
                && Receipt.Accepted(c.output.value, binding, c.evidence.value))
            && final.file.Holding? && (final.file.image.state.Completed? || final.file.image.state.FailedAfterLaunch?)
  {
    hide Receipt.Accepted;
  }

  // ---- The same finalization in the transition system -------------------

  /** The events of the transition system under the same conditions, from `Evidence` to the exit. */
  function EventsAfter(ledger: Ledger, binding: Receipt.Binding, exitCode: int, timedOut: bool, c: Conditions)
    : seq<Event>
  {
    var first := FirstImage(ledger, binding, exitCode, timedOut, c);
    var success := exitCode == 0 && !timedOut;
    var evidence := if c.evidence.None? then Fail else EvidenceBuilt(c.evidence.value);
    var output := if c.output.None? then Fail else Parsed(c.output.value);
    [evidence]
    + (if c.evidence.Some? && success then [output] else [])
    + (if first.Ok? then [Write(c.first)] else [])
    + (if first.Ok? then Tail(c.first, c.fallback) else [Proceed, Write(c.fallback), Proceed])
  }

  function Events(ledger: Ledger, binding: Receipt.Binding, exitCode: int, timedOut: bool, c: Conditions): seq<Event> {
    [Proceed] + EventsAfter(ledger, binding, exitCode, timedOut, c)
  }

  function Replay(o: Outcome, events: seq<Event>, owner: nat): Outcome
    decreases |events|
  {
    if events == [] then o else Replay(Next(o.file, o.proc, events[0], owner), events[1..], owner)
  }

  class LaunchRecord {
    var ledger: Ledger
    var file: File

    constructor (ledger: Ledger, file: File)
      ensures this.ledger == ledger && this.file == file
    {
      this.ledger, this.file := ledger, file;
    }

    /** `_ledger_update` of the given image. */
    method Update(image: Ledger, outcome: WriteOutcome) returns (raised: bool)
      modifies this`file
      ensures file == Put(old(file), image, false, outcome)
      ensures raised <==> !outcome.Returned?
    {
      if !outcome.RaisedBefore? {
        file := Holding(image, false);
      }
      raised := !outcome.Returned?;
    }

    /** The in-memory ledger takes the failure whether or not its write works. */
    method PersistTerminalFailure(state: State, failure: Failure, outcome: WriteOutcome) returns (raised: bool)
      modifies this
      ensures ledger == FailedWith(old(ledger), state, failure)
      ensures file == Put(old(file), ledger, false, outcome)
      ensures raised <==> !outcome.Returned?
    {
      ledger := ledger.(state := state);
      ledger := ledger.(failure := Some(failure));
      ledger := ledger.(processStates := ledger.processStates + [state]);
      raised := Update(ledger, outcome);
    }

    /** The finalization, statement by statement, leaves exactly `Finalized`. */
    method FinalizeChildResult(binding: Receipt.Binding, exitCode: int, timedOut: bool, c: Conditions)
      returns (exit: Exit)
      modifies this
      ensures Final(ledger, file, exit) == Finalized(old(ledger), old(file), binding, exitCode, timedOut, c)
    {
      hide Receipt.Accepted;
      var success := exitCode == 0 && !timedOut;
      var stage := EvidenceCollection;
      var raised := c.evidence.None?;
      if !raised {
        if !success {
          ledger := FailedResult(ledger, exitCode, timedOut);
          stage := TerminalFailureFinalization;
          raised := Update(ledger, c.first);
        } else {
          stage := ReceiptParseValidation;
          raised := c.output.None? || !Receipt.Accepted(c.output.value, binding, c.evidence.value);
          if !raised {
            stage := ReceiptFinalization;
            var receipt := Receipt.SummaryOf(c.output.value, c.evidence.value);
            raised := Update(CompletedResult(ledger, exitCode, timedOut, receipt), c.first);
          }
        }
      }
      if raised {
        var lost := PersistTerminalFailure(FailedAfterLaunch, Failure(stage, false), c.fallback);
        exit := if lost then Raised else Code(70);
      } else {
        exit := Code(exitCode);
      }
    }
  }

  lemma {:induction false} ReplayAppend(o: Outcome, left: seq<Event>, right: seq<Event>, owner: nat)
    ensures Replay(o, left + right, owner) == Replay(Replay(o, left, owner), right, owner)
    decreases |left|
  {
    hide Next;
    if left == [] {
      assert left + right == right;
    } else {
      assert (left + right)[1..] == left[1..] + right;
      ReplayAppend(Next(o.file, o.proc, left[0], owner), left[1..], right, owner);
    }
  }

  lemma ReplayOne(o: Outcome, e: Event, owner: nat)
    ensures Replay(o, [e], owner) == Next(o.file, o.proc, e, owner)
  {
    hide Next;
    assert Replay(o, [e], owner) == Replay(Next(o.file, o.proc, e, owner), [], owner);
  }

  lemma ReplayTwo(o: Outcome, d: Event, e: Event, owner: nat)
    ensures var m := Next(o.file, o.proc, d, owner);
            Replay(o, [d, e], owner) == Next(m.file, m.proc, e, owner)
  {
    hide Next;
    assert [d, e] == [d] + [e];
    ReplayAppend(o, [d], [e], owner);
    ReplayOne(o, d, owner);
    ReplayOne(Next(o.file, o.proc, d, owner), e, owner);
  }

  lemma ReplayHead(o: Outcome, e: Event, rest: seq<Event>, owner: nat)
    ensures Replay(o, [e] + rest, owner) == Replay(Next(o.file, o.proc, e, owner), rest, owner)
  {
    hide Next;
    ReplayAppend(o, [e], rest, owner);
    ReplayOne(o, e, owner);
  }

  predicate Ends(end: Outcome, final: Final) {
    end.file == final.file && end.proc.parent.ledger == final.ledger && end.proc.parent.pc == Exited(final.exit)
  }

  /** The events after the first write. */
  function Tail(first: WriteOutcome, fallback: WriteOutcome): seq<Event> {
    if first.Returned? then [Proceed] else [Proceed, Write(fallback), Proceed]
  }

  /** From the handler: the fallback write and the exit. */
  lemma FallbackReplays(o: Outcome, fallback: WriteOutcome, owner: nat)
    requires o.proc.parent.pc.FinalCaught?
    ensures var a := o.proc.parent;
            Ends(Replay(o, [Proceed, Write(fallback), Proceed], owner), FellBack(a.ledger, o.file, a.stage, fallback))
  {
    hide Next, Replay;
    var c := Next(o.file, o.proc, Proceed, owner);
    var w := Next(c.file, c.proc, Write(fallback), owner);
    assert [Proceed, Write(fallback), Proceed] == [Proceed, Write(fallback)] + [Proceed];
    ReplayAppend(o, [Proceed, Write(fallback)], [Proceed], owner);
    ReplayTwo(o, Proceed, Write(fallback), owner);
    CaughtStep(o.file, o.proc, owner);
    FallbackStep(c.file, c.proc, fallback, owner);
    ReplayOne(w, Proceed, owner);
    LastStep(w.file, w.proc, owner);
  }

  /** After the first finalization write: its exit, or the fallback. */
  lemma FirstWriteReplays(o: Outcome, image: Ledger, first: WriteOutcome, fallback: WriteOutcome, owner: nat)
    requires Next(o.file, o.proc, Write(first), owner) == FinalizationWrite(o.file, o.proc, image, first)
    ensures var a := o.proc.parent;
            Ends(Replay(o, [Write(first)] + Tail(first, fallback), owner),
                 Written(a.ledger, o.file, image, a.stage, a.exitCode, first, fallback))
  {
    hide Next, Replay, FailedWith;
    var w := FinalizationWrite(o.file, o.proc, image, first);
    ReplayAppend(o, [Write(first)], Tail(first, fallback), owner);
    ReplayOne(o, Write(first), owner);
    if first.Returned? {
      ReplayOne(w, Proceed, owner);
      LastStep(w.file, w.proc, owner);
    } else {
      FallbackReplays(w, fallback, owner);
    }
  }

  /** Replaying the events from the evidence stage gives exactly `Finalized`. */
  ghost predicate Agrees(o: Outcome, binding: Receipt.Binding, c: Conditions, owner: nat) {
    var a := o.proc.parent;
    Ends(Replay(o, EventsAfter(a.ledger, binding, a.exitCode, a.timedOut, c), owner),
         Finalized(a.ledger, o.file, binding, a.exitCode, a.timedOut, c))
  }

  /** No evidence: straight to the fallback. */
  lemma AgreeWithoutEvidence(o: Outcome, binding: Receipt.Binding, c: Conditions, owner: nat)
    requires c.evidence.None? && o.proc.parent.pc.Evidence? && o.proc.parent.stage.EvidenceCollection?
    ensures Agrees(o, binding, c, owner)
  {
    hide Next, Replay, FellBack, Written, Ends;
    var a := o.proc.parent;
    var tail := [Proceed, Write(c.fallback), Proceed];
    assert EventsAfter(a.ledger, binding, a.exitCode, a.timedOut, c) == [Fail] + tail;
    EvidenceFails(o.file, o.proc, owner);
    ReplayHead(o, Fail, tail, owner);
    FallbackReplays(Next(o.file, o.proc, Fail, owner), c.fallback, owner);
  }

  /** A failed or late child: its result is written, or else the fallback. */
  lemma AgreeOnFailure(o: Outcome, binding: Receipt.Binding, c: Conditions, owner: nat)
    requires c.evidence.Some? && Receipt.ValidEvidence(c.evidence.value) && o.proc.parent.pc.Evidence?
    requires o.proc.parent.exitCode != 0 || o.proc.parent.timedOut
    ensures Agrees(o, binding, c, owner)
  {
    hide Next, Replay, FellBack, Written, Ends, Receipt.ValidEvidence;
    var a := o.proc.parent;
    var image := FailedResult(a.ledger, a.exitCode, a.timedOut);
    var built, rest := EvidenceBuilt(c.evidence.value), [Write(c.first)] + Tail(c.first, c.fallback);
    var o2 := Next(o.file, o.proc, built, owner);
    assert EventsAfter(a.ledger, binding, a.exitCode, a.timedOut, c) == [built] + rest;
    ReplayHead(o, built, rest, owner);
    EvidenceStep(o.file, o.proc, c.evidence.value, owner);
    ResultStep(o2.file, o2.proc, c.first, owner);
    FailedResultState(a.ledger, a.exitCode, a.timedOut);
    FirstWriteReplays(o2, image, c.first, c.fallback, owner);
  }

  /** From the validation stage, an output that is missing or rejected. */
  lemma RejectedReplays(o: Outcome, output: Option<Receipt.Payload>, fallback: WriteOutcome, owner: nat)
    requires o.proc.parent.pc.Validate? && o.proc.parent.evidence.Some?
    requires output.None? || !Receipt.Accepted(output.value, o.proc.launch.binding, o.proc.parent.evidence.value)
    ensures var a := o.proc.parent;
            var event := if output.None? then Fail else Parsed(output.value);
            Ends(Replay(o, [event] + [Proceed, Write(fallback), Proceed], owner),
                 FellBack(a.ledger, o.file, a.stage, fallback))
  {
    hide Next, Replay, FellBack, Ends, Receipt.Accepted;
    var event := if output.None? then Fail else Parsed(output.value);
    OutputStep(o.file, o.proc, output, owner);
    ReplayHead(o, event, [Proceed, Write(fallback), Proceed], owner);
    FallbackReplays(Next(o.file, o.proc, event, owner), fallback, owner);
  }

  /** From the validation stage, an accepted output: the completed image, or the fallback. */
  lemma AcceptedReplays(o: Outcome, payload: Receipt.Payload, first: WriteOutcome, fallback: WriteOutcome, owner: nat)
    requires o.proc.parent.pc.Validate? && o.proc.parent.evidence.Some?
    requires Receipt.Accepted(payload, o.proc.launch.binding, o.proc.parent.evidence.value)
    ensures var a := o.proc.parent;
            var image := CompletedResult(a.ledger, a.exitCode, a.timedOut, Receipt.SummaryOf(payload, a.evidence.value));
            Ends(Replay(o, [Parsed(payload)] + ([Write(first)] + Tail(first, fallback)), owner),
                 Written(a.ledger, o.file, image, ReceiptFinalization, a.exitCode, first, fallback))
  {
    hide Next, Replay, Written, Ends, Tail, CompletedResult, FinalizationWrite, Receipt.SummaryOf, Receipt.Accepted;
    var a := o.proc.parent;
    var image := CompletedResult(a.ledger, a.exitCode, a.timedOut, Receipt.SummaryOf(payload, a.evidence.value));
    var w := Outcome(o.file, o.proc.(
                       parent := a.(pc := PersistCompleted, payload := Some(payload), stage := ReceiptFinalization)));
    OutputStep(o.file, o.proc, Some(payload), owner);
    ReplayHead(o, Parsed(payload), [Write(first)] + Tail(first, fallback), owner);
    ResultStep(w.file, w.proc, first, owner);
    FirstWriteReplays(w, image, first, fallback, owner);
  }

  /** The stage of validation, once the evidence is built. */
  function Validating(o: Outcome, evidence: Receipt.Evidence): Outcome {
    var a := o.proc.parent;
    Outcome(o.file, o.proc.(parent := a.(pc := Validate, evidence := Some(evidence), stage := ReceiptParseValidation)))
  }

  lemma AgreeOnRejectedOutput(o: Outcome, binding: Receipt.Binding, c: Conditions, owner: nat)
    requires c.evidence.Some? && Receipt.ValidEvidence(c.evidence.value) && o.proc.parent.pc.Evidence?
    requires o.proc.parent.exitCode == 0 && !o.proc.parent.timedOut && binding == o.proc.launch.binding
    requires c.output.None? || !Receipt.Accepted(c.output.value, binding, c.evidence.value)
    ensures Agrees(o, binding, c, owner)
  {
    hide Next, Replay, FellBack, Written, Ends, Receipt.Accepted, Receipt.ValidEvidence;
    var a := o.proc.parent;
    var built, output := EvidenceBuilt(c.evidence.value), if c.output.None? then Fail else Parsed(c.output.value);
    var rest := [output] + [Proceed, Write(c.fallback), Proceed];
    assert EventsAfter(a.ledger, binding, a.exitCode, a.timedOut, c) == [built] + rest;
    EvidenceStep(o.file, o.proc, c.evidence.value, owner);
    ReplayHead(o, built, rest, owner);
    RejectedReplays(Validating(o, c.evidence.value), c.output, c.fallback, owner);
  }

  lemma AgreeOnAcceptedOutput(o: Outcome, binding: Receipt.Binding, c: Conditions, owner: nat)
    requires c.evidence.Some? && Receipt.ValidEvidence(c.evidence.value) && o.proc.parent.pc.Evidence?
    requires o.proc.parent.exitCode == 0 && !o.proc.parent.timedOut && binding == o.proc.launch.binding
    requires c.output.Some? && Receipt.Accepted(c.output.value, binding, c.evidence.value)
    ensures Agrees(o, binding, c, owner)
  {
    hide Next, Replay, FellBack, Written, Ends, Receipt.Accepted, Receipt.ValidEvidence;
    var a, built := o.proc.parent, EvidenceBuilt(c.evidence.value);
    var rest := [Parsed(c.output.value)] + ([Write(c.first)] + Tail(c.first, c.fallback));
    CompletedResultState(a.ledger, a.exitCode, a.timedOut, Receipt.SummaryOf(c.output.value, c.evidence.value));
    assert EventsAfter(a.ledger, binding, a.exitCode, a.timedOut, c) == [built] + rest;
    EvidenceStep(o.file, o.proc, c.evidence.value, owner);
    ReplayHead(o, built, rest, owner);
    AcceptedReplays(Validating(o, c.evidence.value), c.output.value, c.first, c.fallback, owner);
  }

  /** The method and the transition system finalize alike: same ledger, same file, same exit. */
  lemma TransitionsAgree(file: File, p: Proc, c: Conditions, owner: nat)
    requires p.parent.pc.Collected? && (c.evidence.Some? ==> Receipt.ValidEvidence(c.evidence.value))
    ensures var a := p.parent;
            var end := Replay(Outcome(file, p), Events(a.ledger, p.launch.binding, a.exitCode, a.timedOut, c), owner);
            var final := Finalized(a.ledger, file, p.launch.binding, a.exitCode, a.timedOut, c);
            end.file == final.file && end.proc.parent.ledger == final.ledger && end.proc.parent.pc == Exited(final.exit)
  {
    hide Next, Replay, Receipt.Accepted, Receipt.ValidEvidence, EventsAfter, Finalized;
    var a, binding := p.parent, p.launch.binding;
    var o := Next(file, p, Proceed, owner);
    CollectedStep(file, p, owner);
    ReplayAppend(Outcome(file, p), [Proceed], EventsAfter(a.ledger, binding, a.exitCode, a.timedOut, c), owner);
    ReplayOne(Outcome(file, p), Proceed, owner);
    if c.evidence.None? {
      AgreeWithoutEvidence(o, binding, c, owner);
    } else if a.exitCode != 0 || a.timedOut {
      AgreeOnFailure(o, binding, c, owner);
    } else {
      if c.output.None? || !Receipt.Accepted(c.output.value, binding, c.evidence.value) {
        AgreeOnRejectedOutput(o, binding, c, owner);
      } else {
        AgreeOnAcceptedOutput(o, binding, c, owner);
      }
    }
  }

  lemma FailedResultState(ledger: Ledger, exitCode: int, timedOut: bool)
    ensures FailedResult(ledger, exitCode, timedOut).state == FailedAfterLaunch
  {
  }

  lemma CompletedResultState(ledger: Ledger, exitCode: int, timedOut: bool, receipt: Receipt.Summary)
    ensures CompletedResult(ledger, exitCode, timedOut, receipt).state == Completed
  {
  }
}
