/**
 * How `_launch_exact` ends: what every way out leaves durable, exactly which
 * interrupts break it, and concrete runs for the claims that fail.
 */
module LaunchOutcomes {
  import opened Wrappers
  import opened RunLedger
  import opened Launch
  import opened LaunchInvariant
  import opened LaunchSteps
  import opened LaunchTheorems
  import Receipt

  // ---- Marks are events -------------------------------------------------

  /** An event of launcher `i` for which `when` held of it and of the launcher it met. */
  ghost predicate HappenedAt(
    launches: seq<LaunchFacts>, schedule: seq<(nat, Event)>, i: nat, when: (Event, Proc) -> bool)
    requires i < |launches|
  {
    exists k :: 0 <= k < |schedule| && schedule[k].0 == i
                && when(schedule[k].1, Run(launches, schedule[..k]).procs[i])
  }

  /** An interrupt where no handler persists a terminal image for it. */
  predicate UnguardedInterrupt(e: Event, p: Proc) {
    e.Interrupt? && Unguarded(p.parent.pc)
  }

  /** Such an interrupt over a child that was forked and not yet reaped. */
  predicate ChildLeftBehind(e: Event, p: Proc) {
    UnguardedInterrupt(e, p) && Forked(p) && !p.reaped
  }

  /** An interrupt on the fork, before its result reached the variable. */
  predicate PidLost(e: Event, p: Proc) {
    e.ForkInterrupted? && p.parent.pc.Fork?
  }

  /** An interrupt between the in-memory consumption and its flag. */
  predicate MidRecordInterrupt(e: Event, p: Proc) {
    e.Interrupt? && p.parent.pc.Mark?
  }

  /** A last-resort terminal write that leaves the old image. */
  predicate LastWriteFails(e: Event, p: Proc) {
    e == Write(RaisedBefore) && (p.parent.pc.LaunchPersist? || p.parent.pc.WaitPersist? || p.parent.pc.FinalPersist?)
  }

  /** The first finalization write puts its image in place. */
  predicate ResultLands(e: Event, p: Proc) {
    e.Write? && Lands(e.outcome) && (p.parent.pc.PersistResult? || p.parent.pc.PersistCompleted?)
  }

  lemma InterruptMarks(file: File, p: Proc)
    ensures var q := InterruptParent(file, p).proc;
            && (q.marks.unguarded <==> p.marks.unguarded || Unguarded(p.parent.pc))
            && q.marks.pidLost == p.marks.pidLost
            && (q.marks.midRecord <==> p.marks.midRecord || p.parent.pc.Mark?)
  {
  }

  lemma MarkStep(file: File, p: Proc, e: Event, owner: nat)
    ensures var q := Next(file, p, e, owner).proc;
            && (q.marks.unguarded <==> p.marks.unguarded || UnguardedInterrupt(e, p))
            && (q.marks.pidLost <==> p.marks.pidLost || PidLost(e, p))
            && (q.marks.midRecord <==> p.marks.midRecord || MidRecordInterrupt(e, p))
  {
    hide Receipt.Accepted, ProceedParent, FailParent, InterruptParent, WriteParent, ReapParent, WaitParent;
    hide ScanParent, ChildStep, EvidenceParent, ParsedParent, CrashParent, CreateBrokenParent, ReleaseInterruptedParent;
    if e.Interrupt? {
      InterruptMarks(file, p);
    }
  }

  /** The two marks of the terminal writes are set by nothing else. */
  lemma WriteMarkStep(file: File, p: Proc, e: Event, owner: nat)
    requires p.parent.pc.PersistResult? || p.parent.pc.PersistCompleted? ==> !p.marks.finalLanded
    requires p.parent.pc.PersistCompleted? ==> p.parent.payload.Some? && p.parent.evidence.Some?
    ensures var q := Next(file, p, e, owner).proc;
            && (q.marks.persistFailed <==> p.marks.persistFailed || LastWriteFails(e, p))
            && (q.marks.finalLanded <==> p.marks.finalLanded || ResultLands(e, p))
  {
    if e.Write? {
      hide Next, WriteParent;
      if ParentAlive(p) {
        NextWrite(file, p, e.outcome, owner);
        WriteMarks(file, p, e.outcome);
      } else {
        GoneStays(file, p, e, owner);
      }
    } else {
      hide LastWriteFails, ResultLands;
      OtherEventMarks(file, p, e, owner);
    }
  }

  lemma WriteMarks(file: File, p: Proc, outcome: WriteOutcome)
    requires p.parent.pc.PersistResult? || p.parent.pc.PersistCompleted? ==> !p.marks.finalLanded
    requires p.parent.pc.PersistCompleted? ==> p.parent.payload.Some? && p.parent.evidence.Some?
    ensures var q := WriteParent(file, p, outcome).proc;
            && (q.marks.persistFailed <==> p.marks.persistFailed || LastWriteFails(Write(outcome), p))
            && (q.marks.finalLanded <==> p.marks.finalLanded || ResultLands(Write(outcome), p))
  {
    hide Put, FailedWith, CompletedResult, Receipt.SummaryOf, TokenWrite, PersistLast, FinalizationWrite, FallbackWrite;
    match p.parent.pc
    case LaunchPersist =>
      LastWriteMarks(file, p, FailedWith(p.parent.ledger, HandlerState(p.parent),
                                         Failure(HandlerStage(p.parent), p.parent.cleanupFailed)), outcome);
    case WaitPersist =>
      LastWriteMarks(file, p, FailedWith(p.parent.ledger, FailedAfterLaunch,
                                         Failure(ChildWait, p.parent.cleanupFailed)), outcome);
    case PersistResult => ResultMarks(file, p, p.parent.ledger, outcome);
    case PersistCompleted =>
      ResultMarks(file, p, CompletedResult(p.parent.ledger, p.parent.exitCode, p.parent.timedOut,
                                           Receipt.SummaryOf(p.parent.payload.value, p.parent.evidence.value)), outcome);
    case FinalPersist => FallbackMarks(file, p, outcome);
    case _ =>
  }

  lemma LastWriteMarks(file: File, p: Proc, image: Ledger, outcome: WriteOutcome)
    ensures var q := PersistLast(file, p, image, outcome).proc;
            && (q.marks.persistFailed <==> p.marks.persistFailed || outcome.RaisedBefore?)
            && q.marks.finalLanded == p.marks.finalLanded
  {
  }

  lemma FallbackMarks(file: File, p: Proc, outcome: WriteOutcome)
    ensures var q := FallbackWrite(file, p, outcome).proc;
            && (q.marks.persistFailed <==> p.marks.persistFailed || outcome.RaisedBefore?)
            && q.marks.finalLanded == p.marks.finalLanded
  {
  }

  lemma ResultMarks(file: File, p: Proc, image: Ledger, outcome: WriteOutcome)
    ensures var q := FinalizationWrite(file, p, image, outcome).proc;
            q.marks.persistFailed == p.marks.persistFailed && q.marks.finalLanded == Lands(outcome)
  {
  }

  lemma OtherEventMarks(file: File, p: Proc, e: Event, owner: nat)
    requires !e.Write?
    ensures SameWrites(p, Next(file, p, e, owner).proc) && !LastWriteFails(e, p) && !ResultLands(e, p)
  {
    hide ProceedParent, FailParent, InterruptParent, ScanParent, ReapParent, WaitParent, EvidenceParent, ParsedParent;
    hide ChildStep, WriteParent, CrashParent, CreateBrokenParent, ForkInterruptedParent, ReleaseInterruptedParent;
  }

  /** A parent that is gone keeps its marks, what it knew of its child, and whether the child was reaped. */
  lemma GoneStays(file: File, p: Proc, e: Event, owner: nat)
    requires !ParentAlive(p)
    ensures var q := Next(file, p, e, owner).proc;
            && !ParentAlive(q) && q.parent == p.parent && q.reaped == p.reaped && Forked(q) == Forked(p)
            && q.marks == p.marks.(entered := q.marks.entered)
  {
    hide Next;
    if IsChildEvent(e) {
      NextChild(file, p, e, owner);
    } else {
      NextGone(file, p, e, owner);
    }
  }

  /** What the marks need of a launcher, whether it created the ledger or not. */
  lemma MarkedPoints(launches: seq<LaunchFacts>, schedule: seq<(nat, Event)>, i: nat)
    requires i < |launches|
    ensures var p := Run(launches, schedule).procs[i];
            && (p.parent.pc.PersistResult? || p.parent.pc.PersistCompleted? ==> !p.marks.finalLanded)
            && (p.parent.pc.PersistCompleted? ==> p.parent.payload.Some? && p.parent.evidence.Some?)
            && (p.marks.unguarded ==> !ParentAlive(p))
  {
    RunKeeps(launches, schedule);
    var w := Run(launches, schedule);
    hide Run;
    if w.creator == Some(i) {
      CreatorPoints(w.file, w.procs[i], i);
    }
  }

  lemma CreatorPoints(file: File, p: Proc, owner: nat)
    requires Inv(file, p, owner)
    ensures p.parent.pc.PersistResult? || p.parent.pc.PersistCompleted? ==> !p.marks.finalLanded
    ensures p.parent.pc.PersistCompleted? ==> p.parent.payload.Some? && p.parent.evidence.Some?
    ensures p.marks.unguarded ==> !ParentAlive(p)
  {
    hide Receipt.Accepted, FlagInv, ChildInv, ImageInv;
  }

  lemma HappenedStep(
    launches: seq<LaunchFacts>, schedule: seq<(nat, Event)>, i: nat, when: (Event, Proc) -> bool)
    requires i < |launches| && schedule != []
    ensures var init, last := schedule[..|schedule| - 1], schedule[|schedule| - 1];
            HappenedAt(launches, schedule, i, when) <==>
            HappenedAt(launches, init, i, when) || (last.0 == i && when(last.1, Run(launches, init).procs[i]))
  {
    hide Run;
    var init, last := schedule[..|schedule| - 1], |schedule| - 1;
    assert forall k :: 0 <= k < last ==> init[..k] == schedule[..k];
    if HappenedAt(launches, init, i, when) {
      var k :| 0 <= k < |init| && init[k].0 == i && when(init[k].1, Run(launches, init[..k]).procs[i]);
      assert schedule[k] == init[k] && schedule[..k] == init[..k];
    }
    if HappenedAt(launches, schedule, i, when) {
      var k :| 0 <= k < |schedule| && schedule[k].0 == i
               && when(schedule[k].1, Run(launches, schedule[..k]).procs[i]);
      assert k < last ==> init[k] == schedule[k] && init[..k] == schedule[..k];
    }
  }

  /** The interrupt marks say exactly which interrupts the schedule contains. */
  lemma {:induction false} MarksAreInterrupts(launches: seq<LaunchFacts>, schedule: seq<(nat, Event)>, i: nat)
    requires i < |launches|
    ensures var marks := Run(launches, schedule).procs[i].marks;
            && (marks.unguarded <==> HappenedAt(launches, schedule, i, UnguardedInterrupt))
            && (marks.pidLost <==> HappenedAt(launches, schedule, i, PidLost))
            && (marks.midRecord <==> HappenedAt(launches, schedule, i, MidRecordInterrupt))
    decreases |schedule|
  {
    if schedule == [] {
      assert Run(launches, schedule) == Start(launches);
    } else {
      hide Next, Run, HappenedAt;
      var init, last := schedule[..|schedule| - 1], schedule[|schedule| - 1];
      MarksAreInterrupts(launches, init, i);
      LastEvent(launches, schedule, i);
      HappenedStep(launches, schedule, i, UnguardedInterrupt);
      HappenedStep(launches, schedule, i, PidLost);
      HappenedStep(launches, schedule, i, MidRecordInterrupt);
      var w := Run(launches, init);
      MarkStep(w.file, w.procs[i], last.1, i);
    }
  }

  /** The two marks of the terminal writes say exactly which of them failed or landed. */
  lemma {:induction false} MarksAreWrites(launches: seq<LaunchFacts>, schedule: seq<(nat, Event)>, i: nat)
    requires i < |launches|
    ensures var marks := Run(launches, schedule).procs[i].marks;
            && (marks.persistFailed <==> HappenedAt(launches, schedule, i, LastWriteFails))
            && (marks.finalLanded <==> HappenedAt(launches, schedule, i, ResultLands))
    decreases |schedule|
  {
    if schedule == [] {
      assert Run(launches, schedule) == Start(launches);
    } else {
      hide Next, Run, HappenedAt, LastWriteFails, ResultLands;
      var init, last := schedule[..|schedule| - 1], schedule[|schedule| - 1];
      MarksAreWrites(launches, init, i);
      LastEvent(launches, schedule, i);
      HappenedStep(launches, schedule, i, LastWriteFails);
      HappenedStep(launches, schedule, i, ResultLands);
      MarkedPoints(launches, init, i);
      var w := Run(launches, init);
      WriteMarkStep(w.file, w.procs[i], last.1, i);
    }
  }

  /** A child that an interrupt left behind is never reaped afterwards. */
  lemma {:induction false} LeftBehindStays(launches: seq<LaunchFacts>, schedule: seq<(nat, Event)>, i: nat)
    requires i < |launches|
    ensures var p := Run(launches, schedule).procs[i];
            HappenedAt(launches, schedule, i, ChildLeftBehind) <==> p.marks.unguarded && Forked(p) && !p.reaped
    decreases |schedule|
  {
    if schedule == [] {
      assert Run(launches, schedule) == Start(launches);
    } else {
      hide Next, Run, HappenedAt;
      var init, last := schedule[..|schedule| - 1], schedule[|schedule| - 1];
      LeftBehindStays(launches, init, i);
      LastEvent(launches, schedule, i);
      HappenedStep(launches, schedule, i, ChildLeftBehind);
      MarkedPoints(launches, init, i);
      var w := Run(launches, init);
      MarkStep(w.file, w.procs[i], last.1, i);
      if w.procs[i].marks.unguarded {
        GoneStays(w.file, w.procs[i], last.1, i);
      } else if UnguardedInterrupt(last.1, w.procs[i]) {
        LeavingKeepsTheChild(w.file, w.procs[i], i);
      }
    }
  }

  lemma LeavingKeepsTheChild(file: File, p: Proc, owner: nat)
    requires Unguarded(p.parent.pc)
    ensures var q := Next(file, p, Interrupt, owner).proc; Forked(q) == Forked(p) && q.reaped == p.reaped
  {
    hide Next;
    NextFail(file, p, owner);
  }

  // ---- The child's own image --------------------------------------------

  /** An escaped child puts its image over the ledger. */
  predicate Overwrites(e: Event, p: Proc) {
    e.ChildOverwrites? && Lands(e.outcome) && p.child.Escaped?
  }

  /** Some child overwrote the ledger, and the file has not changed since. */
  ghost predicate LastWrittenByChild(launches: seq<LaunchFacts>, schedule: seq<(nat, Event)>) {
    exists k :: 0 <= k < |schedule| && ChildWroteAt(launches, schedule, k)
  }

  ghost predicate ChildWroteAt(launches: seq<LaunchFacts>, schedule: seq<(nat, Event)>, k: nat)
    requires k < |schedule|
  {
    && schedule[k].0 < |launches|
    && Overwrites(schedule[k].1, Run(launches, schedule[..k]).procs[schedule[k].0])
    && forall j :: k < j <= |schedule| ==> Run(launches, schedule[..j]).file == Run(launches, schedule).file
  }

  predicate ByChild(file: File) {
    file.Holding? && file.byChild
  }

  /** A step leaves the child's image in the file only by putting it there or by leaving the file alone. */
  lemma ByChildStep(file: File, p: Proc, e: Event, owner: nat)
    ensures var after := Next(file, p, e, owner).file;
            ByChild(after) <==> Overwrites(e, p) || (after == file && ByChild(file))
  {
    if IsChildEvent(e) {
      hide Next;
      NextChild(file, p, e, owner);
    } else if e.Write? {
      hide Next;
      if ParentAlive(p) {
        NextWrite(file, p, e.outcome, owner);
      } else {
        NextGone(file, p, e, owner);
      }
    } else {
      OtherEventFile(file, p, e, owner);
    }
  }

  lemma OtherEventFile(file: File, p: Proc, e: Event, owner: nat)
    requires !e.Write? && !IsChildEvent(e)
    ensures var after := Next(file, p, e, owner).file; after == file || (file.Absent? && !ByChild(after))
  {
    hide Next, ProceedParent, CreateBrokenParent;
    if !ParentAlive(p) {
      NextGone(file, p, e, owner);
    } else if e.Proceed? {
      NextProceed(file, p, owner);
      ProceedFile(file, p, owner);
    } else if e.CreateBroken? {
      NextBroken(file, p, e.torn, e.crash, owner);
      BrokenFile(file, p, e.torn, e.crash);
    } else {
      OnlyWritesChangeAnyFile(file, p, e, owner);
    }
  }

  lemma ProceedFile(file: File, p: Proc, owner: nat)
    ensures var after := ProceedParent(file, p, owner).file; after == file || (file.Absent? && !ByChild(after))
  {
  }

  lemma BrokenFile(file: File, p: Proc, torn: bool, crash: bool)
    ensures var after := CreateBrokenParent(file, p, torn, crash).file; after == file || (file.Absent? && !ByChild(after))
  {
  }

  lemma {:induction false} ByChildIsOverwrite(launches: seq<LaunchFacts>, schedule: seq<(nat, Event)>)
    ensures ByChild(Run(launches, schedule).file) <==> LastWrittenByChild(launches, schedule)
    decreases |schedule|
  {
    if schedule == [] {
      assert Run(launches, schedule) == Start(launches);
    } else {
      var init, last := schedule[..|schedule| - 1], schedule[|schedule| - 1];
      var w, after := Run(launches, init), Run(launches, schedule);
      assert schedule == init + [last];
      RunSnoc(launches, init, last.0, last.1);
      hide Next, Run;
      ByChildIsOverwrite(launches, init);
      if last.0 < |launches| {
        ByChildStep(w.file, w.procs[last.0], last.1, last.0);
      }
      LastWrittenStep(launches, schedule);
    }
  }

  lemma LastWrittenStep(launches: seq<LaunchFacts>, schedule: seq<(nat, Event)>)
    requires schedule != []
    ensures var init, last := schedule[..|schedule| - 1], schedule[|schedule| - 1];
            var w, after := Run(launches, init), Run(launches, schedule);
            LastWrittenByChild(launches, schedule) <==>
            || (last.0 < |launches| && Overwrites(last.1, w.procs[last.0]))
            || (after.file == w.file && LastWrittenByChild(launches, init))
  {
    hide Run, Overwrites;
    var init, n := schedule[..|schedule| - 1], |schedule| - 1;
    var w, after := Run(launches, init), Run(launches, schedule);
    assert schedule[..|schedule|] == schedule && init[..n] == init;
    assert forall k :: 0 <= k <= n ==> init[..k] == schedule[..k];
    if schedule[n].0 < |launches| && Overwrites(schedule[n].1, w.procs[schedule[n].0]) {
      assert ChildWroteAt(launches, schedule, n);
    }
    if after.file == w.file && LastWrittenByChild(launches, init) {
      var k :| 0 <= k < n && ChildWroteAt(launches, init, k);
      forall j | k < j <= |schedule| ensures Run(launches, schedule[..j]).file == after.file {
        assert j <= n ==> init[..j] == schedule[..j];
      }
      assert ChildWroteAt(launches, schedule, k);
    }
    if LastWrittenByChild(launches, schedule) {
      var k :| 0 <= k <= n && ChildWroteAt(launches, schedule, k);
      if k < n {
        assert Run(launches, schedule[..n]).file == after.file;
        forall j | k < j <= n ensures Run(launches, init[..j]).file == w.file {
          assert init[..j] == schedule[..j];
        }
        assert ChildWroteAt(launches, init, k);
      }
    }
  }

  /**
   * The token of a released child is durably consumed exactly unless the last write of
   * the ledger was that of an escaped child.
   */
  lemma ReleasedIsConsumedExactly(launches: seq<LaunchFacts>, schedule: seq<(nat, Event)>, i: nat)
    requires i < |launches| && Run(launches, schedule).procs[i].marks.released
    ensures Consumed(Run(launches, schedule).file) <==> !LastWrittenByChild(launches, schedule)
  {
    hide Run;
    ReleasedIsConsumed(launches, schedule, i);
    ByChildIsOverwrite(launches, schedule);
  }

  // ---- Every way out ----------------------------------------------------

  /** The child was never forked, is reaped, or the durable failure says that its cleanup failed. */
  predicate ChildAccounted(file: File, p: Proc) {
    p.child.NotForked? || p.reaped || (file.Holding? && RecordsCleanup(file.image))
  }

  /**
   * Every way out of a launcher that created its ledger and whose last-resort write did
   * not fail, in terms of what happened in the run.  The durable state is terminal
   * exactly unless an interrupt hit an unguarded statement before a finalization write
   * landed; the child is accounted for exactly unless an interrupt lost its pid or left
   * it behind.  Both leave aside the image of an escaped child.
   */
  lemma EveryExit(launches: seq<LaunchFacts>, schedule: seq<(nat, Event)>, i: nat)
    requires i < |launches| && !HappenedAt(launches, schedule, i, LastWriteFails)
    requires var p := Run(launches, schedule).procs[i]; p.parent.pc.Exited? && p.parent.created
    ensures var w := Run(launches, schedule);
            var byChild := LastWrittenByChild(launches, schedule);
            && w.file.Holding?
            && (Ended(w.file) <==>
                || !HappenedAt(launches, schedule, i, UnguardedInterrupt)
                || HappenedAt(launches, schedule, i, ResultLands)
                || byChild)
            && (!byChild ==>
                  (ChildAccounted(w.file, w.procs[i]) <==>
                   && !HappenedAt(launches, schedule, i, PidLost)
                   && !HappenedAt(launches, schedule, i, ChildLeftBehind)))
  {
    RunKeeps(launches, schedule);
    MarksAreInterrupts(launches, schedule, i);
    MarksAreWrites(launches, schedule, i);
    LeftBehindStays(launches, schedule, i);
    ByChildIsOverwrite(launches, schedule);
    hide Run, HappenedAt, LastWrittenByChild;
    var w := Run(launches, schedule);
    ExitFacts(w.file, w.procs[i], i);
  }

  /** The same in terms of the marks. */
  lemma ExitFacts(file: File, p: Proc, owner: nat)
    requires Inv(file, p, owner) && p.parent.pc.Exited? && p.parent.created && !p.marks.persistFailed
    ensures file.Holding?
    ensures Ended(file) <==> !p.marks.unguarded || p.marks.finalLanded || file.byChild
    ensures !file.byChild ==>
              (ChildAccounted(file, p) <==> !p.marks.pidLost && !(p.marks.unguarded && Forked(p) && !p.reaped))
  {
    hide Receipt.Accepted, Initial, Launched, Base, MarksMatch;
    ImageFacts(owner);
  }

  /** A returned code tells what the durable image is; code 0 means completion exactly when the child did not time out. */
  lemma ReturnCodeMeaning(launches: seq<LaunchFacts>, schedule: seq<(nat, Event)>, i: nat, result: int)
    requires i < |launches| && Run(launches, schedule).procs[i].parent.pc == Exited(Code(result))
    ensures var w := Run(launches, schedule);
            && ParentImage(w.file) && w.procs[i].reaped && ResultImage(w.file.image, result)
            && (result == 0 ==>
                  w.file.image.timedOut.Some?
                  && (w.file.image.state.Completed? <==> !w.file.image.timedOut.value)
                  && (w.file.image.state.FailedAfterLaunch? <==> w.file.image.timedOut.value))
  {
    hide Run;
    RunKeeps(launches, schedule);
  }

  /**
   * Whatever raises in the finalization, if its fallback write returns then the last
   * durable state is `failed_after_launch` at the stage that raised, and the code is 70.
   */
  lemma FinalizationFailureIsRecorded(
    launches: seq<LaunchFacts>, schedule: seq<(nat, Event)>, i: nat, cause: Event)
    requires i < |launches| && InFinalTry(Run(launches, schedule).procs[i].parent.pc)
    requires cause == Fail || cause == Interrupt || cause == Write(RaisedBefore) || cause == Write(RaisedAfter)
    requires cause.Write? ==>
               var pc := Run(launches, schedule).procs[i].parent.pc; pc.PersistResult? || pc.PersistCompleted?
    ensures var stage := Run(launches, schedule).procs[i].parent.stage;
            var w := Run(launches, schedule + [(i, cause)] + [(i, Proceed)] + [(i, Write(Returned))] + [(i, Proceed)]);
            && w.procs[i].parent.pc == Exited(Code(70))
            && ParentImage(w.file) && w.file.image.state == FailedAfterLaunch && w.file.image.tokenConsumed
            && w.file.image.failure == Some(Failure(stage, false))
  {
    hide Next, Inv;
    var s1 := schedule + [(i, cause)];
    var s2 := s1 + [(i, Proceed)];
    var s3 := s2 + [(i, Write(Returned))];
    RunKeeps(launches, schedule);
    RunSnoc(launches, schedule, i, cause);
    RunSnoc(launches, s1, i, Proceed);
    RunSnoc(launches, s2, i, Write(Returned));
    RunSnoc(launches, s3, i, Proceed);
    var w := Run(launches, schedule);
    FinalizationCaught(w.file, w.procs[i], cause, i);
    var caught := Next(w.file, w.procs[i], cause, i);
    FallbackRecords(caught.file, caught.proc, i);
  }

  /** Every exception of the finalization reaches its handler with the stage and a consumed in-memory ledger. */
  lemma FinalizationCaught(file: File, p: Proc, cause: Event, owner: nat)
    requires Inv(file, p, owner) && InFinalTry(p.parent.pc)
    requires cause == Fail || cause == Interrupt || cause == Write(RaisedBefore) || cause == Write(RaisedAfter)
    requires cause.Write? ==> p.parent.pc.PersistResult? || p.parent.pc.PersistCompleted?
    ensures var q := Next(file, p, cause, owner).proc;
            q.parent == p.parent.(pc := FinalCaught) && q.parent.ledger.tokenConsumed
  {
    FinalTryIsConsumed(file, p, owner);
    hide Next, Inv, FailParent, InterruptParent;
    if cause.Write? {
      WriteCaught(file, p, cause.outcome, owner);
    } else {
      NextFail(file, p, owner);
      FinalTryRaises(file, p);
    }
  }

  lemma FinalTryRaises(file: File, p: Proc)
    requires InFinalTry(p.parent.pc)
    ensures FailParent(file, p) == At(file, p, FinalCaught) && InterruptParent(file, p) == At(file, p, FinalCaught)
  {
    hide At;
  }

  lemma WriteCaught(file: File, p: Proc, outcome: WriteOutcome, owner: nat)
    requires p.parent.pc.PersistResult?
             || (p.parent.pc.PersistCompleted? && p.parent.payload.Some? && p.parent.evidence.Some?)
    requires !outcome.Returned?
    ensures Next(file, p, Write(outcome), owner).proc.parent == p.parent.(pc := FinalCaught)
  {
    hide Next, Put, CompletedResult, Receipt.SummaryOf;
    ResultStep(file, p, outcome, owner);
  }

  lemma FinalTryIsConsumed(file: File, p: Proc, owner: nat)
    requires Inv(file, p, owner) && InFinalTry(p.parent.pc)
    ensures p.parent.ledger.tokenConsumed
    ensures p.parent.pc.PersistCompleted? ==> p.parent.payload.Some? && p.parent.evidence.Some?
  {
    hide Receipt.Accepted, ChildInv, ImageInv;
  }

  lemma FallbackRecords(file: File, p: Proc, owner: nat)
    requires p.parent.pc.FinalCaught? && p.parent.ledger.tokenConsumed
    ensures var o1 := Next(file, p, Proceed, owner);
            var o2 := Next(o1.file, o1.proc, Write(Returned), owner);
            var o3 := Next(o2.file, o2.proc, Proceed, owner);
            && o3.proc.parent.pc == Exited(Code(70)) && ParentImage(o3.file)
            && o3.file.image.state == FailedAfterLaunch && o3.file.image.tokenConsumed
            && o3.file.image.failure == Some(Failure(p.parent.stage, false))
  {
    hide Next, FailedWith;
    var o1 := Next(file, p, Proceed, owner);
    CaughtStep(file, p, owner);
    var o2 := Next(o1.file, o1.proc, Write(Returned), owner);
    FallbackStep(o1.file, o1.proc, Returned, owner);
    LastStep(o2.file, o2.proc, owner);
    FailedWithFacts(p.parent.ledger, FailedAfterLaunch, Failure(p.parent.stage, false));
  }

  // ---- The handshake and the first two handlers -------------------------

  /** The process that agrees with the child in everything. */
  function TheChild(child: Identity): ProcessItem {
    ProcessItem(child.childPid, child.parentPid, child.user, child.signature, child.signature, true, child.cwd)
  }

  lemma OnlyTheChildIsExact(item: ProcessItem, identity: Identity)
    ensures ExactChild(item, identity) <==> item == TheChild(identity)
  {
  }

  predicate AnotherPid(items: seq<ProcessItem>, child: Identity) {
    exists i :: 0 <= i < |items| && items[i].pid != child.childPid
  }

  lemma ScanRaises(file: File, p: Proc, items: seq<ProcessItem>)
    requires p.parent.pc.Handshake? && AnotherPid(items, p.launch.identity)
    ensures ScanParent(file, p, items) == Outcome(file, p.(parent := p.parent.(pc := LaunchCaught)))
  {
    hide ExactChild;
  }

  lemma {:induction false} ScanAccepts(file: File, p: Proc, items: seq<ProcessItem>)
    requires p.parent.pc.Handshake? && !AnotherPid(items, p.launch.identity)
    ensures var child := TheChild(p.launch.identity);
            ScanParent(file, p, items)
            == Outcome(file, if child in items then p.(parent := p.parent.(pc := Record, handshake := Some(child))) else p)
    decreases |items|
  {
    hide ExactChild, TheChild;
    if items != [] {
      OnlyTheChildIsExact(items[0], p.launch.identity);
      assert items == [items[0]] + items[1..];
      ScanAccepts(file, p, items[1..]);
    }
  }

  /**
   * One scan: any process with another pid raises, and otherwise the process that agrees
   * with the child in everything ends the handshake; without it nothing happens.
   */
  lemma ScanExactly(file: File, p: Proc, items: seq<ProcessItem>, owner: nat)
    requires p.parent.pc.Handshake?
    ensures var o, child := Next(file, p, Scanned(items), owner), p.launch.identity;
            var exact := ProcessItem(child.childPid, child.parentPid, child.user, child.signature, child.signature,
                                     true, child.cwd);
            && o.file == file
            && if exists i :: 0 <= i < |items| && items[i].pid != child.childPid then
                 o.proc == p.(parent := p.parent.(pc := LaunchCaught))
               else if exact in items then o.proc == p.(parent := p.parent.(pc := Record, handshake := Some(exact)))
               else o.proc == p
  {
    hide Next, ScanParent;
    NextScan(file, p, items, owner);
    if AnotherPid(items, p.launch.identity) {
      ScanRaises(file, p, items);
    } else {
      ScanAccepts(file, p, items);
    }
  }

  /** The events of a handler from its start: the child is reaped if there is one, and the image is written. */
  function HandlerEvents(a: Parent, i: nat, ok: bool): seq<(nat, Event)> {
    [(i, Proceed)] + (if a.childPid && !a.childReaped then [(i, Reap(ok))] else [])
    + [(i, Proceed)] + [(i, Write(Returned))]
  }

  /** The cleanup of the handler failed. */
  predicate CleanupFails(p: Proc, ok: bool) {
    p.parent.cleanupFailed || (p.parent.childPid && !p.parent.childReaped && !(ok && !p.reaped))
  }

  /** What the handler's write leaves: the ledger in memory, in the terminal state and with the failure. */
  predicate HandlerImage(file: File, ledger: Ledger, state: State, stage: Stage, cleanupFailed: bool) {
    file == Holding(ledger.(state := state, failure := Some(Failure(stage, cleanupFailed)),
                            processStates := ledger.processStates + [state]), false)
  }

  predicate Started(a: Parent) {
    a.persistenceStarted || a.tokenPersisted || a.releaseStarted || a.childReleased
  }

  /** Between the handler's start and its write only its program point moves, and the cleanup is noted. */
  predicate ReadyToWrite(o: Outcome, file: File, a: Parent, pc: Pc, cleanupFailed: bool) {
    && o.file == file && o.proc.parent.pc == pc && o.proc.parent.ledger == a.ledger
    && o.proc.parent.cleanupFailed == cleanupFailed && Started(o.proc.parent) == Started(a)
  }

  function AfterReap(o: Outcome, a: Parent, ok: bool, owner: nat): Outcome {
    if a.childPid && !a.childReaped then Next(o.file, o.proc, Reap(ok), owner) else o
  }

  lemma LaunchHandlerReaps(file: File, p: Proc, ok: bool, owner: nat)
    requires p.parent.pc.LaunchCaught?
    ensures ReadyToWrite(AfterReap(Next(file, p, Proceed, owner), p.parent, ok, owner), file, p.parent, LaunchReaped,
                         CleanupFails(p, ok))
  {
    hide Next, ProceedParent, ReapParent;
    var o1 := Next(file, p, Proceed, owner);
    NextProceed(file, p, owner);
    HandlerStep(file, p, owner);
    if p.parent.childPid && !p.parent.childReaped {
      NextReap(o1.file, o1.proc, ok, owner);
      ReapsInHandler(o1.file, o1.proc, ok);
    }
  }

  lemma LaunchHandlerEnds(file: File, p: Proc, ok: bool, owner: nat)
    requires p.parent.pc.LaunchCaught?
    ensures var a, o2 := p.parent, AfterReap(Next(file, p, Proceed, owner), p.parent, ok, owner);
            var o3 := Next(o2.file, o2.proc, Proceed, owner);
            var o4 := Next(o3.file, o3.proc, Write(Returned), owner);
            && o4.proc.parent.pc == Exited(Raised)
            && HandlerImage(o4.file, a.ledger, if Started(a) then FailedAfterLaunch else PrelaunchFailed,
                            if Started(a) then PostLaunchHandshake else ChildStartHandshake, CleanupFails(p, ok))
  {
    hide Next, ProceedParent, WriteParent, HandlerImage, CleanupFails;
    LaunchHandlerReaps(file, p, ok, owner);
    var o2 := AfterReap(Next(file, p, Proceed, owner), p.parent, ok, owner);
    hide AfterReap;
    NextProceed(o2.file, o2.proc, owner);
    SetupSteps(o2.file, o2.proc, owner);
    var o3 := Next(o2.file, o2.proc, Proceed, owner);
    NextWrite(o3.file, o3.proc, Returned, owner);
    LaunchPersists(o3.file, o3.proc);
  }

  lemma ReapsInHandler(file: File, p: Proc, ok: bool)
    requires p.parent.pc.LaunchReap? || p.parent.pc.WaitReap?
    ensures var q := ReapParent(file, p, ok).proc.parent;
            && ReapParent(file, p, ok).file == file
            && q.pc == (if p.parent.pc.LaunchReap? then LaunchReaped else WaitReaped)
            && q.ledger == p.parent.ledger && q.cleanupFailed == (p.parent.cleanupFailed || !(ok && !p.reaped))
            && Started(q) == Started(p.parent)
  {
    hide StatusOf;
  }

  lemma LastWriteLeaves(file: File, p: Proc, state: State, failure: Failure)
    ensures var o := PersistLast(file, p, FailedWith(p.parent.ledger, state, failure), Returned);
            && o.proc.parent.pc == Exited(Raised)
            && HandlerImage(o.file, p.parent.ledger, state, failure.stage, failure.cleanupFailed)
  {
  }

  lemma LaunchPersists(file: File, p: Proc)
    requires p.parent.pc.LaunchPersist?
    ensures var a, o := p.parent, WriteParent(file, p, Returned);
            && o.proc.parent.pc == Exited(Raised)
            && HandlerImage(o.file, a.ledger, if Started(a) then FailedAfterLaunch else PrelaunchFailed,
                            if Started(a) then PostLaunchHandshake else ChildStartHandshake, a.cleanupFailed)
  {
    hide PersistLast, FailedWith, HandlerImage;
    LastWriteLeaves(file, p, HandlerState(p.parent), Failure(HandlerStage(p.parent), p.parent.cleanupFailed));
  }

  lemma WaitHandlerReaps(file: File, p: Proc, ok: bool, owner: nat)
    requires p.parent.pc.WaitCaught?
    ensures ReadyToWrite(AfterReap(Next(file, p, Proceed, owner), p.parent, ok, owner), file, p.parent, WaitReaped,
                         CleanupFails(p, ok))
  {
    hide Next, ProceedParent, ReapParent;
    var o1 := Next(file, p, Proceed, owner);
    NextProceed(file, p, owner);
    WaitHandlerStep(file, p, owner);
    if p.parent.childPid && !p.parent.childReaped {
      NextReap(o1.file, o1.proc, ok, owner);
      ReapsInHandler(o1.file, o1.proc, ok);
    }
  }

  lemma WaitHandlerEnds(file: File, p: Proc, ok: bool, owner: nat)
    requires p.parent.pc.WaitCaught?
    ensures var a, o2 := p.parent, AfterReap(Next(file, p, Proceed, owner), p.parent, ok, owner);
            var o3 := Next(o2.file, o2.proc, Proceed, owner);
            var o4 := Next(o3.file, o3.proc, Write(Returned), owner);
            && o4.proc.parent.pc == Exited(Raised)
            && HandlerImage(o4.file, a.ledger, FailedAfterLaunch, ChildWait, CleanupFails(p, ok))
  {
    hide Next, ProceedParent, WriteParent, HandlerImage, CleanupFails, Started;
    WaitHandlerReaps(file, p, ok, owner);
    var o2 := AfterReap(Next(file, p, Proceed, owner), p.parent, ok, owner);
    hide AfterReap;
    NextProceed(o2.file, o2.proc, owner);
    WaitHandlerStep(o2.file, o2.proc, owner);
    var o3 := Next(o2.file, o2.proc, Proceed, owner);
    NextWrite(o3.file, o3.proc, Returned, owner);
    WaitPersists(o3.file, o3.proc);
  }

  lemma WaitHandlerStep(file: File, p: Proc, owner: nat)
    ensures p.parent.pc.WaitCaught? ==>
              ProceedParent(file, p, owner)
              == Outcome(file, p.(parent := p.parent.(
                                    pc := if p.parent.childPid && !p.parent.childReaped then WaitReap else WaitReaped)))
    ensures p.parent.pc.WaitReaped? ==>
              ProceedParent(file, p, owner) == Outcome(file, p.(parent := p.parent.(pc := WaitPersist)))
  {
  }

  lemma WaitPersists(file: File, p: Proc)
    requires p.parent.pc.WaitPersist?
    ensures var a, o := p.parent, WriteParent(file, p, Returned);
            && o.proc.parent.pc == Exited(Raised)
            && HandlerImage(o.file, a.ledger, FailedAfterLaunch, ChildWait, a.cleanupFailed)
  {
    hide PersistLast, FailedWith, HandlerImage;
    LastWriteLeaves(file, p, FailedAfterLaunch, Failure(ChildWait, p.parent.cleanupFailed));
  }

  /** Over a run: the events of a handler, one after the other. */
  lemma HandlerRun(launches: seq<LaunchFacts>, schedule: seq<(nat, Event)>, i: nat, ok: bool)
    requires i < |launches|
    ensures var w := Run(launches, schedule);
            var p := w.procs[i];
            var o2 := AfterReap(Next(w.file, p, Proceed, i), p.parent, ok, i);
            var o3 := Next(o2.file, o2.proc, Proceed, i);
            var o4 := Next(o3.file, o3.proc, Write(Returned), i);
            var end := Run(launches, schedule + HandlerEvents(p.parent, i, ok));
            end.file == o4.file && end.procs[i] == o4.proc
  {
    hide Next, Run;
    var a := Run(launches, schedule).procs[i].parent;
    var s1 := schedule + [(i, Proceed)];
    RunSnoc(launches, schedule, i, Proceed);
    var s2 := if a.childPid && !a.childReaped then s1 + [(i, Reap(ok))] else s1;
    RunSnoc(launches, s1, i, Reap(ok));
    var s3 := s2 + [(i, Proceed)];
    RunSnoc(launches, s2, i, Proceed);
    RunSnoc(launches, s3, i, Write(Returned));
    assert schedule + HandlerEvents(a, i, ok) == s3 + [(i, Write(Returned))];
  }

  /** Before the ledger file is created an exception or an interrupt only leaves the function: nothing is recorded. */
  lemma EarlyFailureLeaves(launches: seq<LaunchFacts>, schedule: seq<(nat, Event)>, i: nat, cause: Event)
    requires i < |launches| && Early(Run(launches, schedule).procs[i].parent.pc) && (cause == Fail || cause == Interrupt)
    ensures var w := Run(launches, schedule + [(i, cause)]);
            && w.file == Run(launches, schedule).file && w.procs[i].parent.pc == Exited(Raised)
            && !w.procs[i].parent.created && !Forked(w.procs[i])
  {
    hide Next, Run;
    var w := Run(launches, schedule);
    RunKeeps(launches, schedule);
    RunSnoc(launches, schedule, i, cause);
    NextFail(w.file, w.procs[i], i);
    EarlyRaises(w.file, w.procs[i]);
    hide Inv;
    CreatorIsPast(w, i);
  }

  lemma CreatorIsPast(w: World, i: nat)
    requires WorldInv(w) && i < |w.procs|
    ensures w.creator == Some(i) ==> !Early(w.procs[i].parent.pc)
  {
    hide Inv;
    if w.creator == Some(i) {
      NotEarly(w.file, w.procs[i], i);
    }
  }

  lemma EarlyRaises(file: File, p: Proc)
    requires Early(p.parent.pc)
    ensures FailParent(file, p) == Leave(file, p, Raised) && InterruptParent(file, p) == Leave(file, p, Raised)
  {
    hide Leave;
  }

  /** What raises in the first `try`: a statement that can, an interrupt, or the token write. */
  predicate RaisesInLaunch(cause: Event, pc: Pc) {
    || (cause.Fail? && InLaunchTry(pc) && !pc.Mark? && !pc.MarkRelease?)
    || (cause.Interrupt? && InLaunchTry(pc))
    || ((cause == Write(RaisedBefore) || cause == Write(RaisedAfter)) && pc.PersistToken?)
  }

  /** The statements of the first `try` from the token write on. */
  predicate FromTokenWrite(pc: Pc) {
    pc.PersistToken? || pc.MarkRelease? || pc.WriteRelease? || pc.CloseRelease?
  }

  /**
   * Whatever raises in the first `try`, if the handler's write returns then the durable
   * state says where: from the token write on it is `failed_after_launch` at the
   * post-launch handshake, and before it `prelaunch_failed` at the child start.  The token
   * is shown as consumed from the statement after its in-memory update on, and the failure
   * says whether a forked child could not be reaped.
   */
  lemma LaunchFailureIsRecorded(
    launches: seq<LaunchFacts>, schedule: seq<(nat, Event)>, i: nat, cause: Event, ok: bool)
    requires i < |launches| && RaisesInLaunch(cause, Run(launches, schedule).procs[i].parent.pc)
    ensures var p := Run(launches, schedule).procs[i];
            var pc := p.parent.pc;
            var w := Run(launches, schedule + [(i, cause)] + HandlerEvents(p.parent, i, ok));
            && w.procs[i].parent.pc == Exited(Raised) && ParentImage(w.file)
            && w.file.image.state == (if FromTokenWrite(pc) then FailedAfterLaunch else PrelaunchFailed)
            && w.file.image.failure == Some(Failure(
                 if FromTokenWrite(pc) then PostLaunchHandshake else ChildStartHandshake,
                 p.parent.childPid && (p.reaped || !ok)))
            && (w.file.image.tokenConsumed <==> FromTokenWrite(pc) || pc.Mark?)
  {
    hide Next, Inv, Run;
    var w := Run(launches, schedule);
    RunKeeps(launches, schedule);
    RunSnoc(launches, schedule, i, cause);
    var p, o := w.procs[i], Next(w.file, w.procs[i], cause, i);
    LaunchCauses(w.file, p, cause, i);
    CreatorTries(w, i);
    HandlerRun(launches, schedule + [(i, cause)], i, ok);
    LaunchHandlerEnds(o.file, o.proc, ok, i);
    hide HandlerEvents, WorldInv;
  }

  lemma LaunchCauses(file: File, p: Proc, cause: Event, owner: nat)
    requires RaisesInLaunch(cause, p.parent.pc)
    ensures var q := Next(file, p, cause, owner).proc;
            q.parent == p.parent.(pc := LaunchCaught) && q.reaped == p.reaped
  {
    hide Next, FailParent, InterruptParent, WriteParent;
    if cause.Write? {
      NextWrite(file, p, cause.outcome, owner);
      TokenWriteRaises(file, p, cause.outcome);
    } else {
      NextFail(file, p, owner);
      LaunchTryRaises(file, p);
    }
  }

  lemma TokenWriteRaises(file: File, p: Proc, outcome: WriteOutcome)
    requires p.parent.pc.PersistToken? && !outcome.Returned?
    ensures WriteParent(file, p, outcome).proc == p.(parent := p.parent.(pc := LaunchCaught))
  {
    hide Put;
  }

  lemma LaunchTryRaises(file: File, p: Proc)
    requires InLaunchTry(p.parent.pc)
    ensures !p.parent.pc.Mark? && !p.parent.pc.MarkRelease? ==> FailParent(file, p) == At(file, p, LaunchCaught)
    ensures var recorded := p.(marks := p.marks.(midRecord := p.marks.midRecord || p.parent.pc.Mark?));
            InterruptParent(file, p) == At(file, recorded, LaunchCaught)
  {
    hide At;
  }

  /** A launcher in its first `try` is the creator, and its flags are those of its statement. */
  lemma CreatorTries(w: World, i: nat)
    requires WorldInv(w) && i < |w.procs| && InLaunchTry(w.procs[i].parent.pc)
    ensures var a := w.procs[i].parent;
            && (Started(a) <==> FromTokenWrite(a.pc)) && !a.childReaped && !a.cleanupFailed
            && (a.ledger.tokenConsumed <==> FromTokenWrite(a.pc) || a.pc.Mark?)
  {
    hide Inv;
    assert w.creator == Some(i);
    TryFlags(w.file, w.procs[i], i);
  }

  lemma TryFlags(file: File, p: Proc, owner: nat)
    requires Inv(file, p, owner) && InLaunchTry(p.parent.pc)
    ensures var a := p.parent;
            && (Started(a) <==> FromTokenWrite(a.pc)) && !a.childReaped && !a.cleanupFailed
            && (a.ledger.tokenConsumed <==> FromTokenWrite(a.pc) || a.pc.Mark?)
  {
    hide ChildInv, ImageInv, Receipt.Accepted, Initial, Launched, Base;
    ImageFacts(owner);
  }

  /** Whatever raises in the wait is recorded as `failed_after_launch` at the wait, with the token consumed. */
  lemma WaitFailureIsRecorded(
    launches: seq<LaunchFacts>, schedule: seq<(nat, Event)>, i: nat, cause: Event, ok: bool)
    requires i < |launches| && Run(launches, schedule).procs[i].parent.pc.Waiting?
    requires cause == Fail || cause == Interrupt
    ensures var p := Run(launches, schedule).procs[i];
            var w := Run(launches, schedule + [(i, cause)] + HandlerEvents(p.parent, i, ok));
            && w.procs[i].parent.pc == Exited(Raised) && ParentImage(w.file)
            && w.file.image.state == FailedAfterLaunch && w.file.image.tokenConsumed
            && w.file.image.failure == Some(Failure(ChildWait, CleanupFails(p, ok)))
  {
    hide Next, Inv, Run;
    var w := Run(launches, schedule);
    RunKeeps(launches, schedule);
    RunSnoc(launches, schedule, i, cause);
    var p, o := w.procs[i], Next(w.file, w.procs[i], cause, i);
    NextFail(w.file, p, i);
    WaitRaises(w.file, p);
    assert w.creator == Some(i);
    WaitIsConsumed(w.file, p, i);
    HandlerRun(launches, schedule + [(i, cause)], i, ok);
    WaitHandlerEnds(o.file, o.proc, ok, i);
    hide HandlerEvents, WorldInv;
  }

  lemma WaitRaises(file: File, p: Proc)
    requires p.parent.pc.Waiting?
    ensures FailParent(file, p) == At(file, p, WaitCaught) && InterruptParent(file, p) == At(file, p, WaitCaught)
  {
    hide At;
  }

  lemma WaitIsConsumed(file: File, p: Proc, owner: nat)
    requires Inv(file, p, owner) && p.parent.pc.Waiting?
    ensures p.parent.ledger.tokenConsumed
  {
    hide ChildInv, ImageInv, Receipt.Accepted;
  }

  // ---- The child's own ends ---------------------------------------------

  /**
   * Every way in which a child comes to return, to escape into the handler it inherited,
   * and to die: it returns its own code, or 70 when interrupted at work; it escapes when
   * interrupted anywhere else but at the pipe; and it dies of SIGKILL, of a pipe that was
   * closed without its byte, by exiting, or out of the inherited handler.
   */
  lemma ChildEndsExactly(child: Child, e: Event, pipeByte: bool, writeEnd: bool, code: int)
    requires IsChildEvent(e)
    ensures var next := ChildMove(child, e, pipeByte, writeEnd);
            && (next == Returning(code) && !child.Returning? <==>
                child.Working? && (e == ChildReturns(code) || (e.ChildInterrupted? && code == 70)))
            && (next.Escaped? && !child.Escaped? <==>
                e.ChildInterrupted? && (child.Starting? || child.Admitted? || child.Returning?))
            && (next == Dead(code) && !child.Dead? <==>
                || (e.ChildKilled? && !child.NotForked? && !child.Dead? && code == -9)
                || (e.ChildReads? && child.Blocked? && !pipeByte && !writeEnd && code == 71)
                || (e.ChildExits? && child == Returning(code))
                || (child.Escaped? && (e.ChildInterrupted? || e.ChildOverwrites?) && code == 1))
  {
  }

  // ---- A broken creation ------------------------------------------------

  lemma {:induction false} GoneLasts(w: World, schedule: seq<(nat, Event)>, i: nat)
    requires i < |w.procs| && !ParentAlive(w.procs[i])
    ensures Forked(Exec(w, schedule).procs[i]) == Forked(w.procs[i])
    decreases |schedule|
  {
    hide Next, Forked;
    if schedule != [] {
      var j, e := schedule[0].0, schedule[0].1;
      if j == i {
        GoneStays(w.file, w.procs[i], e, i);
      }
      GoneLasts(Step(w, j, e), schedule[1..], i);
    }
  }

  /**
   * A creation that stops after its open leaves a torn file or the initial image, and in
   * no continuation does any launcher ever fork: the run token is spent without a launch.
   */
  lemma BrokenCreationBlocks(
    launches: seq<LaunchFacts>, before: seq<(nat, Event)>, i: nat, torn: bool, crash: bool,
    after: seq<(nat, Event)>, j: nat)
    requires i < |launches| && j < |launches|
    requires var w := Run(launches, before); w.file.Absent? && w.procs[i].parent.pc.Create?
    ensures var w := Run(launches, before + [(i, CreateBroken(torn, crash))]);
            && w.file == (if torn then Torn else Holding(Ledger(
                            i, PrelaunchVerified, false, [PrelaunchVerified], None, None, None, None), false))
            && w.procs[i].parent.pc == (if crash then Crashed else Exited(Raised))
    ensures !Forked(Run(launches, before + [(i, CreateBroken(torn, crash))] + after).procs[j])
  {
    hide Next, Run;
    var schedule := before + [(i, CreateBroken(torn, crash))];
    var w0, w := Run(launches, before), Run(launches, schedule);
    RunKeeps(launches, before);
    RunSnoc(launches, before, i, CreateBroken(torn, crash));
    PassiveCreates(w0, i);
    NextBroken(w0.file, w0.procs[i], torn, crash, i);
    BrokenCreation(w0.file, w0.procs[i], torn, crash);
    if j != i {
      GateStaysClosed(launches, schedule, after, j);
    } else {
      ExecAppend(Start(launches), schedule, after);
      RunIsExec(launches, schedule + after);
      RunIsExec(launches, schedule);
      GoneLasts(w, after, i);
    }
  }

  lemma RunIsExec(launches: seq<LaunchFacts>, schedule: seq<(nat, Event)>)
    ensures Run(launches, schedule) == Exec(Start(launches), schedule)
  {
  }

  /** Over an absent file nobody has created anything. */
  lemma PassiveCreates(w: World, i: nat)
    requires WorldInv(w) && w.file.Absent? && i < |w.procs|
    ensures w.procs[i].parent.ledger == Initial(i) && !Forked(w.procs[i])
  {
    hide Inv;
  }

  lemma BrokenCreation(file: File, p: Proc, torn: bool, crash: bool)
    requires file.Absent? && p.parent.pc.Create?
    ensures CreateBrokenParent(file, p, torn, crash)
            == Outcome(if torn then Torn else Holding(p.parent.ledger, false),
                       p.(parent := p.parent.(pc := if crash then Crashed else Exited(Raised))))
  {
  }
}
