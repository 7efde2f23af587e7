/**
 * What every run of the launch protocol keeps, for any number of launchers and
 * any interleaving of their steps, their children, failures, interrupts and crashes.
 */
module LaunchTheorems {
  import opened Wrappers
  import opened RunLedger
  import opened Launch
  import opened LaunchInvariant
  import opened LaunchSteps
  import Receipt

  // ---- The world invariant ----------------------------------------------

  /** A launcher that created nothing: only its program point ever moved. */
  predicate Passive(p: Proc, owner: nat) {
    && (Early(p.parent.pc) || p.parent.pc == Exited(Raised) || p.parent.pc.Crashed?)
    && p == StartProc(owner, p.launch).(parent := StartParent(owner).(pc := p.parent.pc))
  }

  predicate WorldInv(w: World) {
    && (w.creator.None? <==> w.file.Absent?)
    && (w.creator.Some? ==> w.creator.value < |w.procs| && Inv(w.file, w.procs[w.creator.value], w.creator.value))
    && (forall i :: 0 <= i < |w.procs| && w.creator != Some(i) ==> Passive(w.procs[i], i))
  }

  /** A passive launcher stays passive, except that it may create the absent file. */
  lemma PassiveStep(file: File, p: Proc, e: Event, owner: nat)
    requires Passive(p, owner)
    ensures var o := Next(file, p, e, owner);
            if file.Absent? && !o.file.Absent? then Inv(o.file, o.proc, owner)
            else o.file == file && Passive(o.proc, owner)
  {
    hide Next;
    if IsChildEvent(e) {
      NextChild(file, p, e, owner);
      PassiveChildStep(file, p, e, owner);
    } else if !ParentAlive(p) {
      NextGone(file, p, e, owner);
    } else {
      EarlyStep(file, p, e, owner);
    }
  }

  lemma EarlyStep(file: File, p: Proc, e: Event, owner: nat)
    requires Passive(p, owner) && Early(p.parent.pc) && !IsChildEvent(e)
    ensures var o := Next(file, p, e, owner);
            if file.Absent? && !o.file.Absent? then Inv(o.file, o.proc, owner)
            else o.file == file && Passive(o.proc, owner)
  {
    hide Next, Inv;
    if e.Proceed? {
      NextProceed(file, p, owner);
      EarlyProceeds(file, p, owner);
    } else if e.CreateBroken? {
      NextBroken(file, p, e.torn, e.crash, owner);
      EarlyBreaks(file, p, e.torn, e.crash, owner);
    } else if e.Crash? {
      NextBroken(file, p, false, false, owner);
    } else if e.Fail? || e.Interrupt? {
      NextFail(file, p, owner);
    } else {
      EarlyIgnores(file, p, e, owner);
    }
  }

  lemma EarlyProceeds(file: File, p: Proc, owner: nat)
    requires Passive(p, owner) && Early(p.parent.pc)
    ensures var o := ProceedParent(file, p, owner);
            if file.Absent? && !o.file.Absent? then Inv(o.file, o.proc, owner)
            else o.file == file && Passive(o.proc, owner)
  {
    hide Receipt.Accepted;
  }

  lemma EarlyBreaks(file: File, p: Proc, torn: bool, crash: bool, owner: nat)
    requires Passive(p, owner)
    ensures var o := CreateBrokenParent(file, p, torn, crash);
            if file.Absent? && !o.file.Absent? then Inv(o.file, o.proc, owner)
            else o.file == file && Passive(o.proc, owner)
  {
    hide Receipt.Accepted;
  }

  /** Any other event does not fit the statements before the first `try`. */
  lemma EarlyIgnores(file: File, p: Proc, e: Event, owner: nat)
    requires Early(p.parent.pc) && !IsChildEvent(e)
    requires !e.Proceed? && !e.CreateBroken? && !e.Crash? && !e.Fail? && !e.Interrupt?
    ensures Next(file, p, e, owner) == Outcome(file, p)
  {
    hide Receipt.Accepted, Receipt.ValidEvidence, ProceedParent, FailParent, InterruptParent, ChildStep;
    hide CrashParent, CreateBrokenParent;
  }

  lemma PassiveChildStep(file: File, p: Proc, e: Event, owner: nat)
    requires p.child.NotForked?
    ensures ChildStep(file, p, e, owner) == Outcome(file, p)
  {
  }

  lemma StepKeeps(w: World, i: nat, e: Event)
    requires WorldInv(w)
    ensures WorldInv(Step(w, i, e))
  {
    hide Inv, Passive, Next;
    if i < |w.procs| {
      if w.creator == Some(i) {
        NextKeeps(w.file, w.procs[i], e, i);
        PresentStays(w.file, w.procs[i], e, i);
      } else {
        PassiveStep(w.file, w.procs[i], e, i);
      }
    }
  }

  /** A present ledger file is never removed. */
  lemma PresentStays(file: File, p: Proc, e: Event, owner: nat)
    requires Inv(file, p, owner)
    ensures !file.Absent? && !Next(file, p, e, owner).file.Absent?
  {
    hide Receipt.Accepted;
    NextKeeps(file, p, e, owner);
  }

  lemma {:induction false} ExecKeeps(w: World, schedule: seq<(nat, Event)>)
    requires WorldInv(w)
    ensures WorldInv(Exec(w, schedule))
    decreases |schedule|
  {
    hide WorldInv, Step;
    if schedule != [] {
      StepKeeps(w, schedule[0].0, schedule[0].1);
      ExecKeeps(Step(w, schedule[0].0, schedule[0].1), schedule[1..]);
    }
  }

  lemma StartKeeps(launches: seq<LaunchFacts>)
    ensures WorldInv(Start(launches))
  {
  }

  /** Every run keeps the invariant. */
  lemma RunKeeps(launches: seq<LaunchFacts>, schedule: seq<(nat, Event)>)
    ensures WorldInv(Run(launches, schedule))
  {
    StartKeeps(launches);
    ExecKeeps(Start(launches), schedule);
  }

  lemma {:induction false} ExecAppend(w: World, left: seq<(nat, Event)>, right: seq<(nat, Event)>)
    ensures Exec(w, left + right) == Exec(Exec(w, left), right)
    decreases |left|
  {
    hide Step;
    if left == [] {
      assert left + right == right;
    } else {
      assert (left + right)[1..] == left[1..] + right;
      ExecAppend(Step(w, left[0].0, left[0].1), left[1..], right);
    }
  }

  /** One more event of a run. */
  lemma RunSnoc(launches: seq<LaunchFacts>, schedule: seq<(nat, Event)>, i: nat, e: Event)
    ensures Run(launches, schedule + [(i, e)]) == Step(Run(launches, schedule), i, e)
  {
    ExecAppend(Start(launches), schedule, [(i, e)]);
    var w := Run(launches, schedule);
    assert Exec(w, [(i, e)]) == Exec(Step(w, i, e), []);
  }

  /** The last event of a schedule, and the launcher it met. */
  lemma LastEvent(launches: seq<LaunchFacts>, schedule: seq<(nat, Event)>, i: nat)
    requires i < |launches| && schedule != []
    ensures var init, last := schedule[..|schedule| - 1], schedule[|schedule| - 1];
            var w, after := Run(launches, init), Run(launches, schedule);
            && after == Step(w, last.0, last.1)
            && after.procs[i] == (if last.0 == i then Next(w.file, w.procs[i], last.1, i).proc else w.procs[i])
  {
    hide Next, Run;
    var init, last := schedule[..|schedule| - 1], schedule[|schedule| - 1];
    assert schedule == init + [last];
    RunSnoc(launches, init, last.0, last.1);
  }

  // ---- At most one launch -----------------------------------------------

  predicate Forked(p: Proc) {
    !p.child.NotForked?
  }

  lemma {:induction false} CreatorStays(w: World, schedule: seq<(nat, Event)>)
    requires WorldInv(w) && w.creator.Some?
    ensures Exec(w, schedule).creator == w.creator
    decreases |schedule|
  {
    if schedule != [] {
      StepKeeps(w, schedule[0].0, schedule[0].1);
      CreatorStays(Step(w, schedule[0].0, schedule[0].1), schedule[1..]);
    }
  }

  /** However the launchers interleave, at most one of them ever forks, and so at most one child is ever released. */
  lemma AtMostOneForks(launches: seq<LaunchFacts>, schedule: seq<(nat, Event)>, i: nat, j: nat)
    requires i < |launches| && j < |launches|
    ensures var w := Run(launches, schedule);
            (Forked(w.procs[i]) || w.procs[i].marks.released) && (Forked(w.procs[j]) || w.procs[j].marks.released)
            ==> i == j && w.creator == Some(i)
  {
    RunKeeps(launches, schedule);
  }

  /**
   * Once the ledger file exists, no other launcher ever forks, and each of its
   * remaining prelaunch checks raises.
   */
  lemma GateStaysClosed(
    launches: seq<LaunchFacts>, before: seq<(nat, Event)>, after: seq<(nat, Event)>, i: nat)
    requires i < |launches|
    requires var w := Run(launches, before); !w.file.Absent? && w.creator != Some(i)
    ensures var w := Run(launches, before + after);
            && !Forked(w.procs[i]) && !w.procs[i].parent.created
            && (Early(w.procs[i].parent.pc) ==>
                  Step(w, i, Proceed).procs[i].parent.pc == Exited(Raised) && Step(w, i, Proceed).file == w.file)
  {
    hide Next, Inv;
    var w := Run(launches, before);
    RunKeeps(launches, before);
    RunKeeps(launches, before + after);
    ExecAppend(Start(launches), before, after);
    CreatorStays(w, after);
    var end := Run(launches, before + after);
    if Early(end.procs[i].parent.pc) {
      ClosedGateRaises(end.file, end.procs[i], i);
    }
  }

  /** Over an existing ledger file each of the first three statements raises. */
  lemma ClosedGateRaises(file: File, p: Proc, owner: nat)
    requires !file.Absent? && Early(p.parent.pc)
    ensures Next(file, p, Proceed, owner) == Leave(file, p, Raised)
  {
    hide ChildStep;
  }

  // ---- Release only after durable consumption ---------------------------

  /**
   * A child about to enter its workload finds the consumption already durable, in an image
   * its own launcher wrote after it observed this very child: its pid, its parent, its user,
   * the signature as process and as command, the arguments and the directory.
   */
  lemma ReleaseFollowsConsumption(launches: seq<LaunchFacts>, schedule: seq<(nat, Event)>, i: nat)
    requires i < |launches|
    requires Run(launches, schedule).procs[i].child.Admitted?
    ensures var w := Run(launches, schedule);
            && Consumed(w.file) && !w.file.byChild && w.file.image.owner == i
            && w.procs[i].parent.handshake.Some?
            && var item, identity := w.procs[i].parent.handshake.value, launches[i].identity;
               item == ProcessItem(identity.childPid, identity.parentPid, identity.user, identity.signature,
                                   identity.signature, true, identity.cwd)
  {
    RunKeeps(launches, schedule);
    LaunchIsFixed(Start(launches), schedule, i);
  }

  /**
   * A released child's token is recorded as consumed, except in the one image that
   * the child itself can put over it after an interrupt carried it into the handler
   * it inherited.
   */
  lemma ReleasedIsConsumed(launches: seq<LaunchFacts>, schedule: seq<(nat, Event)>, i: nat)
    requires i < |launches|
    requires Run(launches, schedule).procs[i].marks.released
    ensures var w := Run(launches, schedule);
            && w.file.Holding?
            && (Consumed(w.file) <==> !w.file.byChild)
            && (w.file.byChild ==> w.file.image == ChildImage(i) && w.procs[i].child.Dead?)
  {
    RunKeeps(launches, schedule);
  }

  predicate NoOverwrite(schedule: seq<(nat, Event)>) {
    forall k :: 0 <= k < |schedule| ==> !schedule[k].1.ChildOverwrites?
  }

  lemma WriteKeepsConsumption(file: File, p: Proc, outcome: WriteOutcome, owner: nat)
    requires Inv(file, p, owner) && Consumed(file) && !file.byChild
    ensures var o := WriteParent(file, p, outcome); Consumed(o.file) && !o.file.byChild
  {
    hide Receipt.Accepted, Receipt.SummaryOf, Initial, Launched, Base;
    hide FailedWith, FailedResult, CompletedResult, ChildImage, MarksMatch, ExitInv, ChildInv;
    var a := p.parent;
    ImageFacts(owner);
    FailedResultFacts(owner, a);
    FailedWithFacts(a.ledger, HandlerState(a), Failure(HandlerStage(a), a.cleanupFailed));
    FailedWithFacts(a.ledger, FailedAfterLaunch, Failure(ChildWait, a.cleanupFailed));
    FailedWithFacts(a.ledger, FailedAfterLaunch, Failure(a.stage, false));
    if a.pc.PersistCompleted? {
      CompletedResultFacts(owner, a, Receipt.SummaryOf(a.payload.value, a.evidence.value));
    }
  }

  lemma ConsumptionStep(w: World, i: nat, e: Event)
    requires WorldInv(w) && Consumed(w.file) && !w.file.byChild && !e.ChildOverwrites?
    ensures var after := Step(w, i, e); Consumed(after.file) && !after.file.byChild
  {
    hide Inv, WriteParent;
    if i < |w.procs| {
      if w.creator != Some(i) {
        PassiveStep(w.file, w.procs[i], e, i);
      } else if e.Write? {
        WriteKeepsConsumption(w.file, w.procs[i], e.outcome, i);
      } else {
        OnlyWritesChangeTheFile(w.file, w.procs[i], e, i);
      }
    }
  }

  lemma OnlyWritesChangeTheFile(file: File, p: Proc, e: Event, owner: nat)
    requires !file.Absent? && !e.Write? && !e.ChildOverwrites?
    ensures Next(file, p, e, owner).file == file
  {
    hide Next;
    if IsChildEvent(e) {
      NextChild(file, p, e, owner);
    } else if !ParentAlive(p) {
      NextGone(file, p, e, owner);
    } else if e.Proceed? {
      NextProceed(file, p, owner);
      ProceedLeavesTheFile(file, p, owner);
    } else if e.CreateBroken? {
      NextBroken(file, p, e.torn, e.crash, owner);
    } else {
      OnlyWritesChangeAnyFile(file, p, e, owner);
    }
  }

  lemma ProceedLeavesTheFile(file: File, p: Proc, owner: nat)
    requires !file.Absent?
    ensures ProceedParent(file, p, owner).file == file
  {
  }

  lemma OnlyWritesChangeAnyFile(file: File, p: Proc, e: Event, owner: nat)
    requires !e.Write? && !IsChildEvent(e) && !e.Proceed? && !e.CreateBroken?
    ensures Next(file, p, e, owner).file == file
  {
    hide Receipt.Accepted, Receipt.ValidEvidence, ProceedParent, WriteParent, CreateBrokenParent, ChildStep, FailedResult;
    if e.Scanned? {
      ScanLeavesTheFile(file, p, e.items);
    }
  }

  lemma {:induction false} ScanLeavesTheFile(file: File, p: Proc, items: seq<ProcessItem>)
    ensures ScanParent(file, p, items).file == file
  {
    if items != [] {
      ScanLeavesTheFile(file, p, items[1..]);
    }
  }

  lemma {:induction false} ConsumptionLasts(w: World, schedule: seq<(nat, Event)>)
    requires WorldInv(w) && Consumed(w.file) && !w.file.byChild && NoOverwrite(schedule)
    ensures Consumed(Exec(w, schedule).file)
    decreases |schedule|
  {
    hide WorldInv, Step;
    if schedule != [] {
      ConsumptionStep(w, schedule[0].0, schedule[0].1);
      StepKeeps(w, schedule[0].0, schedule[0].1);
      ConsumptionLasts(Step(w, schedule[0].0, schedule[0].1), schedule[1..]);
    }
  }

  /** No later write of any parent undoes a durable consumption. */
  lemma ConsumptionIsPermanent(
    launches: seq<LaunchFacts>, before: seq<(nat, Event)>, after: seq<(nat, Event)>)
    requires Consumed(Run(launches, before).file) && NoOverwrite(after)
    ensures Consumed(Run(launches, before + after).file)
  {
    RunKeeps(launches, before);
    ExecAppend(Start(launches), before, after);
    ConsumptionLasts(Run(launches, before), after);
  }

  // ---- A prelaunch failure never releases -------------------------------

  /** The creator has left and never wrote the release byte. */
  predicate Silent(w: World) {
    && WorldInv(w) && w.creator.Some?
    && !ParentAlive(w.procs[w.creator.value]) && !w.procs[w.creator.value].marks.released
  }

  lemma SilentStep(w: World, i: nat, e: Event)
    requires Silent(w)
    ensures Silent(Step(w, i, e))
  {
    hide WorldInv, Inv, Passive;
    StepKeeps(w, i, e);
    CreatorStepStays(w, i, e);
    if w.creator == Some(i) {
      GoneStaysSilent(w.file, w.procs[i], e, i);
    }
  }

  lemma CreatorStepStays(w: World, i: nat, e: Event)
    requires WorldInv(w) && w.creator.Some?
    ensures w.creator.value < |w.procs| && Step(w, i, e).creator == w.creator
  {
    hide Next, Inv, Passive;
  }

  lemma GoneStaysSilent(file: File, p: Proc, e: Event, owner: nat)
    requires !ParentAlive(p)
    ensures var q := Next(file, p, e, owner).proc; !ParentAlive(q) && q.marks.released == p.marks.released
  {
    hide Receipt.Accepted;
  }

  lemma {:induction false} SilentLasts(w: World, schedule: seq<(nat, Event)>)
    requires Silent(w)
    ensures Silent(Exec(w, schedule))
    decreases |schedule|
  {
    hide Step, Silent;
    if schedule != [] {
      SilentStep(w, schedule[0].0, schedule[0].1);
      SilentLasts(Step(w, schedule[0].0, schedule[0].1), schedule[1..]);
    }
  }

  /**
   * A parent's `prelaunch_failed` image means that no child was or ever will be
   * released.  It shows a consumed token exactly when an interrupt fell between the
   * in-memory consumption and its flag.
   */
  lemma PrelaunchFailedNeverReleases(
    launches: seq<LaunchFacts>, before: seq<(nat, Event)>, after: seq<(nat, Event)>, i: nat)
    requires i < |launches|
    requires var file := Run(launches, before).file;
             file.Holding? && file.image.state.PrelaunchFailed? && !file.byChild
    ensures !Run(launches, before + after).procs[i].marks.released
    ensures var w := Run(launches, before);
            && w.creator.Some? && w.creator.value < |launches|
            && (Consumed(w.file) <==> w.procs[w.creator.value].marks.midRecord)
  {
    var w := Run(launches, before);
    RunKeeps(launches, before);
    ExecAppend(Start(launches), before, after);
    SilentLasts(w, after);
  }

  // ---- Completion -------------------------------------------------------

  /**
   * A completed image has exit code 0, no timeout, a consumed token, and the
   * receipt of a payload the validator accepted with the stored evidence.
   */
  lemma CompletedIsSound(launches: seq<LaunchFacts>, schedule: seq<(nat, Event)>)
    returns (owner: nat, payload: Receipt.Payload, evidence: Receipt.Evidence)
    requires var file := Run(launches, schedule).file; file.Holding? && file.image.state.Completed?
    ensures owner < |launches| && Receipt.Accepted(payload, launches[owner].binding, evidence)
    ensures var image := Run(launches, schedule).file.image;
            && image.owner == owner && image.tokenConsumed
            && image.exitCode == Some(0) && image.timedOut == Some(false)
            && image.receipt == Some(Receipt.Summary(
                                       payload.schema, payload.workloadDigest, payload.publicationDigest, evidence))
  {
    var w := Run(launches, schedule);
    RunKeeps(launches, schedule);
    owner := w.creator.value;
    LaunchIsFixed(Start(launches), schedule, owner);
    payload, evidence := w.procs[owner].parent.payload.value, w.procs[owner].parent.evidence.value;
  }

  lemma {:induction false} LaunchIsFixed(w: World, schedule: seq<(nat, Event)>, i: nat)
    requires i < |w.procs|
    ensures Exec(w, schedule).procs[i].launch == w.procs[i].launch
    decreases |schedule|
  {
    hide Next;
    if schedule != [] {
      LaunchIsFixed(Step(w, schedule[0].0, schedule[0].1), schedule[1..], i);
    }
  }
}
