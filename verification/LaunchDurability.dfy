/**
 * Power cuts during the launch protocol: which ledger files one can leave at each moment
 * of a run, by what `AtomicUpdate` proves of a write with each outcome.  The exclusive
 * creation flushes the file but not its directory.
 */
module LaunchDurability {
  import opened Wrappers
  import opened RunLedger
  import opened Launch
  import opened LaunchInvariant
  import opened LaunchSteps
  import opened LaunchFrames
  import opened LaunchTheorems
  import Receipt

  /** The parent is at a ledger write. */
  predicate Writes(p: Proc) {
    var pc := p.parent.pc;
    pc.PersistToken? || pc.LaunchPersist? || pc.WaitPersist? || pc.PersistResult? || pc.FinalPersist?
    || (pc.PersistCompleted? && p.parent.payload.Some? && p.parent.evidence.Some?)
  }

  /** What a power cut can leave after an event, given what it could leave before. */
  ghost function LeftNext(left: set<File>, file: File, p: Proc, e: Event, owner: nat): set<File> {
    var after := Next(file, p, e, owner).file;
    if (e.Write? && Writes(p)) || (e.ChildOverwrites? && p.child.Escaped?) then LeftByWrite(left, after, e.outcome)
    else if after != file then left + {after, Torn}
    else left
  }

  /** What a power cut at the end of a schedule can leave. */
  ghost function LeftAt(launches: seq<LaunchFacts>, schedule: seq<(nat, Event)>): set<File>
    decreases |schedule|
  {
    if schedule == [] then {Absent}
    else
      var init, last := schedule[..|schedule| - 1], schedule[|schedule| - 1];
      var w := Run(launches, init);
      if last.0 < |launches| then LeftNext(LeftAt(launches, init), w.file, w.procs[last.0], last.1, last.0)
      else LeftAt(launches, init)
  }

  /** The file records the consumption, or is the one that an escaped child put over it. */
  predicate Records(file: File) {
    file.Holding? && (file.byChild || file.image.tokenConsumed)
  }

  predicate Safe(left: set<File>, p: Proc) {
    PastConsumption(p.parent) ==> forall f <- left :: Records(f)
  }

  lemma PastConsumptionRecords(file: File, p: Proc, owner: nat)
    requires Inv(file, p, owner) && PastConsumption(p.parent)
    ensures Records(file)
  {
    hide Receipt.Accepted, ChildInv, ImageInv, Initial;
  }

  /** Over an existing file an event changes it only by one of the two kinds of write. */
  lemma ChangedByWrites(file: File, p: Proc, e: Event, owner: nat)
    requires !file.Absent? && !(e.Write? && Writes(p)) && !(e.ChildOverwrites? && p.child.Escaped?)
    ensures Next(file, p, e, owner).file == file
  {
    if e.Write? {
      hide Next, FailedWith, CompletedResult, Receipt.SummaryOf;
      if ParentAlive(p) {
        NextWrite(file, p, e.outcome, owner);
      } else {
        NextGone(file, p, e, owner);
      }
    } else if e.ChildOverwrites? {
      hide Next;
      NextChild(file, p, e, owner);
    } else {
      hide Next;
      OnlyWritesChangeTheFile(file, p, e, owner);
    }
  }

  /** A step of the creator keeps what is past its consumption safe. */
  lemma CreatorStaysSafe(left: set<File>, file: File, p: Proc, e: Event, owner: nat)
    requires Inv(file, p, owner) && Safe(left, p)
    ensures Safe(LeftNext(left, file, p, e, owner), Next(file, p, e, owner).proc)
  {
    var o := Next(file, p, e, owner);
    NextKeeps(file, p, e, owner);
    PresentStays(file, p, e, owner);
    hide Next, Inv, Writes;
    if PastConsumption(o.proc.parent) {
      PastConsumptionRecords(o.file, o.proc, owner);
      if PastConsumption(p.parent) {
        if !(e.Write? && Writes(p)) && !(e.ChildOverwrites? && p.child.Escaped?) {
          ChangedByWrites(file, p, e, owner);
        }
      } else {
        if !(e == Write(Returned) && p.parent.pc.PersistToken?) {
          OnlyConsumptionPasses(file, p, e, owner);
        }
        AtConsumption(p);
      }
    }
  }

  lemma AtConsumption(p: Proc)
    ensures p.parent.pc.PersistToken? ==> Writes(p)
  {
  }

  /** A step of another launcher that leaves the file alone adds nothing to what a power cut can leave. */
  lemma PassiveLeavesNothing(left: set<File>, file: File, p: Proc, e: Event, owner: nat)
    requires Passive(p, owner) && Next(file, p, e, owner).file == file
    ensures LeftNext(left, file, p, e, owner) == left
  {
    hide Next;
  }

  ghost predicate SafeWorld(left: set<File>, w: World) {
    WorldInv(w) && (w.creator.Some? ==> Safe(left, w.procs[w.creator.value]))
  }

  lemma StepStaysSafe(left: set<File>, w: World, i: nat, e: Event)
    requires SafeWorld(left, w) && i < |w.procs|
    ensures SafeWorld(LeftNext(left, w.file, w.procs[i], e, i), Step(w, i, e))
  {
    StepKeeps(w, i, e);
    if w.creator == Some(i) {
      hide Next, Inv, Passive, Safe, LeftNext;
      CreatorStaysSafe(left, w.file, w.procs[i], e, i);
      PresentStays(w.file, w.procs[i], e, i);
    } else {
      hide Next, Inv;
      PassiveStep(w.file, w.procs[i], e, i);
      var o := Next(w.file, w.procs[i], e, i);
      if w.file.Absent? && !o.file.Absent? {
        CreationIsEarly(w.file, w.procs[i], e, i);
      } else {
        PassiveLeavesNothing(left, w.file, w.procs[i], e, i);
      }
    }
  }

  lemma CreationIsEarly(file: File, p: Proc, e: Event, owner: nat)
    requires Passive(p, owner)
    ensures !PastConsumption(Next(file, p, e, owner).proc.parent)
  {
    hide Next;
    OnlyConsumptionPasses(file, p, e, owner);
  }

  lemma {:induction false} RunStaysSafe(launches: seq<LaunchFacts>, schedule: seq<(nat, Event)>)
    ensures SafeWorld(LeftAt(launches, schedule), Run(launches, schedule))
    decreases |schedule|
  {
    if schedule == [] {
      StartKeeps(launches);
    } else {
      var init, last := schedule[..|schedule| - 1], schedule[|schedule| - 1];
      assert schedule == init + [last];
      RunStaysSafe(launches, init);
      RunSnoc(launches, init, last.0, last.1);
      hide Step, WorldInv, Safe, LeftNext;
      if last.0 < |launches| {
        StepStaysSafe(LeftAt(launches, init), Run(launches, init), last.0, last.1);
      } else {
        NobodySteps(Run(launches, init), last.0, last.1);
      }
    }
  }

  lemma NobodySteps(w: World, i: nat, e: Event)
    requires i >= |w.procs|
    ensures Step(w, i, e) == w
  {
  }

  /**
   * From the release on, whatever a power cut leaves records the consumption or is the
   * image of an escaped child; in no case is it an absent file, which would let another
   * launch begin.
   */
  lemma ReleaseSurvivesPowerCuts(launches: seq<LaunchFacts>, schedule: seq<(nat, Event)>, i: nat, left: File)
    requires i < |launches| && Run(launches, schedule).procs[i].marks.released
    requires left in LeftAt(launches, schedule)
    ensures left.Holding? && (Consumed(left) || left.byChild)
  {
    RunStaysSafe(launches, schedule);
    AtMostOneForks(launches, schedule, i, i);
    var w := Run(launches, schedule);
    hide Run, LeftAt;
    ReleasedIsPast(w.file, w.procs[i], i);
  }

  lemma ReleasedIsPast(file: File, p: Proc, owner: nat)
    requires Inv(file, p, owner) && p.marks.released
    ensures PastConsumption(p.parent)
  {
    hide Receipt.Accepted, ChildInv, ImageInv, PcInv;
  }

  // ---- Until the first update -------------------------------------------

  /** A ledger write that returns, the parent's or an escaped child's. */
  predicate Flushes(e: Event, p: Proc) {
    (e == Write(Returned) && Writes(p)) || (e == ChildOverwrites(Returned) && p.child.Escaped?)
  }

  /** Some write of the schedule returned. */
  ghost predicate Flushed(launches: seq<LaunchFacts>, schedule: seq<(nat, Event)>) {
    exists k :: 0 <= k < |schedule| && schedule[k].0 < |launches|
                && Flushes(schedule[k].1, Run(launches, schedule[..k]).procs[schedule[k].0])
  }

  lemma FlushedStep(launches: seq<LaunchFacts>, schedule: seq<(nat, Event)>)
    requires schedule != []
    ensures var init, last := schedule[..|schedule| - 1], schedule[|schedule| - 1];
            Flushed(launches, schedule) <==>
            Flushed(launches, init) || (last.0 < |launches| && Flushes(last.1, Run(launches, init).procs[last.0]))
  {
    hide Run, Flushes;
    var init, n := schedule[..|schedule| - 1], |schedule| - 1;
    assert forall k :: 0 <= k < n ==> init[..k] == schedule[..k] && init[k] == schedule[k];
    if Flushed(launches, init) {
      var k :| 0 <= k < |init| && init[k].0 < |launches| && Flushes(init[k].1, Run(launches, init[..k]).procs[init[k].0]);
      assert schedule[k] == init[k] && schedule[..k] == init[..k];
    }
    if Flushed(launches, schedule) {
      var k :| 0 <= k < |schedule| && schedule[k].0 < |launches|
               && Flushes(schedule[k].1, Run(launches, schedule[..k]).procs[schedule[k].0]);
      assert k < n ==> init[k] == schedule[k] && init[..k] == schedule[..k];
    }
  }

  /** What a power cut can leave while no write has returned, and no more once one has. */
  ghost predicate LeavesUnflushed(left: set<File>, file: File, flushed: bool) {
    && (Absent in left <==> !flushed)
    && (Torn in left <==> !flushed && !file.Absent?)
    && (file.Absent? ==> left == {Absent})
  }

  lemma OnlyTheCreatorWrites(w: World, i: nat)
    requires WorldInv(w) && i < |w.procs|
    ensures Writes(w.procs[i]) || w.procs[i].child.Escaped? ==> !w.file.Absent?
  {
    hide Inv;
  }

  lemma WritesHold(file: File, p: Proc, e: Event, owner: nat)
    requires !file.Absent? && file != Torn && ((e.Write? && Writes(p)) || (e.ChildOverwrites? && p.child.Escaped?))
    ensures Next(file, p, e, owner).file.Holding?
  {
    hide Next, FailedWith, CompletedResult, Receipt.SummaryOf;
    if e.Write? {
      NextWrite(file, p, e.outcome, owner);
    } else {
      NextChild(file, p, e, owner);
    }
  }

  lemma StepLeavesUnflushed(left: set<File>, w: World, i: nat, e: Event, flushed: bool)
    requires WorldInv(w) && i < |w.procs| && LeavesUnflushed(left, w.file, flushed)
    ensures var o := Next(w.file, w.procs[i], e, i);
            LeavesUnflushed(LeftNext(left, w.file, w.procs[i], e, i), o.file, flushed || Flushes(e, w.procs[i]))
  {
    hide Next, Inv, Writes;
    var p := w.procs[i];
    OnlyTheCreatorWrites(w, i);
    StepKeeps(w, i, e);
    if (e.Write? && Writes(p)) || (e.ChildOverwrites? && p.child.Escaped?) {
      WriterHasNoTornFile(w, i);
      WritesHold(w.file, p, e, i);
    } else if !w.file.Absent? {
      ChangedByWrites(w.file, p, e, i);
    } else {
      CreationIsWhole(w, i, e);
    }
  }

  /** A launcher at a write holds an image in its file. */
  lemma WriterHasNoTornFile(w: World, i: nat)
    requires WorldInv(w) && i < |w.procs| && (Writes(w.procs[i]) || w.procs[i].child.Escaped?)
    ensures w.file.Holding?
  {
    hide Inv;
    assert w.creator == Some(i);
    WriterHolds(w.file, w.procs[i], i);
  }

  lemma WriterHolds(file: File, p: Proc, owner: nat)
    requires Inv(file, p, owner) && (Writes(p) || p.child.Escaped?)
    ensures file.Holding?
  {
    hide Receipt.Accepted, Initial, Base, FailedResult;
  }

  lemma CreationIsWhole(w: World, i: nat, e: Event)
    requires WorldInv(w) && i < |w.procs| && w.file.Absent?
    ensures !Step(w, i, e).file.Absent? || Step(w, i, e).file == w.file
  {
  }

  /**
   * Exactly until a ledger write returns a power cut can bring the absence of the file
   * back, and from the creation until then it can also leave it torn.
   */
  lemma {:induction false} UnflushedExactly(launches: seq<LaunchFacts>, schedule: seq<(nat, Event)>)
    ensures Absent in LeftAt(launches, schedule) <==> !Flushed(launches, schedule)
    ensures Torn in LeftAt(launches, schedule) <==> !Flushed(launches, schedule) && !Run(launches, schedule).file.Absent?
    ensures LeavesUnflushed(LeftAt(launches, schedule), Run(launches, schedule).file, Flushed(launches, schedule))
    decreases |schedule|
  {
    if schedule != [] {
      var init, last := schedule[..|schedule| - 1], schedule[|schedule| - 1];
      assert schedule == init + [last];
      UnflushedExactly(launches, init);
      RunSnoc(launches, init, last.0, last.1);
      RunKeeps(launches, init);
      FlushedStep(launches, schedule);
      hide WorldInv, LeftNext, Flushes, Next;
      var w := Run(launches, init);
      if last.0 < |launches| {
        StepLeavesUnflushed(LeftAt(launches, init), w, last.0, last.1, Flushed(launches, init));
      } else {
        NobodySteps(w, last.0, last.1);
      }
      hide Run, Flushed;
    }
  }
}
