/** The inductive invariant of the launch protocol and its preservation by every event. */
module LaunchInvariant {
  import opened Wrappers
  import opened RunLedger
  import opened Launch
  import Receipt

  // ---- Images -----------------------------------------------------------

  function Base(owner: nat): Ledger {
    Launched(Initial(owner))
  }

  /** The last write was the parent's own. */
  predicate ParentImage(file: File) {
    file.Holding? && !file.byChild
  }

  /** The file holds `image`, or the image an escaped child put over it. */
  predicate Shows(file: File, image: Ledger) {
    file.Holding? && (file.byChild || file.image == image)
  }

  predicate RecordsCleanup(image: Ledger) {
    image.failure.Some? && image.failure.value.cleanupFailed
  }

  predicate MarksMatch(image: Ledger) {
    image.processStates != [] && image.processStates[|image.processStates| - 1] == image.state
  }

  /** What the two finalizations leave: the completed image, or a failed one. */
  predicate ResultImage(image: Ledger, result: int) {
    || (result == 70 && image.state.FailedAfterLaunch? && image.failure.Some?)
    || (&& image.exitCode == Some(result) && image.timedOut.Some?
        && (image.state.Completed? || image.state.FailedAfterLaunch?)
        && (image.state.Completed? <==> result == 0 && !image.timedOut.value))
  }

  predicate AcceptedPayload(p: Proc) {
    var a := p.parent;
    && a.payload.Some? && a.evidence.Some?
    && Receipt.Accepted(a.payload.value, p.launch.binding, a.evidence.value)
  }

  /** A completed image carries the receipt of an accepted payload. */
  predicate CompletedImage(image: Ledger, p: Proc) {
    && image.tokenConsumed && image.exitCode == Some(0) && image.timedOut == Some(false)
    && AcceptedPayload(p)
    && image.receipt == Some(Receipt.SummaryOf(p.parent.payload.value, p.parent.evidence.value))
  }

  // ---- The invariant of the creating launcher ---------------------------

  /** The flags, in the order the statements set them, and the handshake behind the consumption. */
  predicate FlagInv(file: File, p: Proc) {
    var a := p.parent;
    && (a.ledger.tokenConsumed ==> a.handshake.Some? && ExactChild(a.handshake.value, p.launch.identity))
    && (a.persistenceStarted ==> a.ledger.tokenConsumed)
    && (a.tokenPersisted || a.releaseStarted || a.childReleased ==> a.persistenceStarted)
    && (p.marks.released ==> a.releaseStarted)
    && (a.releaseStarted ==> file.Holding? && (file.byChild || file.image.tokenConsumed))
  }

  /** The child, its pipe, and who knows its pid. */
  predicate ChildInv(file: File, p: Proc, owner: nat) {
    var a := p.parent;
    && (p.child.Admitted? || p.child.Working? || p.child.Returning? || p.pipeByte || p.marks.entered ==> p.marks.released)
    && (p.child.NotForked? ==> !p.marks.released && !p.reaped && !a.childPid && !p.marks.pidLost)
    && (!p.child.NotForked? ==> a.childPid || p.marks.pidLost)
    && (p.reaped ==> p.child.Dead?)
    && (a.childReaped ==> p.reaped)
    && (p.marks.finalLanded ==> p.reaped)
    && (p.marks.pidLost ==> !a.childPid && !p.reaped && !a.cleanupFailed)
    && (file.Holding? && file.byChild ==> p.child.Dead? && file.image == ChildImage(owner))
  }

  /** What the parent's durable image can be at any time. */
  predicate ImageInv(file: File, p: Proc, owner: nat) {
    ParentImage(file) ==>
      var image := file.image;
      && image.owner == owner && MarksMatch(image) && !image.state.ChildStartVerified?
      && (image.state.PrelaunchVerified? ==> image == Initial(owner))
      && (image.state.LaunchedConsumed? ==> image == Base(owner))
      && (image.tokenConsumed ==> p.parent.ledger.tokenConsumed)
      && (image.state.FailedAfterLaunch? ==> image.tokenConsumed)
      && (image.state.PrelaunchFailed? ==>
            !p.marks.released && p.parent.pc.Exited? && (image.tokenConsumed <==> p.marks.midRecord))
      && (image.state.Completed? ==> CompletedImage(image, p))
      && (p.marks.pidLost ==> !RecordsCleanup(image))
  }

  predicate NoExitMark(p: Proc) {
    !p.marks.unguarded && !p.marks.persistFailed
  }

  predicate ExactHandshake(p: Proc) {
    p.parent.handshake.Some? && ExactChild(p.parent.handshake.value, p.launch.identity)
  }

  /** In the first `try`: the in-memory consumption precedes its flag by exactly one statement. */
  predicate Trying(file: File, p: Proc, owner: nat) {
    var a := p.parent;
    && a.created && (a.ledger == Initial(owner) || a.ledger == Base(owner))
    && (Shows(file, Initial(owner)) || (Shows(file, Base(owner)) && a.persistenceStarted))
    && (!a.persistenceStarted ==> (a.ledger.tokenConsumed <==> a.pc.Mark?))
    && !a.childReaped && !a.cleanupFailed && !p.marks.pidLost
    && !p.marks.midRecord && !p.marks.finalLanded && NoExitMark(p)
  }

  /** Before the consumption: the file shows the initial image and no flag is set. */
  predicate Fresh(file: File, p: Proc, owner: nat, forked: bool) {
    var a := p.parent;
    && a.ledger == Initial(owner) && Shows(file, Initial(owner))
    && !a.persistenceStarted && (p.child.NotForked? <==> !forked) && a.childPid == forked
  }

  /** After the in-memory consumption. */
  predicate Consuming(file: File, p: Proc, owner: nat, started: bool, shown: Ledger, releasing: bool) {
    var a := p.parent;
    && a.ledger == Base(owner) && Shows(file, shown) && a.childPid
    && a.persistenceStarted == started && a.releaseStarted == releasing
  }

  /** In the first handler: consumed in memory without its flag only after a mid-record interrupt. */
  predicate Handling(file: File, p: Proc, owner: nat) {
    var a := p.parent;
    && a.created && (a.ledger == Initial(owner) || a.ledger == Base(owner))
    && (Shows(file, Initial(owner)) || (Shows(file, Base(owner)) && a.persistenceStarted))
    && (!a.persistenceStarted ==> (a.ledger.tokenConsumed <==> p.marks.midRecord))
    && !p.marks.finalLanded && NoExitMark(p)
  }

  /** From the second `try` on: released, and the launched image is durable. */
  predicate Awaiting(file: File, p: Proc, owner: nat) {
    var a := p.parent;
    && a.created && a.ledger == Base(owner) && Shows(file, Base(owner))
    && a.releaseStarted && a.childPid && !p.marks.midRecord && !p.marks.finalLanded && NoExitMark(p)
  }

  /** In the finalization: the child is reaped, and nothing terminal is durable before a write lands. */
  predicate Finalizing(file: File, p: Proc, owner: nat) {
    var a := p.parent;
    && a.created && a.releaseStarted && a.childPid && p.reaped && !p.marks.midRecord && NoExitMark(p)
    && (a.ledger == Base(owner) || a.ledger == FailedResult(Base(owner), a.exitCode, a.timedOut))
    && (if p.marks.finalLanded then Ended(file) else Shows(file, Base(owner)))
  }

  /** The child cleanup of a handler is settled. */
  predicate Settled(p: Proc) {
    p.child.NotForked? || p.reaped || p.parent.cleanupFailed || p.marks.pidLost
  }

  /** A function that returned a code left the image of that code. */
  predicate ReturnedInv(file: File, p: Proc, result: int) {
    p.parent.created && p.reaped && ParentImage(file) && ResultImage(file.image, result)
  }

  /** Every way out, and which interrupts and writes decide what it leaves. */
  predicate ExitInv(file: File, p: Proc) {
    && (p.marks.finalLanded ==> Ended(file))
    && (p.marks.unguarded && !p.marks.finalLanded && ParentImage(file) ==> !Ended(file))
    && (p.parent.created && NoExitMark(p) ==>
          && Ended(file)
          && (p.child.NotForked? || p.reaped || p.marks.pidLost || file.byChild || RecordsCleanup(file.image)))
  }

  /** A launcher whose exclusive creation raised or crashed after the open never forked. */
  predicate CreationInv(file: File, p: Proc, owner: nat) {
    if p.parent.created then file.Holding?
    else p.child.NotForked? && (file.Torn? || Shows(file, Initial(owner)))
  }

  predicate Early(pc: Pc) {
    pc.Preflight? || pc.Recovery? || pc.Create?
  }

  predicate InLaunchHandler(pc: Pc) {
    pc.LaunchCaught? || pc.LaunchReap? || pc.LaunchReaped? || pc.LaunchPersist?
  }

  predicate InWaitPart(pc: Pc) {
    pc.AwaitChild? || pc.Waiting? || pc.WaitCaught? || pc.WaitReap? || pc.WaitReaped? || pc.WaitPersist?
  }

  predicate InFinalPart(pc: Pc) {
    pc.Collected? || InFinalTry(pc) || pc.FinalCaught? || pc.FinalPersist?
  }

  /** The facts of each program point that its part does not already give. */
  predicate PointInv(file: File, p: Proc, owner: nat) {
    var a := p.parent;
    match a.pc
    case Created => Trying(file, p, owner) && Fresh(file, p, owner, false)
    case OpenPipe => Fresh(file, p, owner, false)
    case Fork => Fresh(file, p, owner, false)
    case Setup => Fresh(file, p, owner, true)
    case Handshake => Fresh(file, p, owner, true)
    case Record => Fresh(file, p, owner, true) && ExactHandshake(p)
    case Mark => Consuming(file, p, owner, false, Initial(owner), false)
    case PersistToken => Consuming(file, p, owner, true, Initial(owner), false)
    case MarkRelease => Consuming(file, p, owner, true, Base(owner), false)
    case WriteRelease => Consuming(file, p, owner, true, Base(owner), true)
    case CloseRelease => Consuming(file, p, owner, true, Base(owner), true)
    case LaunchReap => a.childPid
    case LaunchReaped => Settled(p)
    case LaunchPersist => Settled(p)
    case WaitReaped => Settled(p)
    case WaitPersist => Settled(p)
    case Collected => a.ledger == Base(owner) && !p.marks.finalLanded
    case Evidence => a.ledger == Base(owner) && !p.marks.finalLanded
    case Validate => a.ledger == Base(owner) && !p.marks.finalLanded && a.exitCode == 0 && !a.timedOut
    case PersistCompleted =>
      a.ledger == Base(owner) && !p.marks.finalLanded && a.exitCode == 0 && !a.timedOut && AcceptedPayload(p)
    case PersistResult =>
      && !p.marks.finalLanded && !(a.exitCode == 0 && !a.timedOut)
      && a.ledger == FailedResult(Base(owner), a.exitCode, a.timedOut)
    case Finished(result) => ReturnedInv(file, p, result) && NoExitMark(p)
    case Exited(exit) =>
      CreationInv(file, p, owner) && ExitInv(file, p) && (exit.Code? ==> ReturnedInv(file, p, exit.code))
    case Crashed => CreationInv(file, p, owner) && NoExitMark(p)
    case _ => true
  }

  predicate PcInv(file: File, p: Proc, owner: nat) {
    var pc := p.parent.pc;
    && !Early(pc)
    && (InLaunchTry(pc) ==> Trying(file, p, owner))
    && (InLaunchHandler(pc) ==> Handling(file, p, owner))
    && (InWaitPart(pc) ==> Awaiting(file, p, owner))
    && (InFinalPart(pc) ==> Finalizing(file, p, owner))
    && PointInv(file, p, owner)
  }

  predicate Inv(file: File, p: Proc, owner: nat) {
    && !file.Absent?
    && FlagInv(file, p)
    && ChildInv(file, p, owner)
    && ImageInv(file, p, owner)
    && PcInv(file, p, owner)
  }

  // ---- Preservation -----------------------------------------------------

  /** The two images of the launch before any failure. */
  lemma ImageFacts(owner: nat)
    ensures var image := Initial(owner);
            && image.owner == owner && image.state == PrelaunchVerified && !image.tokenConsumed
            && MarksMatch(image) && image.failure.None?
    ensures var image := Base(owner);
            && image.owner == owner && image.state == LaunchedConsumed && image.tokenConsumed
            && MarksMatch(image) && image.failure.None? && image == Launched(Initial(owner))
    ensures ChildImage(owner).state == PrelaunchFailed && !RecordsCleanup(ChildImage(owner))
  {
  }

  /** What `_persist_terminal_failure` keeps of the ledger it is given. */
  lemma FailedWithFacts(ledger: Ledger, state: State, failure: Failure)
    ensures var image := FailedWith(ledger, state, failure);
            && image.owner == ledger.owner && image.state == state && image.failure == Some(failure)
            && image.tokenConsumed == ledger.tokenConsumed && MarksMatch(image)
  {
  }

  /** What the image of a failed child keeps. */
  lemma FailedResultFacts(owner: nat, a: Parent)
    ensures var image := FailedResult(Base(owner), a.exitCode, a.timedOut);
            && image.owner == owner && image.state == FailedAfterLaunch && image.tokenConsumed
            && image.failure.None? && MarksMatch(image)
            && image.exitCode == Some(a.exitCode) && image.timedOut == Some(a.timedOut)
  {
  }

  /** What the completed image keeps. */
  lemma CompletedResultFacts(owner: nat, a: Parent, receipt: Receipt.Summary)
    ensures var image := CompletedResult(Base(owner), a.exitCode, a.timedOut, receipt);
            && image.owner == owner && image.state == Completed && image.tokenConsumed
            && image.failure.None? && MarksMatch(image) && image.receipt == Some(receipt)
            && image.exitCode == Some(a.exitCode) && image.timedOut == Some(a.timedOut)
  {
  }

  /** An exception of the first `try`. */
  lemma LaunchCaughtKeeps(file: File, p: Proc, owner: nat)
    requires Inv(file, p, owner) && InLaunchTry(p.parent.pc)
    ensures var q := p.(marks := p.marks.(midRecord := p.marks.midRecord || p.parent.pc.Mark?));
            var o := At(file, q, LaunchCaught); Inv(o.file, o.proc, owner)
  {
    hide Receipt.Accepted, Receipt.SummaryOf, Receipt.ValidEvidence, Initial, Launched, Base;
    hide FailedWith, FailedResult, CompletedResult, ChildImage, MarksMatch;
    ImageFacts(owner);
  }

  /** An exception of the wait. */
  lemma WaitCaughtKeeps(file: File, p: Proc, owner: nat)
    requires Inv(file, p, owner) && p.parent.pc.Waiting?
    ensures var o := At(file, p, WaitCaught); Inv(o.file, o.proc, owner)
  {
    hide Receipt.Accepted, Receipt.SummaryOf, Receipt.ValidEvidence, Initial, Launched, Base;
    hide FailedWith, FailedResult, CompletedResult, ChildImage, MarksMatch;
    ImageFacts(owner);
  }

  /** An exception of the finalization. */
  lemma FinalCaughtKeeps(file: File, p: Proc, owner: nat)
    requires Inv(file, p, owner) && InFinalTry(p.parent.pc)
    ensures var o := At(file, p, FinalCaught); Inv(o.file, o.proc, owner)
  {
    hide Receipt.Accepted, Receipt.SummaryOf, Receipt.ValidEvidence, Initial, Launched, Base;
    hide FailedWith, FailedResult, CompletedResult, ChildImage, MarksMatch;
    ImageFacts(owner);
  }

  /** An interrupt outside every `try`, or in a handler before the signals are ignored. */
  lemma UnguardedKeeps(file: File, p: Proc, owner: nat)
    requires Inv(file, p, owner) && Unguarded(p.parent.pc)
    ensures var o := LeaveUnguarded(file, p); Inv(o.file, o.proc, owner)
  {
    hide Receipt.Accepted, Receipt.SummaryOf, Receipt.ValidEvidence, Initial, Launched, Base;
    hide FailedWith, FailedResult, CompletedResult, ChildImage, MarksMatch;
    ImageFacts(owner);
  }

  lemma SetupProceedKeeps(file: File, p: Proc, owner: nat)
    requires Inv(file, p, owner) && (p.parent.pc.OpenPipe? || p.parent.pc.Setup?)
    ensures var o := ProceedParent(file, p, owner); Inv(o.file, o.proc, owner)
  {
    hide Receipt.Accepted, Receipt.SummaryOf, Receipt.ValidEvidence, Initial, Launched, Base;
    hide FailedWith, FailedResult, CompletedResult, ChildImage, MarksMatch;
    ImageFacts(owner);
  }

  lemma ForkProceedKeeps(file: File, p: Proc, owner: nat)
    requires Inv(file, p, owner) && p.parent.pc.Fork?
    ensures var o := ProceedParent(file, p, owner); Inv(o.file, o.proc, owner)
  {
    hide Receipt.Accepted, Receipt.SummaryOf, Receipt.ValidEvidence, Initial, Launched, Base;
    hide FailedWith, FailedResult, CompletedResult, ChildImage, MarksMatch;
    ImageFacts(owner);
  }

  lemma RecordProceedKeeps(file: File, p: Proc, owner: nat)
    requires Inv(file, p, owner) && (p.parent.pc.Record? || p.parent.pc.Mark?)
    ensures var o := ProceedParent(file, p, owner); Inv(o.file, o.proc, owner)
  {
    hide Receipt.Accepted, Receipt.SummaryOf, Receipt.ValidEvidence, Initial, Launched, Base;
    hide FailedWith, FailedResult, CompletedResult, ChildImage, MarksMatch;
    ImageFacts(owner);
  }

  lemma ReleaseProceedKeeps(file: File, p: Proc, owner: nat)
    requires Inv(file, p, owner) && (p.parent.pc.MarkRelease? || p.parent.pc.WriteRelease?)
    ensures var o := ProceedParent(file, p, owner); Inv(o.file, o.proc, owner)
  {
    hide Receipt.Accepted, Receipt.SummaryOf, Receipt.ValidEvidence, Initial, Launched, Base;
    hide FailedWith, FailedResult, CompletedResult, ChildImage, MarksMatch;
    ImageFacts(owner);
  }

  lemma CloseProceedKeeps(file: File, p: Proc, owner: nat)
    requires Inv(file, p, owner) && p.parent.pc.CloseRelease?
    ensures var o := ProceedParent(file, p, owner); Inv(o.file, o.proc, owner)
  {
    hide Receipt.Accepted, Receipt.SummaryOf, Receipt.ValidEvidence, Initial, Launched, Base;
    hide FailedWith, FailedResult, CompletedResult, ChildImage, MarksMatch;
    ImageFacts(owner);
  }

  lemma CreatedProceedKeeps(file: File, p: Proc, owner: nat)
    requires Inv(file, p, owner) && p.parent.pc.Created?
    ensures var o := ProceedParent(file, p, owner); Inv(o.file, o.proc, owner)
  {
    hide Receipt.Accepted, Receipt.SummaryOf, Receipt.ValidEvidence, Initial, Launched, Base;
    hide FailedWith, FailedResult, CompletedResult, ChildImage, MarksMatch;
    ImageFacts(owner);
  }

  lemma CaughtProceedKeeps(file: File, p: Proc, owner: nat)
    requires Inv(file, p, owner) && p.parent.pc.LaunchCaught?
    ensures var o := ProceedParent(file, p, owner); Inv(o.file, o.proc, owner)
  {
    hide Receipt.Accepted, Receipt.SummaryOf, Receipt.ValidEvidence, Initial, Launched, Base;
    hide FailedWith, FailedResult, CompletedResult, ChildImage, MarksMatch;
    ImageFacts(owner);
  }

  lemma ReapedProceedKeeps(file: File, p: Proc, owner: nat)
    requires Inv(file, p, owner) && p.parent.pc.LaunchReaped?
    ensures var o := ProceedParent(file, p, owner); Inv(o.file, o.proc, owner)
  {
    hide Receipt.Accepted, Receipt.SummaryOf, Receipt.ValidEvidence, Initial, Launched, Base;
    hide FailedWith, FailedResult, CompletedResult, ChildImage, MarksMatch;
    ImageFacts(owner);
  }

  lemma AwaitProceedKeeps(file: File, p: Proc, owner: nat)
    requires Inv(file, p, owner) && p.parent.pc.AwaitChild?
    ensures var o := ProceedParent(file, p, owner); Inv(o.file, o.proc, owner)
  {
    hide Receipt.Accepted, Receipt.SummaryOf, Receipt.ValidEvidence, Initial, Launched, Base;
    hide FailedWith, FailedResult, CompletedResult, ChildImage, MarksMatch;
    ImageFacts(owner);
  }

  lemma WaitCaughtProceedKeeps(file: File, p: Proc, owner: nat)
    requires Inv(file, p, owner) && p.parent.pc.WaitCaught?
    ensures var o := ProceedParent(file, p, owner); Inv(o.file, o.proc, owner)
  {
    hide Receipt.Accepted, Receipt.SummaryOf, Receipt.ValidEvidence, Initial, Launched, Base;
    hide FailedWith, FailedResult, CompletedResult, ChildImage, MarksMatch;
    ImageFacts(owner);
  }

  lemma WaitReapedProceedKeeps(file: File, p: Proc, owner: nat)
    requires Inv(file, p, owner) && p.parent.pc.WaitReaped?
    ensures var o := ProceedParent(file, p, owner); Inv(o.file, o.proc, owner)
  {
    hide Receipt.Accepted, Receipt.SummaryOf, Receipt.ValidEvidence, Initial, Launched, Base;
    hide FailedWith, FailedResult, CompletedResult, ChildImage, MarksMatch;
    ImageFacts(owner);
  }

  lemma CollectedProceedKeeps(file: File, p: Proc, owner: nat)
    requires Inv(file, p, owner) && p.parent.pc.Collected?
    ensures var o := ProceedParent(file, p, owner); Inv(o.file, o.proc, owner)
  {
    hide Receipt.Accepted, Receipt.SummaryOf, Receipt.ValidEvidence, Initial, Launched, Base;
    hide FailedWith, FailedResult, CompletedResult, ChildImage, MarksMatch;
    ImageFacts(owner);
  }

  lemma FinalCaughtProceedKeeps(file: File, p: Proc, owner: nat)
    requires Inv(file, p, owner) && p.parent.pc.FinalCaught?
    ensures var o := ProceedParent(file, p, owner); Inv(o.file, o.proc, owner)
  {
    hide Receipt.Accepted, Receipt.SummaryOf, Receipt.ValidEvidence, Initial, Launched, Base;
    hide FailedWith, FailedResult, CompletedResult, ChildImage, MarksMatch;
    ImageFacts(owner);
  }

  lemma FinishedProceedKeeps(file: File, p: Proc, owner: nat)
    requires Inv(file, p, owner) && p.parent.pc.Finished?
    ensures var o := ProceedParent(file, p, owner); Inv(o.file, o.proc, owner)
  {
    hide Receipt.Accepted, Receipt.SummaryOf, Receipt.ValidEvidence, Initial, Launched, Base;
    hide FailedWith, FailedResult, CompletedResult, ChildImage, MarksMatch;
    ImageFacts(owner);
  }

  lemma NotEarly(file: File, p: Proc, owner: nat)
    requires Inv(file, p, owner)
    ensures !Early(p.parent.pc) && !file.Absent?
  {
  }

  lemma ProceedKeeps(file: File, p: Proc, owner: nat)
    requires Inv(file, p, owner) && ParentAlive(p)
    ensures var o := ProceedParent(file, p, owner); Inv(o.file, o.proc, owner)
  {
    hide Inv;
    NotEarly(file, p, owner);
    match p.parent.pc
    case Created => CreatedProceedKeeps(file, p, owner);
    case OpenPipe => SetupProceedKeeps(file, p, owner);
    case Fork => ForkProceedKeeps(file, p, owner);
    case Setup => SetupProceedKeeps(file, p, owner);
    case Record => RecordProceedKeeps(file, p, owner);
    case Mark => RecordProceedKeeps(file, p, owner);
    case MarkRelease => ReleaseProceedKeeps(file, p, owner);
    case WriteRelease => ReleaseProceedKeeps(file, p, owner);
    case CloseRelease => CloseProceedKeeps(file, p, owner);
    case LaunchCaught => CaughtProceedKeeps(file, p, owner);
    case LaunchReaped => ReapedProceedKeeps(file, p, owner);
    case AwaitChild => AwaitProceedKeeps(file, p, owner);
    case WaitCaught => WaitCaughtProceedKeeps(file, p, owner);
    case WaitReaped => WaitReapedProceedKeeps(file, p, owner);
    case Collected => CollectedProceedKeeps(file, p, owner);
    case FinalCaught => FinalCaughtProceedKeeps(file, p, owner);
    case Finished(_) => FinishedProceedKeeps(file, p, owner);
    case _ =>
  }

  lemma FailKeeps(file: File, p: Proc, owner: nat)
    requires Inv(file, p, owner) && ParentAlive(p)
    ensures var o := FailParent(file, p); Inv(o.file, o.proc, owner)
  {
    hide Inv;
    NotEarly(file, p, owner);
    var pc := p.parent.pc;
    if InLaunchTry(pc) {
      LaunchCaughtKeeps(file, p, owner);
    } else if pc.Waiting? {
      WaitCaughtKeeps(file, p, owner);
    } else if InFinalTry(pc) {
      FinalCaughtKeeps(file, p, owner);
    }
  }

  lemma FinishedInterruptKeeps(file: File, p: Proc, owner: nat)
    requires Inv(file, p, owner) && p.parent.pc.Finished?
    ensures var o := Leave(file, p, Raised); Inv(o.file, o.proc, owner)
  {
    hide Receipt.Accepted, Receipt.SummaryOf, Receipt.ValidEvidence, Initial, Launched, Base;
    hide FailedWith, FailedResult, CompletedResult, ChildImage, MarksMatch;
    ImageFacts(owner);
  }

  lemma InterruptKeeps(file: File, p: Proc, owner: nat)
    requires Inv(file, p, owner) && ParentAlive(p)
    ensures var o := InterruptParent(file, p); Inv(o.file, o.proc, owner)
  {
    hide Inv;
    NotEarly(file, p, owner);
    var pc := p.parent.pc;
    if InLaunchTry(pc) {
      LaunchCaughtKeeps(file, p, owner);
    } else if pc.Waiting? {
      WaitCaughtKeeps(file, p, owner);
    } else if InFinalTry(pc) {
      FinalCaughtKeeps(file, p, owner);
    } else if Unguarded(pc) {
      UnguardedKeeps(file, p, owner);
    } else if pc.Finished? {
      FinishedInterruptKeeps(file, p, owner);
    }
  }

  lemma TokenWriteKeeps(file: File, p: Proc, outcome: WriteOutcome, owner: nat)
    requires Inv(file, p, owner) && p.parent.pc.PersistToken?
    ensures var o := WriteParent(file, p, outcome); Inv(o.file, o.proc, owner)
  {
    hide Receipt.Accepted, Receipt.SummaryOf, Receipt.ValidEvidence, Initial, Launched, Base;
    hide FailedWith, FailedResult, CompletedResult, ChildImage, MarksMatch;
    ImageFacts(owner);
  }

  lemma LaunchWriteKeeps(file: File, p: Proc, outcome: WriteOutcome, owner: nat)
    requires Inv(file, p, owner) && p.parent.pc.LaunchPersist?
    ensures var o := WriteParent(file, p, outcome); Inv(o.file, o.proc, owner)
  {
    hide Receipt.Accepted, Receipt.SummaryOf, Receipt.ValidEvidence, Initial, Launched, Base;
    hide FailedWith, FailedResult, CompletedResult, ChildImage, MarksMatch;
    ImageFacts(owner);
    var a := p.parent;
    FailedWithFacts(a.ledger, HandlerState(a), Failure(HandlerStage(a), a.cleanupFailed));
  }

  lemma WaitWriteKeeps(file: File, p: Proc, outcome: WriteOutcome, owner: nat)
    requires Inv(file, p, owner) && p.parent.pc.WaitPersist?
    ensures var o := WriteParent(file, p, outcome); Inv(o.file, o.proc, owner)
  {
    hide Receipt.Accepted, Receipt.SummaryOf, Receipt.ValidEvidence, Initial, Launched, Base;
    hide FailedWith, FailedResult, CompletedResult, ChildImage, MarksMatch;
    ImageFacts(owner);
    FailedWithFacts(p.parent.ledger, FailedAfterLaunch, Failure(ChildWait, p.parent.cleanupFailed));
  }

  lemma ResultWriteKeeps(file: File, p: Proc, outcome: WriteOutcome, owner: nat)
    requires Inv(file, p, owner) && p.parent.pc.PersistResult?
    ensures var o := WriteParent(file, p, outcome); Inv(o.file, o.proc, owner)
  {
    hide Receipt.Accepted, Receipt.SummaryOf, Receipt.ValidEvidence, Initial, Launched, Base;
    hide FailedWith, FailedResult, CompletedResult, ChildImage, MarksMatch;
    ImageFacts(owner);
    FailedResultFacts(owner, p.parent);
  }

  lemma CompletedWriteKeeps(file: File, p: Proc, outcome: WriteOutcome, owner: nat)
    requires Inv(file, p, owner) && p.parent.pc.PersistCompleted? && Lands(outcome)
    ensures var o := WriteParent(file, p, outcome); Inv(o.file, o.proc, owner)
  {
    hide Receipt.Accepted, Receipt.SummaryOf, Receipt.ValidEvidence, Initial, Launched, Base;
    hide FailedWith, FailedResult, CompletedResult, ChildImage, MarksMatch;
    ImageFacts(owner);
    CompletedResultFacts(owner, p.parent, Receipt.SummaryOf(p.parent.payload.value, p.parent.evidence.value));
  }

  lemma CompletedRaisedKeeps(file: File, p: Proc, outcome: WriteOutcome, owner: nat)
    requires Inv(file, p, owner) && p.parent.pc.PersistCompleted? && !Lands(outcome)
    ensures var o := WriteParent(file, p, outcome); Inv(o.file, o.proc, owner)
  {
    hide Receipt.Accepted, Receipt.SummaryOf, Receipt.ValidEvidence, Initial, Launched, Base;
    hide FailedWith, FailedResult, CompletedResult, ChildImage, MarksMatch;
    ImageFacts(owner);
    CompletedResultFacts(owner, p.parent, Receipt.SummaryOf(p.parent.payload.value, p.parent.evidence.value));
  }

  lemma FinalWriteKeeps(file: File, p: Proc, outcome: WriteOutcome, owner: nat)
    requires Inv(file, p, owner) && p.parent.pc.FinalPersist? && outcome.Returned?
    ensures var o := WriteParent(file, p, outcome); Inv(o.file, o.proc, owner)
  {
    hide Receipt.Accepted, Receipt.SummaryOf, Receipt.ValidEvidence, Initial, Launched, Base;
    hide FailedWith, FailedResult, CompletedResult, ChildImage, MarksMatch;
    ImageFacts(owner);
    FailedResultFacts(owner, p.parent);
    FailedWithFacts(p.parent.ledger, FailedAfterLaunch, Failure(p.parent.stage, false));
  }

  lemma FinalWriteRaisedKeeps(file: File, p: Proc, outcome: WriteOutcome, owner: nat)
    requires Inv(file, p, owner) && p.parent.pc.FinalPersist? && !outcome.Returned?
    ensures var o := WriteParent(file, p, outcome); Inv(o.file, o.proc, owner)
  {
    hide Receipt.Accepted, Receipt.SummaryOf, Receipt.ValidEvidence, Initial, Launched, Base;
    hide FailedWith, FailedResult, CompletedResult, ChildImage, MarksMatch;
    ImageFacts(owner);
    FailedResultFacts(owner, p.parent);
    FailedWithFacts(p.parent.ledger, FailedAfterLaunch, Failure(p.parent.stage, false));
  }

  lemma WriteKeeps(file: File, p: Proc, outcome: WriteOutcome, owner: nat)
    requires Inv(file, p, owner) && ParentAlive(p)
    ensures var o := WriteParent(file, p, outcome); Inv(o.file, o.proc, owner)
  {
    hide Inv, TokenWrite, PersistLast, FinalizationWrite, FallbackWrite;
    match p.parent.pc
    case PersistToken => TokenWriteKeeps(file, p, outcome, owner);
    case LaunchPersist => LaunchWriteKeeps(file, p, outcome, owner);
    case WaitPersist => WaitWriteKeeps(file, p, outcome, owner);
    case PersistResult => ResultWriteKeeps(file, p, outcome, owner);
    case PersistCompleted =>
      if Lands(outcome) {
        CompletedWriteKeeps(file, p, outcome, owner);
      } else {
        CompletedRaisedKeeps(file, p, outcome, owner);
      }
    case FinalPersist =>
      if outcome.Returned? {
        FinalWriteKeeps(file, p, outcome, owner);
      } else {
        FinalWriteRaisedKeeps(file, p, outcome, owner);
      }
    case _ =>
  }

  /** The exact child ends the handshake. */
  lemma ExactScanKeeps(file: File, p: Proc, item: ProcessItem, owner: nat)
    requires Inv(file, p, owner) && p.parent.pc.Handshake? && ExactChild(item, p.launch.identity)
    ensures Inv(file, p.(parent := p.parent.(pc := Record, handshake := Some(item))), owner)
  {
    hide Receipt.Accepted, Receipt.SummaryOf, Receipt.ValidEvidence, Initial, Launched, Base;
    hide FailedWith, FailedResult, CompletedResult, ChildImage, MarksMatch;
    ImageFacts(owner);
  }

  lemma HandshakeCaughtKeeps(file: File, p: Proc, owner: nat)
    requires Inv(file, p, owner) && p.parent.pc.Handshake?
    ensures var o := At(file, p, LaunchCaught); Inv(o.file, o.proc, owner)
  {
    hide Inv;
    LaunchCaughtKeeps(file, p, owner);
    assert p.(marks := p.marks.(midRecord := p.marks.midRecord || p.parent.pc.Mark?)) == p;
  }

  lemma {:induction false} ScanKeeps(file: File, p: Proc, items: seq<ProcessItem>, owner: nat)
    requires Inv(file, p, owner) && ParentAlive(p)
    ensures var o := ScanParent(file, p, items); Inv(o.file, o.proc, owner)
  {
    hide Inv;
    if p.parent.pc.Handshake? {
      HandshakeCaughtKeeps(file, p, owner);
      if items != [] {
        if ExactChild(items[0], p.launch.identity) {
          ExactScanKeeps(file, p, items[0], owner);
        }
        ScanKeeps(file, p, items[1..], owner);
      }
    }
  }

  lemma WaitKeeps(file: File, p: Proc, e: Event, owner: nat)
    requires Inv(file, p, owner) && ParentAlive(p)
    ensures var o := WaitParent(file, p, e); Inv(o.file, o.proc, owner)
  {
    hide Receipt.Accepted, Receipt.SummaryOf, Receipt.ValidEvidence, Initial, Launched, Base;
    hide FailedWith, FailedResult, CompletedResult, ChildImage, MarksMatch;
    ImageFacts(owner);
  }

  lemma SuccessEvidenceKeeps(file: File, p: Proc, evidence: Receipt.Evidence, owner: nat)
    requires Inv(file, p, owner) && p.parent.pc.Evidence? && p.parent.exitCode == 0 && !p.parent.timedOut
    ensures var o := EvidenceParent(file, p, evidence); Inv(o.file, o.proc, owner)
  {
    hide Receipt.Accepted, Receipt.SummaryOf, Receipt.ValidEvidence, Initial, Launched, Base;
    hide FailedWith, FailedResult, CompletedResult, ChildImage, MarksMatch;
    ImageFacts(owner);
  }

  lemma FailureEvidenceKeeps(file: File, p: Proc, evidence: Receipt.Evidence, owner: nat)
    requires Inv(file, p, owner) && p.parent.pc.Evidence? && (p.parent.exitCode != 0 || p.parent.timedOut)
    ensures var o := EvidenceParent(file, p, evidence); Inv(o.file, o.proc, owner)
  {
    hide Receipt.Accepted, Receipt.SummaryOf, Receipt.ValidEvidence, Initial, Launched, Base;
    hide FailedWith, FailedResult, CompletedResult, ChildImage, MarksMatch;
    ImageFacts(owner);
    FailedResultFacts(owner, p.parent);
  }

  lemma EvidenceKeeps(file: File, p: Proc, evidence: Receipt.Evidence, owner: nat)
    requires Inv(file, p, owner)
    ensures var o := EvidenceParent(file, p, evidence); Inv(o.file, o.proc, owner)
  {
    hide Inv;
    if p.parent.pc.Evidence? {
      if p.parent.exitCode == 0 && !p.parent.timedOut {
        SuccessEvidenceKeeps(file, p, evidence, owner);
      } else {
        FailureEvidenceKeeps(file, p, evidence, owner);
      }
    }
  }

  lemma ParsedKeeps(file: File, p: Proc, payload: Receipt.Payload, owner: nat)
    requires Inv(file, p, owner)
    ensures var o := ParsedParent(file, p, payload); Inv(o.file, o.proc, owner)
  {
    hide Receipt.Accepted, Receipt.SummaryOf, Receipt.ValidEvidence, Initial, Launched, Base;
    hide FailedWith, FailedResult, CompletedResult, ChildImage, MarksMatch;
    ImageFacts(owner);
    if p.parent.pc.Validate? {
      FinalCaughtKeeps(file, p, owner);
    }
  }

  lemma ReapKeeps(file: File, p: Proc, ok: bool, owner: nat)
    requires Inv(file, p, owner) && ParentAlive(p)
    ensures var o := ReapParent(file, p, ok); Inv(o.file, o.proc, owner)
  {
    hide Receipt.Accepted, Receipt.SummaryOf, Receipt.ValidEvidence, Initial, Launched, Base;
    hide FailedWith, FailedResult, CompletedResult, ChildImage, MarksMatch;
    ImageFacts(owner);
  }

  lemma OverwriteKeeps(file: File, p: Proc, e: Event, owner: nat)
    requires Inv(file, p, owner) && e.ChildOverwrites?
    ensures var o := ChildStep(file, p, e, owner); Inv(o.file, o.proc, owner)
  {
    hide Receipt.Accepted, Receipt.SummaryOf, Receipt.ValidEvidence, Initial, Launched, Base;
    hide FailedWith, FailedResult, CompletedResult, ChildImage, MarksMatch;
    ImageFacts(owner);
  }

  /** A running child may change its state; past the pipe only if it was released. */
  lemma ChildMoves(file: File, p: Proc, child: Child, entered: bool, owner: nat)
    requires Inv(file, p, owner) && !p.child.NotForked? && !p.child.Dead? && !child.NotForked?
    requires child.Admitted? || child.Working? || child.Returning? || (entered && !p.marks.entered) ==> p.marks.released
    requires p.marks.entered ==> entered
    ensures Inv(file, p.(child := child, marks := p.marks.(entered := entered)), owner)
  {
    hide Receipt.Accepted, Receipt.SummaryOf, Receipt.ValidEvidence, Initial, Launched, Base;
    hide FailedWith, FailedResult, CompletedResult, ChildImage, MarksMatch;
    ImageFacts(owner);
  }

  /** The blocked child takes the release byte. */
  lemma AdmissionKeeps(file: File, p: Proc, owner: nat)
    requires Inv(file, p, owner) && p.child.Blocked? && p.pipeByte
    ensures Inv(file, p.(child := Admitted, pipeByte := false), owner)
  {
    hide Receipt.Accepted, Receipt.SummaryOf, Receipt.ValidEvidence, Initial, Launched, Base;
    hide FailedWith, FailedResult, CompletedResult, ChildImage, MarksMatch;
    ImageFacts(owner);
  }

  lemma PastThePipe(file: File, p: Proc, owner: nat)
    requires Inv(file, p, owner) && (p.child.Admitted? || p.child.Working? || p.child.Returning? || p.pipeByte)
    ensures p.marks.released
  {
  }

  predicate InsidePipe(child: Child) {
    child.Admitted? || child.Working? || child.Returning?
  }

  /** A child step other than a read or an overwrite changes only the child and its entry mark. */
  lemma ChildStepMoves(file: File, p: Proc, e: Event, owner: nat)
    requires IsChildEvent(e) && !e.ChildOverwrites? && !(e.ChildReads? && p.child.Blocked? && p.pipeByte)
    requires !p.child.NotForked? && !p.child.Dead?
    ensures var o := ChildStep(file, p, e, owner);
            && o == Outcome(file, p.(child := o.proc.child, marks := p.marks.(entered := o.proc.marks.entered)))
            && !o.proc.child.NotForked? && (p.marks.entered ==> o.proc.marks.entered)
            && (InsidePipe(o.proc.child) || (o.proc.marks.entered && !p.marks.entered) ==> InsidePipe(p.child))
  {
  }

  lemma ChildKeeps(file: File, p: Proc, e: Event, owner: nat)
    requires Inv(file, p, owner) && IsChildEvent(e)
    ensures var o := ChildStep(file, p, e, owner); Inv(o.file, o.proc, owner)
  {
    hide Inv;
    if e.ChildOverwrites? {
      OverwriteKeeps(file, p, e, owner);
    } else if e.ChildReads? && p.child.Blocked? && p.pipeByte {
      AdmissionKeeps(file, p, owner);
    } else if !p.child.NotForked? && !p.child.Dead? {
      hide ChildStep;
      ChildStepMoves(file, p, e, owner);
      var o := ChildStep(file, p, e, owner);
      if InsidePipe(p.child) {
        PastThePipe(file, p, owner);
      }
      ChildMoves(file, p, o.proc.child, o.proc.marks.entered, owner);
    }
  }

  lemma CrashKeeps(file: File, p: Proc, owner: nat)
    requires Inv(file, p, owner) && ParentAlive(p)
    ensures Inv(file, p.(parent := p.parent.(pc := Crashed, writeEnd := false)), owner)
  {
    hide Receipt.Accepted, Receipt.SummaryOf, Receipt.ValidEvidence, Initial, Launched, Base;
    hide FailedWith, FailedResult, CompletedResult, ChildImage, MarksMatch;
    ImageFacts(owner);
  }

  lemma ForkInterruptedKeeps(file: File, p: Proc, owner: nat)
    requires Inv(file, p, owner) && p.parent.pc.Fork?
    ensures var o := At(file, p.(child := Starting, marks := p.marks.(pidLost := true)), LaunchCaught);
            Inv(o.file, o.proc, owner)
  {
    hide Receipt.Accepted, Receipt.SummaryOf, Receipt.ValidEvidence, Initial, Launched, Base;
    hide FailedWith, FailedResult, CompletedResult, ChildImage, MarksMatch;
    ImageFacts(owner);
  }

  lemma ReleaseInterruptedKeeps(file: File, p: Proc, owner: nat)
    requires Inv(file, p, owner) && p.parent.pc.WriteRelease?
    ensures var o := At(file, p.(pipeByte := true, marks := p.marks.(released := true)), LaunchCaught);
            Inv(o.file, o.proc, owner)
  {
    hide Receipt.Accepted, Receipt.SummaryOf, Receipt.ValidEvidence, Initial, Launched, Base;
    hide FailedWith, FailedResult, CompletedResult, ChildImage, MarksMatch;
    ImageFacts(owner);
  }

  /** Every event of the creating launcher and its child keeps the invariant. */
  lemma NextKeeps(file: File, p: Proc, e: Event, owner: nat)
    requires Inv(file, p, owner)
    ensures var o := Next(file, p, e, owner); Inv(o.file, o.proc, owner)
  {
    hide Inv, ChildStep, ProceedParent, FailParent, InterruptParent, WriteParent, ScanParent, ReapParent;
    hide WaitParent, EvidenceParent, ParsedParent;
    NotEarly(file, p, owner);
    if IsChildEvent(e) {
      ChildKeeps(file, p, e, owner);
    } else if ParentAlive(p) {
      match e
      case Proceed => ProceedKeeps(file, p, owner);
      case Fail => FailKeeps(file, p, owner);
      case Interrupt => InterruptKeeps(file, p, owner);
      case Crash => CrashKeeps(file, p, owner);
      case ForkInterrupted =>
        if p.parent.pc.Fork? {
          ForkInterruptedKeeps(file, p, owner);
        }
      case ReleaseInterrupted =>
        if p.parent.pc.WriteRelease? {
          ReleaseInterruptedKeeps(file, p, owner);
        }
      case Write(outcome) => WriteKeeps(file, p, outcome, owner);
      case Scanned(items) => ScanKeeps(file, p, items, owner);
      case Reap(ok) => ReapKeeps(file, p, ok, owner);
      case ChildObserved => WaitKeeps(file, p, e, owner);
      case ChildLost => WaitKeeps(file, p, e, owner);
      case DeadlineExpired => WaitKeeps(file, p, e, owner);
      case EvidenceBuilt(evidence) => EvidenceKeeps(file, p, evidence, owner);
      case Parsed(payload) => ParsedKeeps(file, p, payload, owner);
      case _ =>
    }
  }
}
