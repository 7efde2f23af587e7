/**
 * The preparation of the code-graph index in scripts/bootstrap_dev_environment.py: any
 * number of processes on one worktree, each free to check the tool, look at the index,
 * wait for the lock, analyse, clean and retry, or die, in any interleaving.  Nothing
 * else changes the worktree, and an analysis that exits 0 leaves the index up to date.
 */
module Bootstrap {
  import opened Wrappers

  datatype Index = UpToDate | Stale | Broken

  datatype Pc =
    | Tool | FirstLook | Waiting
    | Locked | Analyzing(retry: bool) | Cleaning
    | Verifying | Done(ok: bool) | Dead

  /** `identified`, `corrupt`: the exact worktree was identified, the known corruption recognised. */
  datatype Proc = Proc(
    checkOnly: bool, pc: Pc, identified: bool, corrupt: bool,
    installs: nat, analyses: nat, cleans: nat, succeeded: nat)

  /**
   * `deaths`: processes that died while their own analysis or clean was running.
   * `orphans`: those analyses and cleans that still run, without the lock.
   */
  datatype World = World(index: Index, lock: Option<nat>, procs: seq<Proc>, orphans: nat, deaths: nat)

  datatype Event =
    | ToolChecked(present: bool, versionOk: bool, repaired: bool)
    | Inspected(exact: bool, scopeOk: bool)
    | LockTried(expired: bool)
    | AnalysisEnded(ok: bool, left: Index, corruption: bool)
    | CleanEnded(ok: bool)
    | Raises
    | Dies
    | OrphanEnded(left: Index)

  predicate Holding(pc: Pc) {
    pc.Locked? || Working(pc)
  }

  /** An analysis or a clean is running. */
  predicate Working(pc: Pc) {
    pc.Analyzing? || pc.Cleaning?
  }

  /** `_ensure_gitnexus_tool`. */
  function ToolStep(p: Proc, e: Event): Proc
    requires e.ToolChecked?
  {
    if e.present && e.versionOk then p.(pc := FirstLook)
    else if p.checkOnly then p.(pc := Done(false))
    else p.(installs := p.installs + 1, pc := if e.repaired then FirstLook else Done(false))
  }

  /** The first inspection, outside the lock. */
  function LookStep(index: Index, p: Proc, e: Event): Proc
    requires e.Inspected?
  {
    if index.UpToDate? then p.(pc := Done(e.scopeOk))
    else if index.Broken? || p.checkOnly then p.(pc := Done(false))
    else p.(pc := Waiting)
  }

  /** Inside the lock: another process may have finished meanwhile. */
  function LockedLook(index: Index, p: Proc, e: Event): Proc
    requires e.Inspected?
  {
    if index.UpToDate? then p.(pc := Verifying)
    else if index.Broken? then p.(pc := Done(false))
    else p.(pc := Analyzing(false), identified := e.exact, analyses := p.analyses + 1)
  }

  function AnalysisStep(p: Proc, e: Event): Proc
    requires p.pc.Analyzing? && e.AnalysisEnded?
  {
    if e.ok then p.(pc := Verifying, succeeded := p.succeeded + 1)
    else if !p.pc.retry && p.identified && e.corruption then p.(pc := Cleaning, corrupt := true, cleans := p.cleans + 1)
    else p.(pc := Done(false))
  }

  /** What an event does to its process; one that does not fit the program point does nothing. */
  function Local(index: Index, free: bool, p: Proc, e: Event): Proc {
    if p.pc.Done? || p.pc.Dead? then p
    else
      match e
      case Dies => p.(pc := Dead)
      case Raises => if Working(p.pc) then p else p.(pc := Done(false))
      case ToolChecked(_, _, _) => if p.pc.Tool? then ToolStep(p, e) else p
      case Inspected(_, scopeOk) =>
        if p.pc.FirstLook? then LookStep(index, p, e)
        else if p.pc.Locked? then LockedLook(index, p, e)
        else if p.pc.Verifying? then p.(pc := Done(index.UpToDate? && scopeOk))
        else p
      case LockTried(expired) =>
        if !p.pc.Waiting? then p
        else if free then p.(pc := Locked)
        else if expired then p.(pc := Done(false))
        else p
      case AnalysisEnded(_, _, _) => if p.pc.Analyzing? then AnalysisStep(p, e) else p
      case CleanEnded(ok) =>
        if !p.pc.Cleaning? then p
        else if ok then p.(pc := Analyzing(true), analyses := p.analyses + 1)
        else p.(pc := Done(false))
      case OrphanEnded(_) => p
  }

  /** The index after the event; a clean removes it. */
  function IndexAfter(index: Index, p: Proc, e: Event): Index {
    if e.AnalysisEnded? && p.pc.Analyzing? then (if e.ok then UpToDate else e.left)
    else if e.CleanEnded? && p.pc.Cleaning? && e.ok then Stale
    else index
  }

  function Orphaned(p: Proc, e: Event): nat {
    if e.Dies? && Working(p.pc) then 1 else 0
  }

  /** The lock is taken on entering its block and released on leaving it, dying included. */
  function Step(w: World, i: nat, e: Event): World {
    if e.OrphanEnded? then (if w.orphans > 0 then w.(index := e.left, orphans := w.orphans - 1) else w)
    else if i >= |w.procs| then w
    else
      var p := w.procs[i];
      var q := Local(w.index, w.lock.None?, p, e);
      World(IndexAfter(w.index, p, e),
            if Holding(q.pc) then Some(i) else if Holding(p.pc) then None else w.lock,
            w.procs[i := q],
            w.orphans + Orphaned(p, e),
            w.deaths + Orphaned(p, e))
  }

  function Exec(w: World, schedule: seq<(nat, Event)>): World
    decreases |schedule|
  {
    if schedule == [] then w else Exec(Step(w, schedule[0].0, schedule[0].1), schedule[1..])
  }

  predicate Initial(w: World) {
    && w.lock.None? && w.orphans == w.deaths == 0
    && forall i :: 0 <= i < |w.procs| ==> w.procs[i] == Proc(w.procs[i].checkOnly, Tool, false, false, 0, 0, 0, 0)
  }

  // ---- What every process keeps -----------------------------------------

  /** Analyses and cleans by program point: the retry needs the clean, and the clean needs its two grounds. */
  predicate Counts(p: Proc) {
    && (p.pc.Tool? || p.pc.FirstLook? || p.pc.Waiting? || p.pc.Locked? ==> p.analyses == 0)
    && (p.pc == Analyzing(false) ==> p.analyses == 1 && p.cleans == 0)
    && (p.pc.Cleaning? ==> p.analyses == 1 && p.cleans == 1)
    && (p.pc == Analyzing(true) ==> p.analyses == 2)
    && p.cleans <= p.analyses <= p.cleans + 1 <= 2
    && (p.cleans > 0 ==> p.identified && p.corrupt)
    && (p.analyses == 0 ==> p.succeeded == 0) && p.succeeded <= 1
    && (Working(p.pc) ==> p.succeeded == 0)
    && (p.installs <= 1) && (p.pc.Tool? ==> p.installs == 0)
  }

  /** With `--check` nothing is installed, waited for, analysed or cleaned. */
  predicate Checked(p: Proc) {
    p.checkOnly ==>
      && p.installs == 0 && p.analyses == 0 && p.cleans == 0
      && (p.pc.Tool? || p.pc.FirstLook? || p.pc.Done? || p.pc.Dead?)
  }

  predicate LockHeld(w: World) {
    && (w.lock.Some? ==> w.lock.value < |w.procs|)
    && forall i :: 0 <= i < |w.procs| ==> (Holding(w.procs[i].pc) <==> w.lock == Some(i))
  }

  predicate NobodyWorks(w: World) {
    forall i :: 0 <= i < |w.procs| ==> !Working(w.procs[i].pc)
  }

  predicate AllCounts(w: World) {
    forall i :: 0 <= i < |w.procs| ==> Counts(w.procs[i]) && Checked(w.procs[i])
  }

  /** Unless a process died at work, a success leaves the index up to date, idle, and is the only one. */
  predicate OneSuccess(w: World) {
    w.deaths == 0 ==>
      forall i :: 0 <= i < |w.procs| && w.procs[i].succeeded > 0 ==>
        && w.index.UpToDate? && NobodyWorks(w)
        && forall j :: 0 <= j < |w.procs| && j != i ==> w.procs[j].succeeded == 0
  }

  predicate Inv(w: World) {
    LockHeld(w) && AllCounts(w) && w.orphans <= w.deaths && OneSuccess(w)
  }

  lemma LockHeldKept(w: World, i: nat, e: Event)
    requires LockHeld(w)
    ensures LockHeld(Step(w, i, e))
  {
  }

  /** A step changes no other process. */
  lemma OthersKept(w: World, i: nat, e: Event)
    ensures |Step(w, i, e).procs| == |w.procs|
    ensures forall j :: 0 <= j < |w.procs| && j != i ==> Step(w, i, e).procs[j] == w.procs[j]
  {
  }

  lemma CountsKept(index: Index, free: bool, p: Proc, e: Event)
    requires Counts(p)
    ensures Counts(Local(index, free, p, e))
  {
    hide Checked;
  }

  lemma CheckedKept(index: Index, free: bool, p: Proc, e: Event)
    requires Checked(p)
    ensures Checked(Local(index, free, p, e))
  {
  }

  lemma OneSuccessKept(w: World, i: nat, e: Event)
    requires Inv(w)
    ensures OneSuccess(Step(w, i, e))
  {
    hide Counts, Checked;
    if i < |w.procs| {
      WorkingHasNoSuccess(w, i);
    }
    hide AllCounts;
  }

  lemma OrphansKept(w: World, i: nat, e: Event)
    requires w.orphans <= w.deaths
    ensures Step(w, i, e).orphans <= Step(w, i, e).deaths && Step(w, i, e).deaths >= w.deaths
  {
    hide Local, IndexAfter;
  }

  lemma WorkingHasNoSuccess(w: World, i: nat)
    requires AllCounts(w) && i < |w.procs|
    ensures Working(w.procs[i].pc) ==> w.procs[i].succeeded == 0
  {
  }

  lemma StepIsLocal(w: World, i: nat, e: Event)
    requires i < |w.procs|
    ensures Step(w, i, e).procs[i] == Local(w.index, w.lock.None?, w.procs[i], e)
  {
  }

  lemma {:induction false} InvKept(w: World, schedule: seq<(nat, Event)>)
    requires Inv(w)
    ensures Inv(Exec(w, schedule))
    decreases |schedule|
  {
    hide Step, Local, LockHeld, OneSuccess, Counts, Checked;
    if schedule != [] {
      var i, e := schedule[0].0, schedule[0].1;
      LockHeldKept(w, i, e);
      OthersKept(w, i, e);
      if i < |w.procs| {
        CountsKept(w.index, w.lock.None?, w.procs[i], e);
        CheckedKept(w.index, w.lock.None?, w.procs[i], e);
        StepIsLocal(w, i, e);
      }
      OneSuccessKept(w, i, e);
      OrphansKept(w, i, e);
      InvKept(Step(w, i, e), schedule[1..]);
    }
  }

  lemma Reachable(w: World, schedule: seq<(nat, Event)>)
    requires Initial(w)
    ensures Inv(Exec(w, schedule))
  {
    assert Inv(w);
    InvKept(w, schedule);
  }

  // ---- The guarantees ---------------------------------------------------

  /** A live process analyses or cleans; only the lock holder can. */
  predicate HolderWorks(w: World) {
    w.lock.Some? && w.lock.value < |w.procs| && Working(w.procs[w.lock.value].pc)
  }

  /** All analyses and cleans that run, those of dead processes included. */
  function Running(w: World): nat {
    w.orphans + if HolderWorks(w) then 1 else 0
  }

  /** In every run at most one live process analyses or cleans, and it holds the lock. */
  lemma AnalysesNeverOverlap(w: World, schedule: seq<(nat, Event)>, i: nat, j: nat)
    requires Initial(w)
    ensures var end := Exec(w, schedule);
            && (i < |end.procs| && j < |end.procs| && Working(end.procs[i].pc) && Working(end.procs[j].pc) ==>
                  i == j && end.lock == Some(i))
            && Running(end) <= 1 + end.deaths
  {
    Reachable(w, schedule);
  }

  function Successes(procs: seq<Proc>): nat {
    if procs == [] then 0 else Successes(procs[..|procs| - 1]) + procs[|procs| - 1].succeeded
  }

  lemma {:induction false} SuccessesAfter(procs: seq<Proc>, i: nat, q: Proc)
    requires i < |procs|
    ensures Successes(procs[i := q]) == Successes(procs) - procs[i].succeeded + q.succeeded
  {
    var n := |procs| - 1;
    if i < n {
      assert procs[i := q][..n] == procs[..n][i := q];
      SuccessesAfter(procs[..n], i, q);
    } else {
      assert procs[i := q][..n] == procs[..n];
    }
  }

  /** Successes and overlaps still to be had without another death at work: a stale index or a worker gives one. */
  function Spare(w: World): nat {
    w.orphans + if w.index.Stale? || HolderWorks(w) then 1 else 0
  }

  /** A step trades its success for what was spare; only a death at work adds to it. */
  lemma SpareStep(w: World, i: nat, e: Event)
    requires LockHeld(w)
    ensures var after := Step(w, i, e);
            && Successes(after.procs) + Spare(after) <= Successes(w.procs) + Spare(w) + (after.deaths - w.deaths)
            && after.deaths >= w.deaths
  {
    hide Successes;
    if !e.OrphanEnded? && i < |w.procs| {
      LockHeldKept(w, i, e);
      SuccessesAfter(w.procs, i, Local(w.index, w.lock.None?, w.procs[i], e));
    }
  }

  /** Over any continuation. */
  lemma {:induction false} SpareKept(w: World, schedule: seq<(nat, Event)>)
    requires LockHeld(w)
    ensures var end := Exec(w, schedule);
            && LockHeld(end) && end.deaths >= w.deaths
            && Successes(end.procs) + Spare(end) <= Successes(w.procs) + Spare(w) + (end.deaths - w.deaths)
    decreases |schedule|
  {
    hide Step, LockHeld, Successes, Spare;
    if schedule != [] {
      var i, e := schedule[0].0, schedule[0].1;
      LockHeldKept(w, i, e);
      SpareStep(w, i, e);
      SpareKept(Step(w, i, e), schedule[1..]);
    }
  }

  /** In every run there is at most one success more than processes that died at work. */
  lemma SuccessesBounded(w: World, schedule: seq<(nat, Event)>)
    requires Initial(w)
    ensures Successes(Exec(w, schedule).procs) <= 1 + Exec(w, schedule).deaths
  {
    NoSuccessYet(w.procs);
    SpareKept(w, schedule);
  }

  lemma {:induction false} NoSuccessYet(procs: seq<Proc>)
    requires forall i :: 0 <= i < |procs| ==> procs[i].succeeded == 0
    ensures Successes(procs) == 0
  {
    if procs != [] {
      NoSuccessYet(procs[..|procs| - 1]);
    }
  }

  /** Unless a process died during its own analysis or clean, at most one ever succeeds. */
  lemma AtMostOneSucceeds(w: World, schedule: seq<(nat, Event)>, i: nat, j: nat)
    requires Initial(w) && Exec(w, schedule).deaths == 0
    ensures var end := Exec(w, schedule);
            && (i < |end.procs| && j < |end.procs| && end.procs[i].succeeded > 0 && end.procs[j].succeeded > 0 ==> i == j)
            && (i < |end.procs| && end.procs[i].succeeded > 0 ==> end.index.UpToDate?)
  {
    Reachable(w, schedule);
  }

  /** At most two analyses with one clean in between, and the clean only on its two grounds; none of it with `--check`. */
  lemma BoundedWork(w: World, schedule: seq<(nat, Event)>, i: nat)
    requires Initial(w) && i < |Exec(w, schedule).procs|
    ensures var p := Exec(w, schedule).procs[i];
            && p.analyses <= 2 && p.cleans <= 1 && p.installs <= 1 && p.succeeded <= 1
            && (p.analyses == 2 ==> p.cleans == 1)
            && (p.cleans == 1 ==> p.identified && p.corrupt)
            && (p.checkOnly ==> p.installs == p.analyses == p.cleans == 0)
  {
    Reachable(w, schedule);
  }

  /** An index that is up to date stays so, and nobody works on it. */
  predicate Idle(w: World) {
    w.index.UpToDate? && NobodyWorks(w) && w.orphans == 0
    && forall i :: 0 <= i < |w.procs| ==> w.procs[i].analyses == 0
  }

  lemma IdleKept(w: World, i: nat, e: Event)
    requires Idle(w)
    ensures Idle(Step(w, i, e))
  {
  }

  lemma {:induction false} ReadyIndexIsLeftAlone(w: World, schedule: seq<(nat, Event)>)
    requires Idle(w)
    ensures Idle(Exec(w, schedule))
    decreases |schedule|
  {
    hide Idle, Step;
    if schedule != [] {
      IdleKept(w, schedule[0].0, schedule[0].1);
      ReadyIndexIsLeftAlone(Step(w, schedule[0].0, schedule[0].1), schedule[1..]);
    }
  }

  /** A process reports success only on an index it has just seen up to date. */
  lemma SuccessWasSeen(w: World, i: nat, e: Event)
    requires i < |w.procs| && w.procs[i].pc != Done(true) && Step(w, i, e).procs[i].pc == Done(true)
    ensures e.Inspected? && e.scopeOk && w.index.UpToDate? && (w.procs[i].pc.FirstLook? || w.procs[i].pc.Verifying?)
  {
  }

  /** Everything that makes a running process fail; nothing else does. */
  predicate FailsBy(index: Index, free: bool, p: Proc, e: Event) {
    match e
    case Raises => !Working(p.pc)
    case ToolChecked(present, versionOk, repaired) =>
      p.pc.Tool? && !(present && versionOk) && (p.checkOnly || !repaired)
    case Inspected(_, scopeOk) =>
      || (p.pc.FirstLook? && (index.Broken? || (index.UpToDate? && !scopeOk) || (index.Stale? && p.checkOnly)))
      || (p.pc.Locked? && index.Broken?)
      || (p.pc.Verifying? && !(index.UpToDate? && scopeOk))
    case LockTried(expired) => p.pc.Waiting? && !free && expired
    case AnalysisEnded(ok, _, corruption) =>
      p.pc.Analyzing? && !ok && (p.pc.retry || !p.identified || !corruption)
    case CleanEnded(ok) => p.pc.Cleaning? && !ok
    case _ => false
  }

  lemma FailsExactly(w: World, i: nat, e: Event)
    requires i < |w.procs| && !w.procs[i].pc.Done? && !w.procs[i].pc.Dead?
    ensures Step(w, i, e).procs[i].pc == Done(false) <==> FailsBy(w.index, w.lock.None?, w.procs[i], e)
  {
  }

  /** The tool is present with its pinned version, or was repaired by a process that may install. */
  predicate SoundTool(e: Event, checkOnly: bool) {
    e.ToolChecked? && ((e.present && e.versionOk) || (e.repaired && !checkOnly))
  }

  /** The process has passed the tool check. */
  predicate PassedTool(pc: Pc) {
    pc.FirstLook? || pc.Waiting? || Holding(pc) || pc.Verifying? || pc == Done(true)
  }

  lemma ToolStepIsSound(index: Index, free: bool, p: Proc, e: Event)
    requires !PassedTool(p.pc)
    ensures var q := Local(index, free, p, e); PassedTool(q.pc) ==> p.pc.Tool? && SoundTool(e, p.checkOnly)
    ensures Local(index, free, p, e).checkOnly == p.checkOnly
  {
  }

  /** In every run a process goes on only after it found a sound tool, or repaired it. */
  lemma {:induction false} ToolWasSound(w: World, schedule: seq<(nat, Event)>, i: nat)
    requires i < |w.procs| && !PassedTool(w.procs[i].pc)
    ensures |Exec(w, schedule).procs| == |w.procs|
    ensures PassedTool(Exec(w, schedule).procs[i].pc) ==>
              exists k :: 0 <= k < |schedule| && schedule[k].0 == i && SoundTool(schedule[k].1, w.procs[i].checkOnly)
    decreases |schedule|
  {
    hide Step, Local, PassedTool, SoundTool;
    SuccessLasts(w, schedule);
    if schedule != [] {
      var j, e := schedule[0].0, schedule[0].1;
      OthersKept(w, j, e);
      if j == i {
        StepIsLocal(w, i, e);
        ToolStepIsSound(w.index, w.lock.None?, w.procs[i], e);
      }
      if !PassedTool(Step(w, j, e).procs[i].pc) {
        ToolWasSound(Step(w, j, e), schedule[1..], i);
        if PassedTool(Exec(w, schedule).procs[i].pc) {
          var k :| 0 <= k < |schedule| - 1 && schedule[1..][k].0 == i
                   && SoundTool(schedule[1..][k].1, w.procs[i].checkOnly);
          assert schedule[k + 1] == schedule[1..][k];
        }
      } else {
        assert schedule[0].0 == i;
      }
    }
  }

  function Fresh(): Proc {
    Proc(false, Tool, false, false, 0, 0, 0, 0)
  }

  /** A process that finds everything in order and the lock free, up to the end of its analysis. */
  function Attempt(i: nat, end: Event): seq<(nat, Event)> {
    [(i, ToolChecked(true, true, false)), (i, Inspected(true, true)), (i, LockTried(false)),
     (i, Inspected(true, true)), (i, end)]
  }

  lemma AttemptAnalyses(w: World, i: nat, end: Event)
    requires i < |w.procs| && w.procs[i] == Fresh() && w.index.Stale? && w.lock.None?
    ensures var p := Fresh().(pc := Analyzing(false), identified := true, analyses := 1);
            Exec(w, Attempt(i, end)) == Step(w.(procs := w.procs[i := p], lock := Some(i)), i, end)
  {
    hide Local, Step;
    var p, w0 := Fresh(), w.procs[i := Fresh()];
    assert w.procs == w0;
    var found, waiting, locked := p.(pc := FirstLook), p.(pc := Waiting), p.(pc := Locked);
    var w1, w2 := w.(procs := w.procs[i := found]), w.(procs := w.procs[i := waiting]);
    var w3 := w.(procs := w.procs[i := locked], lock := Some(i));
    Five(w, Attempt(i, end));
    AttemptSteps(w.index);
    Replaces(w, w.procs, i, p, ToolChecked(true, true, false), found);
    Replaces(w1, w.procs, i, found, Inspected(true, true), waiting);
    Replaces(w2, w.procs, i, waiting, LockTried(false), locked);
    Replaces(w3, w.procs, i, locked, Inspected(true, true), p.(pc := Analyzing(false), identified := true, analyses := 1));
  }

  lemma AttemptSteps(index: Index)
    requires index.Stale?
    ensures var p := Fresh();
            && Local(index, true, p, ToolChecked(true, true, false)) == p.(pc := FirstLook)
            && Local(index, true, p.(pc := FirstLook), Inspected(true, true)) == p.(pc := Waiting)
            && Local(index, true, p.(pc := Waiting), LockTried(false)) == p.(pc := Locked)
            && Local(index, false, p.(pc := Locked), Inspected(true, true))
               == p.(pc := Analyzing(false), identified := true, analyses := 1)
  {
  }

  lemma Replaces(w: World, procs: seq<Proc>, i: nat, p: Proc, e: Event, q: Proc)
    requires i < |procs| && w.procs == procs[i := p] && q == Local(w.index, w.lock.None?, p, e)
    requires e.ToolChecked? || e.Inspected? || e.LockTried?
    ensures Step(w, i, e)
            == w.(procs := procs[i := q],
                  lock := if Holding(q.pc) then Some(i) else if Holding(p.pc) then None else w.lock)
  {
    hide Local;
    assert procs[i := p][i := q] == procs[i := q];
  }

  const SUCCESS := AnalysisEnded(true, UpToDate, false)

  function Won(): Proc {
    Fresh().(pc := Verifying, identified := true, analyses := 1, succeeded := 1)
  }

  /** An attempt on a stale index succeeds and leaves everything else alone. */
  lemma AttemptSucceeds(w: World, i: nat)
    requires i < |w.procs| && w.procs[i] == Fresh() && w.index.Stale? && w.lock.None?
    ensures Exec(w, Attempt(i, SUCCESS)) == w.(index := UpToDate, procs := w.procs[i := Won()])
  {
    hide Step;
    var p := Fresh().(pc := Analyzing(false), identified := true, analyses := 1);
    AttemptAnalyses(w, i, SUCCESS);
    SuccessEffect(w.(procs := w.procs[i := p], lock := Some(i)), i);
    assert w.procs[i := p][i := Won()] == w.procs[i := Won()];
  }

  lemma UndoEffect(w: World)
    requires w.orphans > 0
    ensures Exec(w, [(0, OrphanEnded(Stale))]) == w.(index := Stale, orphans := w.orphans - 1)
  {
    assert Exec(w, [(0, OrphanEnded(Stale))]) == Exec(Step(w, 0, OrphanEnded(Stale)), []);
  }

  /** A process that dies while it analyses or cleans frees the lock, and its analysis or clean runs on. */
  lemma DeathEffect(w: World, i: nat)
    requires i < |w.procs| && (w.procs[i].pc.Analyzing? || w.procs[i].pc.Cleaning?)
    ensures Step(w, i, Dies)
            == World(w.index, None, w.procs[i := w.procs[i].(pc := Dead)], w.orphans + 1, w.deaths + 1)
  {
  }

  lemma SuccessEffect(w: World, i: nat)
    requires i < |w.procs| && w.procs[i].pc == Analyzing(false)
    ensures var p := w.procs[i].(pc := Verifying, succeeded := w.procs[i].succeeded + 1);
            Step(w, i, SUCCESS) == w.(index := UpToDate, lock := None, procs := w.procs[i := p])
  {
  }

  /** Both processes have succeeded in the continuation, and no further process died at work. */
  predicate BothSucceed(w: World, more: seq<(nat, Event)>, i: nat, j: nat) {
    var end := Exec(w, more);
    && end.deaths == w.deaths && i < |end.procs| && j < |end.procs|
    && end.procs[i].succeeded > 0 && end.procs[j].succeeded > 0
  }

  /** An orphan that ends after the first success makes room for the second. */
  lemma OrphanMakesRoom(w: World, i: nat, j: nat) returns (more: seq<(nat, Event)>)
    requires i < |w.procs| && j < |w.procs| && i != j && w.procs[i] == Fresh() && w.procs[j] == Fresh()
    requires w.lock.None? && w.index.Stale? && w.orphans > 0
    ensures BothSucceed(w, more, i, j)
  {
    hide Step, Attempt;
    var first, undo, second := Attempt(i, SUCCESS), [(0, OrphanEnded(Stale))], Attempt(j, SUCCESS);
    more := first + (undo + second);
    AttemptSucceeds(w, i);
    var w1 := w.(index := UpToDate, procs := w.procs[i := Won()]);
    ExecAppend(w, first, undo + second);
    UndoEffect(w1);
    var w2 := w1.(index := Stale, orphans := w.orphans - 1);
    ExecAppend(w1, undo, second);
    AttemptSucceeds(w2, j);
  }

  lemma {:induction false} SuccessesGrow(s: seq<Proc>, t: seq<Proc>)
    requires |s| == |t| && forall k :: 0 <= k < |s| ==> s[k].succeeded <= t[k].succeeded
    ensures Successes(s) <= Successes(t)
    ensures forall i :: 0 <= i < |s| && s[i].succeeded < t[i].succeeded ==> Successes(s) + 1 <= Successes(t)
    ensures forall i, j :: 0 <= i < j < |s| && s[i].succeeded < t[i].succeeded && s[j].succeeded < t[j].succeeded ==>
              Successes(s) + 2 <= Successes(t)
  {
    if s != [] {
      SuccessesGrow(s[..|s| - 1], t[..|t| - 1]);
    }
  }

  lemma {:induction false} SuccessLasts(w: World, schedule: seq<(nat, Event)>)
    ensures |Exec(w, schedule).procs| == |w.procs|
    ensures forall k :: 0 <= k < |w.procs| ==> w.procs[k].succeeded <= Exec(w, schedule).procs[k].succeeded
    decreases |schedule|
  {
    hide Step;
    if schedule != [] {
      var i, e := schedule[0].0, schedule[0].1;
      OthersKept(w, i, e);
      SuccessStays(w, i, e);
      SuccessLasts(Step(w, i, e), schedule[1..]);
    }
  }

  lemma SuccessStays(w: World, i: nat, e: Event)
    ensures i < |w.procs| ==> w.procs[i].succeeded <= Step(w, i, e).procs[i].succeeded
  {
  }

  /**
   * In every world where the lock is free, two processes that have yet to start can both
   * succeed without a further death at work exactly if two successes are spare: an
   * analysis that a dead process left running, and a stale index or another such analysis.
   */
  lemma SecondSuccessExactly(w: World, i: nat, j: nat)
    requires LockHeld(w) && w.lock.None?
    requires i < |w.procs| && j < |w.procs| && i != j && w.procs[i] == Fresh() && w.procs[j] == Fresh()
    ensures (exists more :: BothSucceed(w, more, i, j)) <==> Spare(w) >= 2
  {
    if more :| BothSucceed(w, more, i, j) {
      SpareKept(w, more);
      SuccessLasts(w, more);
      SuccessesGrow(w.procs, Exec(w, more).procs);
      assert w.procs[i].succeeded < Exec(w, more).procs[i].succeeded;
      assert w.procs[j].succeeded < Exec(w, more).procs[j].succeeded;
    }
    if Spare(w) >= 2 {
      if w.index.Stale? {
        var more := OrphanMakesRoom(w, i, j);
      } else {
        var undo := [(0, OrphanEnded(Stale))];
        UndoEffect(w);
        var more := OrphanMakesRoom(w.(index := Stale, orphans := w.orphans - 1), i, j);
        ExecAppend(w, undo, more);
        assert BothSucceed(w, undo + more, i, j);
      }
    }
  }

  /** Two analyses or cleans run at once in the continuation, and no further process died at work. */
  predicate Overlap(w: World, more: seq<(nat, Event)>) {
    Exec(w, more).deaths == w.deaths && Running(Exec(w, more)) >= 2
  }

  /** Under the same condition, and no other, two analyses can come to run at once. */
  lemma OverlapExactly(w: World, i: nat)
    requires LockHeld(w) && w.lock.None? && i < |w.procs| && w.procs[i] == Fresh()
    ensures (exists more :: Overlap(w, more)) <==> Spare(w) >= 2
  {
    if more :| Overlap(w, more) {
      SpareKept(w, more);
      SuccessLasts(w, more);
      SuccessesGrow(w.procs, Exec(w, more).procs);
    }
    if w.orphans >= 2 {
      assert Overlap(w, []);
    } else if Spare(w) >= 2 {
      var p := Fresh().(pc := Analyzing(false), identified := true, analyses := 1);
      var more := Attempt(i, LockTried(false));
      AttemptAnalyses(w, i, LockTried(false));
      var end := w.(procs := w.procs[i := p], lock := Some(i));
      NothingToLock(end, i);
      assert Overlap(w, more);
    }
  }

  lemma NothingToLock(w: World, i: nat)
    requires i < |w.procs| && w.procs[i].pc == Analyzing(false) && w.lock == Some(i)
    ensures Step(w, i, LockTried(false)) == w
  {
    assert w.procs[i := w.procs[i]] == w.procs;
  }

  /**
   * The exception is real: a process that dies while it analyses releases the lock and
   * leaves its analysis running; it can undo the index after another success.
   */
  lemma OrphanAllowsASecondSuccess() returns (w: World, schedule: seq<(nat, Event)>)
    ensures Initial(w) && |w.procs| == 3
    ensures var end := Exec(w, schedule);
            |end.procs| == 3 && end.deaths == 1 && end.procs[1].succeeded == 1 && end.procs[2].succeeded == 1
  {
    hide Local, Step;
    w := World(Stale, None, [Fresh(), Fresh(), Fresh()], 0, 0);
    var p := Fresh().(pc := Analyzing(false), identified := true, analyses := 1);
    AttemptAnalyses(w, 0, Dies);
    DeathEffect(w.(procs := w.procs[0 := p], lock := Some(0)), 0);
    var w1 := Exec(w, Attempt(0, Dies));
    assert w1.procs == [p.(pc := Dead), Fresh(), Fresh()];
    var more := OrphanMakesRoom(w1, 1, 2);
    schedule := Attempt(0, Dies) + more;
    ExecAppend(w, Attempt(0, Dies), more);
    Reachable(w, schedule);
    SuccessLasts(w, schedule);
  }

  lemma {:induction false} ExecAppend(w: World, left: seq<(nat, Event)>, right: seq<(nat, Event)>)
    ensures Exec(w, left + right) == Exec(Exec(w, left), right)
    decreases |left|
  {
    hide Step;
    if left == [] {
      assert left + right == right;
    } else {
      assert (left + right)[1..] == left[1..] + right;
      ExecAppend(Step(w, left[0].0, left[0].1), left[1..], right);
    }
  }

  lemma Five(w: World, s: seq<(nat, Event)>)
    requires |s| == 5
    ensures var w1 := Step(w, s[0].0, s[0].1);
            var w2 := Step(w1, s[1].0, s[1].1);
            var w3 := Step(w2, s[2].0, s[2].1);
            var w4 := Step(w3, s[3].0, s[3].1);
            Exec(w, s) == Step(w4, s[4].0, s[4].1)
  {
    hide Step;
    var w1 := Step(w, s[0].0, s[0].1);
    var w2 := Step(w1, s[1].0, s[1].1);
    var w3 := Step(w2, s[2].0, s[2].1);
    var w4 := Step(w3, s[3].0, s[3].1);
    assert s[1..][1..] == s[2..] && s[2..][1..] == s[3..] && s[3..][1..] == s[4..] && s[4..][1..] == [];
    assert s[4..] == [s[4]];
    assert Exec(w4, [s[4]]) == Exec(Step(w4, s[4].0, s[4].1), []);
    assert Exec(w, s) == Exec(w1, s[1..]) == Exec(w2, s[2..]) == Exec(w3, s[3..]) == Exec(w4, s[4..]);
  }
}
