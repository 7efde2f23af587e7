/**
 * The lock loop and the analyse, clean and retry sequence of
 * scripts/bootstrap_dev_environment.py as methods of one process, and their agreement
 * with the transition system in which processes interleave.
 */
module BootstrapSequence {
  import opened Wrappers
  import opened Bootstrap
  import Timing

  /** How one run of the analyser ends. */
  datatype Analysis = Analysis(ok: bool, left: Index, corruption: bool)

  /** What one locked sequence meets: the identity found, two analyses at most, and the clean between them. */
  datatype Conditions = Conditions(exact: bool, first: Analysis, cleaned: bool, second: Analysis)

  /** The index, the analyses and cleans made, and `Ok(true)` if an analysis succeeded, `Ok(false)` if none was needed. */
  datatype Sequence = Sequence(index: Index, analyses: nat, cleans: nat, result: Result<bool, ()>)

  function Left(a: Analysis): Index {
    if a.ok then UpToDate else a.left
  }

  function Sequenced(index: Index, c: Conditions): Sequence {
    if index.UpToDate? then Sequence(index, 0, 0, Ok(false))
    else if index.Broken? then Sequence(index, 0, 0, Err(()))
    else if c.first.ok then Sequence(UpToDate, 1, 0, Ok(true))
    else if !c.exact || !c.first.corruption then Sequence(c.first.left, 1, 0, Err(()))
    else if !c.cleaned then Sequence(c.first.left, 1, 1, Err(()))
    else Sequence(Left(c.second), 2, 1, if c.second.ok then Ok(true) else Err(()))
  }

  /** The same sequence as events of process `i`. */
  function Events(i: nat, index: Index, c: Conditions): seq<(nat, Event)> {
    [(i, Inspected(c.exact, true))] + if index.Stale? then AnalysisEvents(i, c) else []
  }

  function AnalysisEvents(i: nat, c: Conditions): seq<(nat, Event)> {
    [(i, AnalysisEnded(c.first.ok, c.first.left, c.first.corruption))]
    + if c.first.ok || !c.exact || !c.first.corruption then [] else CleanEvents(i, c)
  }

  function CleanEvents(i: nat, c: Conditions): seq<(nat, Event)> {
    [(i, CleanEnded(c.cleaned))]
    + if c.cleaned then [(i, AnalysisEnded(c.second.ok, c.second.left, c.second.corruption))] else []
  }

  class Host {
    const drift: nat -> nat
    const held: nat -> bool
    var now: int
    var steps: nat
    var attempts: nat
    var index: Index
    var analyses: nat
    var cleans: nat

    constructor (drift: nat -> nat, held: nat -> bool, now: int, index: Index)
      ensures this.index == index && attempts == analyses == cleans == 0
    {
      this.drift, this.held, this.now, this.index := drift, held, now, index;
      steps, attempts, analyses, cleans := 0, 0, 0, 0;
    }

    method Monotonic() returns (t: int)
      modifies this`now, this`steps
      ensures t == now >= old(now) && steps == old(steps) + 1
    {
      now, steps := now + drift(steps), steps + 1;
      t := now;
    }

    method Sleep()
      modifies this`now, this`steps
      ensures now >= old(now) + Timing.POLL
    {
      now, steps := now + Timing.POLL + drift(steps), steps + 1;
    }

    method TryLock() returns (locked: bool)
      modifies this`steps, this`attempts
      ensures attempts == old(attempts) + 1 && locked == !held(old(steps))
    {
      locked := !held(steps);
      steps, attempts := steps + 1, attempts + 1;
    }

    /** The lock is given up only after the whole timeout, and tried a bounded number of times; a free lock needs one. */
    method WaitForLock(timeout: int) returns (locked: bool)
      requires timeout >= 0
      modifies this`now, this`steps, this`attempts
      ensures !locked ==> now >= old(now) + timeout
      ensures !held(old(steps) + 1) ==> locked && attempts == old(attempts) + 1
      ensures old(attempts) < attempts <= old(attempts) + Timing.PollLimit(timeout)
    {
      var start := Monotonic();
      var deadline := start + timeout;
      locked := TryLock();
      ghost var ahead := Timing.Sleeps(timeout);
      while !locked
        invariant now >= start >= old(now) && ahead >= 0 && Timing.Sleeps(deadline - now) <= ahead
        invariant old(attempts) < attempts && attempts + ahead <= old(attempts) + Timing.PollLimit(timeout)
        invariant !held(old(steps) + 1) ==> locked && attempts == old(attempts) + 1
        decreases ahead, !locked
      {
        ghost var before := now;
        var time := Monotonic();
        if time >= deadline {
          return false;
        }
        Timing.SleepsMonotone(deadline - time, deadline - before);
        Sleep();
        Timing.SleepUsesOne(deadline - time, deadline - now);
        ahead := ahead - 1;
        locked := TryLock();
      }
    }

    method Analyze(a: Analysis) returns (ok: bool)
      modifies this`index, this`analyses
      ensures ok == a.ok && index == Left(a) && analyses == old(analyses) + 1
    {
      index, analyses, ok := Left(a), analyses + 1, a.ok;
    }

    method Clean(cleaned: bool) returns (ok: bool)
      modifies this`index, this`cleans
      ensures ok == cleaned && cleans == old(cleans) + 1 && index == if cleaned then Stale else old(index)
    {
      if cleaned {
        index := Stale;
      }
      cleans, ok := cleans + 1, cleaned;
    }

    /** Inside the lock: inspect, analyse, and on the known corruption of the exact worktree clean and retry once. */
    method AnalyzeIfNeeded(c: Conditions) returns (r: Result<bool, ()>)
      modifies this`index, this`analyses, this`cleans
      ensures var s := Sequenced(old(index), c);
              && index == s.index && r == s.result
              && analyses == old(analyses) + s.analyses && cleans == old(cleans) + s.cleans
      ensures old(analyses) <= analyses <= old(analyses) + 2 && old(cleans) <= cleans <= old(cleans) + 1
      ensures r.Ok? ==> index.UpToDate? && (r.value <==> analyses > old(analyses))
      ensures r == Ok(false) <==> old(index).UpToDate?
      ensures old(index) != Stale ==> analyses == old(analyses) && cleans == old(cleans) && index == old(index)
      ensures cleans > old(cleans) ==> analyses > old(analyses) && !c.first.ok && c.exact && c.first.corruption
      ensures analyses == old(analyses) + 2 ==> cleans == old(cleans) + 1 && c.cleaned
    {
      if index.UpToDate? { return Ok(false); }
      if index.Broken? { return Err(()); }
      var ok := Analyze(c.first);
      if ok { return Ok(true); }
      if !c.exact || !c.first.corruption { return Err(()); }
      ok := Clean(c.cleaned);
      if !ok { return Err(()); }
      ok := Analyze(c.second);
      r := if ok then Ok(true) else Err(());
    }
  }

  lemma ExecHead(w: World, i: nat, e: Event, rest: seq<(nat, Event)>)
    ensures Exec(w, [(i, e)] + rest) == Exec(Step(w, i, e), rest)
  {
    hide Step;
    assert ([(i, e)] + rest)[1..] == rest;
  }

  /** The world after a step of its lock holder that keeps or leaves the lock. */
  function HolderStep(w: World, i: nat, q: Proc, index: Index): World
    requires i < |w.procs|
  {
    World(index, if Holding(q.pc) then Some(i) else None, w.procs[i := q], w.orphans, w.deaths)
  }

  lemma StepOfHolder(w: World, i: nat, e: Event)
    requires i < |w.procs| && Holding(w.procs[i].pc) && !e.Dies? && !e.OrphanEnded?
    ensures Step(w, i, e)
            == HolderStep(w, i, Local(w.index, w.lock.None?, w.procs[i], e), IndexAfter(w.index, w.procs[i], e))
  {
    hide Local, IndexAfter;
  }

  /** The process holds the lock, or has left it with the result. */
  predicate Ended(w: World, i: nat, p: Proc, s: Sequence) {
    && i < |w.procs| && w.index == s.index && w.lock.None?
    && w.procs[i].pc == (if s.result.Ok? then Verifying else Done(false))
    && w.procs[i].analyses == p.analyses + s.analyses && w.procs[i].cleans == p.cleans + s.cleans
  }

  /** From the lock on, the transition system and the method end with the same index, counts and result. */
  lemma SequenceAgrees(w: World, i: nat, c: Conditions)
    requires i < |w.procs| && w.procs[i].pc.Locked? && w.lock == Some(i)
    ensures Ended(Exec(w, Events(i, w.index, c)), i, w.procs[i], Sequenced(w.index, c))
  {
    hide Step, Local, AnalysisEvents;
    var p, look := w.procs[i], Inspected(c.exact, true);
    StepOfHolder(w, i, look);
    LookEffect(w.index, p, look);
    ExecHead(w, i, look, if w.index.Stale? then AnalysisEvents(i, c) else []);
    if w.index.Stale? {
      var q := p.(pc := Analyzing(false), identified := c.exact, analyses := p.analyses + 1);
      AnalysisAgrees(HolderStep(w, i, q, w.index), i, c);
    }
  }

  lemma LookEffect(index: Index, p: Proc, e: Event)
    requires p.pc.Locked? && e.Inspected?
    ensures Local(index, false, p, e) == LockedLook(index, p, e) && IndexAfter(index, p, e) == index
  {
  }

  /** From the first analysis on. */
  lemma AnalysisAgrees(w: World, i: nat, c: Conditions)
    requires i < |w.procs| && w.procs[i].pc == Analyzing(false) && w.lock == Some(i) && w.index.Stale?
    requires w.procs[i].analyses > 0 && w.procs[i].identified == c.exact
    ensures var p := w.procs[i].(analyses := w.procs[i].analyses - 1);
            Ended(Exec(w, AnalysisEvents(i, c)), i, p, Sequenced(Stale, c))
  {
    hide Step, Local, CleanEvents;
    var p, end := w.procs[i], AnalysisEnded(c.first.ok, c.first.left, c.first.corruption);
    StepOfHolder(w, i, end);
    AnalysisEffect(w.index, p, end);
    var q := AnalysisStep(p, end);
    ExecHead(w, i, end, if q.pc.Cleaning? then CleanEvents(i, c) else []);
    if q.pc.Cleaning? {
      CleanAgrees(HolderStep(w, i, q, c.first.left), i, c);
    }
  }

  /** From the clean on. */
  lemma CleanAgrees(w: World, i: nat, c: Conditions)
    requires i < |w.procs| && w.procs[i].pc.Cleaning? && w.lock == Some(i)
    ensures var end, p := Exec(w, CleanEvents(i, c)), w.procs[i];
            && |end.procs| == |w.procs| && end.lock.None? && end.index == (if c.cleaned then Left(c.second) else w.index)
            && end.procs[i].pc == (if c.cleaned && c.second.ok then Verifying else Done(false))
            && end.procs[i].analyses == p.analyses + (if c.cleaned then 1 else 0) && end.procs[i].cleans == p.cleans
  {
    hide Step, Local;
    var p, clean := w.procs[i], CleanEnded(c.cleaned);
    StepOfHolder(w, i, clean);
    CleanEffect(w.index, p, clean);
    var last := AnalysisEnded(c.second.ok, c.second.left, c.second.corruption);
    ExecHead(w, i, clean, if c.cleaned then [(i, last)] else []);
    if c.cleaned {
      var retry := p.(pc := Analyzing(true), analyses := p.analyses + 1);
      var w1 := HolderStep(w, i, retry, Stale);
      StepOfHolder(w1, i, last);
      AnalysisEffect(w1.index, retry, last);
      ExecHead(w1, i, last, []);
      assert [(i, last)] + [] == [(i, last)];
    }
  }

  lemma AnalysisEffect(index: Index, p: Proc, e: Event)
    requires p.pc.Analyzing? && e.AnalysisEnded?
    ensures Local(index, false, p, e) == AnalysisStep(p, e)
    ensures IndexAfter(index, p, e) == if e.ok then UpToDate else e.left
  {
  }

  lemma CleanEffect(index: Index, p: Proc, e: Event)
    requires p.pc.Cleaning? && e.CleanEnded?
    ensures Local(index, false, p, e)
            == if e.ok then p.(pc := Analyzing(true), analyses := p.analyses + 1) else p.(pc := Done(false))
    ensures IndexAfter(index, p, e) == if e.ok then Stale else index
  {
  }
}
