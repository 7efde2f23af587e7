/**
 * The synthetic history of scripts/benchmark_agent_outcome.py (`_source_bytes`,
 * `generate_history`): the lines that are written, against the counts that the manifest
 * computes from the shape alone.
 */
module History {
  datatype Shape = Shape(
    threads: nat, turnsPerThread: nat, callsPerTurn: nat, toolsPerTurn: nat, activitiesPerTurn: nat, allowanceEvery: nat)

  datatype Line = Session | Turn | Call(allowance: bool) | Tool | Activity

  datatype Manifest = Manifest(
    sourceFiles: nat, turns: nat, modelCalls: nat, toolCalls: nat, activityEvents: nat, allowanceObservations: nat)

  datatype Tally = Tally(sessions: nat, turns: nat, calls: nat, tools: nat, activities: nat, allowances: nat)

  function Count(lines: seq<Line>): Tally {
    if lines == [] then Tally(0, 0, 0, 0, 0, 0)
    else
      var t := Count(lines[..|lines| - 1]);
      match lines[|lines| - 1]
      case Session => t.(sessions := t.sessions + 1)
      case Turn => t.(turns := t.turns + 1)
      case Call(allowance) =>
        t.(calls := t.calls + 1, allowances := t.allowances + if allowance then 1 else 0)
      case Tool => t.(tools := t.tools + 1)
      case Activity => t.(activities := t.activities + 1)
  }

  function Plus(s: Tally, t: Tally): Tally {
    Tally(s.sessions + t.sessions, s.turns + t.turns, s.calls + t.calls, s.tools + t.tools,
          s.activities + t.activities, s.allowances + t.allowances)
  }

  lemma CountSnoc(lines: seq<Line>, line: Line)
    ensures Count(lines + [line]) == Plus(Count(lines), Count([line]))
  {
    assert (lines + [line])[..|lines|] == lines;
    assert [line][..0] == [];
  }

  lemma {:induction false} CountAppend(left: seq<Line>, right: seq<Line>)
    ensures Count(left + right) == Plus(Count(left), Count(right))
  {
    if right == [] {
      assert left + right == left;
    } else {
      var most, last := right[..|right| - 1], right[|right| - 1];
      assert right == most + [last] && left + right == (left + most) + [last];
      CountAppend(left, most);
      CountSnoc(left + most, last);
      CountSnoc(most, last);
    }
  }

  function CallsPerThread(s: Shape): nat {
    s.turnsPerThread * s.callsPerTurn
  }

  /** The manifest's counts, from the shape alone. */
  function Promised(s: Shape): Manifest
    requires s.allowanceEvery > 0
  {
    var turns := s.threads * s.turnsPerThread;
    Manifest(s.threads, turns, turns * s.callsPerTurn, turns * s.toolsPerTurn, turns * s.activitiesPerTurn,
             s.threads * CallsPerThread(s) / s.allowanceEvery)
  }

  /** One more call reaches a multiple of the period exactly when the quotient grows. */
  lemma QuotientStep(n: nat, period: nat)
    requires period > 0
    ensures (n + 1) / period == n / period + if (n + 1) % period == 0 then 1 else 0
  {
    var q, r := n / period, n % period;
    assert n == q * period + r;
    if r + 1 == period {
      assert n + 1 == (q + 1) * period;
      QuotientUnique(n + 1, period, q + 1, 0);
    } else {
      QuotientUnique(n + 1, period, q, r + 1);
    }
  }

  lemma QuotientUnique(n: nat, period: nat, q: nat, r: nat)
    requires period > 0 && n == q * period + r && r < period
    ensures n / period == q && n % period == r
  {
    var p, s := n / period, n % period;
    assert p * period + s == q * period + r;
    if p < q {
      Multiples(p + 1, q, period);
    } else if q < p {
      Multiples(q + 1, p, period);
    }
  }

  lemma Multiples(a: nat, b: nat, n: nat)
    requires a <= b
    ensures a * n <= b * n
  {
  }

  /** The multiples of the period among the `n` calls that follow the first `before`. */
  function Due(before: nat, n: nat, period: nat): int
    requires period > 0
  {
    (before + n) / period - before / period
  }

  /** The lines of the calls of one turn; `before` calls were emitted in this file. */
  method CallLines(callOffset: nat, before: nat, s: Shape) returns (lines: seq<Line>)
    requires s.allowanceEvery > 0
    ensures Count(lines) == Tally(0, 0, s.callsPerTurn, 0, 0, Count(lines).allowances)
    ensures Count(lines).allowances == Due(callOffset + before, s.callsPerTurn, s.allowanceEvery)
  {
    lines := [];
    var callOrdinal := before;
    for call := 0 to s.callsPerTurn
      invariant callOrdinal == before + call
      invariant Count(lines) == Tally(0, 0, call, 0, 0, Count(lines).allowances)
      invariant Count(lines).allowances == Due(callOffset + before, call, s.allowanceEvery)
    {
      QuotientStep(callOffset + callOrdinal, s.allowanceEvery);
      callOrdinal := callOrdinal + 1;
      var line := Call((callOffset + callOrdinal) % s.allowanceEvery == 0);
      CountSnoc(lines, line);
      CountOne(line);
      lines := lines + [line];
    }
  }

  lemma CountOne(line: Line)
    ensures Count([line]) ==
              match line
              case Session => Tally(1, 0, 0, 0, 0, 0)
              case Turn => Tally(0, 1, 0, 0, 0, 0)
              case Call(allowance) => Tally(0, 0, 1, 0, 0, if allowance then 1 else 0)
              case Tool => Tally(0, 0, 0, 1, 0, 0)
              case Activity => Tally(0, 0, 0, 0, 1, 0)
  {
    assert [line][..0] == [];
  }

  method Repeated(line: Line, n: nat) returns (lines: seq<Line>)
    requires line.Tool? || line.Activity?
    ensures Count(lines) == if line.Tool? then Tally(0, 0, 0, n, 0, 0) else Tally(0, 0, 0, 0, n, 0)
  {
    lines := [];
    for i := 0 to n
      invariant Count(lines) == if line.Tool? then Tally(0, 0, 0, i, 0, 0) else Tally(0, 0, 0, 0, i, 0)
    {
      CountSnoc(lines, line);
      CountOne(line);
      lines := lines + [line];
    }
  }

  /** One turn, whatever its place: its allowances are the multiples of the period among its own calls. */
  method TurnLines(callOffset: nat, before: nat, s: Shape) returns (lines: seq<Line>)
    requires s.allowanceEvery > 0
    ensures Count(lines) == Tally(0, 1, s.callsPerTurn, s.toolsPerTurn, s.activitiesPerTurn, Count(lines).allowances)
    ensures Count(lines).allowances == Due(callOffset + before, s.callsPerTurn, s.allowanceEvery)
  {
    hide Count, Due;
    var calls := CallLines(callOffset, before, s);
    var tools := Repeated(Tool, s.toolsPerTurn);
    var activities := Repeated(Activity, s.activitiesPerTurn);
    lines := [Turn] + calls + tools + activities;
    CountAppend([Turn] + calls + tools, activities);
    CountAppend([Turn] + calls, tools);
    CountAppend([Turn], calls);
    CountOne(Turn);
  }

  /** One file: the counter restarts, and the offset makes the allowance test a global one. */
  method SourceLines(s: Shape, callOffset: nat) returns (lines: seq<Line>)
    requires s.allowanceEvery > 0
    ensures var t := Count(lines);
            && t.sessions == 1 && t.turns == s.turnsPerThread && t.calls == CallsPerThread(s)
            && t.tools == s.turnsPerThread * s.toolsPerTurn && t.activities == s.turnsPerThread * s.activitiesPerTurn
            && t.allowances == Due(callOffset, CallsPerThread(s), s.allowanceEvery)
  {
    lines := [Session];
    CountOne(Session);
    var callOrdinal := 0;
    for turn := 0 to s.turnsPerThread
      invariant callOrdinal == turn * s.callsPerTurn
      invariant var t := Count(lines);
                && t.sessions == 1 && t.turns == turn && t.calls == callOrdinal
                && t.tools == turn * s.toolsPerTurn && t.activities == turn * s.activitiesPerTurn
                && t.allowances == Due(callOffset, callOrdinal, s.allowanceEvery)
    {
      hide Count;
      var more := TurnLines(callOffset, callOrdinal, s);
      CountAppend(lines, more);
      NextMultiple(turn, s.callsPerTurn);
      NextMultiple(turn, s.toolsPerTurn);
      NextMultiple(turn, s.activitiesPerTurn);
      lines, callOrdinal := lines + more, callOrdinal + s.callsPerTurn;
    }
  }

  lemma NextMultiple(k: nat, n: nat)
    ensures (k + 1) * n == k * n + n
  {
  }

  /** All files together: what the manifest promises is what the lines hold, for every shape. */
  method GenerateHistory(s: Shape) returns (files: seq<seq<Line>>, manifest: Manifest)
    requires s.allowanceEvery > 0
    ensures |files| == s.threads && manifest == Promised(s)
    ensures var total := CountAll(files);
            manifest == Manifest(total.sessions, total.turns, total.calls, total.tools, total.activities, total.allowances)
  {
    files := [];
    ghost var total := Tally(0, 0, 0, 0, 0, 0);
    var callsPerThread := s.turnsPerThread * s.callsPerTurn;
    for thread := 0 to s.threads
      invariant |files| == thread && total == CountAll(files)
      invariant total.sessions == thread && total.turns == thread * s.turnsPerThread
      invariant total.calls == thread * callsPerThread
      invariant total.tools == thread * (s.turnsPerThread * s.toolsPerTurn)
      invariant total.activities == thread * (s.turnsPerThread * s.activitiesPerTurn)
      invariant total.allowances == (thread * callsPerThread) / s.allowanceEvery
    {
      hide Count;
      var lines := SourceLines(s, thread * callsPerThread);
      NextMultiple(thread, s.turnsPerThread);
      NextMultiple(thread, callsPerThread);
      NextMultiple(thread, s.turnsPerThread * s.toolsPerTurn);
      NextMultiple(thread, s.turnsPerThread * s.activitiesPerTurn);
      assert (files + [lines])[..thread] == files;
      files, total := files + [lines], Plus(total, Count(lines));
    }
    var turns := s.threads * s.turnsPerThread;
    Regroup(s.threads, s.turnsPerThread, s.callsPerTurn);
    Regroup(s.threads, s.turnsPerThread, s.toolsPerTurn);
    Regroup(s.threads, s.turnsPerThread, s.activitiesPerTurn);
    manifest := Manifest(s.threads, turns, turns * s.callsPerTurn, turns * s.toolsPerTurn,
                         turns * s.activitiesPerTurn, s.threads * callsPerThread / s.allowanceEvery);
  }

  lemma Regroup(a: nat, b: nat, c: nat)
    ensures a * (b * c) == a * b * c
  {
  }

  function CountAll(files: seq<seq<Line>>): Tally {
    if files == [] then Tally(0, 0, 0, 0, 0, 0) else Plus(CountAll(files[..|files| - 1]), Count(files[|files| - 1]))
  }
}
