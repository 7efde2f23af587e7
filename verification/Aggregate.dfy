/**
 * The classification of five qualification reports in
 * scripts/aggregate_performance_qualification.py.  Measurements are reals; the budgets
 * of the contract are a parameter.
 */
module Aggregate {
  import opened Wrappers

  datatype Outcome =
    | Pass | ProductRegression | RunnerUnqualified | SuiteTimeout | InvalidReport | TestFailure | Unknown(name: string)

  /** One raw observation; what is not a text or not a finite non-negative number is `None`. */
  datatype Raw = Raw(metric: Option<string>, observed: Option<real>, budget: Option<real>)

  /** `exitStatus`, `qualified`: `None` if not an integer, not a boolean. */
  datatype Report = Report(
    schemaMatches: bool, outcome: Outcome, exitStatus: Option<int>, qualified: Option<bool>, observations: seq<Raw>)

  type Budgets = map<string, real>
  type Observations = map<string, (real, real)>

  const REPETITIONS := 5

  // ---- Rounding and order statistics ------------------------------------

  /** Rounding to six places, halves to even, in millionths. */
  function Rounded(x: real): int {
    var scaled := x * 1000000.0;
    var below := scaled.Floor;
    var rest := scaled - below as real;
    if rest < 0.5 || (rest == 0.5 && below % 2 == 0) then below else below + 1
  }

  /** The nearest millionth, and of two that are as near the even one. */
  lemma RoundedIsNearest(x: real)
    ensures -0.5 <= 1000000.0 * x - Rounded(x) as real <= 0.5
    ensures 1000000.0 * x - Rounded(x) as real in {-0.5, 0.5} ==> Rounded(x) % 2 == 0
  {
    var scaled := x * 1000000.0;
    assert scaled == scaled.Floor as real + (scaled - scaled.Floor as real);
  }

  lemma RoundedMonotone(x: real, y: real)
    requires x <= y
    ensures Rounded(x) <= Rounded(y)
  {
    var a, b := x * 1000000.0, y * 1000000.0;
    assert a <= b;
    assert a.Floor <= b.Floor;
  }

  predicate Ordered(s: seq<real>) {
    forall i, j :: 0 <= i < j < |s| ==> s[i] <= s[j]
  }

  function Insert(x: real, s: seq<real>): (r: seq<real>)
    ensures multiset(r) == multiset{x} + multiset(s) && |r| == |s| + 1
    ensures Ordered(s) ==> Ordered(r)
  {
    if s == [] || x <= s[0] then [x] + s
    else
      assert s == [s[0]] + s[1..];
      var rest := Insert(x, s[1..]);
      InsertLater(x, s, rest);
      [s[0]] + rest
  }

  lemma InsertLater(x: real, s: seq<real>, rest: seq<real>)
    requires s != [] && x > s[0]
    requires multiset(rest) == multiset{x} + multiset(s[1..]) && (Ordered(s[1..]) ==> Ordered(rest))
    ensures Ordered(s) ==> Ordered([s[0]] + rest)
  {
    if Ordered(s) {
      var r := [s[0]] + rest;
      forall j | 0 < j < |r| ensures r[0] <= r[j] {
        assert r[j] in multiset(rest);
        assert r[j] == x || r[j] in s[1..];
      }
    }
  }

  function Sorted(s: seq<real>): (r: seq<real>)
    ensures multiset(r) == multiset(s) && |r| == |s| && Ordered(r)
  {
    if s == [] then []
    else
      assert s == [s[0]] + s[1..];
      Insert(s[0], Sorted(s[1..]))
  }

  /** The samples whose reported value exceeds the reported budget. */
  function Exceeding(samples: seq<real>, budget: real): nat {
    if samples == [] then 0
    else (if Rounded(samples[0]) > Rounded(budget) then 1 else 0) + Exceeding(samples[1..], budget)
  }

  lemma {:induction false} ExceedingAtMost(samples: seq<real>, budget: real)
    ensures Exceeding(samples, budget) <= |samples|
  {
    if samples != [] {
      ExceedingAtMost(samples[1..], budget);
    }
  }

  lemma {:induction false} ExceedingInsert(x: real, s: seq<real>, budget: real)
    ensures Exceeding(Insert(x, s), budget) == Exceeding([x] + s, budget)
  {
    assert ([x] + s)[1..] == s;
    if s != [] && x > s[0] {
      ExceedingInsert(x, s[1..], budget);
      assert Insert(x, s) == [s[0]] + Insert(x, s[1..]);
      assert Insert(x, s)[1..] == Insert(x, s[1..]);
      assert ([x] + s[1..])[1..] == s[1..];
    }
  }

  lemma {:induction false} ExceedingSorted(s: seq<real>, budget: real)
    ensures Exceeding(Sorted(s), budget) == Exceeding(s, budget)
  {
    if s != [] {
      ExceedingSorted(s[1..], budget);
      ExceedingInsert(s[0], Sorted(s[1..]), budget);
      assert ([s[0]] + Sorted(s[1..]))[1..] == Sorted(s[1..]);
    }
  }

  /** In ordered samples those that exceed come last. */
  lemma {:induction false} ExceedingInOrder(s: seq<real>, budget: real, k: nat)
    requires Ordered(s) && k < |s|
    ensures Rounded(s[k]) > Rounded(budget) <==> Exceeding(s, budget) >= |s| - k
  {
    var first := Rounded(s[0]) > Rounded(budget);
    RoundedMonotone(s[0], s[k]);
    ExceedingAtMost(s[1..], budget);
    if k > 0 {
      ExceedingInOrder(s[1..], budget, k - 1);
      if first {
        AllExceed(s, budget);
      }
    } else if first {
      AllExceed(s, budget);
    }
  }

  lemma {:induction false} AllExceed(s: seq<real>, budget: real)
    requires Ordered(s) && s != [] && Rounded(s[0]) > Rounded(budget)
    ensures Exceeding(s, budget) == |s|
  {
    if |s| > 1 {
      RoundedMonotone(s[0], s[1]);
      AllExceed(s[1..], budget);
    }
  }

  // ---- Raw samples ------------------------------------------------------

  function Counted(x: real, budget: real): nat {
    if Rounded(x) > Rounded(budget) then 1 else 0
  }

  lemma ExceedingOfFive(s: seq<real>, budget: real)
    requires |s| == REPETITIONS
    ensures Exceeding(s, budget)
            == Counted(s[0], budget) + Counted(s[1], budget) + Counted(s[2], budget)
               + Counted(s[3], budget) + Counted(s[4], budget)
  {
    hide Rounded;
    assert s[1..][1..] == s[2..] && s[2..][1..] == s[3..] && s[3..][1..] == s[4..] && s[4..][1..] == [];
    assert Exceeding(s[4..], budget) == Counted(s[4], budget);
    assert Exceeding(s[3..], budget) == Counted(s[3], budget) + Exceeding(s[4..], budget);
    assert Exceeding(s[2..], budget) == Counted(s[2], budget) + Exceeding(s[3..], budget);
    assert Exceeding(s[1..], budget) == Counted(s[1], budget) + Exceeding(s[2..], budget);
  }

  /** A sample counts if it is over the budget by more than a millionth, and not if it is within the budget. */
  lemma RoundingBounds(x: real, budget: real)
    ensures x > budget + 0.000001 ==> Rounded(x) > Rounded(budget)
    ensures x <= budget ==> Rounded(x) <= Rounded(budget)
  {
    RoundedIsNearest(x);
    RoundedIsNearest(budget);
    if x <= budget {
      RoundedMonotone(x, budget);
    }
    hide Rounded;
  }

  /** Three samples exceed the budget by more than a millionth. */
  predicate ClearlyOver(samples: seq<real>, budget: real) {
    exists i, j, k :: 0 <= i < j < k < |samples| && samples[i] > budget + 0.000001
                      && samples[j] > budget + 0.000001 && samples[k] > budget + 0.000001
  }

  /** Three samples are within the budget. */
  predicate ClearlyWithin(samples: seq<real>, budget: real) {
    exists i, j, k :: 0 <= i < j < k < |samples| && samples[i] <= budget && samples[j] <= budget && samples[k] <= budget
  }

  /** Whatever the rounding does, the raw samples say that a metric must breach, or that it must not. */
  lemma RawSamplesDecide(s: seq<real>, budget: real)
    requires |s| == REPETITIONS
    ensures ClearlyOver(s, budget) ==> Exceeding(s, budget) >= 3
    ensures ClearlyWithin(s, budget) ==> Exceeding(s, budget) < 3
  {
    hide Rounded, Exceeding;
    ExceedingOfFive(s, budget);
    forall i | 0 <= i < |s|
      ensures s[i] > budget + 0.000001 ==> Counted(s[i], budget) == 1
      ensures s[i] <= budget ==> Counted(s[i], budget) == 0
    {
      RoundingBounds(s[i], budget);
    }
    hide Counted;
  }

  // ---- Metrics ----------------------------------------------------------

  datatype Metric = Metric(name: string, budget: int, maximum: int, median: int, p95: int, samples: seq<int>)

  function RoundAll(samples: seq<real>): (r: seq<int>)
    ensures |r| == |samples| && forall i :: 0 <= i < |r| ==> r[i] == Rounded(samples[i])
  {
    seq(|samples|, i requires 0 <= i < |samples| => Rounded(samples[i]))
  }

  /** `math.ceil(n * 0.95) - 1`: the last of the least number of samples that are 95 of 100. */
  function P95Index(n: nat): int {
    (n * 95 + 99) / 100 - 1
  }

  lemma P95IndexIsLeast(n: nat, k: int)
    ensures k >= P95Index(n) <==> 100 * (k + 1) >= 95 * n
  {
  }

  function Summary(name: string, budget: real, samples: seq<real>): Metric
    requires |samples| == REPETITIONS
  {
    var ordered := Sorted(samples);
    Metric(name, Rounded(budget), Rounded(ordered[|ordered| - 1]), Rounded(ordered[REPETITIONS / 2]),
           Rounded(ordered[P95Index(|ordered|)]), RoundAll(samples))
  }

  predicate Breached(m: Metric) {
    m.median > m.budget
  }

  /** A metric breaches exactly when three of its five reported samples exceed the budget, and its p95 is its maximum. */
  lemma BreachedExactly(name: string, budget: real, samples: seq<real>)
    requires |samples| == REPETITIONS
    ensures var m := Summary(name, budget, samples);
            && (Breached(m) <==> Exceeding(samples, budget) >= 3)
            && m.p95 == m.maximum
            && (forall i :: 0 <= i < |m.samples| ==> m.samples[i] <= m.maximum)
  {
    hide Rounded, Sorted, Exceeding, Ordered;
    var ordered := Sorted(samples);
    ExceedingInOrder(ordered, budget, 2);
    ExceedingSorted(samples, budget);
    LastIsGreatest(samples);
  }

  lemma LastIsGreatest(samples: seq<real>)
    requires samples != []
    ensures forall i :: 0 <= i < |samples| ==> Rounded(samples[i]) <= Rounded(Sorted(samples)[|samples| - 1])
  {
    hide Rounded, Sorted;
    var ordered := Sorted(samples);
    forall i | 0 <= i < |samples| ensures Rounded(samples[i]) <= Rounded(ordered[|samples| - 1]) {
      assert samples[i] in multiset(ordered);
      var j :| 0 <= j < |ordered| && ordered[j] == samples[i];
      RoundedMonotone(ordered[j], ordered[|samples| - 1]);
    }
  }

  // ---- The observations of one report -----------------------------------

  predicate ValidRaw(raw: Raw) {
    raw.metric.Some? && raw.metric.value != "" && raw.observed.Some? && raw.budget.Some?
  }

  predicate ValidRaws(raws: seq<Raw>) {
    && (forall i :: 0 <= i < |raws| ==> ValidRaw(raws[i]))
    && (forall i, j :: 0 <= i < j < |raws| ==> raws[i].metric != raws[j].metric)
  }

  /** The map of a list of valid observations. */
  predicate IsMapOf(m: Observations, raws: seq<Raw>) {
    && (forall i :: 0 <= i < |raws| ==>
         ValidRaw(raws[i]) && raws[i].metric.value in m
         && m[raws[i].metric.value] == (raws[i].observed.value, raws[i].budget.value))
    && (forall name <- m :: exists i :: 0 <= i < |raws| && raws[i].metric == Some(name))
  }

  /** `None` for an empty list, a malformed entry or a repeated metric. */
  method ObservationMap(raws: seq<Raw>) returns (r: Option<Observations>)
    ensures r.Some? <==> raws != [] && ValidRaws(raws)
    ensures r.Some? ==> IsMapOf(r.value, raws)
  {
    if raws == [] {
      return None;
    }
    var observations: Observations := map[];
    for i := 0 to |raws|
      invariant ValidRaws(raws[..i]) && IsMapOf(observations, raws[..i])
    {
      var raw := raws[i];
      if raw.metric.None? || raw.metric.value == "" || raw.observed.None? || raw.budget.None? {
        return None;
      }
      if raw.metric.value in observations {
        var j :| 0 <= j < i && raws[..i][j].metric == raw.metric;
        assert raws[j].metric == raws[i].metric;
        return None;
      }
      ghost var before := observations;
      observations := observations[raw.metric.value := (raw.observed.value, raw.budget.value)];
      assert raws[..i + 1] == raws[..i] + [raw];
      MapGrows(before, raws[..i], raw);
    }
    assert raws[..|raws|] == raws;
    r := Some(observations);
  }

  lemma MapGrows(m: Observations, raws: seq<Raw>, raw: Raw)
    requires ValidRaws(raws) && IsMapOf(m, raws) && ValidRaw(raw) && raw.metric.value !in m
    ensures ValidRaws(raws + [raw])
    ensures IsMapOf(m[raw.metric.value := (raw.observed.value, raw.budget.value)], raws + [raw])
  {
    var longer := raws + [raw];
    forall name <- m ensures exists i :: 0 <= i < |longer| && longer[i].metric == Some(name) {
      var i :| 0 <= i < |raws| && raws[i].metric == Some(name);
      assert longer[i].metric == Some(name);
    }
    assert longer[|raws|].metric == Some(raw.metric.value);
  }

  // ---- The five reports -------------------------------------------------

  /** Metric names, each once, in sorted order, with their budgets. */
  type Contract = seq<(string, real)>

  /** What the report observed for a metric. */
  function Observed(raws: seq<Raw>, name: string): real {
    if raws == [] then 0.0
    else if raws[0].metric == Some(name) && raws[0].observed.Some? then raws[0].observed.value
    else Observed(raws[1..], name)
  }

  /** Well-formed observations of exactly the contract's metrics, each with the contract's budget. */
  predicate FollowsContract(raws: seq<Raw>, contract: Contract) {
    && raws != [] && ValidRaws(raws)
    && (forall i :: 0 <= i < |raws| ==> InContract(contract, raws[i].metric.value))
    && (forall k :: 0 <= k < |contract| ==> Budgeted(raws, contract[k].0, contract[k].1))
  }

  predicate InContract(contract: Contract, name: string) {
    exists k :: 0 <= k < |contract| && contract[k].0 == name
  }

  predicate Budgeted(raws: seq<Raw>, name: string, budget: real) {
    exists i :: 0 <= i < |raws| && raws[i].metric == Some(name) && raws[i].budget == Some(budget)
  }

  function Samples(reports: seq<Report>, name: string): (samples: seq<real>)
    ensures |samples| == |reports|
  {
    if reports == [] then []
    else [Observed(reports[0].observations, name)] + Samples(reports[1..], name)
  }

  predicate Completed(outcome: Outcome) {
    outcome.Pass? || outcome.ProductRegression? || outcome.RunnerUnqualified?
  }

  predicate Breaching(reports: seq<Report>, entry: (string, real)) {
    Exceeding(Samples(reports, entry.0), entry.1) >= 3
  }

  function BreachNames(reports: seq<Report>, contract: Contract): seq<string> {
    if contract == [] then []
    else (if Breaching(reports, contract[0]) then [contract[0].0] else []) + BreachNames(reports, contract[1..])
  }

  predicate OnceInContract(contract: Contract, k: nat)
    requires k < |contract|
  {
    forall j :: 0 <= j < |contract| && j != k ==> contract[j].0 != contract[k].0
  }

  lemma {:induction false} BreachNamesAre(reports: seq<Report>, contract: Contract)
    ensures forall name :: name in BreachNames(reports, contract) <==>
              exists k :: 0 <= k < |contract| && contract[k].0 == name && Breaching(reports, contract[k])
  {
    hide Breaching;
    if contract != [] {
      BreachNamesAre(reports, contract[1..]);
      assert contract == [contract[0]] + contract[1..];
      forall name
        ensures name in BreachNames(reports, contract) <==>
                  exists k :: 0 <= k < |contract| && contract[k].0 == name && Breaching(reports, contract[k])
      {
        if name in BreachNames(reports, contract[1..]) {
          var k :| 0 <= k < |contract| - 1 && contract[1..][k].0 == name && Breaching(reports, contract[1..][k]);
          assert contract[k + 1] == contract[1..][k];
        }
        if k :| 0 < k < |contract| && contract[k].0 == name && Breaching(reports, contract[k]) {
          assert contract[1..][k - 1] == contract[k];
        }
      }
    }
  }

  /** Over the raw samples of the reports. */
  lemma RawReportsDecide(reports: seq<Report>, contract: Contract)
    requires |reports| == REPETITIONS
    ensures forall k :: 0 <= k < |contract| ==>
              && (ClearlyOver(Samples(reports, contract[k].0), contract[k].1) ==>
                    contract[k].0 in BreachNames(reports, contract))
              && (OnceInContract(contract, k) && ClearlyWithin(Samples(reports, contract[k].0), contract[k].1) ==>
                    contract[k].0 !in BreachNames(reports, contract))
  {
    BreachNamesAre(reports, contract);
    hide BreachNames, Exceeding, ClearlyOver, ClearlyWithin;
    forall k | 0 <= k < |contract|
      ensures ClearlyOver(Samples(reports, contract[k].0), contract[k].1) ==> Breaching(reports, contract[k])
      ensures ClearlyWithin(Samples(reports, contract[k].0), contract[k].1) ==> !Breaching(reports, contract[k])
    {
      RawSamplesDecide(Samples(reports, contract[k].0), contract[k].1);
    }
  }

  /** The first test that some report fails: each test looks at all reports before the next one starts. */
  function Problem(reports: seq<Report>): Option<Outcome> {
    if |reports| != REPETITIONS || exists r <- reports :: !r.schemaMatches then Some(InvalidReport)
    else if exists r <- reports :: r.outcome.SuiteTimeout? then Some(SuiteTimeout)
    else if exists r <- reports ::
              r.outcome !in {Pass, ProductRegression, RunnerUnqualified} || r.exitStatus.None? then Some(InvalidReport)
    else if exists r <- reports :: r.exitStatus != Some(0) then Some(TestFailure)
    else if exists r <- reports :: r.qualified.None? then Some(InvalidReport)
    else if exists r <- reports :: r.qualified == Some(false) then Some(RunnerUnqualified)
    else None
  }

  /** The outcome and the breached metrics. */
  function Classified(reports: seq<Report>, contract: Contract): (Outcome, seq<string>) {
    if Problem(reports).Some? then (Problem(reports).value, [])
    else if exists r <- reports :: !FollowsContract(r.observations, contract) then (InvalidReport, [])
    else
      var breaches := BreachNames(reports, contract);
      (if breaches == [] then Pass else ProductRegression, breaches)
  }

  /** The metrics in the contract's order, or `None` if some report does not follow the contract. */
  method AggregateMetrics(reports: seq<Report>, contract: Contract) returns (r: Option<seq<Metric>>)
    requires |reports| == REPETITIONS
    ensures r.Some? <==> forall report <- reports :: FollowsContract(report.observations, contract)
    ensures r.Some? ==>
              && |r.value| == |contract|
              && forall k :: 0 <= k < |contract| ==>
                   r.value[k] == Summary(contract[k].0, contract[k].1, Samples(reports, contract[k].0))
  {
    hide FollowsContract, Summary, IsMapOf, ValidRaws;
    var maps: seq<Observations> := [];
    for i := 0 to |reports|
      invariant |maps| == i
      invariant forall j :: 0 <= j < i ==> IsMapOf(maps[j], reports[j].observations)
      invariant forall j :: 0 <= j < i ==> FollowsContract(reports[j].observations, contract)
    {
      var found := ObservationMap(reports[i].observations);
      if found.None? {
        NotFollowing(reports[i].observations, contract);
        return None;
      }
      var follows := HasContract(found.value, contract);
      HoldsExactly(found.value, reports[i].observations, contract);
      if !follows {
        return None;
      }
      maps := maps + [found.value];
    }
    var metrics := [];
    for k := 0 to |contract|
      invariant |metrics| == k
      invariant forall j :: 0 <= j < k ==>
                  metrics[j] == Summary(contract[j].0, contract[j].1, Samples(reports, contract[j].0))
    {
      var name := contract[k].0;
      forall i | 0 <= i < |maps| ensures name in maps[i] && maps[i][name].0 == Observed(reports[i].observations, name) {
        ContractValue(maps[i], reports[i].observations, contract, k);
      }
      var samples := seq(|maps|, i requires 0 <= i < |maps| && name in maps[i] => maps[i][name].0);
      SamplesAre(reports, name, samples);
      metrics := metrics + [Summary(name, contract[k].1, samples)];
    }
    r := Some(metrics);
  }

  lemma NotFollowing(raws: seq<Raw>, contract: Contract)
    requires raws == [] || !ValidRaws(raws)
    ensures !FollowsContract(raws, contract)
  {
  }

  predicate HoldsContract(m: Observations, contract: Contract) {
    && (forall k :: 0 <= k < |contract| ==> contract[k].0 in m && m[contract[k].0].1 == contract[k].1)
    && (forall name <- m :: InContract(contract, name))
  }

  /** The map has exactly the contract's names, each with its budget. */
  method HasContract(m: Observations, contract: Contract) returns (ok: bool)
    ensures ok <==> HoldsContract(m, contract)
  {
    ok := true;
    for k := 0 to |contract|
      invariant ok <==> forall j :: 0 <= j < k ==> contract[j].0 in m && m[contract[j].0].1 == contract[j].1
    {
      ok := ok && contract[k].0 in m && m[contract[k].0].1 == contract[k].1;
    }
    ok := ok && forall name <- m :: exists k :: 0 <= k < |contract| && contract[k].0 == name;
  }

  lemma HoldsIfFollows(m: Observations, raws: seq<Raw>, contract: Contract)
    requires IsMapOf(m, raws) && FollowsContract(raws, contract)
    ensures HoldsContract(m, contract)
  {
    forall k | 0 <= k < |contract| ensures contract[k].0 in m && m[contract[k].0].1 == contract[k].1 {
      assert Budgeted(raws, contract[k].0, contract[k].1);
      var i :| 0 <= i < |raws| && raws[i].metric == Some(contract[k].0) && raws[i].budget == Some(contract[k].1);
    }
    forall name <- m ensures InContract(contract, name) {
      var i :| 0 <= i < |raws| && raws[i].metric == Some(name);
      assert InContract(contract, raws[i].metric.value);
    }
  }

  lemma FollowsIfHolds(m: Observations, raws: seq<Raw>, contract: Contract)
    requires raws != [] && ValidRaws(raws) && IsMapOf(m, raws) && HoldsContract(m, contract)
    ensures FollowsContract(raws, contract)
  {
    forall k | 0 <= k < |contract| ensures Budgeted(raws, contract[k].0, contract[k].1) {
      assert contract[k].0 in m;
      var i :| 0 <= i < |raws| && raws[i].metric == Some(contract[k].0);
      assert raws[i].metric.value == contract[k].0;
      assert m[contract[k].0] == (raws[i].observed.value, raws[i].budget.value);
    }
  }

  /** The map of a report follows the contract exactly if the report does. */
  lemma HoldsExactly(m: Observations, raws: seq<Raw>, contract: Contract)
    requires raws != [] && ValidRaws(raws) && IsMapOf(m, raws)
    ensures HoldsContract(m, contract) <==> FollowsContract(raws, contract)
  {
    hide HoldsContract, FollowsContract, IsMapOf, ValidRaws;
    if HoldsContract(m, contract) {
      FollowsIfHolds(m, raws, contract);
    }
    if FollowsContract(raws, contract) {
      HoldsIfFollows(m, raws, contract);
    }
  }

  lemma ContractValue(m: Observations, raws: seq<Raw>, contract: Contract, k: nat)
    requires IsMapOf(m, raws) && FollowsContract(raws, contract) && k < |contract|
    ensures contract[k].0 in m && m[contract[k].0].0 == Observed(raws, contract[k].0)
  {
    assert Budgeted(raws, contract[k].0, contract[k].1);
    var i :| 0 <= i < |raws| && raws[i].metric == Some(contract[k].0);
    ObservedAt(raws, i);
  }

  lemma {:induction false} ObservedAt(raws: seq<Raw>, i: nat)
    requires ValidRaws(raws) && i < |raws|
    ensures Observed(raws, raws[i].metric.value) == raws[i].observed.value
  {
    if i > 0 {
      assert raws[0].metric != raws[i].metric;
      assert forall j :: 0 <= j < |raws| - 1 ==> raws[1..][j] == raws[j + 1];
      ObservedAt(raws[1..], i - 1);
    }
  }

  lemma {:induction false} SamplesAre(reports: seq<Report>, name: string, samples: seq<real>)
    requires |samples| == |reports|
    requires forall i :: 0 <= i < |samples| ==> samples[i] == Observed(reports[i].observations, name)
    ensures samples == Samples(reports, name)
  {
    if reports != [] {
      SamplesAre(reports[1..], name, samples[1..]);
      assert samples == [samples[0]] + samples[1..];
    }
  }

  /** The chain of tests before the metrics, in the order of the script. */
  method FirstProblem(reports: seq<Report>) returns (problem: Option<Outcome>)
    ensures problem == Problem(reports)
  {
    if |reports| != REPETITIONS || exists r <- reports :: !r.schemaMatches {
      return Some(InvalidReport);
    }
    if exists r <- reports :: r.outcome.SuiteTimeout? {
      return Some(SuiteTimeout);
    }
    if exists r <- reports :: !Completed(r.outcome) {
      return Some(InvalidReport);
    }
    if exists r <- reports :: r.exitStatus.None? {
      return Some(InvalidReport);
    }
    if exists r <- reports :: r.exitStatus != Some(0) {
      return Some(TestFailure);
    }
    if exists r <- reports :: r.qualified.None? {
      return Some(InvalidReport);
    }
    if exists r <- reports :: r.qualified == Some(false) {
      return Some(RunnerUnqualified);
    }
    problem := None;
  }

  method AggregateReports(reports: seq<Report>, contract: Contract) returns (outcome: Outcome, breaches: seq<string>)
    ensures (outcome, breaches) == Classified(reports, contract)
    ensures outcome == Pass || outcome == ProductRegression <==>
              Problem(reports).None? && forall r <- reports :: FollowsContract(r.observations, contract)
    ensures outcome == ProductRegression <==> breaches != []
    ensures outcome == Pass || outcome == ProductRegression ==>
              forall k :: 0 <= k < |contract| ==>
                && (ClearlyOver(Samples(reports, contract[k].0), contract[k].1) ==> contract[k].0 in breaches)
                && (OnceInContract(contract, k) && ClearlyWithin(Samples(reports, contract[k].0), contract[k].1) ==>
                      contract[k].0 !in breaches)
  {
    hide FollowsContract, Breaching, Summary, Breached, ClearlyOver, ClearlyWithin, OnceInContract;
    var problem := FirstProblem(reports);
    if problem.Some? {
      return problem.value, [];
    }
    assert |reports| == REPETITIONS;
    hide Problem;
    var metrics := AggregateMetrics(reports, contract);
    if metrics.None? {
      return InvalidReport, [];
    }
    breaches := BreachedNames(metrics.value, reports, contract);
    RawReportsDecide(reports, contract);
    outcome := if breaches == [] then Pass else ProductRegression;
  }

  method BreachedNames(metrics: seq<Metric>, ghost reports: seq<Report>, contract: Contract) returns (names: seq<string>)
    requires |reports| == REPETITIONS && |metrics| == |contract|
    requires forall k :: 0 <= k < |contract| ==>
               metrics[k] == Summary(contract[k].0, contract[k].1, Samples(reports, contract[k].0))
    ensures names == BreachNames(reports, contract)
  {
    hide Summary, Breached, Breaching, BreachNames;
    names := [];
    assert contract[0..] == contract;
    for k := 0 to |metrics|
      invariant names + BreachNames(reports, contract[k..]) == BreachNames(reports, contract)
    {
      MetricBreaches(reports, contract[k]);
      SummaryName(contract[k].0, contract[k].1, Samples(reports, contract[k].0));
      BreachNamesStep(reports, contract, k);
      ghost var before := names;
      if Breached(metrics[k]) {
        names := names + [metrics[k].name];
      }
      assert names == before + if Breaching(reports, contract[k]) then [contract[k].0] else [];
    }
    NoMoreNames(reports, contract);
  }

  lemma BreachNamesStep(reports: seq<Report>, contract: Contract, k: nat)
    requires k < |contract|
    ensures BreachNames(reports, contract[k..])
            == (if Breaching(reports, contract[k]) then [contract[k].0] else []) + BreachNames(reports, contract[k + 1..])
  {
    hide Breaching;
    assert contract[k..][1..] == contract[k + 1..];
  }

  lemma NoMoreNames(reports: seq<Report>, contract: Contract)
    ensures BreachNames(reports, contract[|contract|..]) == []
  {
  }

  lemma MetricBreaches(reports: seq<Report>, entry: (string, real))
    requires |reports| == REPETITIONS
    ensures Breached(Summary(entry.0, entry.1, Samples(reports, entry.0))) <==> Breaching(reports, entry)
  {
    BreachedExactly(entry.0, entry.1, Samples(reports, entry.0));
  }

  lemma SummaryName(name: string, budget: real, samples: seq<real>)
    requires |samples| == REPETITIONS
    ensures Summary(name, budget, samples).name == name
  {
  }

  // ---- The order of the reports -----------------------------------------

  lemma {:induction false} ExceedingAppend(s: seq<Report>, t: seq<Report>, entry: (string, real))
    ensures Exceeding(Samples(s + t, entry.0), entry.1)
            == Exceeding(Samples(s, entry.0), entry.1) + Exceeding(Samples(t, entry.0), entry.1)
  {
    if s == [] {
      assert s + t == t;
    } else {
      assert (s + t)[1..] == s[1..] + t;
      ExceedingAppend(s[1..], t, entry);
      assert Samples(s + t, entry.0)[1..] == Samples(s[1..] + t, entry.0);
      assert Samples(s, entry.0)[1..] == Samples(s[1..], entry.0);
    }
  }

  lemma TailsMatch(x: Report, rest: seq<Report>, before: seq<Report>, after: seq<Report>)
    requires multiset([x] + rest) == multiset(before + ([x] + after))
    ensures multiset(rest) == multiset(before + after)
  {
    assert multiset([x] + rest) - multiset{x} == multiset(rest);
    assert multiset(before + ([x] + after)) - multiset{x} == multiset(before + after);
  }

  lemma {:induction false} ExceedingPermuted(s: seq<Report>, t: seq<Report>, entry: (string, real))
    requires multiset(s) == multiset(t)
    ensures Exceeding(Samples(s, entry.0), entry.1) == Exceeding(Samples(t, entry.0), entry.1)
  {
    hide Exceeding, Samples;
    assert |s| == |multiset(s)| == |multiset(t)| == |t|;
    if s != [] {
      assert s[0] in multiset(t);
      var j :| 0 <= j < |t| && t[j] == s[0];
      var one, before, after := [s[0]], t[..j], t[j + 1..];
      assert s == one + s[1..] && t == before + (one + after);
      TailsMatch(s[0], s[1..], before, after);
      ExceedingPermuted(s[1..], before + after, entry);
      ExceedingAppend(one, s[1..], entry);
      ExceedingAppend(before, one + after, entry);
      ExceedingAppend(one, after, entry);
      ExceedingAppend(before, after, entry);
    } else {
      assert s == t;
    }
  }

  lemma {:induction false} BreachNamesPermuted(s: seq<Report>, t: seq<Report>, contract: Contract)
    requires multiset(s) == multiset(t)
    ensures BreachNames(s, contract) == BreachNames(t, contract)
  {
    if contract != [] {
      ExceedingPermuted(s, t, contract[0]);
      BreachNamesPermuted(s, t, contract[1..]);
    }
  }

  /** The order of the reports does not matter. */
  lemma OrderDoesNotMatter(s: seq<Report>, t: seq<Report>, contract: Contract)
    requires multiset(s) == multiset(t)
    ensures Classified(s, contract) == Classified(t, contract)
  {
    hide FollowsContract, BreachNames, Completed;
    assert |s| == |multiset(s)| == |multiset(t)| == |t|;
    forall r: Report ensures r in s <==> r in t {
      assert r in s <==> r in multiset(s);
      assert r in t <==> r in multiset(t);
    }
    BreachNamesPermuted(s, t, contract);
  }
}
