/**
 * The chunked publication run of scripts/benchmark_ck07r1_lifecycle_scale.py
 * (`_publication_receipt`).  The planner, the writer, the pointer and recovery are an
 * abstract store: what they answer for each chunk is arbitrary, and the script's own
 * checks are all that is known of it.
 */
module PublicationRun {
  import opened Wrappers
  import opened TextOrder
  import Receipt

  type Id = string

  const SEED: Id := "publication:ck07r1:seed"
  const PREFIX := "publication:ck07r1:"

  const SMALL_REASON := "all_small_tail_bounds_proven"

  function PublicationId(profile: string, k: nat): Id {
    PREFIX + (profile + ":" + Decimal(k))
  }

  datatype OperationClass = Small | Large | Unsupported

  datatype Limit = Limit(name: string, actual: int, ceiling: int)

  datatype Event = PlanRefresh | WriterLock | WriterPublish | OtherEvent

  /** Everything the unseen libraries answer while one chunk is published. */
  datatype Answer = Answer(
    tailLimits: Receipt.TailLimits, limits: seq<Limit>, operationClass: OperationClass, reasons: seq<string>,
    planParent: Id, identitiesMatch: bool, prePointer: Id,
    candidateSound: bool, promotedHead: Id, promotedPointer: bool,
    writerEvents: seq<Event>, committed: Id, postPointer: Id,
    planDigest: nat, digestBefore: nat, digestAtPublish: nat, committedParent: Id, inserted: nat,
    selectedPromoted: bool, rollbackKept: bool, selectionHead: Id, recoveryEvents: seq<Event>)

  /** The chunk entry of the receipt, with its identity bindings. */
  datatype Record = Record(
    publicationId: Id, operationClass: OperationClass, breaches: seq<string>,
    selectionHead: Id, intentParent: Id, planParent: Id, smallRequest: Option<Id>, promotionRequest: Option<Id>,
    writerRequest: Id, prePointer: Id, committedParent: Id, postPointer: Id,
    digestBefore: nat, digestAtWriter: Option<nat>)

  /** The checks of one chunk, in the order in which the script makes them. */
  datatype Check =
    | FrozenLimits | ClassEvidence | PlannerParent | LifecycleIdentities | PrePointer
    | CandidateEvidence | PromotedHead | PromotedPointer | PreCommitIdentities | LockAfterPlan
    | CommittedId | PostPointer | PlanIdentity | CommittedParent | PromotedSelection | RollbackKept

  function Rank(check: Check): nat {
    match check
    case FrozenLimits => 0
    case ClassEvidence => 1
    case PlannerParent => 2
    case LifecycleIdentities => 3
    case PrePointer => 4
    case CandidateEvidence => 5
    case PromotedHead => 6
    case PromotedPointer => 7
    case PreCommitIdentities => 8
    case LockAfterPlan => 9
    case CommittedId => 10
    case PostPointer => 11
    case PlanIdentity => 12
    case CommittedParent => 13
    case PromotedSelection => 14
    case RollbackKept => 15
  }

  function Breaches(limits: seq<Limit>): seq<string> {
    if limits == [] then []
    else
      var last := limits[|limits| - 1];
      Breaches(limits[..|limits| - 1]) + if last.actual > last.ceiling then [last.name] else []
  }

  function Reasons(breaches: seq<string>): (reasons: seq<string>)
    ensures |reasons| == |breaches| && forall i :: 0 <= i < |reasons| ==> reasons[i] == "limit_exceeded:" + breaches[i]
  {
    seq(|breaches|, i requires 0 <= i < |breaches| => "limit_exceeded:" + breaches[i])
  }

  predicate WithinLimits(limits: seq<Limit>) {
    forall i :: 0 <= i < |limits| ==> limits[i].actual <= limits[i].ceiling
  }

  /** A limit of this name is exceeded. */
  predicate Exceeds(limits: seq<Limit>, name: string) {
    exists i :: 0 <= i < |limits| && limits[i].name == name && limits[i].actual > limits[i].ceiling
  }

  /** The places of the exceeded limits, in order and without a gap. */
  predicate ListsExceeded(limits: seq<Limit>, places: seq<nat>) {
    && (forall j, k :: 0 <= j < k < |places| ==> places[j] < places[k])
    && (forall k :: 0 <= k < |places| ==> places[k] < |limits|)
    && (forall i: nat :: i < |limits| ==> (limits[i].actual > limits[i].ceiling <==> i in places))
  }

  /** The names of the exceeded limits in the order of the limits, one for each. */
  ghost predicate NamesInOrder(limits: seq<Limit>, names: seq<string>) {
    exists places :: ListsExceeded(limits, places) && Named(limits, places, names)
  }

  predicate Named(limits: seq<Limit>, places: seq<nat>, names: seq<string>) {
    |names| == |places| && forall k :: 0 <= k < |places| ==> places[k] < |limits| && names[k] == limits[places[k]].name
  }

  lemma {:induction false} BreachesInOrder(limits: seq<Limit>) returns (places: seq<nat>)
    ensures ListsExceeded(limits, places) && Named(limits, places, Breaches(limits))
  {
    if limits == [] {
      places := [];
    } else {
      var n := |limits| - 1;
      var before := BreachesInOrder(limits[..n]);
      places := before + if limits[n].actual > limits[n].ceiling then [n] else [];
      OneMoreLimit(limits, before);
      OneMoreName(limits, before, Breaches(limits[..n]));
    }
  }

  lemma OneMoreLimit(limits: seq<Limit>, before: seq<nat>)
    requires limits != [] && ListsExceeded(limits[..|limits| - 1], before)
    ensures var n := |limits| - 1;
            ListsExceeded(limits, before + if limits[n].actual > limits[n].ceiling then [n] else [])
  {
    var n := |limits| - 1;
    assert forall i :: 0 <= i < n ==> limits[..n][i] == limits[i];
  }

  lemma OneMoreName(limits: seq<Limit>, before: seq<nat>, names: seq<string>)
    requires limits != [] && Named(limits[..|limits| - 1], before, names)
    ensures var n := |limits| - 1;
            var exceeded := limits[n].actual > limits[n].ceiling;
            Named(limits, before + (if exceeded then [n] else []), names + if exceeded then [limits[n].name] else [])
  {
    var n := |limits| - 1;
    assert forall i :: 0 <= i < n ==> limits[..n][i] == limits[i];
  }

  /** The breaches name exactly the exceeded limits. */
  lemma BreachesExactly(limits: seq<Limit>)
    ensures Breaches(limits) == [] <==> WithinLimits(limits)
    ensures forall name :: name in Breaches(limits) <==> Exceeds(limits, name)
  {
    var places := BreachesInOrder(limits);
    forall i: nat | i < |limits| && limits[i].actual > limits[i].ceiling ensures limits[i].name in Breaches(limits) {
      assert i in places;
      var k :| 0 <= k < |places| && places[k] == i;
      assert Breaches(limits)[k] == limits[i].name;
    }
    hide Breaches;
    forall k | 0 <= k < |places| ensures Exceeds(limits, Breaches(limits)[k]) {
      assert places[k] in places;
      assert limits[places[k]].actual > limits[places[k]].ceiling;
    }
  }

  /** There is only one list of places. */
  lemma {:induction false} OneOrder(p: seq<nat>, q: seq<nat>)
    requires forall j, k :: 0 <= j < k < |p| ==> p[j] < p[k]
    requires forall j, k :: 0 <= j < k < |q| ==> q[j] < q[k]
    requires forall i :: i in p <==> i in q
    ensures p == q
  {
    if p != [] {
      assert p[0] in q && q[0] in p;
      assert p == [p[0]] + p[1..] && q == [q[0]] + q[1..];
      forall i ensures i in p[1..] <==> i in q[1..] {
        assert i in p[1..] <==> i in p && i != p[0];
        assert i in q[1..] <==> i in q && i != q[0];
      }
      OneOrder(p[1..], q[1..]);
    } else if q != [] {
      SomeElement(q);
    }
  }

  lemma SomeElement(q: seq<nat>)
    requires q != []
    ensures exists i :: i in q
  {
    assert q[0] in q;
  }

  /** The breaches are the one list of the exceeded names in the order of the limits. */
  lemma BreachesExactlyInOrder(limits: seq<Limit>, names: seq<string>)
    ensures NamesInOrder(limits, names) <==> names == Breaches(limits)
  {
    var places := BreachesInOrder(limits);
    if NamesInOrder(limits, names) {
      var other :| ListsExceeded(limits, other) && Named(limits, other, names);
      forall i: nat ensures i in places <==> i in other {
        if i in places {
          var k :| 0 <= k < |places| && places[k] == i;
        }
        if i in other {
          var k :| 0 <= k < |other| && other[k] == i;
        }
      }
      OneOrder(places, other);
    }
  }

  /** The reasons of a large plan: one for each exceeded limit, in the order of the limits. */
  ghost predicate LargeReasons(limits: seq<Limit>, reasons: seq<string>) {
    exists names :: NamesInOrder(limits, names) && Prefixed(names, reasons)
  }

  predicate Prefixed(names: seq<string>, reasons: seq<string>) {
    |reasons| == |names| && forall k :: 0 <= k < |names| ==> reasons[k] == "limit_exceeded:" + names[k]
  }

  lemma ReasonsExactly(limits: seq<Limit>, reasons: seq<string>)
    ensures LargeReasons(limits, reasons) <==> reasons == Reasons(Breaches(limits))
  {
    hide NamesInOrder;
    if LargeReasons(limits, reasons) {
      var names :| NamesInOrder(limits, names) && Prefixed(names, reasons);
      BreachesExactlyInOrder(limits, names);
    }
    BreachesExactlyInOrder(limits, Breaches(limits));
    if reasons == Reasons(Breaches(limits)) {
      assert Prefixed(Breaches(limits), reasons);
    }
  }

  /** The last publication of the plan sets the digest; without one there is none. */
  function DigestAtWriter(a: Answer): Option<nat> {
    if WriterPublish in a.writerEvents then Some(a.digestAtPublish) else None
  }

  predicate Violated(check: Check, head: Id, id: Id, a: Answer) {
    match check
    case FrozenLimits => a.tailLimits != Receipt.FROZEN_TAIL_LIMITS
    case ClassEvidence =>
      (match a.operationClass
       case Small => Breaches(a.limits) != [] || a.reasons != [SMALL_REASON]
       case Large => Breaches(a.limits) == [] || a.reasons != Reasons(Breaches(a.limits))
       case Unsupported => true)
    case PlannerParent => a.planParent != head
    case LifecycleIdentities => !a.identitiesMatch
    case PrePointer => a.prePointer != head
    case CandidateEvidence => a.operationClass.Large? && !a.candidateSound
    case PromotedHead => a.operationClass.Large? && a.promotedHead != id
    case PromotedPointer => a.operationClass.Large? && !a.promotedPointer
    case PreCommitIdentities => !(a.planParent == a.prePointer == head)
    case LockAfterPlan => WriterLock !in a.writerEvents
    case CommittedId => a.committed != id
    case PostPointer => a.postPointer != a.committed
    case PlanIdentity => a.digestBefore != a.planDigest || DigestAtWriter(a) != Some(a.planDigest)
    case CommittedParent => a.committedParent != a.prePointer
    case PromotedSelection => !a.selectedPromoted
    case RollbackKept => a.operationClass.Large? && !a.rollbackKept
  }

  ghost predicate PassedBefore(rank: nat, head: Id, id: Id, a: Answer) {
    forall check: Check :: Rank(check) < rank ==> !Violated(check, head, id, a)
  }

  ghost predicate Passes(head: Id, id: Id, a: Answer) {
    PassedBefore(16, head, id, a)
  }

  ghost predicate FirstViolated(check: Check, head: Id, id: Id, a: Answer) {
    Violated(check, head, id, a) && PassedBefore(Rank(check), head, id, a)
  }

  lemma NextCheck(check: Check, head: Id, id: Id, a: Answer)
    requires PassedBefore(Rank(check), head, id, a) && !Violated(check, head, id, a)
    ensures PassedBefore(Rank(check) + 1, head, id, a)
  {
    hide Violated;
  }

  lemma FirstCheck(head: Id, id: Id, a: Answer)
    ensures PassedBefore(0, head, id, a)
  {
    hide Violated;
  }

  lemma NoneViolated(check: Check, head: Id, id: Id, a: Answer)
    requires Passes(head, id, a)
    ensures !Violated(check, head, id, a)
  {
    hide Violated;
    assert Rank(check) < 16;
  }

  function RecordOf(head: Id, id: Id, a: Answer): Record {
    Record(id, a.operationClass, Breaches(a.limits), head, head, a.planParent,
           if a.operationClass.Small? then Some(a.prePointer) else None,
           if a.operationClass.Small? then None else Some(a.prePointer),
           a.prePointer, a.prePointer, a.committedParent, a.postPointer, a.digestBefore, DigestAtWriter(a))
  }

  /** The read selection's head when chunk `k` starts. */
  function HeadAt(first: Id, answers: seq<Answer>, k: nat): Id
    requires k <= |answers|
  {
    if k == 0 then first else answers[k - 1].selectionHead
  }

  function EventsAfter(setup: seq<Event>, answers: seq<Answer>, k: nat): seq<Event>
    requires k <= |answers|
  {
    if k == 0 then setup
    else EventsAfter(setup, answers, k - 1)
         + [PlanRefresh] + answers[k - 1].writerEvents + answers[k - 1].recoveryEvents
  }

  function Inserted(answers: seq<Answer>, k: nat): nat
    requires k <= |answers|
  {
    if k == 0 then 0 else Inserted(answers, k - 1) + answers[k - 1].inserted
  }

  /** `_validate_selected_plan`: the class must follow from the exceeded limits, with the exact reasons. */
  method ValidateSelectedPlan(ghost head: Id, ghost id: Id, a: Answer) returns (problem: Option<Check>)
    ensures problem.Some? ==> FirstViolated(problem.value, head, id, a)
    ensures problem.None? ==> PassedBefore(2, head, id, a) && !a.operationClass.Unsupported?
    ensures problem in {None, Some(FrozenLimits), Some(ClassEvidence)}
    ensures problem.None? <==>
              && a.tailLimits == Receipt.FROZEN_TAIL_LIMITS
              && ((a.operationClass.Small? && WithinLimits(a.limits) && a.reasons == [SMALL_REASON])
                  || (a.operationClass.Large? && !WithinLimits(a.limits) && LargeReasons(a.limits, a.reasons)))
  {
    hide PassedBefore, LargeReasons;
    FirstCheck(head, id, a);
    BreachesExactly(a.limits);
    ReasonsExactly(a.limits, a.reasons);
    if a.tailLimits != Receipt.FROZEN_TAIL_LIMITS { return Some(FrozenLimits); }
    NextCheck(FrozenLimits, head, id, a);
    var breaches := Breaches(a.limits);
    if a.operationClass.Small? {
      if breaches != [] || a.reasons != [SMALL_REASON] { return Some(ClassEvidence); }
    } else if a.operationClass.Large? {
      if breaches == [] || a.reasons != Reasons(breaches) { return Some(ClassEvidence); }
    } else {
      return Some(ClassEvidence);
    }
    NextCheck(ClassEvidence, head, id, a);
    problem := None;
  }

  /** The checks of the isolated artifact, made only for a large plan. */
  method PublishIsolated(ghost head: Id, id: Id, a: Answer) returns (problem: Option<Check>)
    requires a.operationClass.Large? && PassedBefore(5, head, id, a)
    ensures problem.Some? ==> FirstViolated(problem.value, head, id, a)
    ensures problem.None? ==> PassedBefore(8, head, id, a)
    ensures problem in {None, Some(CandidateEvidence), Some(PromotedHead), Some(PromotedPointer)}
  {
    hide PassedBefore;
    if !a.candidateSound { return Some(CandidateEvidence); }
    NextCheck(CandidateEvidence, head, id, a);
    if a.promotedHead != id { return Some(PromotedHead); }
    NextCheck(PromotedHead, head, id, a);
    if !a.promotedPointer { return Some(PromotedPointer); }
    NextCheck(PromotedPointer, head, id, a);
    problem := None;
  }

  /** The checks after the commit. */
  method CheckCommit(head: Id, id: Id, a: Answer) returns (problem: Option<Check>)
    requires PassedBefore(10, head, id, a)
    ensures problem.Some? ==> FirstViolated(problem.value, head, id, a)
    ensures problem.None? ==> PassedBefore(16, head, id, a)
    ensures problem != Some(PreCommitIdentities)
  {
    hide PassedBefore;
    if a.committed != id { return Some(CommittedId); }
    NextCheck(CommittedId, head, id, a);
    if a.postPointer != a.committed { return Some(PostPointer); }
    NextCheck(PostPointer, head, id, a);
    if a.digestBefore != a.planDigest || DigestAtWriter(a) != Some(a.planDigest) { return Some(PlanIdentity); }
    NextCheck(PlanIdentity, head, id, a);
    if a.committedParent != a.prePointer { return Some(CommittedParent); }
    NextCheck(CommittedParent, head, id, a);
    if !a.selectedPromoted { return Some(PromotedSelection); }
    NextCheck(PromotedSelection, head, id, a);
    if a.operationClass.Large? && !a.rollbackKept { return Some(RollbackKept); }
    NextCheck(RollbackKept, head, id, a);
    problem := None;
  }

  /** One pass of the loop body: the record, or the first check that fails; one check can never be it. */
  method PublishChunk(head: Id, id: Id, a: Answer) returns (r: Result<Record, Check>)
    ensures r.Ok? ==> Passes(head, id, a) && r.value == RecordOf(head, id, a)
    ensures r.Ok? ==> NamesInOrder(a.limits, r.value.breaches)
    ensures r.Ok? ==>
              || (a.operationClass.Small? && WithinLimits(a.limits) && a.reasons == [SMALL_REASON])
              || (a.operationClass.Large? && !WithinLimits(a.limits) && LargeReasons(a.limits, a.reasons))
    ensures r.Err? ==> FirstViolated(r.error, head, id, a) && r.error != PreCommitIdentities
  {
    hide PassedBefore, NamesInOrder, LargeReasons;
    var breaches := Breaches(a.limits);
    BreachesExactlyInOrder(a.limits, breaches);
    var problem := ValidateSelectedPlan(head, id, a);
    if problem.Some? { return Err(problem.value); }
    if a.planParent != head { return Err(PlannerParent); }
    NextCheck(PlannerParent, head, id, a);
    if !a.identitiesMatch { return Err(LifecycleIdentities); }
    NextCheck(LifecycleIdentities, head, id, a);
    if a.prePointer != head { return Err(PrePointer); }
    NextCheck(PrePointer, head, id, a);
    var writerRequest, small, promotion := a.prePointer, None, None;
    if a.operationClass.Small? {
      small := Some(a.prePointer);
      NextCheck(CandidateEvidence, head, id, a);
      NextCheck(PromotedHead, head, id, a);
      NextCheck(PromotedPointer, head, id, a);
    } else {
      problem := PublishIsolated(head, id, a);
      if problem.Some? { return Err(problem.value); }
      promotion := Some(a.prePointer);
    }
    if !(head == a.planParent == writerRequest == a.prePointer) { return Err(PreCommitIdentities); }
    NextCheck(PreCommitIdentities, head, id, a);
    if WriterLock !in a.writerEvents { return Err(LockAfterPlan); }
    NextCheck(LockAfterPlan, head, id, a);
    problem := CheckCommit(head, id, a);
    if problem.Some? { return Err(problem.value); }
    r := Ok(Record(id, a.operationClass, breaches, head, head, a.planParent, small, promotion,
                   writerRequest, a.prePointer, a.committedParent, a.postPointer,
                   a.digestBefore, DigestAtWriter(a)));
  }

  datatype Run = Run(chunks: seq<Record>, events: seq<Event>, inserted: nat)

  ghost predicate AllPass(profile: string, first: Id, answers: seq<Answer>, n: nat)
    requires n <= |answers|
  {
    forall k :: 0 <= k < n ==> Passes(HeadAt(first, answers, k), PublicationId(profile, k), answers[k])
  }

  /** The records, events and insertions of the first `n` chunks. */
  ghost predicate IsRun(profile: string, first: Id, setup: seq<Event>, answers: seq<Answer>, n: nat, run: Run)
    requires n <= |answers|
  {
    && |run.chunks| == n
    && (forall k :: 0 <= k < n ==>
         run.chunks[k] == RecordOf(HeadAt(first, answers, k), PublicationId(profile, k), answers[k]))
    && run.events == EventsAfter(setup, answers, n)
    && run.inserted == Inserted(answers, n)
  }

  lemma NothingYet(profile: string, first: Id, setup: seq<Event>, answers: seq<Answer>)
    ensures AllPass(profile, first, answers, 0) && IsRun(profile, first, setup, answers, 0, Run([], setup, 0))
  {
  }

  lemma OneMorePasses(profile: string, first: Id, answers: seq<Answer>, n: nat)
    requires n < |answers| && AllPass(profile, first, answers, n)
    requires Passes(HeadAt(first, answers, n), PublicationId(profile, n), answers[n])
    ensures AllPass(profile, first, answers, n + 1)
  {
    hide Passes, PublicationId;
  }

  lemma OneMore(profile: string, first: Id, setup: seq<Event>, answers: seq<Answer>, n: nat, run: Run)
    requires n < |answers| && IsRun(profile, first, setup, answers, n, run)
    ensures var record := RecordOf(HeadAt(first, answers, n), PublicationId(profile, n), answers[n]);
            var events := run.events + [PlanRefresh] + answers[n].writerEvents + answers[n].recoveryEvents;
            IsRun(profile, first, setup, answers, n + 1,
                  Run(run.chunks + [record], events, run.inserted + answers[n].inserted))
  {
    hide RecordOf, PublicationId, HeadAt;
    var record := RecordOf(HeadAt(first, answers, n), PublicationId(profile, n), answers[n]);
    var chunks := run.chunks + [record];
    forall k | 0 <= k < n + 1
      ensures chunks[k] == RecordOf(HeadAt(first, answers, k), PublicationId(profile, k), answers[k])
    {
      if k < n {
        assert chunks[k] == run.chunks[k];
      }
    }
  }

  /** The whole loop: every chunk passes, or the run stops at the first one that does not. */
  method PublishChunks(profile: string, first: Id, setup: seq<Event>, answers: seq<Answer>)
    returns (r: Result<Run, (nat, Check)>)
    ensures r.Ok? ==> AllPass(profile, first, answers, |answers|)
                      && IsRun(profile, first, setup, answers, |answers|, r.value)
    ensures r.Err? ==>
              var k := r.error.0;
              && k < |answers| && AllPass(profile, first, answers, k)
              && FirstViolated(r.error.1, HeadAt(first, answers, k), PublicationId(profile, k), answers[k])
              && r.error.1 != PreCommitIdentities
  {
    hide Passes, FirstViolated, RecordOf, PublicationId, AllPass, IsRun;
    var selection, chunks, events := first, [], setup;
    var inserted: nat := 0;
    NothingYet(profile, first, setup, answers);
    for k := 0 to |answers|
      invariant selection == HeadAt(first, answers, k) && AllPass(profile, first, answers, k)
      invariant IsRun(profile, first, setup, answers, k, Run(chunks, events, inserted))
    {
      ghost var before := Run(chunks, events, inserted);
      events := events + [PlanRefresh];
      var published := PublishChunk(selection, PublicationId(profile, k), answers[k]);
      if published.Err? {
        return Err((k, published.error));
      }
      OneMorePasses(profile, first, answers, k);
      OneMore(profile, first, setup, answers, k, before);
      chunks := chunks + [published.value];
      events := events + answers[k].writerEvents;
      inserted := inserted + answers[k].inserted;
      selection := answers[k].selectionHead;
      events := events + answers[k].recoveryEvents;
    }
    r := Ok(Run(chunks, events, inserted));
  }

  // ---- What follows from the checks of the loop -------------------------

  /** Nothing but a publication moves the pointer, which first names the seed. */
  predicate OnlyPublicationMovesPointer(answers: seq<Answer>) {
    forall k :: 0 <= k < |answers| ==> answers[k].prePointer == PointerBefore(answers, k)
  }

  function PointerBefore(answers: seq<Answer>, k: int): Id
    requires 0 <= k < |answers|
  {
    if k == 0 then SEED else answers[k - 1].postPointer
  }

  function Expected(profile: string, k: nat): Id {
    if k == 0 then SEED else PublicationId(profile, k - 1)
  }

  /** What a passed chunk says about the pointer, the head and the commit. */
  lemma PassedPointers(head: Id, id: Id, a: Answer)
    requires Passes(head, id, a)
    ensures a.planParent == a.prePointer == a.committedParent == head && a.committed == a.postPointer == id
  {
    hide Passes;
    NoneViolated(Check.PlannerParent, head, id, a);
    NoneViolated(Check.PrePointer, head, id, a);
    NoneViolated(Check.CommittedParent, head, id, a);
    NoneViolated(Check.CommittedId, head, id, a);
    NoneViolated(Check.PostPointer, head, id, a);
  }

  /** Each publication is a direct child of the one before it, the first of the seed. */
  lemma ChunksFormAChain(profile: string, first: Id, answers: seq<Answer>, k: nat)
    requires AllPass(profile, first, answers, |answers|) && OnlyPublicationMovesPointer(answers) && k < |answers|
    ensures var record := RecordOf(HeadAt(first, answers, k), PublicationId(profile, k), answers[k]);
            && record.committedParent == record.selectionHead == record.planParent == Expected(profile, k)
            && record.publicationId == record.postPointer == Expected(profile, k + 1)
  {
    hide Passes, PublicationId;
    PassedPointers(HeadAt(first, answers, k), PublicationId(profile, k), answers[k]);
    if k > 0 {
      PassedPointers(HeadAt(first, answers, k - 1), PublicationId(profile, k - 1), answers[k - 1]);
    }
    assert answers[k].prePointer == PointerBefore(answers, k);
  }
}
