/**
 * What the end of `_publication_receipt` concludes from its checked chunks: which of
 * its final checks can still fail, and exactly when.
 */
module PublicationChain {
  import opened Wrappers
  import opened TextOrder
  import opened PublicationRun
  import Workload

  // ---- Ids --------------------------------------------------------------

  lemma ExpectedInjective(profile: string, j: nat, k: nat)
    requires Expected(profile, j) == Expected(profile, k)
    ensures j == k
  {
    if j > 0 && k > 0 {
      SuffixesEqual(PREFIX, profile + ":" + Decimal(j - 1), profile + ":" + Decimal(k - 1));
      SuffixesEqual(profile + ":", Decimal(j - 1), Decimal(k - 1));
      DecimalInjective(j - 1, k - 1);
    } else if j > 0 {
      NotTheSeed(profile, j - 1);
    } else if k > 0 {
      NotTheSeed(profile, k - 1);
    }
  }

  lemma SuffixesEqual(prefix: string, a: string, b: string)
    requires prefix + a == prefix + b
    ensures a == b
  {
    assert (prefix + a)[|prefix|..] == a && (prefix + b)[|prefix|..] == b;
  }

  /** Every publication id ends in a digit. */
  lemma NotTheSeed(profile: string, k: nat)
    ensures PublicationId(profile, k) != SEED
  {
    var id := PublicationId(profile, k);
    assert id[|id| - 1] == Decimal(k)[|Decimal(k)| - 1] == Digit(k % 10);
    assert SEED[|SEED| - 1] == 'd';
  }

  // ---- The ordered chain check ------------------------------------------

  datatype Row = Row(id: Id, parent: Option<Id>)

  function ChunkRow(profile: string, k: nat): Row {
    if k == 0 then Row(SEED, None) else Row(Expected(profile, k), Some(Expected(profile, k - 1)))
  }

  /** The publications of `n` chunks that form a chain, with the seed, in the order of their commits. */
  function Table(profile: string, n: nat): (rows: seq<Row>)
    ensures |rows| == n + 1 && forall k :: 0 <= k <= n ==> rows[k] == ChunkRow(profile, k)
  {
    seq(n + 1, k requires 0 <= k => ChunkRow(profile, k))
  }

  function Ids(rows: seq<Row>): (ids: seq<Id>)
    ensures |ids| == |rows| && forall i :: 0 <= i < |ids| ==> ids[i] == rows[i].id
  {
    seq(|rows|, i requires 0 <= i < |rows| => rows[i].id)
  }

  /** All commits carry one timestamp, so that the rows come back in the order of their ids. */
  predicate Fetched(profile: string, n: nat, rows: seq<Row>) {
    multiset(rows) == multiset(Table(profile, n)) && StrictlySorted(Ids(rows))
  }

  /** Every row but the first has the row before it as its parent, the second one the seed. */
  predicate DirectChildren(rows: seq<Row>) {
    forall i :: 1 <= i < |rows| ==> rows[i].parent == Some(Before(rows, i))
  }

  function Before(rows: seq<Row>, i: int): Id
    requires 1 <= i < |rows|
  {
    if i == 1 then SEED else rows[i - 1].id
  }

  lemma InTable(profile: string, n: nat, rows: seq<Row>, i: nat) returns (k: nat)
    requires multiset(rows) == multiset(Table(profile, n)) && i < |rows|
    ensures k <= n && rows[i] == ChunkRow(profile, k)
  {
    assert rows[i] in multiset(rows);
    assert rows[i] in Table(profile, n);
    k :| 0 <= k <= n && rows[i] == Table(profile, n)[k];
  }

  /** The parent links admit only one order: the rows pass exactly in the order of their commits. */
  lemma {:induction false} DirectChildrenInOrder(profile: string, n: nat, rows: seq<Row>, i: nat)
    requires multiset(rows) == multiset(Table(profile, n)) && DirectChildren(rows) && 1 <= i < |rows|
    ensures rows[i] == ChunkRow(profile, i)
  {
    if i > 1 {
      DirectChildrenInOrder(profile, n, rows, i - 1);
    }
    var k := InTable(profile, n, rows, i);
    assert rows[i].parent == Some(Before(rows, i));
    assert i > 1 ==> rows[i - 1].id == Expected(profile, i - 1);
    assert k > 0 && rows[i].parent == Some(Expected(profile, i - 1));
    ExpectedInjective(profile, k - 1, i - 1);
  }

  lemma PassingIsInOrder(profile: string, n: nat, rows: seq<Row>)
    requires multiset(rows) == multiset(Table(profile, n)) && DirectChildren(rows)
    ensures rows == Table(profile, n)
  {
    var table := Table(profile, n);
    assert |rows| == |multiset(rows)| == |multiset(table)| == n + 1;
    forall i | 1 <= i < |rows| ensures rows[i] == table[i] {
      DirectChildrenInOrder(profile, n, rows, i);
    }
    assert rows[1..] == table[1..];
    FirstIsLeft(rows, table);
  }

  /** Equal multisets and equal tails leave equal heads. */
  lemma FirstIsLeft(s: seq<Row>, t: seq<Row>)
    requires s != [] && t != [] && multiset(s) == multiset(t) && s[1..] == t[1..]
    ensures s == t
  {
    assert s == [s[0]] + s[1..] && t == [t[0]] + t[1..];
    assert multiset{s[0]} == multiset(s) - multiset(s[1..]) == multiset{t[0]};
    assert s[0] in multiset{t[0]};
  }

  lemma SortedTableShape(profile: string, n: nat)
    ensures StrictlySorted(Ids(Table(profile, n))) <==>
            n == 0 || (TextLess(SEED, PublicationId(profile, 0)) && n <= 10)
  {
    var ids := Ids(Table(profile, n));
    assert forall k :: 0 <= k <= n ==> ids[k] == Expected(profile, k);
    if n > 10 {
      assert ids[3] == PublicationId(profile, 2) && ids[11] == PublicationId(profile, 10);
      SameProfile(profile, 2, 10);
      DigitsSort(2, 3);
    } else {
      forall j, k | 1 <= j < k <= n ensures TextLess(ids[j], ids[k]) {
        SameProfile(profile, j - 1, k - 1);
        DigitsSort(j - 1, k - 1);
      }
      if n > 0 && TextLess(SEED, ids[1]) {
        forall k | 1 <= k <= n ensures TextLess(ids[0], ids[k]) {
          if k > 1 {
            TextLessTransitive(SEED, ids[1], ids[k]);
          }
        }
      }
    }
  }

  /** Two ids of one profile compare as their decimal texts. */
  lemma SameProfile(profile: string, j: nat, k: nat)
    ensures TextLess(PublicationId(profile, j), PublicationId(profile, k)) <==> TextLess(Decimal(j), Decimal(k))
  {
    PrefixCancels(PREFIX, profile + ":" + Decimal(j), profile + ":" + Decimal(k));
    PrefixCancels(profile + ":", Decimal(j), Decimal(k));
  }

  /**
   * For a run whose links do form a chain, the ordered check passes exactly for a profile
   * whose ids sort after the seed's and for at most ten chunks.
   */
  lemma OrderedCheckPassesExactly(profile: string, n: nat, rows: seq<Row>)
    requires n > 0 && Fetched(profile, n, rows)
    ensures DirectChildren(rows) <==> TextLess(SEED, PublicationId(profile, 0)) && n <= 10
  {
    var table := Table(profile, n);
    SortedTableShape(profile, n);
    if DirectChildren(rows) {
      PassingIsInOrder(profile, n, rows);
    }
    if StrictlySorted(Ids(table)) {
      SortedRows(profile, n, rows);
    }
  }

  /** If the commit order is sorted, it is what the query returns. */
  lemma SortedRows(profile: string, n: nat, rows: seq<Row>)
    requires Fetched(profile, n, rows) && StrictlySorted(Ids(Table(profile, n)))
    ensures rows == Table(profile, n)
  {
    var table := Table(profile, n);
    assert |rows| == |multiset(rows)| == |multiset(table)|;
    IdsOfSameRows(rows, table);
    SortedUnique(Ids(rows), Ids(table));
    forall i | 0 <= i < |rows| ensures rows[i] == table[i] {
      var k := InTable(profile, n, rows, i);
      assert rows[i].id == Ids(rows)[i] == Ids(table)[i] == Expected(profile, i);
      ExpectedInjective(profile, k, i);
    }
  }

  lemma IdsAppend(s: seq<Row>, t: seq<Row>)
    ensures Ids(s + t) == Ids(s) + Ids(t)
  {
  }

  lemma TailsMatch(x: Row, rest: seq<Row>, before: seq<Row>, after: seq<Row>)
    requires multiset([x] + rest) == multiset(before + ([x] + after))
    ensures multiset(rest) == multiset(before + after)
  {
    assert multiset([x] + rest) - multiset{x} == multiset(rest);
    assert multiset(before + ([x] + after)) - multiset{x} == multiset(before + after);
  }

  lemma {:induction false} IdsOfSameRows(s: seq<Row>, t: seq<Row>)
    requires multiset(s) == multiset(t)
    ensures multiset(Ids(s)) == multiset(Ids(t))
  {
    hide Ids;
    assert |s| == |multiset(s)| == |multiset(t)| == |t|;
    if s != [] {
      assert s[0] in multiset(t);
      var j :| 0 <= j < |t| && t[j] == s[0];
      var one, before, after := [s[0]], t[..j], t[j + 1..];
      assert s == one + s[1..] && t == before + (one + after);
      TailsMatch(s[0], s[1..], before, after);
      IdsOfSameRows(s[1..], before + after);
      IdsAppend(one, s[1..]);
      IdsAppend(before, one + after);
      IdsAppend(one, after);
      IdsAppend(before, after);
    } else {
      assert s == t;
    }
  }

  /** The production profile never passes. */
  lemma ProductionNeverPasses(n: nat, rows: seq<Row>)
    requires n > 0 && Fetched("production", n, rows)
    ensures !DirectChildren(rows)
  {
    hide Fetched, DirectChildren, Decimal;
    var suffix := "production" + ":" + Decimal(0);
    PrefixCancels(PREFIX, "seed", suffix);
    assert SEED == PREFIX + "seed" && suffix[0] == 'p';
    OrderedCheckPassesExactly("production", n, rows);
  }

  /** The standard profile passes with up to ten chunks. */
  lemma StandardPassesExactly(n: nat, rows: seq<Row>)
    requires n > 0 && Fetched("standard", n, rows)
    ensures DirectChildren(rows) <==> n <= 10
  {
    hide Fetched, DirectChildren, Decimal;
    var suffix := "standard" + ":" + Decimal(0);
    PrefixCancels(PREFIX, "seed", suffix);
    assert SEED == PREFIX + "seed" && suffix[0] == 's' && suffix[1..][0] == 't' && "seed"[1..][0] == 'e';
    OrderedCheckPassesExactly("standard", n, rows);
  }

  /** On the scale workload that limit is forty thousand entities. */
  lemma StandardLimit(count: nat, rows: seq<Row>)
    requires count > 0
    requires Fetched("standard", Workload.ChunkCount(Workload.ScaleLength(count), Workload.CHUNK), rows)
    ensures DirectChildren(rows) <==> count <= 40_000
  {
    hide Fetched, DirectChildren;
    StandardPassesExactly(Workload.ChunkCount(Workload.ScaleLength(count), Workload.CHUNK), rows);
  }

  // ---- The other final checks -------------------------------------------

  /** The script's conjunction over one chunk entry. */
  predicate Bound(r: Record) {
    && r.selectionHead == r.intentParent == r.planParent == r.writerRequest == r.prePointer == r.committedParent
    && ((r.operationClass.Small? && r.smallRequest == Some(r.writerRequest))
        || (r.operationClass.Large? && r.promotionRequest == Some(r.writerRequest)))
    && Some(r.digestBefore) == r.digestAtWriter
    && r.postPointer == r.publicationId
  }

  /** The binding check cannot fail after the loop, whatever moves the pointer between chunks. */
  lemma BindingsFollow(head: Id, id: Id, a: Answer)
    requires Passes(head, id, a)
    ensures Bound(RecordOf(head, id, a))
  {
    hide Passes;
    PassedPointers(head, id, a);
    NoneViolated(ClassEvidence, head, id, a);
    NoneViolated(Check.PlanIdentity, head, id, a);
  }

  /** A chunk that passes took the small path exactly when no frozen limit was exceeded. */
  lemma ClassFollowsLimits(head: Id, id: Id, a: Answer)
    requires Passes(head, id, a)
    ensures a.operationClass.Small? <==> WithinLimits(a.limits)
    ensures !a.operationClass.Unsupported?
  {
    hide Passes;
    NoneViolated(ClassEvidence, head, id, a);
    BreachesExactly(a.limits);
  }

  function Occurrences(events: seq<Event>, e: Event): nat {
    if events == [] then 0 else (if events[0] == e then 1 else 0) + Occurrences(events[1..], e)
  }

  lemma {:induction false} OccurrencesAppend(left: seq<Event>, right: seq<Event>, e: Event)
    ensures Occurrences(left + right, e) == Occurrences(left, e) + Occurrences(right, e)
  {
    if left == [] {
      assert left + right == right;
    } else {
      assert (left + right)[1..] == left[1..] + right;
      OccurrencesAppend(left[1..], right, e);
    }
  }

  lemma {:induction false} OccursIffMember(events: seq<Event>, e: Event)
    ensures e in events <==> Occurrences(events, e) > 0
  {
    if events != [] {
      OccursIffMember(events[1..], e);
      assert events == [events[0]] + events[1..];
    }
  }

  /** Only the recording writer appends `WriterPublish`, and only the loop appends `PlanRefresh`. */
  predicate OwnEvents(setup: seq<Event>, answers: seq<Answer>) {
    && PlanRefresh !in setup && WriterPublish !in setup
    && forall k :: 0 <= k < |answers| ==> WriterPublish !in answers[k].recoveryEvents
  }

  lemma OnePlan()
    ensures Occurrences([PlanRefresh], WriterPublish) == 0
  {
  }

  /** A chunk adds the publications of its writer. */
  lemma ChunkPublishes(setup: seq<Event>, answers: seq<Answer>, n: nat)
    requires 0 < n <= |answers| && OwnEvents(setup, answers)
    ensures Occurrences(EventsAfter(setup, answers, n), WriterPublish)
            == Occurrences(EventsAfter(setup, answers, n - 1), WriterPublish)
               + Occurrences(answers[n - 1].writerEvents, WriterPublish)
  {
    var before, a := EventsAfter(setup, answers, n - 1), answers[n - 1];
    OnePlan();
    hide Occurrences;
    OccurrencesAppend(before + [PlanRefresh] + a.writerEvents, a.recoveryEvents, WriterPublish);
    OccurrencesAppend(before + [PlanRefresh], a.writerEvents, WriterPublish);
    OccurrencesAppend(before, [PlanRefresh], WriterPublish);
    OccursIffMember(a.recoveryEvents, WriterPublish);
  }

  predicate EachOnce(answers: seq<Answer>, n: nat)
    requires n <= |answers|
  {
    forall k :: 0 <= k < n ==> Occurrences(answers[k].writerEvents, WriterPublish) == 1
  }

  lemma {:induction false} PublishCount(setup: seq<Event>, answers: seq<Answer>, n: nat)
    requires n <= |answers| && OwnEvents(setup, answers)
    requires forall k :: 0 <= k < n ==> WriterPublish in answers[k].writerEvents
    ensures Occurrences(EventsAfter(setup, answers, n), WriterPublish) >= n
    ensures Occurrences(EventsAfter(setup, answers, n), WriterPublish) == n <==> EachOnce(answers, n)
  {
    if n == 0 {
      OccursIffMember(setup, WriterPublish);
    } else {
      hide Occurrences, EventsAfter;
      PublishCount(setup, answers, n - 1);
      ChunkPublishes(setup, answers, n);
      OccursIffMember(answers[n - 1].writerEvents, WriterPublish);
      assert EachOnce(answers, n) <==>
             EachOnce(answers, n - 1) && Occurrences(answers[n - 1].writerEvents, WriterPublish) == 1;
    }
  }

  /** After the checked loop the writer count is right exactly when each chunk was published once. */
  lemma PublishedOnceEach(profile: string, first: Id, setup: seq<Event>, answers: seq<Answer>)
    requires AllPass(profile, first, answers, |answers|) && OwnEvents(setup, answers)
    ensures Occurrences(EventsAfter(setup, answers, |answers|), WriterPublish) == |answers|
            <==> EachOnce(answers, |answers|)
  {
    hide PublicationId, Passes;
    forall k | 0 <= k < |answers| ensures WriterPublish in answers[k].writerEvents {
      NoneViolated(Check.PlanIdentity, HeadAt(first, answers, k), PublicationId(profile, k), answers[k]);
    }
    hide Violated;
    PublishCount(setup, answers, |answers|);
  }

  /** The place of the first occurrence. */
  function Index(events: seq<Event>, e: Event): (i: nat)
    requires e in events
    ensures i < |events| && events[i] == e && e !in events[..i]
  {
    if events[0] == e then 0 else 1 + Index(events[1..], e)
  }

  lemma {:induction false} EventsExtendSetup(setup: seq<Event>, answers: seq<Answer>, n: nat)
    requires 0 < n <= |answers|
    ensures setup + [PlanRefresh] + answers[0].writerEvents <= EventsAfter(setup, answers, n)
  {
    if n == 1 {
      assert EventsAfter(setup, answers, 0) == setup;
    } else {
      EventsExtendSetup(setup, answers, n - 1);
    }
  }

  /** The last order check fails exactly when a writer lock was taken before the first plan. */
  lemma PlannedBeforeLocked(profile: string, first: Id, setup: seq<Event>, answers: seq<Answer>)
    requires answers != [] && AllPass(profile, first, answers, |answers|) && OwnEvents(setup, answers)
    ensures var events := EventsAfter(setup, answers, |answers|);
            && PlanRefresh in events && WriterLock in events
            && (Index(events, PlanRefresh) <= Index(events, WriterLock) <==> WriterLock !in setup)
  {
    hide PublicationId, Passes, EventsAfter;
    var events, start := EventsAfter(setup, answers, |answers|), setup + [PlanRefresh] + answers[0].writerEvents;
    NoneViolated(Check.LockAfterPlan, HeadAt(first, answers, 0), PublicationId(profile, 0), answers[0]);
    hide Violated;
    EventsExtendSetup(setup, answers, |answers|);
    assert setup == start[..|setup|] == events[..|setup|];
    assert events[|setup|] == start[|setup|] == PlanRefresh;
    IndexFirst(events, PlanRefresh, |setup|);
    var lock :| 0 <= lock < |answers[0].writerEvents| && answers[0].writerEvents[lock] == WriterLock;
    assert events[|setup| + 1 + lock] == start[|setup| + 1 + lock] == WriterLock;
    var locked := Index(events, WriterLock);
    if WriterLock in setup {
      var i :| 0 <= i < |setup| && setup[i] == WriterLock;
      assert events[i] == WriterLock;
      IndexFirst(events, WriterLock, i);
    }
    assert locked < |setup| ==> setup[locked] == WriterLock;
  }

  lemma {:induction false} IndexFirst(events: seq<Event>, e: Event, i: nat)
    requires i < |events| && events[i] == e
    ensures Index(events, e) <= i && (e !in events[..i] ==> Index(events, e) == i)
  {
    if events[0] != e {
      IndexFirst(events[1..], e, i - 1);
      assert forall x :: x in events[1..][..i - 1] ==> x in events[..i];
    } else if i > 0 {
      assert events[..i][0] == e;
    }
  }
}
