/**
 * The whole of `_publication_receipt` in
 * scripts/benchmark_ck07r1_lifecycle_scale.py: the chunk loop, the closing checks in
 * order, and the receipt that is returned; and when `run` gets both of its receipts.
 */
module PublicationReceipts {
  import opened Wrappers
  import opened TextOrder
  import opened PublicationRun
  import opened PublicationChain
  import Receipt

  /**
   * Everything the store answers for one profile.  `rowsMatch`: the committed lifecycle
   * rows and tool folds equal the independent reference; `tailLimits` is what the limits
   * of the library are once the chunks are done.
   */
  datatype Store = Store(
    first: Id, setup: seq<Event>, answers: seq<Answer>, rowsMatch: bool, rows: seq<Row>, head: Id,
    seedOccurrences: int, finalOccurrences: int, distinctOccurrences: int, tailLimits: Receipt.TailLimits)

  datatype Problem =
    | InChunk(k: nat, check: Check)
    | NoChunks | LifecycleRows | ChainOrder | FinalHead | OccurrenceDelta | DistinctOccurrences
    | PublishCount | IdentityBindings | PlanAfterLock

  /** The records of a run all are bound. */
  predicate AllBound(chunks: seq<Record>) {
    forall k :: 0 <= k < |chunks| ==> Bound(chunks[k])
  }

  predicate PlannedFirst(events: seq<Event>) {
    PlanRefresh in events && WriterLock in events && Index(events, PlanRefresh) <= Index(events, WriterLock)
  }

  /** The closing checks hold; the bindings are not among them, because they follow. */
  ghost predicate Closes(profile: string, s: Store) {
    && s.answers != [] && s.rowsMatch && DirectChildren(s.rows)
    && s.head == PublicationId(profile, |s.answers| - 1)
    && s.finalOccurrences - s.seedOccurrences == Inserted(s.answers, |s.answers|)
    && s.distinctOccurrences == s.finalOccurrences
    && Occurrences(EventsAfter(s.setup, s.answers, |s.answers|), WriterPublish) == |s.answers|
    && PlannedFirst(EventsAfter(s.setup, s.answers, |s.answers|))
  }

  /** The receipt of the profile is returned. */
  ghost predicate ReceiptReturned(profile: string, s: Store) {
    AllPass(profile, s.first, s.answers, |s.answers|) && Closes(profile, s)
  }

  /**
   * The receipt is returned exactly if every chunk passes and every closing check holds;
   * it then reports its bindings as true, and their check never fails.
   */
  method PublicationReceipt(profile: string, s: Store) returns (r: Result<Receipt.Publication, Problem>)
    ensures r.Ok? <==> ReceiptReturned(profile, s)
    ensures r.Ok? ==> r.value == Receipt.Publication(true, s.tailLimits)
    ensures r.Err? ==> r.error != IdentityBindings && !(r.error.InChunk? && r.error.check == PreCommitIdentities)
  {
    hide AllPass, IsRun, DirectChildren;
    var published := PublishChunks(profile, s.first, s.setup, s.answers);
    if published.Err? {
      FailedChunk(profile, s.first, s.answers, published.error.0, published.error.1);
      return Err(InChunk(published.error.0, published.error.1));
    }
    var run := published.value;
    RunFacts(profile, s.first, s.setup, s.answers, run);
    if run.chunks == [] { return Err(NoChunks); }
    if !s.rowsMatch { return Err(LifecycleRows); }
    if !DirectChildren(s.rows) { return Err(ChainOrder); }
    if s.head != run.chunks[|run.chunks| - 1].publicationId { return Err(FinalHead); }
    if s.finalOccurrences - s.seedOccurrences != run.inserted { return Err(OccurrenceDelta); }
    if s.distinctOccurrences != s.finalOccurrences { return Err(DistinctOccurrences); }
    if Occurrences(run.events, WriterPublish) != |run.chunks| { return Err(PublishCount); }
    var bindings :=
      forall k :: 0 <= k < |run.chunks| ==>
        var r := run.chunks[k];
        && r.selectionHead == r.intentParent == r.planParent == r.writerRequest == r.prePointer == r.committedParent
        && ((r.operationClass.Small? && r.smallRequest == Some(r.writerRequest))
            || (r.operationClass.Large? && r.promotionRequest == Some(r.writerRequest)))
        && Some(r.digestBefore) == r.digestAtWriter && r.postPointer == r.publicationId;
    if !bindings { return Err(IdentityBindings); }
    if !(PlanRefresh in run.events && WriterLock in run.events
         && Index(run.events, PlanRefresh) <= Index(run.events, WriterLock)) { return Err(PlanAfterLock); }
    r := Ok(Receipt.Publication(bindings, s.tailLimits));
  }

  lemma FailedChunk(profile: string, first: Id, answers: seq<Answer>, k: nat, check: Check)
    requires k < |answers| && FirstViolated(check, HeadAt(first, answers, k), PublicationId(profile, k), answers[k])
    ensures !AllPass(profile, first, answers, |answers|)
  {
    var head, id, a := HeadAt(first, answers, k), PublicationId(profile, k), answers[k];
    if Passes(head, id, a) {
      NoneViolated(check, head, id, a);
    }
  }

  lemma RunFacts(profile: string, first: Id, setup: seq<Event>, answers: seq<Answer>, run: Run)
    requires AllPass(profile, first, answers, |answers|) && IsRun(profile, first, setup, answers, |answers|, run)
    ensures |run.chunks| == |answers| && AllBound(run.chunks)
    ensures forall k :: 0 <= k < |answers| ==> run.chunks[k].publicationId == PublicationId(profile, k)
    ensures run.events == EventsAfter(setup, answers, |answers|) && run.inserted == Inserted(answers, |answers|)
  {
    hide Passes, PublicationId;
    forall k | 0 <= k < |answers| ensures Bound(run.chunks[k]) {
      BindingsFollow(HeadAt(first, answers, k), PublicationId(profile, k), answers[k]);
    }
  }

  // ---- What a returned receipt says -------------------------------------

  /** The library's limits are the same at every call. */
  predicate OneTailLimits(s: Store) {
    forall k :: 0 <= k < |s.answers| ==> s.answers[k].tailLimits == s.tailLimits
  }

  /** A returned receipt is what the validator wants: bound, and with the frozen limits. */
  lemma ReturnedIsSound(profile: string, s: Store)
    requires ReceiptReturned(profile, s) && OneTailLimits(s)
    ensures s.tailLimits == Receipt.FROZEN_TAIL_LIMITS
  {
    hide Passes;
    NoneViolated(FrozenLimits, HeadAt(s.first, s.answers, 0), PublicationId(profile, 0), s.answers[0]);
  }

  // ---- A store that does everything right -------------------------------

  function PublishedRow(profile: string, s: Store, k: nat): Row
    requires k < |s.answers|
  {
    Row(PublicationId(profile, k), Some(s.answers[k].committedParent))
  }

  /** The publications table: the seed, and what the chunks committed. */
  function PublishedRows(profile: string, s: Store): (rows: seq<Row>)
    ensures |rows| == |s.answers| + 1 && rows[0] == Row(SEED, None)
    ensures forall k :: 0 <= k < |s.answers| ==> rows[k + 1] == PublishedRow(profile, s, k)
  {
    [Row(SEED, None)] + seq(|s.answers|, k requires 0 <= k < |s.answers| => PublishedRow(profile, s, k))
  }

  /**
   * Only publications move the pointer, and the table holds the seed and the committed
   * chunks, all with the one commit time of the requests, so that they come back by id.
   */
  predicate KeepsTable(profile: string, s: Store) {
    && OnlyPublicationMovesPointer(s.answers)
    && multiset(s.rows) == multiset(PublishedRows(profile, s)) && StrictlySorted(Ids(s.rows))
  }

  /**
   * Besides, every chunk passes; each is published once and no writer lock precedes the
   * first plan; and heads and counts are right.
   */
  ghost predicate Correct(profile: string, s: Store) {
    && s.answers != [] && AllPass(profile, s.first, s.answers, |s.answers|)
    && KeepsTable(profile, s) && OneTailLimits(s) && s.rowsMatch
    && OwnEvents(s.setup, s.answers) && EachOnce(s.answers, |s.answers|) && WriterLock !in s.setup
    && s.head == PublicationId(profile, |s.answers| - 1)
    && s.finalOccurrences - s.seedOccurrences == Inserted(s.answers, |s.answers|)
    && s.distinctOccurrences == s.finalOccurrences
  }

  /** The guard that decides: the ids sort after the seed's, and there are at most ten chunks. */
  predicate Orderable(profile: string, chunks: nat) {
    TextLess(SEED, PublicationId(profile, 0)) && chunks <= 10
  }

  lemma RowIsInChain(profile: string, s: Store, k: nat)
    requires AllPass(profile, s.first, s.answers, |s.answers|) && OnlyPublicationMovesPointer(s.answers)
    requires k < |s.answers|
    ensures PublishedRow(profile, s, k) == ChunkRow(profile, k + 1)
  {
    hide AllPass, OnlyPublicationMovesPointer, PublicationId;
    ChunksFormAChain(profile, s.first, s.answers, k);
  }

  lemma TableIsFetched(profile: string, s: Store)
    requires AllPass(profile, s.first, s.answers, |s.answers|) && KeepsTable(profile, s)
    ensures Fetched(profile, |s.answers|, s.rows)
  {
    hide AllPass, OnlyPublicationMovesPointer, PublishedRow, ChunkRow, StrictlySorted, Ids;
    var rows, table := PublishedRows(profile, s), Table(profile, |s.answers|);
    FirstRow(profile);
    forall k | 0 <= k < |rows| ensures rows[k] == table[k] {
      if k > 0 {
        RowIsInChain(profile, s, k - 1);
        assert rows[k] == PublishedRow(profile, s, k - 1);
      }
    }
    assert rows == table;
  }

  lemma FirstRow(profile: string)
    ensures ChunkRow(profile, 0) == Row(SEED, None)
  {
  }

  /** A store that does everything right gets its receipt exactly under that guard. */
  lemma CorrectReturnsExactly(profile: string, s: Store)
    requires Correct(profile, s)
    ensures ReceiptReturned(profile, s) <==> Orderable(profile, |s.answers|)
  {
    TableIsFetched(profile, s);
    OrderedCheckPassesExactly(profile, |s.answers|, s.rows);
    PublishedOnceEach(profile, s.first, s.setup, s.answers);
    PlannedBeforeLocked(profile, s.first, s.setup, s.answers);
    hide AllPass, DirectChildren, PublicationId;
  }

  /** Whatever else a store does, if it keeps the table the production profile never gets a receipt. */
  lemma ProductionNeverReturns(s: Store)
    requires KeepsTable("production", s)
    ensures !ReceiptReturned("production", s)
  {
    hide KeepsTable;
    if ReceiptReturned("production", s) {
      TableIsFetched("production", s);
      ProductionNeverPasses(|s.answers|, s.rows);
    }
  }

  /** The standard profile gets one exactly with up to ten chunks. */
  lemma StandardReturnsExactly(s: Store)
    requires Correct("standard", s)
    ensures ReceiptReturned("standard", s) <==> |s.answers| <= 10
  {
    CorrectReturnsExactly("standard", s);
    TableIsFetched("standard", s);
    StandardPassesExactly(|s.answers|, s.rows);
    OrderedCheckPassesExactly("standard", |s.answers|, s.rows);
    hide DirectChildren, Fetched, AllPass, KeepsTable;
  }

  // ---- Such stores exist ------------------------------------------------

  function InsertRow(row: Row, rows: seq<Row>): (r: seq<Row>)
    ensures multiset(r) == multiset{row} + multiset(rows) && |r| == |rows| + 1
  {
    if rows == [] || TextLess(row.id, rows[0].id) then [row] + rows
    else
      assert rows == [rows[0]] + rows[1..];
      [rows[0]] + InsertRow(row, rows[1..])
  }

  lemma {:induction false} InsertKeepsSorted(row: Row, rows: seq<Row>)
    requires StrictlySorted(Ids(rows)) && forall i :: 0 <= i < |rows| ==> rows[i].id != row.id
    ensures StrictlySorted(Ids(InsertRow(row, rows)))
  {
    hide TextLess;
    var r := InsertRow(row, rows);
    if rows != [] && !TextLess(row.id, rows[0].id) {
      TextLessTotal(row.id, rows[0].id);
      assert Ids(rows[1..]) == Ids(rows)[1..];
      InsertKeepsSorted(row, rows[1..]);
      forall j | 0 < j < |r| ensures TextLess(Ids(r)[0], Ids(r)[j]) {
        assert r[j] == InsertRow(row, rows[1..])[j - 1];
        assert r[j] in multiset(InsertRow(row, rows[1..]));
        assert r[j] == row || r[j] in rows[1..];
        if r[j] != row {
          var i :| 1 <= i < |rows| && rows[i] == r[j];
          assert TextLess(Ids(rows)[0], Ids(rows)[i]);
        }
      }
      forall i, j | 0 < i < j < |r| ensures TextLess(Ids(r)[i], Ids(r)[j]) {
        assert TextLess(Ids(InsertRow(row, rows[1..]))[i - 1], Ids(InsertRow(row, rows[1..]))[j - 1]);
      }
    } else if rows != [] {
      forall j | 0 < j < |r| ensures TextLess(Ids(r)[0], Ids(r)[j]) {
        if j > 1 {
          assert TextLess(Ids(rows)[0], Ids(rows)[j - 1]);
          TextLessTransitive(row.id, rows[0].id, rows[j - 1].id);
        }
      }
      forall i, j | 0 < i < j < |r| ensures TextLess(Ids(r)[i], Ids(r)[j]) {
        assert TextLess(Ids(rows)[i - 1], Ids(rows)[j - 1]);
      }
    }
  }

  /** Rows with different ids can be sorted. */
  lemma {:induction false} SortedRowsExist(rows: seq<Row>) returns (sorted: seq<Row>)
    requires forall i, j :: 0 <= i < j < |rows| ==> rows[i].id != rows[j].id
    ensures multiset(sorted) == multiset(rows) && StrictlySorted(Ids(sorted))
  {
    if rows == [] {
      sorted := [];
    } else {
      var rest := SortedRowsExist(rows[1..]);
      assert rows == [rows[0]] + rows[1..];
      forall i | 0 <= i < |rest| ensures rest[i].id != rows[0].id {
        assert rest[i] in multiset(rest);
        assert rest[i] in rows[1..];
      }
      InsertKeepsSorted(rows[0], rest);
      sorted := InsertRow(rows[0], rest);
    }
  }

  /** A chunk that goes right: a small plan within its limits, published once. */
  function GoodAnswer(profile: string, k: nat): Answer {
    var id := PublicationId(profile, k);
    Answer(Receipt.FROZEN_TAIL_LIMITS, [], Small, [SMALL_REASON], Expected(profile, k), true, Expected(profile, k),
           true, id, true, [WriterLock, WriterPublish], id, id, 0, 0, 0, Expected(profile, k), 0, true, true, id, [])
  }

  lemma GoodAnswerPasses(profile: string, k: nat)
    ensures Passes(Expected(profile, k), PublicationId(profile, k), GoodAnswer(profile, k))
  {
    var head, id, a := Expected(profile, k), PublicationId(profile, k), GoodAnswer(profile, k);
    assert a.writerEvents[0] == WriterLock && a.writerEvents[1] == WriterPublish;
    forall check: Check ensures !Violated(check, head, id, a) {
    }
  }

  function GoodStore(profile: string, n: nat, rows: seq<Row>): Store
    requires n > 0
  {
    Store(SEED, [], seq(n, k requires 0 <= k => GoodAnswer(profile, k)), true, rows, PublicationId(profile, n - 1),
          0, 0, 0, Receipt.FROZEN_TAIL_LIMITS)
  }

  lemma {:induction false} NothingInserted(answers: seq<Answer>, n: nat)
    requires n <= |answers| && forall k :: 0 <= k < |answers| ==> answers[k].inserted == 0
    ensures Inserted(answers, n) == 0
  {
    if n > 0 {
      NothingInserted(answers, n - 1);
    }
  }

  lemma GoodChunksPass(profile: string, n: nat, rows: seq<Row>)
    requires n > 0
    ensures var s := GoodStore(profile, n, rows);
            AllPass(profile, SEED, s.answers, n) && EachOnce(s.answers, n)
  {
    hide PublicationId, Passes, Occurrences;
    var s := GoodStore(profile, n, rows);
    forall k | 0 <= k < n
      ensures Passes(HeadAt(SEED, s.answers, k), PublicationId(profile, k), s.answers[k])
      ensures Occurrences(s.answers[k].writerEvents, WriterPublish) == 1
    {
      assert HeadAt(SEED, s.answers, k) == Expected(profile, k);
      GoodAnswerPasses(profile, k);
      OnePublication();
    }
  }

  lemma GoodChunksMove(profile: string, n: nat, rows: seq<Row>)
    requires n > 0
    ensures var s := GoodStore(profile, n, rows);
            && OnlyPublicationMovesPointer(s.answers) && OneTailLimits(s) && OwnEvents(s.setup, s.answers)
            && Inserted(s.answers, n) == 0
  {
    hide PublicationId;
    NothingInserted(GoodStore(profile, n, rows).answers, n);
  }

  lemma GoodChunksTable(profile: string, n: nat, rows: seq<Row>)
    requires n > 0
    ensures PublishedRows(profile, GoodStore(profile, n, rows)) == Table(profile, n)
  {
    hide PublicationId;
    var s := GoodStore(profile, n, rows);
    var published, table := PublishedRows(profile, s), Table(profile, n);
    forall k | 0 <= k < |published| ensures published[k] == table[k] {
      if k > 0 {
        assert published[k] == PublishedRow(profile, s, k - 1);
        assert s.answers[k - 1] == GoodAnswer(profile, k - 1);
      }
    }
  }

  /** For every profile and number of chunks some store does everything right. */
  lemma CorrectStoreExists(profile: string, n: nat) returns (s: Store)
    requires n > 0
    ensures Correct(profile, s) && |s.answers| == n
  {
    hide PublicationId, GoodAnswer;
    var table := Table(profile, n);
    forall i, j | 0 <= i < j < |table| ensures table[i].id != table[j].id {
      if table[i].id == table[j].id {
        ExpectedInjective(profile, i, j);
      }
    }
    var rows := SortedRowsExist(table);
    s := GoodStore(profile, n, rows);
    GoodChunksPass(profile, n, rows);
    GoodChunksMove(profile, n, rows);
    GoodChunksTable(profile, n, rows);
    hide AllPass, EachOnce, OnlyPublicationMovesPointer, OneTailLimits, OwnEvents, PublishedRows, Table, StrictlySorted, Ids;
  }

  lemma OnePublication()
    ensures Occurrences([WriterLock, WriterPublish], WriterPublish) == 1
  {
    assert [WriterLock, WriterPublish][1..] == [WriterPublish] && [WriterPublish][1..] == [];
  }

  // ---- `run` ------------------------------------------------------------

  datatype RunOutcome = Raises | Returns(payload: Receipt.Payload)

  /** What was measured, with the publication parts of the two returned receipts. */
  function Published(measured: Receipt.Measured, standard: Store, production: Store): Receipt.Measured {
    measured.(
      standard := measured.standard.(publication := Receipt.Publication(true, standard.tailLimits)),
      production := measured.production.(publication := Receipt.Publication(true, production.tailLimits)))
  }

  /** `run` returns its payload if both receipts were returned, and otherwise raises; `names` are the two profiles. */
  ghost function RunOf(
    names: (string, string), measured: Receipt.Measured, standard: Store, production: Store, recovery: string): RunOutcome
  {
    if ReceiptReturned(names.0, standard) && ReceiptReturned(names.1, production) then
      Returns(Receipt.ChildPayload(Published(measured, standard, production), recovery))
    else Raises
  }

  /** The exit code of `_child_run`. */
  function ChildCode(outcome: RunOutcome): int {
    match outcome
    case Raises => 70
    case Returns(payload) => Receipt.ChildExitCode(payload)
  }

  /** A returned payload reports each profile's own receipt, and no exit code is 70 but that of a run that raised. */
  lemma ReturnedPublications(
    names: (string, string), measured: Receipt.Measured, standard: Store, production: Store, recovery: string)
    ensures var outcome := RunOf(names, measured, standard, production, recovery);
            && (outcome.Raises? <==> ChildCode(outcome) == 70)
            && (outcome.Returns? ==>
                  var m := outcome.payload.measurements;
                  && Receipt.Standard30Day in m && m[Receipt.Standard30Day].Profile?
                  && m[Receipt.Standard30Day].publication == Receipt.Publication(true, standard.tailLimits)
                  && Receipt.ProductionAllTime in m && m[Receipt.ProductionAllTime].Profile?
                  && m[Receipt.ProductionAllTime].publication == Receipt.Publication(true, production.tailLimits))
  {
    hide ReceiptReturned;
    Receipt.ProducedPayload(Published(measured, standard, production), recovery);
  }

  /** A payload that `run` returns was built from sound publications. */
  lemma ReturnedRunIsSound(
    names: (string, string), measured: Receipt.Measured, standard: Store, production: Store, recovery: string)
    requires RunOf(names, measured, standard, production, recovery).Returns?
    requires OneTailLimits(standard) && OneTailLimits(production)
    ensures Receipt.PublicationsSound(Published(measured, standard, production))
  {
    ReturnedIsSound(names.0, standard);
    ReturnedIsSound(names.1, production);
  }

  /** Over two stores that do everything right, `run` returns exactly if both profiles are orderable. */
  lemma RunReturnsExactly(
    names: (string, string), measured: Receipt.Measured, standard: Store, production: Store, recovery: string)
    requires Correct(names.0, standard) && Correct(names.1, production)
    ensures RunOf(names, measured, standard, production, recovery).Returns?
            <==> Orderable(names.0, |standard.answers|) && Orderable(names.1, |production.answers|)
  {
    hide ReceiptReturned, Orderable;
    CorrectReturnsExactly(names.0, standard);
    CorrectReturnsExactly(names.1, production);
  }
}
