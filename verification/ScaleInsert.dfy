/**
 * The batched insertion of synthetic calls in scripts/qualify_ck08r3_evidence_scale.py
 * (`_insert_scale_calls`): the tables of one publication, filled up to a target size.
 */
module ScaleInsert {
  import opened Wrappers
  import opened TextOrder

  const TAIL_CAPACITY := 32_000
  const BATCH := 10_000
  const BASE_TIME_US := 1_767_225_600_000_000

  datatype Storage = Tail | Base

  datatype Call = Call(
    id: string, session: string, eventAt: int, sourceOrder: int, tailOrdinal: int, occurrence: string)

  datatype Occurrence = Occurrence(id: string, call: string, record: int, byteStart: int, byteEnd: int)

  datatype Problem =
    | BaseExceedsTarget | NoCallTemplate | NoOccurrenceTemplate | TailBeyondCapacity | ScaleBeyondCapacity
    | ProfileExists | CountMismatch

  datatype Filled = Filled(visibleBefore: nat, insertedTail: nat, insertedBase: nat, visibleAfter: nat)

  /** What one insertion takes from the tables before it starts. */
  datatype Plan = Plan(profile: string, session: string, recordBase: int, byteBase: int, tailBase: int)

  // ---- Identifiers ------------------------------------------------------

  function Zeros(n: nat): (s: string)
    ensures |s| == n
  {
    if n == 0 then "" else "0" + Zeros(n - 1)
  }

  /** The ordinal with at least seven digits. */
  function Padded(n: nat): string {
    if |Decimal(n)| < 7 then Zeros(7 - |Decimal(n)|) + Decimal(n) else Decimal(n)
  }

  function Parsed(s: string): int {
    if s == "" then 0 else 10 * Parsed(s[..|s| - 1]) + (s[|s| - 1] as int - '0' as int)
  }

  lemma {:induction false} ParsedDecimal(n: nat)
    ensures Parsed(Decimal(n)) == n
  {
    if n < 10 {
      assert Decimal(n)[..0] == "";
    } else {
      ParsedDecimal(n / 10);
      assert Decimal(n)[..|Decimal(n)| - 1] == Decimal(n / 10);
    }
  }

  lemma {:induction false} ParsedZeros(n: nat, s: string)
    ensures Parsed(Zeros(n) + s) == Parsed(s)
    decreases n, |s|
  {
    if s != "" {
      var t := Zeros(n) + s;
      assert t[..|t| - 1] == Zeros(n) + s[..|s| - 1];
      ParsedZeros(n, s[..|s| - 1]);
    } else if n > 0 {
      ParsedZeros(n - 1, "0");
      assert Zeros(n) + "" == "0" + Zeros(n - 1);
      ZerosCommute(n - 1);
      assert Parsed("0") == 0 by {
        assert "0"[..0] == "";
      }
    }
  }

  lemma {:induction false} ZerosCommute(n: nat)
    ensures "0" + Zeros(n) == Zeros(n) + "0"
  {
    if n > 0 {
      ZerosCommute(n - 1);
    }
  }

  /** Padding keeps the value, so different ordinals have different texts. */
  lemma ParsedPadded(n: nat)
    ensures Parsed(Padded(n)) == n
  {
    ParsedDecimal(n);
    hide Parsed, Decimal, Zeros;
    if |Decimal(n)| < 7 {
      ParsedZeros(7 - |Decimal(n)|, Decimal(n));
    }
  }

  function Tens(digits: nat): nat {
    if digits == 0 then 1 else 10 * Tens(digits - 1)
  }

  lemma {:induction false} DecimalFits(n: nat, digits: nat)
    requires n < Tens(digits) && digits > 0
    ensures |Decimal(n)| <= digits
  {
    if n >= 10 {
      DecimalFits(n / 10, digits - 1);
    }
  }

  /** Ordinals of up to seven digits are padded to exactly seven, longer ones are left alone. */
  lemma PaddedLength(n: nat)
    ensures |Padded(n)| >= 7
    ensures n < 10_000_000 ==> |Padded(n)| == 7
    ensures |Padded(n)| > 7 ==> Padded(n) == Decimal(n)
  {
    if n < 10_000_000 {
      assert Tens(7) == 10_000_000;
      DecimalFits(n, 7);
    }
  }

  function CallId(profile: string, ordinal: nat): string {
    "call:ck08r3:" + profile + ":" + Padded(ordinal)
  }

  function OccurrenceId(profile: string, ordinal: nat): string {
    "source-occurrence:ck08r3:" + profile + ":" + Padded(ordinal)
  }

  function ProfileId(profile: string): string {
    "model-profile:ck08r3-scale:" + profile
  }

  predicate Digits(s: string) {
    forall k :: 0 <= k < |s| ==> '0' <= s[k] <= '9'
  }

  lemma {:induction false} DecimalIsDigits(n: nat)
    ensures Digits(Decimal(n))
  {
    if n >= 10 {
      DecimalIsDigits(n / 10);
    }
  }

  lemma {:induction false} ZerosAreDigits(n: nat)
    ensures Digits(Zeros(n))
  {
    if n > 0 {
      ZerosAreDigits(n - 1);
    }
  }

  lemma PaddedIsDigits(n: nat)
    ensures Digits(Padded(n))
  {
    DecimalIsDigits(n);
    if |Decimal(n)| < 7 {
      ZerosAreDigits(7 - |Decimal(n)|);
    }
    hide Decimal, Zeros;
  }

  /** The last colon of an id ends the profile, whatever the profile contains. */
  lemma LastColonSplits(prefix: string, p: string, left: string, q: string, right: string)
    requires prefix + p + ":" + left == prefix + q + ":" + right && Digits(left) && Digits(right)
    ensures p == q && left == right
  {
    var n := |prefix|;
    var s, t := prefix + p + ":" + left, prefix + q + ":" + right;
    DigitsFollow(prefix + p, left);
    DigitsFollow(prefix + q, right);
    assert |p| == |q|;
    assert s[n..n + |p|] == p && t[n..n + |q|] == q;
    assert s[n + |p| + 1..] == left && t[n + |q| + 1..] == right;
  }

  lemma DigitsFollow(front: string, digits: string)
    requires Digits(digits)
    ensures var s := front + ":" + digits;
            s[|front|] == ':' && forall k :: |front| < k < |s| ==> s[k] != ':'
  {
  }

  /** Ids of different profiles or ordinals differ, and no call, occurrence or profile id is one of another kind. */
  lemma IdsDistinct(p: string, m: nat, q: string, n: nat)
    ensures CallId(p, m) == CallId(q, n) ==> p == q && m == n
    ensures OccurrenceId(p, m) == OccurrenceId(q, n) ==> p == q && m == n
    ensures CallId(p, m) != OccurrenceId(q, n) && OccurrenceId(p, m) != CallId(q, n)
    ensures ProfileId(p) != CallId(q, n) && ProfileId(p) != OccurrenceId(q, n)
    ensures ProfileId(p) == ProfileId(q) ==> p == q
  {
    PaddedIsDigits(m);
    PaddedIsDigits(n);
    ParsedPadded(m);
    ParsedPadded(n);
    hide Padded, Parsed;
    assert CallId(p, m)[0] == CallId(q, n)[0] == 'c' && ProfileId(p)[0] == 'm';
    assert OccurrenceId(p, m)[0] == OccurrenceId(q, n)[0] == 's';
    if CallId(p, m) == CallId(q, n) {
      LastColonSplits("call:ck08r3:", p, Padded(m), q, Padded(n));
    }
    if OccurrenceId(p, m) == OccurrenceId(q, n) {
      LastColonSplits("source-occurrence:ck08r3:", p, Padded(m), q, Padded(n));
    }
    if ProfileId(p) == ProfileId(q) {
      assert ProfileId(p)[|ProfileId("")|..] == p && ProfileId(q)[|ProfileId("")|..] == q;
    }
  }

  // ---- The rows of one ordinal ------------------------------------------

  /** `offset` is the place within its table's share. */
  function NewCall(plan: Plan, storage: Storage, ordinal: nat, offset: nat): Call {
    Call(CallId(plan.profile, ordinal), plan.session, BASE_TIME_US + ordinal, BASE_TIME_US + ordinal,
         if storage.Tail? then plan.tailBase + offset + 1 else 0, OccurrenceId(plan.profile, ordinal))
  }

  function NewOccurrence(plan: Plan, ordinal: nat): Occurrence {
    Occurrence(OccurrenceId(plan.profile, ordinal), CallId(plan.profile, ordinal), plan.recordBase + ordinal,
               plan.byteBase + ordinal * 2, plan.byteBase + ordinal * 2 + 1)
  }

  function Calls(plan: Plan, storage: Storage, start: nat, n: nat): (rows: seq<Call>)
    ensures |rows| == n && forall i :: 0 <= i < n ==> rows[i] == NewCall(plan, storage, start + i, i)
  {
    seq(n, i requires 0 <= i => NewCall(plan, storage, start + i, i))
  }

  function Occurrences(plan: Plan, start: nat, n: nat): (rows: seq<Occurrence>)
    ensures |rows| == n && forall i :: 0 <= i < n ==> rows[i] == NewOccurrence(plan, start + i)
  {
    seq(n, i requires 0 <= i => NewOccurrence(plan, start + i))
  }

  function Locations(plan: Plan, storage: Storage, start: nat, n: nat): (rows: seq<(string, Storage)>)
    ensures |rows| == n && forall i :: 0 <= i < n ==> rows[i] == (CallId(plan.profile, start + i), storage)
  {
    seq(n, i requires 0 <= i => (CallId(plan.profile, start + i), storage))
  }

  /** A call identity and an occurrence identity for each ordinal. */
  function Identities(plan: Plan, start: nat, n: nat): (ids: seq<string>)
    ensures |ids| == 2 * n
  {
    if n == 0 then []
    else Identities(plan, start, n - 1) + [CallId(plan.profile, start + n - 1), OccurrenceId(plan.profile, start + n - 1)]
  }

  function InSession(rows: seq<Call>, session: string): nat {
    if rows == [] then 0
    else InSession(rows[..|rows| - 1], session) + if rows[|rows| - 1].session == session then 1 else 0
  }

  lemma {:induction false} InSessionAppend(left: seq<Call>, right: seq<Call>, session: string)
    ensures InSession(left + right, session) == InSession(left, session) + InSession(right, session)
  {
    if right == [] {
      assert left + right == left;
    } else {
      var most := right[..|right| - 1];
      assert (left + right)[..|left + right| - 1] == left + most;
      InSessionAppend(left, most, session);
    }
  }

  lemma {:induction false} AllInSession(rows: seq<Call>, session: string)
    requires forall i :: 0 <= i < |rows| ==> rows[i].session == session
    ensures InSession(rows, session) == |rows|
  {
    if rows != [] {
      AllInSession(rows[..|rows| - 1], session);
    }
  }

  lemma {:induction false} NoneInSession(rows: seq<Call>, session: string)
    requires forall i :: 0 <= i < |rows| ==> rows[i].session != session
    ensures InSession(rows, session) == 0
  {
    if rows != [] {
      NoneInSession(rows[..|rows| - 1], session);
    }
  }

  /** `COALESCE(MAX(...), 0)` over a column. */
  function MaxTail(rows: seq<Call>): (m: int)
    ensures forall i :: 0 <= i < |rows| ==> rows[i].tailOrdinal <= m
    ensures if rows == [] then m == 0 else exists i :: 0 <= i < |rows| && rows[i].tailOrdinal == m
  {
    if rows == [] then 0
    else
      var m := MaxTail(rows[..|rows| - 1]);
      var last := rows[|rows| - 1].tailOrdinal;
      if |rows| == 1 || last > m then last else m
  }

  function MaxByteEnd(rows: seq<Occurrence>): (m: int)
    ensures forall i :: 0 <= i < |rows| ==> rows[i].byteEnd <= m
    ensures if rows == [] then m == 0 else exists i :: 0 <= i < |rows| && rows[i].byteEnd == m
  {
    if rows == [] then 0
    else
      var m := MaxByteEnd(rows[..|rows| - 1]);
      var last := rows[|rows| - 1].byteEnd;
      if |rows| == 1 || last > m then last else m
  }

  function MaxRecord(rows: seq<Occurrence>): (m: int)
    ensures forall i :: 0 <= i < |rows| ==> rows[i].record <= m
    ensures if rows == [] then m == 0 else exists i :: 0 <= i < |rows| && rows[i].record == m
  {
    if rows == [] then 0
    else
      var m := MaxRecord(rows[..|rows| - 1]);
      var last := rows[|rows| - 1].record;
      if |rows| == 1 || last > m then last else m
  }

  // ---- The tables -------------------------------------------------------

  class Publication {
    var tail: seq<Call>
    var base: seq<Call>
    var occurrences: seq<Occurrence>
    var locations: seq<(string, Storage)>
    var identities: seq<string>

    constructor (tail: seq<Call>, base: seq<Call>, occurrences: seq<Occurrence>)
      ensures this.tail == tail && this.base == base && this.occurrences == occurrences
      ensures locations == [] && identities == []
    {
      this.tail, this.base, this.occurrences, locations, identities := tail, base, occurrences, [], [];
    }

    /** Calls of the session in both tables. */
    function Visible(session: string): nat
      reads this
    {
      InSession(tail, session) + InSession(base, session)
    }

    method Flush(
      storage: Storage, values: seq<Call>, occurrenceValues: seq<Occurrence>,
      locationValues: seq<(string, Storage)>, identityValues: seq<string>)
      modifies this
      ensures tail == old(tail) + if storage.Tail? then values else []
      ensures base == old(base) + if storage.Base? then values else []
      ensures occurrences == old(occurrences) + occurrenceValues
      ensures locations == old(locations) + locationValues
      ensures identities == old(identities) + identityValues
    {
      identities := identities + identityValues;
      occurrences := occurrences + occurrenceValues;
      locations := locations + locationValues;
      if storage.Tail? {
        tail := tail + values;
      } else {
        base := base + values;
      }
    }

    /** Whatever the batches, every ordinal of the share is inserted once, in order, in all four tables. */
    method InsertRows(plan: Plan, storage: Storage, start: nat, count: nat)
      modifies this
      ensures tail == old(tail) + if storage.Tail? then Calls(plan, storage, start, count) else []
      ensures base == old(base) + if storage.Base? then Calls(plan, storage, start, count) else []
      ensures occurrences == old(occurrences) + Occurrences(plan, start, count)
      ensures locations == old(locations) + Locations(plan, storage, start, count)
      ensures identities == old(identities) + Identities(plan, start, count)
    {
      hide NewCall, NewOccurrence, CallId, OccurrenceId, Calls, Occurrences, Locations, Identities;
      NoRows(plan, storage, start);
      var values: seq<Call> := [];
      var occurrenceValues: seq<Occurrence> := [];
      var locationValues: seq<(string, Storage)> := [];
      var identityValues: seq<string> := [];
      for offset := 0 to count
        invariant |values| < BATCH
        invariant tail + (if storage.Tail? then values else [])
                  == old(tail) + if storage.Tail? then Calls(plan, storage, start, offset) else []
        invariant base + (if storage.Base? then values else [])
                  == old(base) + if storage.Base? then Calls(plan, storage, start, offset) else []
        invariant occurrences + occurrenceValues == old(occurrences) + Occurrences(plan, start, offset)
        invariant locations + locationValues == old(locations) + Locations(plan, storage, start, offset)
        invariant identities + identityValues == old(identities) + Identities(plan, start, offset)
      {
        var ordinal := start + offset;
        OneMore(plan, storage, start, offset);
        var call, occurrence := NewCall(plan, storage, ordinal, offset), NewOccurrence(plan, ordinal);
        RowIds(plan, storage, ordinal, offset);
        var location, ids := (call.id, storage), [call.id, occurrence.id];
        Regroup(tail, values, [call], old(tail), Calls(plan, storage, start, offset));
        Regroup(base, values, [call], old(base), Calls(plan, storage, start, offset));
        Regroup(occurrences, occurrenceValues, [occurrence], old(occurrences), Occurrences(plan, start, offset));
        Regroup(locations, locationValues, [location], old(locations), Locations(plan, storage, start, offset));
        Regroup(identities, identityValues, ids, old(identities), Identities(plan, start, offset));
        values, occurrenceValues := values + [call], occurrenceValues + [occurrence];
        locationValues, identityValues := locationValues + [location], identityValues + ids;
        if |values| == BATCH {
          Flush(storage, values, occurrenceValues, locationValues, identityValues);
          values, occurrenceValues, locationValues, identityValues := [], [], [], [];
        }
      }
      Flush(storage, values, occurrenceValues, locationValues, identityValues);
    }

    /** Both shares, tail first. */
    method InsertShares(plan: Plan, before: nat, tailCount: nat, baseCount: nat)
      modifies this
      ensures tail == old(tail) + Calls(plan, Tail, before, tailCount)
      ensures base == old(base) + Calls(plan, Base, before + tailCount, baseCount)
      ensures occurrences == old(occurrences) + Occurrences(plan, before, tailCount + baseCount)
      ensures locations == old(locations) + Locations(plan, Tail, before, tailCount)
                           + Locations(plan, Base, before + tailCount, baseCount)
      ensures identities == old(identities) + Identities(plan, before, tailCount + baseCount)
      ensures Visible(plan.session) == old(Visible(plan.session)) + tailCount + baseCount
    {
      hide Calls, Occurrences, Locations, Identities, InSession;
      InsertRows(plan, Tail, before, tailCount);
      InsertRows(plan, Base, before + tailCount, baseCount);
      OccurrencesJoin(plan, before, tailCount, baseCount);
      IdentitiesJoin(plan, before, tailCount, baseCount);
      assert old(identities) + Identities(plan, before, tailCount) + Identities(plan, before + tailCount, baseCount)
          == old(identities) + (Identities(plan, before, tailCount) + Identities(plan, before + tailCount, baseCount));
      ReachesTarget(old(tail), old(base), plan, before, tailCount, baseCount);
      assert old(occurrences) + Occurrences(plan, before, tailCount) + Occurrences(plan, before + tailCount, baseCount)
          == old(occurrences) + (Occurrences(plan, before, tailCount) + Occurrences(plan, before + tailCount, baseCount));
      assert base == old(base) + Calls(plan, Base, before + tailCount, baseCount);
      assert tail == old(tail) + Calls(plan, Tail, before, tailCount);
    }

    /**
     * The session reaches exactly the target, and each new ordinal has one row in each
     * table; of the refusals two can never happen.
     */
    method Fill(profile: string, session: string, target: nat) returns (r: Result<Filled, Problem>)
      modifies this
      ensures r.Ok? <==>
              && old(Visible(session)) <= target
              && (old(Visible(session)) < target ==>
                   && old(tail) != [] && old(occurrences) != [] && ProfileId(profile) !in old(identities)
                   && PlanOf(profile, session, old(tail), old(occurrences)).tailBase <= TAIL_CAPACITY)
      ensures r.Ok? ==>
                var before := old(Visible(session));
                var plan := PlanOf(profile, session, old(tail), old(occurrences));
                var tailCount := TailShare(target - before, plan);
                var baseCount := target - before - tailCount;
                && r.value == Filled(before, tailCount, baseCount, target) && Visible(session) == target
                && tail == old(tail) + Calls(plan, Tail, before, tailCount)
                && base == old(base) + Calls(plan, Base, before + tailCount, baseCount)
                && occurrences == old(occurrences) + Occurrences(plan, before, target - before)
                && locations == old(locations) + (if tailCount + baseCount == 0 then []
                                                  else Locations(plan, Tail, before, tailCount)
                                                       + Locations(plan, Base, before + tailCount, baseCount))
                && identities == old(identities) + (if tailCount + baseCount == 0 then []
                                                    else [ProfileId(profile)] + Identities(plan, before, target - before))
      ensures r.Err? ==> r.error != ScaleBeyondCapacity && r.error != CountMismatch
      ensures r.Err? ==> tail == old(tail) && base == old(base) && occurrences == old(occurrences)
      ensures Registered(old(identities)) ==> Registered(identities)
    {
      hide Calls, Occurrences, Locations, Identities, InSession, MaxTail, MaxRecord, MaxByteEnd, ProfileId, Registered;
      var before := Visible(session);
      if before > target { return Err(BaseExceedsTarget); }
      var remaining := target - before;
      var plan := PlanOf(profile, session, tail, occurrences);
      if remaining == 0 {
        return Ok(Filled(before, 0, 0, before));
      }
      if tail == [] { return Err(NoCallTemplate); }
      if occurrences == [] { return Err(NoOccurrenceTemplate); }
      var capacity := TAIL_CAPACITY - plan.tailBase;
      if capacity < 0 { return Err(TailBeyondCapacity); }
      var tailCount := if remaining < capacity then remaining else capacity;
      var baseCount := remaining - tailCount;
      if plan.tailBase + tailCount > TAIL_CAPACITY { return Err(ScaleBeyondCapacity); }
      if ProfileId(profile) in identities { return Err(ProfileExists); }
      if Registered(identities) {
        RegisteredStays(identities, plan, before, remaining);
      }
      identities := identities + [ProfileId(profile)];
      InsertShares(plan, before, tailCount, baseCount);
      var after := Visible(session);
      if after != target { return Err(CountMismatch); }
      r := Ok(Filled(before, tailCount, baseCount, after));
    }
  }

  function PlanOf(profile: string, session: string, tail: seq<Call>, occurrences: seq<Occurrence>): Plan {
    Plan(profile, session, MaxRecord(occurrences) + 1, MaxByteEnd(occurrences) + 1_000, MaxTail(tail))
  }

  /** As many as the tail still takes. */
  function TailShare(remaining: nat, plan: Plan): (n: nat)
    ensures n <= remaining
  {
    var capacity := TAIL_CAPACITY - plan.tailBase;
    if capacity < 0 then 0 else if remaining < capacity then remaining else capacity
  }

  lemma ReachesTarget(tail: seq<Call>, base: seq<Call>, plan: Plan, before: nat, tailCount: nat, baseCount: nat)
    ensures InSession(tail + Calls(plan, Tail, before, tailCount), plan.session)
            + InSession(base + Calls(plan, Base, before + tailCount, baseCount), plan.session)
            == InSession(tail, plan.session) + InSession(base, plan.session) + tailCount + baseCount
  {
    InSessionAppend(tail, Calls(plan, Tail, before, tailCount), plan.session);
    InSessionAppend(base, Calls(plan, Base, before + tailCount, baseCount), plan.session);
    AllInSession(Calls(plan, Tail, before, tailCount), plan.session);
    AllInSession(Calls(plan, Base, before + tailCount, baseCount), plan.session);
  }

  lemma OccurrencesJoin(plan: Plan, start: nat, m: nat, n: nat)
    ensures Occurrences(plan, start, m) + Occurrences(plan, start + m, n) == Occurrences(plan, start, m + n)
  {
    hide NewOccurrence;
    var left, right, whole := Occurrences(plan, start, m), Occurrences(plan, start + m, n), Occurrences(plan, start, m + n);
    forall i | 0 <= i < m + n ensures (left + right)[i] == whole[i] {
      if i >= m {
        assert right[i - m] == NewOccurrence(plan, start + m + (i - m));
      }
    }
  }

  lemma {:induction false} IdentitiesJoin(plan: Plan, start: nat, m: nat, n: nat)
    ensures Identities(plan, start, m) + Identities(plan, start + m, n) == Identities(plan, start, m + n)
  {
    hide CallId, OccurrenceId;
    if n > 0 {
      IdentitiesJoin(plan, start, m, n - 1);
      assert start + m + n - 1 == start + (m + n) - 1;
    }
  }

  /** The identity that stands at a place of the list. */
  lemma {:induction false} IdentityAt(plan: Plan, start: nat, n: nat, k: nat)
    requires k < 2 * n
    ensures Identities(plan, start, n)[k]
            == if k % 2 == 0 then CallId(plan.profile, start + k / 2) else OccurrenceId(plan.profile, start + k / 2)
  {
    hide CallId, OccurrenceId;
    if k < 2 * (n - 1) {
      IdentityAt(plan, start, n - 1, k);
    } else {
      assert start + n - 1 == start + k / 2;
    }
  }

  /** No identity is registered twice. */
  lemma IdentitiesDistinct(plan: Plan, start: nat, n: nat, j: nat, k: nat)
    requires j < k < 2 * n
    ensures Identities(plan, start, n)[j] != Identities(plan, start, n)[k]
  {
    hide CallId, OccurrenceId;
    IdentityAt(plan, start, n, j);
    IdentityAt(plan, start, n, k);
    IdsDistinct(plan.profile, start + j / 2, plan.profile, start + k / 2);
    IdsDistinct(plan.profile, start + k / 2, plan.profile, start + j / 2);
  }

  // ---- The registry over many insertions --------------------------------

  /** No identity is registered twice, and one made from a profile stands beside its profile. */
  ghost predicate Registered(identities: seq<string>) {
    && (forall j, k :: 0 <= j < k < |identities| ==> identities[j] != identities[k])
    && (forall k, profile, n: nat :: 0 <= k < |identities| && identities[k] == CallId(profile, n) ==>
                                       ProfileId(profile) in identities)
    && (forall k, profile, n: nat :: 0 <= k < |identities| && identities[k] == OccurrenceId(profile, n) ==>
                                       ProfileId(profile) in identities)
  }

  /**
   * Any chain of insertions keeps the registry free of repeated identities, so that none of
   * them meets its unique key: what a new profile brings is in no older identity.
   */
  lemma RegisteredStays(identities: seq<string>, plan: Plan, start: nat, n: nat)
    requires Registered(identities) && ProfileId(plan.profile) !in identities
    ensures Registered(identities + [ProfileId(plan.profile)] + Identities(plan, start, n))
  {
    hide CallId, OccurrenceId, ProfileId, Identities;
    var all := identities + [ProfileId(plan.profile)] + Identities(plan, start, n);
    var size := |identities|;
    forall k | size < k < |all|
      ensures all[k] == CallId(plan.profile, start + (k - size - 1) / 2)
              || all[k] == OccurrenceId(plan.profile, start + (k - size - 1) / 2)
    {
      IdentityAt(plan, start, n, k - size - 1);
      assert all[k] == Identities(plan, start, n)[k - size - 1];
    }
    forall j, k | 0 <= j < k < |all| ensures all[j] != all[k] {
      if j > size {
        IdentitiesDistinct(plan, start, n, j - size - 1, k - size - 1);
      } else if k > size {
        IdsDistinct(plan.profile, 0, plan.profile, start + (k - size - 1) / 2);
        assert j < size ==> all[j] == identities[j];
      }
    }
    forall k, profile, m: nat | 0 <= k < |all| && (all[k] == CallId(profile, m) || all[k] == OccurrenceId(profile, m))
      ensures ProfileId(profile) in all
    {
      if k < size {
        assert all[k] == identities[k];
      } else {
        IdsDistinct(plan.profile, if k == size then 0 else start + (k - size - 1) / 2, profile, m);
        assert all[size] == ProfileId(plan.profile);
      }
    }
  }

  // ---- What the new rows look like --------------------------------------

  /** What an insertion writes for one ordinal, over tables with the given maxima. */
  lemma NewRowsFollowTheMaxima(
    profile: string, session: string, tail: seq<Call>, existing: seq<Occurrence>, ordinal: nat, offset: nat)
    ensures var plan := PlanOf(profile, session, tail, existing);
            && NewOccurrence(plan, ordinal) == Occurrence(
                 OccurrenceId(profile, ordinal), CallId(profile, ordinal), MaxRecord(existing) + 1 + ordinal,
                 MaxByteEnd(existing) + 1_000 + 2 * ordinal, MaxByteEnd(existing) + 1_001 + 2 * ordinal)
            && NewCall(plan, Tail, ordinal, offset).tailOrdinal == MaxTail(tail) + offset + 1
            && NewCall(plan, Base, ordinal, offset).tailOrdinal == 0
            && NewCall(plan, Tail, ordinal, offset).session == NewCall(plan, Base, ordinal, offset).session == session
  {
  }

  /** New byte ranges and records lie past every existing one and do not overlap each other. */
  lemma NewRangesAreDisjoint(plan: Plan, tail: seq<Call>, existing: seq<Occurrence>, m: nat, n: nat)
    requires plan == PlanOf(plan.profile, plan.session, tail, existing) && m < n
    ensures var first, later := NewOccurrence(plan, m), NewOccurrence(plan, n);
            && first.byteStart < first.byteEnd < later.byteStart && first.record < later.record
            && forall i :: 0 <= i < |existing| ==>
                 existing[i].byteEnd < first.byteStart && existing[i].record < first.record
  {
    var byteEnd, record := MaxByteEnd(existing), MaxRecord(existing);
    assert NewOccurrence(plan, m).byteStart > byteEnd && NewOccurrence(plan, m).record > record;
  }

  /** Tail ordinals go on where the existing ones end, without a gap, and stay within the capacity. */
  lemma TailOrdinalsStayWithinCapacity(plan: Plan, remaining: nat, start: nat, i: nat)
    requires plan.tailBase <= TAIL_CAPACITY && i < TailShare(remaining, plan)
    ensures var row := Calls(plan, Tail, start, TailShare(remaining, plan))[i];
            row.tailOrdinal == plan.tailBase + i + 1 <= TAIL_CAPACITY
  {
  }

  /** Over both tables every ordinal from the first to the target has one call, and no two share an id. */
  lemma EveryOrdinalOnce(plan: Plan, before: nat, tailCount: nat, baseCount: nat, i: nat, j: nat)
    requires i < j < tailCount + baseCount
    ensures var rows := Calls(plan, Tail, before, tailCount) + Calls(plan, Base, before + tailCount, baseCount);
            && |rows| == tailCount + baseCount && rows[i].id != rows[j].id
            && rows[i].eventAt < rows[j].eventAt && rows[i].sourceOrder == BASE_TIME_US + before + i
            && rows[i].occurrence == Occurrences(plan, before, tailCount + baseCount)[i].id
            && rows[i].id == Occurrences(plan, before, tailCount + baseCount)[i].call
  {
    hide CallId, OccurrenceId;
    IdsDistinct(plan.profile, before + i, plan.profile, before + j);
  }

  lemma NoRows(plan: Plan, storage: Storage, start: nat)
    ensures Calls(plan, storage, start, 0) == [] && Occurrences(plan, start, 0) == []
    ensures Locations(plan, storage, start, 0) == [] && Identities(plan, start, 0) == []
  {
  }

  lemma RowIds(plan: Plan, storage: Storage, ordinal: nat, offset: nat)
    ensures NewCall(plan, storage, ordinal, offset).id == CallId(plan.profile, ordinal)
    ensures NewOccurrence(plan, ordinal).id == OccurrenceId(plan.profile, ordinal)
  {
  }

  lemma Regroup<T>(table: seq<T>, buffer: seq<T>, more: seq<T>, before: seq<T>, rows: seq<T>)
    ensures table + buffer == before + rows ==> table + (buffer + more) == before + (rows + more)
  {
    assert table + (buffer + more) == (table + buffer) + more;
    assert before + (rows + more) == (before + rows) + more;
  }

  lemma OneMore(plan: Plan, storage: Storage, start: nat, n: nat)
    ensures Calls(plan, storage, start, n + 1) == Calls(plan, storage, start, n) + [NewCall(plan, storage, start + n, n)]
    ensures Occurrences(plan, start, n + 1) == Occurrences(plan, start, n) + [NewOccurrence(plan, start + n)]
    ensures Locations(plan, storage, start, n + 1)
            == Locations(plan, storage, start, n) + [(CallId(plan.profile, start + n), storage)]
    ensures Identities(plan, start, n + 1)
            == Identities(plan, start, n) + [CallId(plan.profile, start + n), OccurrenceId(plan.profile, start + n)]
  {
    hide NewCall, NewOccurrence, CallId, OccurrenceId;
  }
}
