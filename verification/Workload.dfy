/**
 * The synthetic tool workload of scripts/benchmark_ck07r1_lifecycle_scale.py: its
 * observations, its cut into publication chunks, and the transition versions that the
 * run expects over all chunks.
 */
module Workload {
  const CHUNK := 8_000

  datatype ToolState = Running | Succeeded

  /** `entity` stands for the logical id, the digest of a native id that ends in the entity ordinal. */
  datatype Observation = Observation(
    entity: nat, state: ToolState, line: nat, byteStart: nat, byteEnd: nat,
    eventAt: nat, sourceOrder: nat, eventKindOrder: nat, transitionRank: nat)

  function ToolObservation(entity: nat, transition: nat): Observation {
    var order := entity * 2 + transition;
    Observation(entity, if transition == 0 then Running else Succeeded, order + 1, order * 10, order * 10 + 9,
                1_800_000_000_000_000 + order, order, 40 + transition, transition)
  }

  function ScaleLength(count: nat): nat {
    if count == 0 then 0 else 2 * count - 1
  }

  /** The whole workload by position: every entity starts, and every entity but the last one ends. */
  predicate IsScale(scale: seq<Observation>, count: nat) {
    && |scale| == ScaleLength(count)
    && forall i :: 0 <= i < |scale| ==> scale[i] == ToolObservation(i / 2, i % 2)
  }

  method ScaleObservations(count: nat) returns (scale: seq<Observation>)
    ensures IsScale(scale, count)
  {
    scale := [];
    for entity := 0 to count
      invariant |scale| == if entity == count then ScaleLength(count) else 2 * entity
      invariant forall i :: 0 <= i < |scale| ==> scale[i] == ToolObservation(i / 2, i % 2)
    {
      var transitions := if entity == count - 1 then 1 else 2;
      for transition := 0 to transitions
        invariant |scale| == 2 * entity + transition
        invariant forall i :: 0 <= i < |scale| ==> scale[i] == ToolObservation(i / 2, i % 2)
      {
        scale := scale + [ToolObservation(entity, transition)];
      }
    }
  }

  /** When the workload starts, in microseconds. */
  const START := 1_800_000_000_000_000

  /**
   * By position: even ones start their entity and odd ones end it, with the line, the nine
   * bytes of a range of ten, the microsecond and the order of the position itself.
   */
  lemma ScaleByPosition(scale: seq<Observation>, count: nat, i: nat)
    requires IsScale(scale, count) && i < |scale|
    ensures scale[i] == if i % 2 == 0 then Observation(i / 2, Running, i + 1, 10 * i, 10 * i + 9, START + i, i, 40, 0)
                        else Observation(i / 2, Succeeded, i + 1, 10 * i, 10 * i + 9, START + i, i, 41, 1)
  {
    assert i / 2 * 2 + i % 2 == i;
  }

  /** Every entity runs, and every entity but the last one then succeeds, once each. */
  lemma EveryEntityRuns(scale: seq<Observation>, count: nat, entity: nat)
    requires IsScale(scale, count) && entity < count
    ensures exists i :: 0 <= i < |scale| && scale[i].entity == entity && scale[i].state == Running
    ensures entity < count - 1 <==> exists i :: 0 <= i < |scale| && scale[i].entity == entity && scale[i].state == Succeeded
    ensures forall i, j :: 0 <= i < j < |scale| && scale[i].entity == scale[j].entity == entity ==>
              j == i + 1 && scale[i].state == Running && scale[j].state == Succeeded
  {
    assert scale[2 * entity] == ToolObservation(entity, 0);
    if entity < count - 1 {
      assert scale[2 * entity + 1] == ToolObservation(entity, 1);
    }
  }

  /** Source order is the position, byte ranges and lines do not overlap, and events are in time order. */
  lemma ScaleIsOrdered(scale: seq<Observation>, count: nat)
    requires IsScale(scale, count)
    ensures forall i :: 0 <= i < |scale| ==> scale[i].sourceOrder == i && scale[i].entity < count
    ensures forall i, j :: 0 <= i < j < |scale| ==>
              && scale[i].byteStart < scale[i].byteEnd < scale[j].byteStart
              && scale[i].line < scale[j].line && scale[i].eventAt < scale[j].eventAt
  {
    forall i | 0 <= i < |scale| ensures scale[i].sourceOrder == i && scale[i].byteStart == 10 * i {
      assert i / 2 * 2 + i % 2 == i;
    }
  }

  // ---- Chunks -----------------------------------------------------------

  function ChunkCount(length: nat, size: nat): nat
    requires size > 0
  {
    (length + size - 1) / size
  }

  function ChunkEnd(length: nat, size: nat, k: nat): (end: nat)
    ensures end <= length && end <= (k + 1) * size
  {
    if (k + 1) * size < length then (k + 1) * size else length
  }

  function Chunk<T>(s: seq<T>, size: nat, k: nat): (chunk: seq<T>)
    requires size > 0 && k < ChunkCount(|s|, size)
    ensures 0 < |chunk| <= size
  {
    ChunkStarts(|s|, size, k);
    s[k * size .. ChunkEnd(|s|, size, k)]
  }

  lemma ChunkStarts(length: nat, size: nat, k: nat)
    requires size > 0
    ensures k < ChunkCount(length, size) <==> k * size < length
  {
    var n := ChunkCount(length, size);
    assert n * size <= length + size - 1 < (n + 1) * size;
    if k < n {
      assert k * size <= (n - 1) * size;
    } else {
      assert n * size <= k * size;
    }
  }

  function Concat<T>(s: seq<T>, size: nat, k: nat): seq<T>
    requires size > 0 && k <= ChunkCount(|s|, size)
  {
    if k == 0 then [] else Concat(s, size, k - 1) + Chunk(s, size, k - 1)
  }

  /** The chunks in order are the workload: nothing is dropped, repeated or reordered. */
  lemma {:induction false} ChunksPartition<T>(s: seq<T>, size: nat, k: nat)
    requires size > 0 && k <= ChunkCount(|s|, size)
    ensures Concat(s, size, k) == s[..if k * size < |s| then k * size else |s|]
    ensures k == ChunkCount(|s|, size) ==> Concat(s, size, k) == s
  {
    ChunkStarts(|s|, size, k);
    if k > 0 {
      ChunksPartition(s, size, k - 1);
      ChunkStarts(|s|, size, k - 1);
      var from := (k - 1) * size;
      assert s[..from] + s[from..ChunkEnd(|s|, size, k - 1)] == s[..ChunkEnd(|s|, size, k - 1)];
    }
  }

  /** Both observations of an entity fall into one chunk. */
  lemma PairsStayTogether(scale: seq<Observation>, count: nat, i: nat, j: nat)
    requires IsScale(scale, count) && i < j < |scale| && scale[i].entity == scale[j].entity
    ensures i / CHUNK == j / CHUNK
  {
    assert j == i + 1 && i % 2 == 0;
    assert i % CHUNK % 2 == 0;
  }

  // ---- Expected versions ------------------------------------------------

  function Count(ids: seq<nat>, id: nat): (n: nat)
    ensures n <= |ids|
  {
    if ids == [] then 0 else Count(ids[..|ids| - 1], id) + if ids[|ids| - 1] == id then 1 else 0
  }

  lemma CountExtends(ids: seq<nat>, i: nat, id: nat)
    requires i < |ids|
    ensures Count(ids[..i + 1], id) == Count(ids[..i], id) + if ids[i] == id then 1 else 0
  {
    assert ids[..i + 1][..i] == ids[..i];
  }

  /**
   * The version counter lives across chunks: each observation gets its rank among those
   * of its entity in the whole run, whatever the chunk size.
   */
  method ExpectedVersions(ids: seq<nat>, size: nat) returns (versions: seq<nat>, byEntity: map<nat, seq<nat>>)
    requires size > 0
    ensures |versions| == |ids|
    ensures forall i :: 0 <= i < |ids| ==> versions[i] == Count(ids[..i], ids[i]) + 1
    ensures forall id :: id in byEntity <==> id in ids
    ensures forall id :: id in byEntity ==>
              |byEntity[id]| == Count(ids, id) && forall j :: 0 <= j < |byEntity[id]| ==> byEntity[id][j] == j + 1
  {
    hide Recorded, Count;
    var counters: map<nat, nat> := map[];
    versions, byEntity := [], map[];
    NothingRecorded(ids);
    var offset := 0;
    while offset < |ids|
      invariant Recorded(ids, if offset < |ids| then offset else |ids|, versions, counters, byEntity)
      decreases |ids| - offset
    {
      var end := if offset + size < |ids| then offset + size else |ids|;
      for i := offset to end
        invariant Recorded(ids, i, versions, counters, byEntity)
      {
        var id := ids[i];
        RecordOne(ids, i, versions, counters, byEntity);
        var version := (if id in counters then counters[id] else 0) + 1;
        counters := counters[id := version];
        byEntity := byEntity[id := (if id in byEntity then byEntity[id] else []) + [version]];
        versions := versions + [version];
      }
      offset := offset + size;
    }
    AllRecorded(ids, versions, counters, byEntity);
  }

  /** The first `n` observations are recorded. */
  ghost predicate Recorded(
    ids: seq<nat>, n: nat, versions: seq<nat>, counters: map<nat, nat>, byEntity: map<nat, seq<nat>>)
  {
    && n == |versions| <= |ids|
    && (forall i :: 0 <= i < n ==> versions[i] == Count(ids[..i], ids[i]) + 1)
    && (forall id :: id in counters <==> Count(ids[..n], id) > 0)
    && (forall id :: id in byEntity <==> id in counters)
    && (forall id :: id in counters ==> counters[id] == Count(ids[..n], id) == |byEntity[id]|)
    && (forall id, j :: id in byEntity && 0 <= j < |byEntity[id]| ==> byEntity[id][j] == j + 1)
  }

  lemma NothingRecorded(ids: seq<nat>)
    ensures Recorded(ids, 0, [], map[], map[])
  {
  }

  lemma RecordOne(
    ids: seq<nat>, n: nat, versions: seq<nat>, counters: map<nat, nat>, byEntity: map<nat, seq<nat>>)
    requires n < |ids| && Recorded(ids, n, versions, counters, byEntity)
    ensures var id := ids[n];
            var version := (if id in counters then counters[id] else 0) + 1;
            var history := (if id in byEntity then byEntity[id] else []) + [version];
            Recorded(ids, n + 1, versions + [version], counters[id := version], byEntity[id := history])
  {
    hide Count;
    forall id ensures Count(ids[..n + 1], id) == Count(ids[..n], id) + if ids[n] == id then 1 else 0 {
      CountExtends(ids, n, id);
    }
  }

  lemma AllRecorded(ids: seq<nat>, versions: seq<nat>, counters: map<nat, nat>, byEntity: map<nat, seq<nat>>)
    requires Recorded(ids, |ids|, versions, counters, byEntity)
    ensures |versions| == |ids|
    ensures forall i :: 0 <= i < |ids| ==> versions[i] == Count(ids[..i], ids[i]) + 1
    ensures forall id :: id in byEntity <==> id in ids
    ensures forall id :: id in byEntity ==>
              |byEntity[id]| == Count(ids, id) && forall j :: 0 <= j < |byEntity[id]| ==> byEntity[id][j] == j + 1
  {
    hide Count;
    assert ids[..|ids|] == ids;
    forall id ensures Count(ids, id) > 0 <==> id in ids {
      CountIsMembership(ids, id);
    }
  }

  lemma {:induction false} CountIsMembership(ids: seq<nat>, id: nat)
    ensures Count(ids, id) > 0 <==> id in ids
  {
    if ids != [] {
      CountIsMembership(ids[..|ids| - 1], id);
      assert ids == ids[..|ids| - 1] + [ids[|ids| - 1]];
    }
  }

  function Entities(scale: seq<Observation>): (ids: seq<nat>)
    ensures |ids| == |scale| && forall i :: 0 <= i < |ids| ==> ids[i] == scale[i].entity
  {
    seq(|scale|, i requires 0 <= i < |scale| => scale[i].entity)
  }

  /** Earlier observations of an entity: none for its start, one for its end. */
  lemma {:induction false} EarlierInScale(ids: seq<nat>, n: nat, id: nat)
    requires n <= |ids| && forall i :: 0 <= i < |ids| ==> ids[i] == i / 2
    ensures Count(ids[..n], id) == if n <= 2 * id then 0 else if n == 2 * id + 1 then 1 else 2
  {
    if n > 0 {
      EarlierInScale(ids, n - 1, id);
      CountExtends(ids, n - 1, id);
    }
  }

  /** On the scale workload the expected versions are the transition ordinals, 1 and then 2, without a gap. */
  lemma ScaleVersions(scale: seq<Observation>, count: nat, i: nat)
    requires IsScale(scale, count) && i < |scale|
    ensures Count(Entities(scale)[..i], scale[i].entity) + 1 == scale[i].transitionRank + 1
    ensures Count(Entities(scale), scale[i].entity) == if scale[i].entity == count - 1 then 1 else 2
  {
    var ids := Entities(scale);
    assert ids[..|ids|] == ids;
    EarlierInScale(ids, i, i / 2);
    EarlierInScale(ids, |ids|, i / 2);
  }
}
