/**
 * `_exclusive_write` and `_atomic_json_update` of
 * scripts/benchmark_ck07r1_lifecycle_scale.py: how the ledger file comes to hold an
 * image.  Each system call can work, raise before it takes effect, or raise after it,
 * and a power cut can drop whatever was not flushed.
 */
module AtomicUpdate {
  import opened Wrappers
  import opened RunLedger

  type Byte = bv8

  /** The first `flushed` bytes survive a power cut. */
  datatype Inode = Inode(data: seq<Byte>, flushed: nat)

  /** The entry as processes see it, and the entries before it that no directory flush has made permanent. */
  datatype Entry = Entry(shown: Option<Inode>, older: seq<Option<Inode>>)

  function Content(file: Option<Inode>): (c: Option<seq<Byte>>) {
    if file.None? then None else Some(file.value.data)
  }

  predicate Remains(file: Option<Inode>, left: Option<seq<Byte>>) {
    if file.None? || left.None? then file.None? && left.None?
    else left.value <= file.value.data && |left.value| >= file.value.flushed
  }

  /** What a power cut can leave of an entry: what is shown, or anything it replaced since the last directory flush. */
  predicate Survives(entry: Entry, left: Option<seq<Byte>>) {
    Remains(entry.shown, left) || exists i :: 0 <= i < |entry.older| && Remains(entry.older[i], left)
  }

  /** Everything about the entry has been flushed. */
  predicate Settled(entry: Entry) {
    entry.older == [] && (entry.shown.Some? ==> entry.shown.value.flushed == |entry.shown.value.data|)
  }

  /** A power cut leaves a settled entry as it is. */
  lemma SettledSurvives(entry: Entry, left: Option<seq<Byte>>)
    requires Settled(entry)
    ensures Survives(entry, left) <==> left == Content(entry.shown)
  {
    if left.Some? && Survives(entry, left) {
      assert left.value == entry.shown.value.data[..|left.value|] == entry.shown.value.data;
    }
  }

  /**
   * Between two contents: a reader finds one of them, and a power cut leaves the new one
   * or something it could have left before.
   */
  ghost predicate Between(entry: Entry, start: Entry, data: seq<Byte>) {
    && Content(entry.shown) in {Content(start.shown), Some(data)}
    && forall left :: Survives(entry, left) ==> Survives(start, left) || left == Some(data)
  }

  /** The target after an update with the given outcome. */
  ghost predicate Updated(before: Entry, after: Entry, data: seq<Byte>, outcome: WriteOutcome) {
    && Between(after, before, data)
    && Content(after.shown) == (if Lands(outcome) then Some(data) else Content(before.shown))
    && (outcome.Returned? ==> Settled(after))
    && (outcome.RaisedBefore? ==> after == before)
  }

  lemma RaisedBeforeUpdates(entry: Entry, data: seq<Byte>)
    ensures Updated(entry, entry, data, RaisedBefore)
  {
  }

  lemma StartIsBetween(entry: Entry, data: seq<Byte>)
    ensures Between(entry, entry, data)
  {
  }

  /** The replacement by a completely flushed file. */
  lemma ReplacedIsBetween(start: Entry, data: seq<Byte>)
    ensures Between(Entry(Some(Inode(data, |data|)), start.older + [start.shown]), start, data)
    ensures Between(Entry(Some(Inode(data, |data|)), []), start, data)
  {
    var file := Inode(data, |data|);
    forall left | Remains(Some(file), left) ensures left == Some(data) {
      SettledSurvives(Entry(Some(file), []), left);
    }
    var entry := Entry(Some(file), start.older + [start.shown]);
    forall left | Survives(entry, left) ensures Survives(start, left) || left == Some(data) {
      if !Remains(entry.shown, left) {
        var i :| 0 <= i < |entry.older| && Remains(entry.older[i], left);
        assert i < |start.older| ==> Remains(start.older[i], left);
      }
    }
  }

  // ---- Power cuts over many updates -------------------------------------

  ghost predicate LeavesOnly(entry: Entry, left: set<Option<seq<Byte>>>) {
    forall content :: Survives(entry, content) ==> content in left
  }

  /** What a power cut can leave follows from the outcome alone. */
  lemma UpdateLeaves(
    before: Entry, after: Entry, data: seq<Byte>, outcome: WriteOutcome, left: set<Option<seq<Byte>>>)
    requires Updated(before, after, data, outcome) && LeavesOnly(before, left)
    ensures LeavesOnly(after, LeftByWrite(left, Some(data), outcome))
  {
    hide Survives;
    forall content | Survives(after, content) ensures content in LeftByWrite(left, Some(data), outcome) {
      if outcome.Returned? {
        SettledSurvives(after, content);
      }
    }
  }

  ghost function LeftByWrites(
    left: set<Option<seq<Byte>>>, images: seq<seq<Byte>>, outcomes: seq<WriteOutcome>): set<Option<seq<Byte>>>
    requires |images| == |outcomes|
  {
    if images == [] then left
    else
      var n := |images| - 1;
      LeftByWrite(LeftByWrites(left, images[..n], outcomes[..n]), Some(images[n]), outcomes[n])
  }

  /**
   * Over any number of updates from any start: a power cut leaves the last flushed image
   * or one that landed after it, and after a normal return exactly the image just written.
   */
  lemma {:induction false} UpdatesLeave(
    entries: seq<Entry>, images: seq<seq<Byte>>, outcomes: seq<WriteOutcome>, left: set<Option<seq<Byte>>>)
    requires |entries| == |images| + 1 && |images| == |outcomes| && LeavesOnly(entries[0], left)
    requires forall i :: 0 <= i < |images| ==> Updated(entries[i], entries[i + 1], images[i], outcomes[i])
    ensures LeavesOnly(entries[|images|], LeftByWrites(left, images, outcomes))
    ensures images != [] && outcomes[|images| - 1].Returned? ==>
              LeftByWrites(left, images, outcomes) == {Some(images[|images| - 1])}
  {
    hide Updated, LeavesOnly;
    if images != [] {
      var n := |images| - 1;
      UpdatesLeave(entries[..n + 1], images[..n], outcomes[..n], left);
      UpdateLeaves(entries[n], entries[n + 1], images[n], outcomes[n], LeftByWrites(left, images[..n], outcomes[..n]));
    }
  }

  /** The exclusive creation does not flush its directory: a power cut can take the new file away again. */
  lemma CreationCanVanish(data: seq<Byte>)
    ensures Survives(Entry(Some(Inode(data, |data|)), [None]), None)
    ensures LeavesOnly(Entry(Some(Inode(data, |data|)), [None]), {None, Some(data)})
  {
    var entry := Entry(Some(Inode(data, |data|)), [None]);
    assert Remains(entry.older[0], None);
    forall content | Survives(entry, content) ensures content in {None, Some(data)} {
      if Remains(entry.shown, content) {
        SettledSurvives(Entry(entry.shown, []), content);
      }
    }
  }

  datatype Fault = Works | RaisesBefore | RaisesAfter

  /** One value per system call; `writes(i)` is what the i-th `os.write` returns, not positive for no progress. */
  datatype Calls = Calls(
    mkstemp: Fault, writes: nat -> int, fsync: Fault, close: Fault, replace: Fault,
    openDirectory: Fault, fsyncDirectory: Fault, closeDirectory: Fault, unlink: Fault)

  function Written(result: int, left: nat): (n: int)
    ensures result > 0 && left > 0 ==> 0 < n <= left
  {
    if result > left then left else result
  }

  /** From round `i` on, the loop writes all `left` bytes. */
  predicate WritesAll(writes: nat -> int, left: nat, i: nat)
    decreases left
  {
    left == 0 || (writes(i) > 0 && WritesAll(writes, left - Written(writes(i), left), i + 1))
  }

  function Sum(writes: nat -> int, i: nat, rounds: nat): int
    decreases rounds
  {
    if rounds == 0 then 0 else writes(i) + Sum(writes, i + 1, rounds - 1)
  }

  /** Some run of positive results reaches the length. */
  predicate Covers(writes: nat -> int, left: nat, i: nat, rounds: nat) {
    (forall k: nat :: i <= k < i + rounds ==> writes(k) > 0) && Sum(writes, i, rounds) >= left
  }

  /** The loop succeeds exactly when positive results add up to the length before any other result. */
  lemma {:induction false} WritesAllExactly(writes: nat -> int, left: nat, i: nat)
    ensures WritesAll(writes, left, i) <==> exists rounds: nat :: Covers(writes, left, i, rounds)
    decreases left
  {
    if left == 0 {
      assert Covers(writes, left, i, 0);
    } else if writes(i) > 0 {
      var rest := left - Written(writes(i), left);
      WritesAllExactly(writes, rest, i + 1);
      if WritesAll(writes, left, i) {
        var rounds: nat :| Covers(writes, rest, i + 1, rounds);
        assert Covers(writes, left, i, rounds + 1);
      }
      if rounds: nat :| Covers(writes, left, i, rounds) {
        assert Sum(writes, i, rounds) == writes(i) + Sum(writes, i + 1, rounds - 1);
        assert Covers(writes, rest, i + 1, if rest > 0 then rounds - 1 else 0);
      }
    } else {
      forall rounds: nat ensures !Covers(writes, left, i, rounds) {
        assert rounds > 0 ==> i <= i < i + rounds;
      }
    }
  }

  /** Every call before the replacement works. */
  predicate Staged(calls: Calls, length: nat) {
    calls.mkstemp.Works? && WritesAll(calls.writes, length, 0) && calls.fsync.Works? && calls.close.Works?
  }

  predicate Replaced(calls: Calls, length: nat) {
    Staged(calls, length) && !calls.replace.RaisesBefore?
  }

  /** Which of the three outcomes of a ledger write the calls amount to. */
  function OutcomeOf(calls: Calls, length: nat): WriteOutcome {
    if !Replaced(calls, length) then RaisedBefore
    else if calls.replace.Works? && calls.openDirectory.Works? && calls.fsyncDirectory.Works?
            && calls.closeDirectory.Works? then Returned
    else RaisedAfter
  }

  /** The directory that holds the target file, the temporary file of a running update, and what updates left behind. */
  class Directory {
    var target: Entry
    var temporary: Option<Inode>
    var descriptorOpen: bool
    var leftovers: seq<Inode>
    var leaked: nat
    ghost var seen: seq<Entry>

    constructor (target: Entry)
      ensures this.target == target && Idle() && leftovers == [] && leaked == 0 && seen == []
    {
      this.target, temporary, descriptorOpen, leftovers, leaked, seen := target, None, false, [], 0, [];
    }

    /** No update is running: every method ends so. */
    predicate Idle()
      reads this
    {
      temporary.None? && !descriptorOpen
    }

    /**
     * From any target, at every step a reader finds the old content or exactly the new
     * one, and a power cut leaves the new one or what it could have left before; the
     * outcome says which, and the loop ends because each round makes progress.
     */
    method Update(data: seq<Byte>, calls: Calls) returns (outcome: WriteOutcome)
      requires Idle()
      modifies this
      ensures Idle()
      ensures outcome == OutcomeOf(calls, |data|) && Updated(old(target), target, data, outcome)
      ensures old(seen) <= seen && forall i :: |old(seen)| <= i < |seen| ==> Between(seen[i], old(target), data)
      ensures leaked == old(leaked) + if calls.mkstemp.RaisesAfter? then 1 else 0
      ensures |leftovers| == |old(leftovers)|
                             + if calls.mkstemp.RaisesAfter?
                                  || (calls.mkstemp.Works? && outcome.RaisedBefore? && calls.unlink.RaisesBefore?)
                               then 1 else 0
    {
      hide Between, WritesAll;
      outcome := RaisedBefore;
      StartIsBetween(target, data);
      RaisedBeforeUpdates(target, data);
      seen := seen + [target];
      if !calls.mkstemp.RaisesBefore? {
        temporary, descriptorOpen := Some(Inode([], 0)), true;
        seen := seen + [target];
      }
      if calls.mkstemp.Works? {
        outcome := StageAndReplace(data, calls);
        descriptorOpen := false;
        if !calls.unlink.RaisesBefore? {
          temporary := None;
        }
        seen := seen + [target];
      }
      if descriptorOpen {
        descriptorOpen, leaked := false, leaked + 1;
      }
      if temporary.Some? {
        temporary, leftovers := None, leftovers + [temporary.value];
      }
    }

    /** The body of the outer `try` from the write loop on; the caller cleans up. */
    method StageAndReplace(data: seq<Byte>, calls: Calls) returns (outcome: WriteOutcome)
      requires temporary == Some(Inode([], 0)) && descriptorOpen && calls.mkstemp.Works?
      modifies this`target, this`temporary, this`descriptorOpen, this`seen
      ensures outcome == OutcomeOf(calls, |data|) && Updated(old(target), target, data, outcome)
      ensures old(seen) <= seen && forall i :: |old(seen)| <= i < |seen| ==> Between(seen[i], old(target), data)
      ensures temporary.Some? <==> outcome.RaisedBefore?
    {
      StartIsBetween(target, data);
      RaisedBeforeUpdates(target, data);
      ReplacedIsBetween(target, data);
      hide Between;
      outcome := RaisedBefore;
      var offset, round := 0, 0;
      while offset < |data|
        invariant 0 <= offset <= |data| && temporary == Some(Inode(data[..offset], 0)) && descriptorOpen
        invariant target == old(target)
        invariant WritesAll(calls.writes, |data|, 0) <==> WritesAll(calls.writes, |data| - offset, round)
        invariant old(seen) <= seen && forall i :: |old(seen)| <= i < |seen| ==> seen[i] == target
        decreases |data| - offset
      {
        var written := Written(calls.writes(round), |data| - offset);
        if written <= 0 {
          return;
        }
        temporary := Some(Inode(data[..offset + written], 0));
        offset, round := offset + written, round + 1;
        seen := seen + [target];
      }
      if !calls.fsync.RaisesBefore? {
        temporary := Some(Inode(data, |data|));
        seen := seen + [target];
      }
      if !calls.fsync.Works? {
        return;
      }
      if !calls.close.RaisesBefore? {
        descriptorOpen := false;
        seen := seen + [target];
      }
      if !calls.close.Works? {
        return;
      }
      if !calls.replace.RaisesBefore? {
        target, temporary, outcome := Entry(temporary, target.older + [target.shown]), None, RaisedAfter;
        seen := seen + [target];
      }
      if !calls.replace.Works? || !calls.openDirectory.Works? {
        return;
      }
      if !calls.fsyncDirectory.RaisesBefore? {
        target := target.(older := []);
        seen := seen + [target];
      }
      if calls.fsyncDirectory.Works? && calls.closeDirectory.Works? {
        outcome := Returned;
      }
    }

    /**
     * An existing file is refused and kept; otherwise the new file holds some prefix of
     * the data, and all of it, flushed, on a normal return.  The directory is never
     * flushed, so that the absence before stays what a power cut can bring back.
     */
    method ExclusiveWrite(data: seq<Byte>, created: Fault, buffered: nat, wrote: bool, fsync: Fault, close: Fault)
      returns (raised: bool)
      modifies this`target
      ensures old(target.shown.Some?) ==> raised && target == old(target)
      ensures target != old(target) ==>
                && old(target.shown.None?) && target.shown.Some? && target.shown.value.data <= data
                && target.older == old(target.older) + [None]
      ensures !raised <==> old(target.shown.None?) && created.Works? && wrote && fsync.Works? && close.Works?
      ensures !raised ==> target == Entry(Some(Inode(data, |data|)), old(target.older) + [None])
    {
      raised := true;
      if target.shown.None? && !created.RaisesBefore? {
        target := Entry(Some(Inode([], 0)), target.older + [None]);
        if created.Works? {
          var kept := if wrote || buffered > |data| then |data| else buffered;
          target := target.(shown := Some(Inode(data[..kept], 0)));
          if wrote {
            assert data[..kept] == data;
            if !fsync.RaisesBefore? {
              target := target.(shown := Some(Inode(data, |data|)));
            }
            raised := !fsync.Works? || !close.Works?;
          }
        }
      }
    }
  }
}
