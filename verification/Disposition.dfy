/**
 * The disposition transitions of scripts/generate_kernel_manifests.py over the K1 path
 * inventory.  The base inventory and the tables of deferred and transplanted paths are
 * parameters; everything holds for all of them.
 */
module Disposition {
  import opened Wrappers

  type Path = string

  datatype Task = K2 | K3 | K4 | K5 | K6 | K8

  datatype Owner = Assigned(task: Task) | Unmanaged(name: string)

  datatype Choice = Keep | Transplanted | Retire | OtherChoice(name: string)

  datatype Status = Removed | Verified | OtherStatus(name: string)

  datatype Reason = Original(text: string) | Survives(task: Task) | NotRequired(task: Task) | Postponed

  datatype Entry = Entry(
    path: Path, owner: Owner, disposition: Choice, reason: Reason, requiredTests: seq<Path>,
    absenceTest: Path, status: Status, target: Path, rest: map<string, string>)

  datatype Transplant = Transplant(target: Path, first: Path, others: seq<Path>)

  datatype Deferral = Deferral(target: Path, oracle: Path)

  datatype Tables = Tables(base: map<Path, Entry>, deferred: map<Path, Deferral>, transplants: map<(Task, Path), Transplant>)

  const MANIFEST_TEST: Path := "tests/kernel/test_code_disposition_manifest.py"

  predicate Valid(t: Tables) {
    forall path :: path in t.base ==> t.base[path].path == path
  }

  function Moved(e: Entry, task: Task, t: Transplant): Entry {
    e.(reason := Survives(task), requiredTests := [t.first] + t.others, absenceTest := t.first,
       status := Verified, target := t.target)
  }

  function Retired(e: Entry, task: Task): Entry {
    e.(disposition := Retire, reason := NotRequired(task), requiredTests := [MANIFEST_TEST],
       absenceTest := MANIFEST_TEST, status := Verified, target := "")
  }

  /** The tables of K5 and K6 must know the path: a miss is a `KeyError`. */
  function Decided(t: Tables, e: Entry, task: Task): Option<Entry> {
    if (task, e.path) in t.transplants then Some(Moved(e, task, t.transplants[(task, e.path)]))
    else if task == K5 || task == K6 then None
    else Some(Retired(e, task))
  }

  /** `_expected_k2_entry`. */
  function ExpectedK2(t: Tables, b: Entry): Entry {
    if b.path in t.deferred then
      b.(owner := Assigned(K3), reason := Postponed, requiredTests := [t.deferred[b.path].oracle],
         absenceTest := t.deferred[b.path].oracle, status := Removed, target := t.deferred[b.path].target)
    else if (K2, b.path) in t.transplants then Moved(b, K2, t.transplants[(K2, b.path)])
    else Retired(b, K2)
  }

  /** `_expected_current_entry`. */
  function ExpectedCurrent(t: Tables, b: Entry): Option<Entry> {
    var e := if b.owner == Assigned(K2) then ExpectedK2(t, b) else b;
    if e.owner.Assigned? && e.owner.task != K2 then Decided(t, e, e.owner.task) else Some(e)
  }

  /** One entry under the transition of a task: the base decides, the current owner selects. */
  function Transition(t: Tables, task: Task, e: Entry): Option<Entry> {
    if e.owner != Assigned(task) then Some(e)
    else if e.path !in t.base then None
    else if task == K2 then Some(ExpectedK2(t, t.base[e.path]))
    else ExpectedCurrent(t, t.base[e.path])
  }

  function Quarantined(e: Entry): Entry {
    if e.disposition == Keep then e else e.(status := Removed)
  }

  /** The per-entry checks of `manifest_failures` against the base entry of the same path. */
  predicate Passes(t: Tables, e: Entry) {
    e.path in t.base ==>
      var expected := ExpectedCurrent(t, t.base[e.path]);
      && expected.Some? && e.(status := Removed) == expected.value.(status := Removed)
      && (expected.value.owner.Assigned? ==> e.status == Verified)
  }

  // ---- What a decision writes -------------------------------------------

  /**
   * The entry of a base path that `task` has decided, field by field: with a row of the
   * task's table it survives there, and without one it is retired.
   */
  predicate DecidedFields(t: Tables, b: Entry, task: Task, e: Entry) {
    && e.path == b.path && e.rest == b.rest && e.owner == Assigned(task) && e.status == Verified
    && if (task, b.path) in t.transplants then
         var row := t.transplants[(task, b.path)];
         && e.disposition == b.disposition && e.reason == Survives(task) && e.target == row.target
         && e.requiredTests == [row.first] + row.others && e.absenceTest == row.first
       else
         && e.disposition == Retire && e.reason == NotRequired(task) && e.target == ""
         && e.requiredTests == [MANIFEST_TEST] && e.absenceTest == MANIFEST_TEST
  }

  /** The entry of a base path that K2 has handed to K3. */
  predicate DeferredFields(t: Tables, b: Entry, e: Entry) {
    && e.path == b.path && e.rest == b.rest && e.disposition == b.disposition
    && e.owner == Assigned(K3) && e.status == Removed && e.reason == Postponed
    && b.path in t.deferred && e.target == t.deferred[b.path].target
    && e.requiredTests == [t.deferred[b.path].oracle] && e.absenceTest == t.deferred[b.path].oracle
  }

  /** One entry before and after the transition of a task. */
  predicate Wrote(t: Tables, task: Task, e: Entry, after: Entry) {
    if e.owner != Assigned(task) then after == e
    else
      && e.path in t.base
      && if task == K2 && e.path in t.deferred then DeferredFields(t, t.base[e.path], after)
         else DecidedFields(t, t.base[e.path], task, after)
  }

  /** The entry is deferred by K2 and not yet moved to K3. */
  predicate AwaitsDeferral(t: Tables, e: Entry) {
    e.owner == Assigned(K2) && e.path in t.deferred
  }

  /** The owner is the base's, or K3 after a deferral. */
  predicate Consistent(t: Tables, e: Entry) {
    && e.path in t.base
    && (e.owner == t.base[e.path].owner || (AwaitsDeferral(t, t.base[e.path]) && e.owner == Assigned(K3)))
  }

  lemma TransitionWrites(t: Tables, task: Task, e: Entry)
    requires Valid(t) && Consistent(t, e) && Transition(t, task, e).Some?
    ensures Wrote(t, task, e, Transition(t, task, e).value)
  {
  }

  /** The missing keys: a selected path outside the base, or one of K5 or K6 outside their tables. */
  lemma MissingKeyExactly(t: Tables, task: Task, e: Entry)
    requires Valid(t)
    ensures Transition(t, task, e).None? <==>
              && e.owner == Assigned(task)
              && (e.path !in t.base
                  || (&& task != K2 && t.base[e.path].owner in {Assigned(K5), Assigned(K6)}
                      && (t.base[e.path].owner.task, e.path) !in t.transplants))
  {
  }

  /** The task that decides a base entry in the end. */
  function FinalTask(t: Tables, b: Entry): Task
    requires b.owner.Assigned?
  {
    if AwaitsDeferral(t, b) then K3 else b.owner.task
  }

  /** The checks on one entry accept exactly the decided fields, and of an unmanaged one any status. */
  lemma PassesMeans(t: Tables, b: Entry, e: Entry)
    requires Valid(t) && b.path in t.base && t.base[b.path] == b && ExpectedCurrent(t, b).Some? && e.path == b.path
    ensures Passes(t, e) <==>
              if b.owner.Assigned? then DecidedFields(t, b, FinalTask(t, b), e) else e == b.(status := e.status)
  {
  }

  /** The inventory file. */
  class Manifest {
    var entries: seq<Entry>

    constructor (entries: seq<Entry>)
      ensures this.entries == entries
    {
      this.entries := entries;
    }

    method ApplyQuarantine()
      modifies this
      ensures |entries| == |old(entries)|
      ensures forall i :: 0 <= i < |entries| ==> entries[i] == Quarantined(old(entries)[i])
    {
      for i := 0 to |entries|
        invariant |entries| == |old(entries)|
        invariant forall j :: 0 <= j < i ==> entries[j] == Quarantined(old(entries)[j])
        invariant forall j :: i <= j < |entries| ==> entries[j] == old(entries)[j]
      {
        if entries[i].disposition != Keep {
          entries := entries[i := entries[i].(status := Removed)];
        }
      }
    }

    /** Every entry that the owner selects is decided anew, or a missing key leaves the file as it was. */
    method Apply(t: Tables, task: Task) returns (ok: bool)
      modifies this
      ensures ok <==> forall i :: 0 <= i < |old(entries)| ==> Transition(t, task, old(entries)[i]).Some?
      ensures ok ==> |entries| == |old(entries)|
      ensures ok ==> forall i :: 0 <= i < |entries| ==> Some(entries[i]) == Transition(t, task, old(entries)[i])
      ensures ok && Valid(t) ==>
                forall i :: 0 <= i < |entries| && Consistent(t, old(entries)[i]) ==>
                  Wrote(t, task, old(entries)[i], entries[i])
      ensures !ok ==> entries == old(entries)
    {
      var updated: seq<Entry> := [];
      for i := 0 to |entries|
        invariant entries == old(entries) && |updated| == i
        invariant forall j :: 0 <= j < i ==> Some(updated[j]) == Transition(t, task, entries[j])
      {
        var entry := entries[i];
        if entry.owner == Assigned(task) {
          if entry.path !in t.base {
            return false;
          }
          var b := t.base[entry.path];
          var decided := if task == K2 then Some(ExpectedK2(t, b)) else ExpectedCurrent(t, b);
          if decided.None? {
            return false;
          }
          entry := decided.value;
        }
        updated := updated + [entry];
      }
      if Valid(t) {
        forall i | 0 <= i < |updated| && Consistent(t, entries[i]) ensures Wrote(t, task, entries[i], updated[i]) {
          TransitionWrites(t, task, entries[i]);
        }
      }
      entries := updated;
      ok := true;
    }

    /** The closing transition writes only if no proof is missing. */
    method ApplyK9(proved: Entry -> bool) returns (ok: bool)
      modifies this
      ensures ok <==> forall i :: 0 <= i < |old(entries)| ==> proved(old(entries)[i].(status := Verified))
      ensures ok ==> |entries| == |old(entries)|
      ensures ok ==> forall i :: 0 <= i < |entries| ==> entries[i] == old(entries)[i].(status := Verified)
      ensures !ok ==> entries == old(entries)
    {
      var updated: seq<Entry> := [];
      ok := true;
      for i := 0 to |entries|
        invariant entries == old(entries) && |updated| == i
        invariant forall j :: 0 <= j < i ==> updated[j] == entries[j].(status := Verified)
        invariant ok <==> forall j :: 0 <= j < i ==> proved(entries[j].(status := Verified))
      {
        var entry := entries[i].(status := Verified);
        ok := ok && proved(entry);
        updated := updated + [entry];
      }
      if ok {
        entries := updated;
      }
    }
  }

  // ---- Idempotence and commutation --------------------------------------

  lemma Idempotent(t: Tables, task: Task, e: Entry)
    requires Valid(t) && Transition(t, task, e).Some?
    ensures Transition(t, task, Transition(t, task, e).value) == Transition(t, task, e)
  {
  }

  function Both(t: Tables, first: Task, second: Task, e: Entry): Option<Entry> {
    var one := Transition(t, first, e);
    if one.None? then None else Transition(t, second, one.value)
  }

  /** A decision never hands an entry to another task, except that K2 defers to K3. */
  lemma OwnerKept(t: Tables, task: Task, e: Entry)
    requires Valid(t) && Consistent(t, e) && e.owner == Assigned(task) && Transition(t, task, e).Some?
    ensures var after := Transition(t, task, e).value;
            after.path == e.path && after.owner == if AwaitsDeferral(t, e) then Assigned(K3) else Assigned(task)
  {
  }

  lemma CommuteWhereOwned(t: Tables, j: Task, k: Task, e: Entry)
    requires Valid(t) && Consistent(t, e) && e.owner == Assigned(j) && j != k
    ensures Both(t, k, j, e) == Transition(t, j, e)
    ensures !(AwaitsDeferral(t, e) && k == K3) ==> Both(t, j, k, e) == Transition(t, j, e)
  {
    hide ExpectedK2, ExpectedCurrent;
    if Transition(t, j, e).Some? {
      OwnerKept(t, j, e);
    }
  }

  lemma DeferralDoesNotCommute(t: Tables, e: Entry)
    requires Valid(t) && Consistent(t, e) && AwaitsDeferral(t, e)
    ensures Both(t, K2, K3, e) != Both(t, K3, K2, e)
  {
    assert Both(t, K3, K2, e).value.status == Removed && Both(t, K2, K3, e).value.status == Verified;
  }

  /** Two transitions commute on an entry except K2 and K3 on one that K2 has yet to defer. */
  lemma CommuteExactly(t: Tables, j: Task, k: Task, e: Entry)
    requires Valid(t) && Consistent(t, e)
    ensures Both(t, j, k, e) == Both(t, k, j, e)
            <==> !AwaitsDeferral(t, e) || !((j == K2 && k == K3) || (j == K3 && k == K2))
  {
    hide ExpectedK2, ExpectedCurrent, Valid;
    if AwaitsDeferral(t, e) {
      DeferralDoesNotCommute(t, e);
    }
    if j != k && e.owner == Assigned(j) {
      CommuteWhereOwned(t, j, k, e);
    } else if j != k && e.owner == Assigned(k) {
      CommuteWhereOwned(t, k, j, e);
    }
  }

  // ---- Any word of transitions ------------------------------------------

  function Run(t: Tables, word: seq<Task>, e: Entry): Option<Entry> {
    if word == [] then Some(e)
    else
      var before := Run(t, word[..|word| - 1], e);
      if before.None? then None else Transition(t, word[|word| - 1], before.value)
  }

  /** K2 occurs and K3 occurs after it. */
  predicate DefersThenDecides(word: seq<Task>) {
    exists i, j :: 0 <= i < j < |word| && word[i] == K2 && word[j] == K3
  }

  /** The word decides the base entry. */
  predicate Done(t: Tables, b: Entry, word: seq<Task>) {
    b.owner.Assigned? ==> if AwaitsDeferral(t, b) then DefersThenDecides(word) else b.owner.task in word
  }

  /** The entry after a word: decided, deferred, or still the one that was given. */
  function After(t: Tables, b: Entry, given: Entry, word: seq<Task>): Option<Entry> {
    if b.owner.Unmanaged? then Some(given)
    else if Done(t, b, word) then ExpectedCurrent(t, b)
    else if b.owner.task in word then Some(ExpectedK2(t, b))
    else Some(given)
  }

  lemma WordSplits(word: seq<Task>, last: Task)
    ensures forall k :: k in word + [last] <==> k in word || k == last
    ensures DefersThenDecides(word + [last]) <==> DefersThenDecides(word) || (K2 in word && last == K3)
  {
    var longer := word + [last];
    if DefersThenDecides(word) {
      var i, j :| 0 <= i < j < |word| && word[i] == K2 && word[j] == K3;
      assert longer[i] == K2 && longer[j] == K3;
    } else if K2 in word && last == K3 {
      var i :| 0 <= i < |word| && word[i] == K2;
      assert longer[i] == K2 && longer[|word|] == K3;
    }
    if DefersThenDecides(longer) {
      var i, j :| 0 <= i < j < |longer| && longer[i] == K2 && longer[j] == K3;
      assert word[i] == K2;
      if j < |word| {
        assert word[j] == K3;
      }
    }
  }

  /** What a word makes of an entry depends only on which letters it has and on K2 coming before a K3. */
  lemma {:induction false} RunIsAfter(t: Tables, word: seq<Task>, b: Entry, given: Entry)
    requires Valid(t) && b.path in t.base && t.base[b.path] == b && ExpectedCurrent(t, b).Some?
    requires given.path == b.path && given.owner == b.owner
    ensures Run(t, word, given) == After(t, b, given, word)
    decreases |word|
  {
    if word != [] {
      var before, last := word[..|word| - 1], word[|word| - 1];
      assert word == before + [last];
      RunIsAfter(t, before, b, given);
      WordSplits(before, last);
      AfterStep(t, before, last, b, given);
    }
  }

  lemma AfterStep(t: Tables, word: seq<Task>, last: Task, b: Entry, given: Entry)
    requires Valid(t) && b.path in t.base && t.base[b.path] == b && ExpectedCurrent(t, b).Some?
    requires given.path == b.path && given.owner == b.owner
    ensures After(t, b, given, word).Some?
    ensures Transition(t, last, After(t, b, given, word).value) == After(t, b, given, word + [last])
  {
    WordSplits(word, last);
    if DefersThenDecides(word) {
      assert K2 in word;
    }
    hide DefersThenDecides;
  }

  /**
   * What is written after the quarantine and any word: a decided entry has the fields of
   * its final task, one that K2 only deferred has those of the deferral, and any other is
   * the base's, removed unless it is kept.
   */
  lemma WordWrites(t: Tables, b: Entry, word: seq<Task>)
    requires Valid(t) && b.path in t.base && t.base[b.path] == b && ExpectedCurrent(t, b).Some?
    ensures Run(t, word, Quarantined(b)).Some?
    ensures var end := Run(t, word, Quarantined(b)).value;
            if b.owner.Assigned? && Done(t, b, word) then DecidedFields(t, b, FinalTask(t, b), end)
            else if AwaitsDeferral(t, b) && K2 in word then DeferredFields(t, b, end)
            else end == b.(status := if b.disposition == Keep then b.status else Removed)
  {
    RunIsAfter(t, word, b, Quarantined(b));
    if DefersThenDecides(word) {
      assert K2 in word;
    }
    hide DefersThenDecides;
  }

  /** After the quarantine and any word, an entry passes exactly if the word decides it, or it needed nothing. */
  lemma PassesExactly(t: Tables, b: Entry, word: seq<Task>)
    requires Valid(t) && b.path in t.base && t.base[b.path] == b && ExpectedCurrent(t, b).Some?
    ensures Run(t, word, Quarantined(b)).Some?
    ensures Passes(t, Run(t, word, Quarantined(b)).value) <==>
            Done(t, b, word) || (b.owner.Assigned? && b.owner.task !in word && Passes(t, Quarantined(b)))
  {
    RunIsAfter(t, word, b, Quarantined(b));
    if DefersThenDecides(word) {
      assert K2 in word;
    }
    hide DefersThenDecides;
  }

  /** K2 first and then the other tasks in any order decides every entry, deferred ones included. */
  lemma EveryOrderConverges(t: Tables, b: Entry, others: seq<Task>)
    requires Valid(t) && b.path in t.base && t.base[b.path] == b && ExpectedCurrent(t, b).Some?
    requires multiset(others) == multiset{K3, K4, K5, K6, K8}
    ensures var end := Run(t, [K2] + others, Quarantined(b));
            && end.Some? && Passes(t, end.value)
            && (b.owner.Assigned? ==> DecidedFields(t, b, FinalTask(t, b), end.value))
  {
    var word := [K2] + others;
    forall k ensures k in word {
      assert k == K2 || k in multiset(others);
      assert k in word by {
        if k == K2 {
          assert word[0] == K2;
        } else {
          assert k in others;
        }
      }
    }
    assert K3 in multiset(others);
    var j :| 0 <= j < |others| && others[j] == K3;
    assert word[0] == K2 && word[j + 1] == K3;
    PassesExactly(t, b, word);
    WordWrites(t, b, word);
    hide DecidedFields;
  }

  /** The closing transition turns exactly the missing statuses: it passes what has its decided fields. */
  lemma ClosingPassesExactly(t: Tables, e: Entry)
    requires e.path in t.base && ExpectedCurrent(t, t.base[e.path]).Some?
    ensures Passes(t, e) ==> Passes(t, e.(status := Verified))
    ensures Passes(t, e.(status := Verified)) <==>
            e.(status := Removed) == ExpectedCurrent(t, t.base[e.path]).value.(status := Removed)
  {
  }
}
