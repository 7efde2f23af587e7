/**
 * The complexity findings and the ratchet of scripts/check_kernel_maintainability.py.
 * Ratios are exact; the script divides floating-point numbers.
 */
module Maintainability {
  import opened Wrappers
  import opened TextOrder

  datatype Block = Block(name: string, owner: Option<string>, complexity: int)

  datatype SourceFile = SourceFile(name: string, blocks: seq<Block>)

  datatype Finding = Finding(id: string, score: int, count: int)

  const REPOSITORY := "."

  function Subtotal(blocks: seq<Block>): int {
    if blocks == [] then 0 else Subtotal(blocks[..|blocks| - 1]) + blocks[|blocks| - 1].complexity
  }

  function Total(files: seq<SourceFile>): int {
    if files == [] then 0 else Total(files[..|files| - 1]) + Subtotal(files[|files| - 1].blocks)
  }

  function BlockCount(files: seq<SourceFile>): nat {
    if files == [] then 0 else BlockCount(files[..|files| - 1]) + |files[|files| - 1].blocks|
  }

  function BlockFinding(file: SourceFile, b: Block): Finding {
    Finding(file.name + ":" + (if b.owner.Some? then b.owner.value + "." + b.name else b.name), b.complexity, 1)
  }

  function FileFinding(file: SourceFile): Finding {
    Finding(file.name, Subtotal(file.blocks), |file.blocks|)
  }

  predicate Complex(file: SourceFile) {
    file.blocks != [] && Subtotal(file.blocks) > 10 * |file.blocks|
  }

  predicate RepositoryComplex(files: seq<SourceFile>) {
    BlockCount(files) > 0 && Total(files) > 10 * BlockCount(files)
  }

  /** What a finding can stand for. */
  predicate IsFinding(files: seq<SourceFile>, f: Finding) {
    || (exists i, j :: 0 <= i < |files| && 0 <= j < |files[i].blocks|
                       && files[i].blocks[j].complexity > 20 && f == BlockFinding(files[i], files[i].blocks[j]))
    || (exists i :: 0 <= i < |files| && Complex(files[i]) && f == FileFinding(files[i]))
    || (RepositoryComplex(files) && f == Finding(REPOSITORY, Total(files), BlockCount(files)))
  }

  /** Stable sorting by id. */
  function Insert(f: Finding, sorted: seq<Finding>): (r: seq<Finding>)
    ensures multiset(r) == multiset{f} + multiset(sorted)
    ensures Sorted(sorted) ==> Sorted(r)
  {
    if sorted == [] || TextLess(f.id, sorted[0].id) then
      InsertFirst(f, sorted);
      [f] + sorted
    else
      assert sorted == [sorted[0]] + sorted[1..];
      var rest := Insert(f, sorted[1..]);
      InsertLater(f, sorted, rest);
      [sorted[0]] + rest
  }

  predicate Sorted(s: seq<Finding>) {
    forall i, j :: 0 <= i < j < |s| ==> !TextLess(s[j].id, s[i].id)
  }

  lemma InsertFirst(f: Finding, sorted: seq<Finding>)
    requires sorted == [] || TextLess(f.id, sorted[0].id)
    ensures Sorted(sorted) ==> Sorted([f] + sorted)
  {
    var r := [f] + sorted;
    if Sorted(sorted) {
      forall i, j | 0 <= i < j < |r| ensures !TextLess(r[j].id, r[i].id) {
        if i == 0 {
          TextLessAsymmetric(f.id, sorted[0].id);
          if j > 1 {
            NotBelow(sorted[0].id, r[j].id, f.id);
          }
        }
      }
    }
  }

  lemma NotBelow(a: string, b: string, c: string)
    requires !TextLess(b, a) && !TextLess(a, c)
    ensures !TextLess(b, c)
  {
    TextLessTotal(a, b);
    if a != b && TextLess(b, c) {
      TextLessTransitive(a, b, c);
    }
  }

  lemma InsertLater(f: Finding, sorted: seq<Finding>, rest: seq<Finding>)
    requires sorted != [] && !TextLess(f.id, sorted[0].id)
    requires multiset(rest) == multiset{f} + multiset(sorted[1..]) && (Sorted(sorted[1..]) ==> Sorted(rest))
    ensures Sorted(sorted) ==> Sorted([sorted[0]] + rest)
  {
    if Sorted(sorted) {
      var r := [sorted[0]] + rest;
      forall j | 0 < j < |r| ensures !TextLess(r[j].id, r[0].id) {
        assert r[j] in multiset(rest);
        assert r[j] == f || r[j] in sorted[1..];
      }
    }
  }

  function SortById(findings: seq<Finding>): (r: seq<Finding>)
    ensures multiset(r) == multiset(findings) && Sorted(r)
  {
    if findings == [] then []
    else
      assert findings == findings[..|findings| - 1] + [findings[|findings| - 1]];
      Insert(findings[|findings| - 1], SortById(findings[..|findings| - 1]))
  }

  /** Exactly the blocks above 20, the files and the repository above 10 on average, in the order of their ids. */
  method NormalizedFindings(files: seq<SourceFile>) returns (findings: seq<Finding>)
    ensures forall f :: f in findings <==> IsFinding(files, f)
    ensures Sorted(findings)
  {
    findings := [];
    var total, count := 0, 0;
    for i := 0 to |files|
      invariant total == Total(files[..i]) && count == BlockCount(files[..i])
      invariant forall f :: f in findings <==> FileLevel(files, i, f)
    {
      var file := files[i];
      var more := FileFindings(file);
      FileLevelStep(files, i);
      findings := findings + more;
      assert files[..i + 1][..i] == files[..i];
      total := total + Subtotal(file.blocks);
      count := count + |file.blocks|;
    }
    assert files[..|files|] == files;
    ghost var local := findings;
    if count > 0 && total > 10 * count {
      findings := findings + [Finding(REPOSITORY, total, count)];
    }
    assert forall f :: f in findings <==> IsFinding(files, f);
    ghost var unsorted := findings;
    findings := SortById(findings);
    assert forall f :: f in findings <==> f in multiset(unsorted);
  }

  /** A finding of one of the first `n` files. */
  ghost predicate FileLevel(files: seq<SourceFile>, n: nat, f: Finding)
    requires n <= |files|
  {
    exists i :: 0 <= i < n && OfFile(files[i], f)
  }

  predicate OfFile(file: SourceFile, f: Finding) {
    || (exists j :: 0 <= j < |file.blocks| && file.blocks[j].complexity > 20 && f == BlockFinding(file, file.blocks[j]))
    || (Complex(file) && f == FileFinding(file))
  }

  lemma FileLevelStep(files: seq<SourceFile>, n: nat)
    requires n < |files|
    ensures forall f :: FileLevel(files, n + 1, f) <==> FileLevel(files, n, f) || OfFile(files[n], f)
  {
    hide OfFile;
  }

  method FileFindings(file: SourceFile) returns (findings: seq<Finding>)
    ensures forall f :: f in findings <==> OfFile(file, f)
  {
    findings := [];
    var subtotal := 0;
    for j := 0 to |file.blocks|
      invariant subtotal == Subtotal(file.blocks[..j])
      invariant forall f :: f in findings <==>
                  exists k :: 0 <= k < j && file.blocks[k].complexity > 20 && f == BlockFinding(file, file.blocks[k])
    {
      if file.blocks[j].complexity > 20 {
        var block := file.blocks[j];
        var identity := file.name + ":" + if block.owner.Some? then block.owner.value + "." + block.name else block.name;
        findings := findings + [Finding(identity, block.complexity, 1)];
      }
      assert file.blocks[..j + 1][..j] == file.blocks[..j];
      subtotal := subtotal + file.blocks[j].complexity;
    }
    assert file.blocks[..|file.blocks|] == file.blocks;
    if file.blocks != [] && subtotal > 10 * |file.blocks| {
      findings := findings + [Finding(file.name, subtotal, |file.blocks|)];
    }
  }

  // ---- Averaging --------------------------------------------------------

  lemma Distributes(a: int, b: int, c: int)
    ensures (a + b) * c == a * c + b * c && c * (a + b) == c * a + c * b
  {
  }

  /** Some file is on average at least as complex as the whole repository. */
  lemma {:induction false} SomeFileAtLeast(files: seq<SourceFile>, score: int, count: nat)
    requires Total(files) * count > score * BlockCount(files)
    ensures exists i :: 0 <= i < |files| && Subtotal(files[i].blocks) * count > score * |files[i].blocks|
  {
    var most, last := files[..|files| - 1], files[|files| - 1];
    var s, n := Subtotal(last.blocks), |last.blocks|;
    if s * count <= score * n {
      Distributes(Total(most), s, count);
      Distributes(BlockCount(most), n, score);
      SomeFileAtLeast(most, score, count);
      var i :| 0 <= i < |most| && Subtotal(most[i].blocks) * count > score * |most[i].blocks|;
      assert files[i] == most[i];
    } else {
      assert files[|files| - 1] == last;
    }
  }

  /** The repository finding never stands alone: some file has one too. */
  lemma RepositoryNeedsAFile(files: seq<SourceFile>)
    requires RepositoryComplex(files)
    ensures exists i :: 0 <= i < |files| && Complex(files[i])
  {
    SomeFileAtLeast(files, 10, 1);
    var i :| 0 <= i < |files| && Subtotal(files[i].blocks) * 1 > 10 * |files[i].blocks|;
    assert Complex(files[i]);
  }

  // ---- The ratchet ------------------------------------------------------

  function IdSet(findings: seq<Finding>): set<string> {
    set f | f in findings :: f.id
  }

  predicate HasDuplicateIds(findings: seq<Finding>) {
    |findings| != |IdSet(findings)|
  }

  predicate SharesId(findings: seq<Finding>) {
    exists i, j :: 0 <= i < j < |findings| && findings[i].id == findings[j].id
  }

  /** The size test means what its name says. */
  lemma {:induction false} DuplicateIdsExactly(findings: seq<Finding>)
    ensures |IdSet(findings)| <= |findings|
    ensures HasDuplicateIds(findings) <==> SharesId(findings)
  {
    if findings == [] {
      assert IdSet(findings) == {};
    } else {
      var most, last := findings[..|findings| - 1], findings[|findings| - 1];
      DuplicateIdsExactly(most);
      SharesIdStep(most, last);
      assert findings == most + [last];
      assert IdSet(findings) == IdSet(most) + {last.id};
      hide SharesId, IdSet;
      if last.id in IdSet(most) {
        assert IdSet(findings) == IdSet(most);
      }
    }
  }

  lemma SharesIdStep(most: seq<Finding>, last: Finding)
    ensures SharesId(most + [last]) <==> SharesId(most) || last.id in IdSet(most)
  {
    var findings := most + [last];
    if last.id in IdSet(most) {
      var f :| f in most && f.id == last.id;
      var i :| 0 <= i < |most| && most[i] == f;
      assert findings[i].id == findings[|most|].id;
    }
    if SharesId(most) {
      var i, j :| 0 <= i < j < |most| && most[i].id == most[j].id;
      assert findings[i].id == findings[j].id;
    }
    if SharesId(findings) {
      var i, j :| 0 <= i < j < |findings| && findings[i].id == findings[j].id;
      assert most[i] in most;
      assert j < |most| ==> most[i].id == most[j].id;
    }
  }

  predicate Counted(findings: seq<Finding>) {
    forall i :: 0 <= i < |findings| ==> findings[i].count > 0
  }

  /** The ratio of the first exceeds that of the second; the counts are positive. */
  predicate Exceeds(f: Finding, g: Finding) {
    f.score * g.count > g.score * f.count
  }

  /** The finding is covered by one of the same id and no lower ratio. */
  predicate Covered(f: Finding, previous: seq<Finding>) {
    exists i :: 0 <= i < |previous| && previous[i].id == f.id && !Exceeds(f, previous[i])
  }

  predicate Regressed(recorded: seq<Finding>, previous: Option<seq<Finding>>) {
    previous.Some? &&
    (HasDuplicateIds(recorded) || HasDuplicateIds(previous.value)
     || exists i :: 0 <= i < |recorded| && !Covered(recorded[i], previous.value))
  }

  /** Score for count, as the script divides them. */
  function Ratio(f: Finding): real
    requires f.count > 0
  {
    f.score as real / f.count as real
  }

  lemma ExceedsIsRatio(f: Finding, g: Finding)
    requires f.count > 0 && g.count > 0
    ensures Exceeds(f, g) <==> Ratio(f) > Ratio(g)
  {
    var x, y := f.score as real / f.count as real, g.score as real / g.count as real;
    var m, n := f.count as real, g.count as real;
    assert x * m == f.score as real && y * n == g.score as real;
    assert (f.score * g.count) as real == x * m * n && (g.score * f.count) as real == y * n * m;
    assert x * m * n == x * (m * n) && y * n * m == y * (m * n);
    Scales(x, y, m * n);
  }

  lemma Scales(x: real, y: real, c: real)
    requires c > 0.0
    ensures x * c > y * c <==> x > y
  {
    assert (x - y) * c == x * c - y * c;
  }

  /**
   * A baseline regresses exactly if there is an earlier one and an id is repeated in
   * either, or a recorded finding has no earlier finding of its id or a higher ratio than it.
   */
  lemma RegressedExactly(recorded: seq<Finding>, previous: seq<Finding>)
    requires Counted(recorded) && Counted(previous)
    ensures !Regressed(recorded, None)
    ensures Regressed(recorded, Some(previous)) <==>
            || SharesId(recorded) || SharesId(previous)
            || exists i :: 0 <= i < |recorded| && NewOrWorse(recorded[i], previous)
  {
    DuplicateIdsExactly(recorded);
    DuplicateIdsExactly(previous);
    hide SharesId, HasDuplicateIds;
    if !SharesId(previous) {
      forall i | 0 <= i < |recorded| ensures Covered(recorded[i], previous) <==> !NewOrWorse(recorded[i], previous) {
        CoveredExactly(recorded[i], previous);
      }
    }
    hide Covered, NewOrWorse;
  }

  predicate NewOrWorse(f: Finding, previous: seq<Finding>)
    requires f.count > 0 && Counted(previous)
  {
    forall j :: 0 <= j < |previous| && previous[j].id == f.id ==> Ratio(f) > Ratio(previous[j])
  }

  lemma CoveredExactly(f: Finding, previous: seq<Finding>)
    requires f.count > 0 && Counted(previous)
    ensures Covered(f, previous) <==> !NewOrWorse(f, previous)
  {
    hide Exceeds, Ratio;
    forall j | 0 <= j < |previous| ensures Exceeds(f, previous[j]) <==> Ratio(f) > Ratio(previous[j]) {
      ExceedsIsRatio(f, previous[j]);
    }
  }

  lemma ExceedsTransitive(f: Finding, g: Finding, h: Finding)
    requires f.count > 0 && g.count > 0 && h.count > 0 && !Exceeds(f, g) && !Exceeds(g, h)
    ensures !Exceeds(f, h)
  {
    assert f.score * g.count * h.count <= g.score * f.count * h.count;
    assert g.score * h.count * f.count <= h.score * g.count * f.count;
    assert g.count * (f.score * h.count) <= g.count * (h.score * f.count);
    FactorCancels(g.count, f.score * h.count, h.score * f.count);
  }

  lemma FactorCancels(n: int, x: int, y: int)
    requires n > 0 && n * x <= n * y
    ensures x <= y
  {
    assert n * (y - x) >= 0;
  }

  lemma NonRegressionTransitive(a: seq<Finding>, b: seq<Finding>, c: seq<Finding>)
    requires Counted(a) && Counted(b) && Counted(c)
    requires !Regressed(b, Some(a)) && !Regressed(c, Some(b))
    ensures !Regressed(c, Some(a))
  {
    forall i | 0 <= i < |c| ensures Covered(c[i], a) {
      assert Covered(c[i], b);
      var j :| 0 <= j < |b| && b[j].id == c[i].id && !Exceeds(c[i], b[j]);
      assert Covered(b[j], a);
      var k :| 0 <= k < |a| && a[k].id == b[j].id && !Exceeds(b[j], a[k]);
      ExceedsTransitive(c[i], b[j], a[k]);
    }
  }

  /** Along any chain of baselines, none of them regressing, none regresses from any before it. */
  lemma {:induction false} ChainNeverRegresses(chain: seq<seq<Finding>>, i: nat, j: nat)
    requires forall k :: 0 <= k < |chain| ==> Counted(chain[k])
    requires forall k :: 0 < k < |chain| ==> !Regressed(chain[k], Some(chain[k - 1]))
    requires i < j < |chain|
    ensures !Regressed(chain[j], Some(chain[i])) && |chain[j]| <= |chain[i]|
  {
    hide Regressed;
    if i + 1 < j {
      ChainNeverRegresses(chain, i, j - 1);
      NonRegressionTransitive(chain[i], chain[j - 1], chain[j]);
    }
    NeverMoreFindings(chain[j], chain[i]);
  }

  /** Without regression there are no new ids, so never more findings. */
  lemma NeverMoreFindings(recorded: seq<Finding>, previous: seq<Finding>)
    requires !Regressed(recorded, Some(previous))
    ensures IdSet(recorded) <= IdSet(previous) && |recorded| <= |previous|
  {
    forall id | id in IdSet(recorded) ensures id in IdSet(previous) {
      var f :| f in recorded && f.id == id;
      var i :| 0 <= i < |recorded| && recorded[i] == f;
      assert Covered(recorded[i], previous);
    }
    Subset(IdSet(recorded), IdSet(previous));
  }

  lemma {:induction false} Subset(s: set<string>, t: set<string>)
    requires s <= t
    ensures |s| <= |t|
  {
    if s != {} {
      var x :| x in s;
      Subset(s - {x}, t - {x});
    }
  }
}
