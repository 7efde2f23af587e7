/**
 * The reader of `git status --porcelain=v1 -z` in scripts/ck07r1_prelaunch_recovery.py
 * (`_status_paths`), against the format that git documents: a record is two status
 * letters, a space and a path, and a rename or copy is followed by its origin.
 */
module StatusPaths {
  import opened Wrappers

  const NUL := '\0'

  datatype Problem = MalformedEntry | MalformedRename

  /** The text between the NULs, one more than there are NULs. */
  function Split(s: string): (entries: seq<string>)
    ensures |entries| > 0
  {
    if s == "" then [""]
    else if s[0] == NUL then [""] + Split(s[1..])
    else
      var rest := Split(s[1..]);
      [[s[0]] + rest[0]] + rest[1..]
  }

  predicate Moves(status: string) {
    'R' in status || 'C' in status
  }

  /** The paths of the entries from `index` on. */
  function PathsFrom(entries: seq<string>, index: nat): Result<set<string>, Problem>
    requires index <= |entries|
    decreases |entries| - index
  {
    if index == |entries| then Ok({})
    else if entries[index] == "" then PathsFrom(entries, index + 1)
    else if |entries[index]| < 4 then Err(MalformedEntry)
    else if Moves(entries[index][..2]) then
      if index + 1 >= |entries| || entries[index + 1] == "" then Err(MalformedRename)
      else Plus(entries[index + 1], PathsFrom(entries, index + 2))
    else Plus(entries[index][3..], PathsFrom(entries, index + 1))
  }

  function Plus(path: string, rest: Result<set<string>, Problem>): Result<set<string>, Problem> {
    if rest.Err? then rest else Ok({path} + rest.value)
  }

  method StatusPathsOf(output: string) returns (r: Result<set<string>, Problem>)
    ensures r == PathsFrom(Split(output), 0)
  {
    var paths: set<string> := {};
    var entries := Split(output);
    var index := 0;
    MergeNothing(PathsFrom(entries, 0));
    while index < |entries|
      invariant index <= |entries|
      invariant PathsFrom(entries, 0) == Merge(paths, PathsFrom(entries, index))
      decreases |entries| - index
    {
      var entry := entries[index];
      index := index + 1;
      if entry != "" {
        if |entry| < 4 {
          return Err(MalformedEntry);
        }
        var status, path := entry[..2], entry[3..];
        if 'R' in status || 'C' in status {
          if index >= |entries| || entries[index] == "" {
            return Err(MalformedRename);
          }
          path := entries[index];
          index := index + 1;
        }
        MergePlus(paths, path, PathsFrom(entries, index));
        paths := paths + {path};
      }
    }
    r := Ok(paths);
    assert Merge(paths, Ok({})) == Ok(paths) by {
      assert paths + {} == paths;
    }
  }

  function Merge(paths: set<string>, rest: Result<set<string>, Problem>): Result<set<string>, Problem> {
    if rest.Err? then rest else Ok(paths + rest.value)
  }

  lemma MergeNothing(rest: Result<set<string>, Problem>)
    ensures Merge({}, rest) == rest
  {
    if rest.Ok? {
      assert {} + rest.value == rest.value;
    }
  }

  lemma MergePlus(paths: set<string>, path: string, rest: Result<set<string>, Problem>)
    ensures Merge(paths, Plus(path, rest)) == Merge(paths + {path}, rest)
  {
    if rest.Ok? {
      assert paths + ({path} + rest.value) == paths + {path} + rest.value;
    }
  }

  // ---- The documented format --------------------------------------------

  /** `origin` is where a renamed or copied file came from. */
  datatype Change = Change(status: string, path: string, origin: Option<string>)

  predicate Plain(text: string) {
    text != "" && NUL !in text
  }

  predicate ValidChange(c: Change) {
    && |c.status| == 2 && NUL !in c.status && Plain(c.path)
    && (c.origin.Some? <==> Moves(c.status)) && (c.origin.Some? ==> Plain(c.origin.value))
  }

  predicate ValidChanges(changes: seq<Change>) {
    forall i :: 0 <= i < |changes| ==> ValidChange(changes[i])
  }

  /** A field, its NUL, and what follows. */
  function Field(text: string, rest: string): string {
    text + [NUL] + rest
  }

  function Record(c: Change): string {
    c.status + " " + c.path
  }

  function Render(changes: seq<Change>): string {
    if changes == [] then ""
    else
      var c, rest := changes[0], Render(changes[1..]);
      Field(Record(c), if c.origin.Some? then Field(c.origin.value, rest) else rest)
  }

  function Entries(changes: seq<Change>): seq<string> {
    if changes == [] then [""]
    else
      var c := changes[0];
      [Record(c)] + (if c.origin.Some? then [c.origin.value] else []) + Entries(changes[1..])
  }

  /** The path that the reader reports for a change. */
  function Reported(c: Change): string {
    if c.origin.Some? then c.origin.value else c.path
  }

  function ReportedPaths(changes: seq<Change>): set<string> {
    set c | c in changes :: Reported(c)
  }

  /** Where the changed files are now. */
  function CurrentPaths(changes: seq<Change>): set<string> {
    set c | c in changes :: c.path
  }

  lemma {:induction false} SplitAt(text: string, rest: string)
    requires NUL !in text
    ensures Split(Field(text, rest)) == [text] + Split(rest)
  {
    var s := Field(text, rest);
    if text == "" {
      assert s[1..] == rest;
    } else {
      assert s[1..] == Field(text[1..], rest);
      SplitAt(text[1..], rest);
      assert [text[0]] + text[1..] == text;
    }
  }

  lemma {:induction false} SplitRender(changes: seq<Change>)
    requires ValidChanges(changes)
    ensures Split(Render(changes)) == Entries(changes)
  {
    if changes != [] {
      assert ValidChange(changes[0]);
      hide Split, Moves, Field;
      var c, rest := changes[0], Render(changes[1..]);
      SplitRender(changes[1..]);
      if c.origin.Some? {
        SplitAt(c.origin.value, rest);
        SplitAt(Record(c), Field(c.origin.value, rest));
      } else {
        SplitAt(Record(c), rest);
      }
    }
  }

  lemma {:induction false} PathsOfEntries(before: seq<string>, changes: seq<Change>)
    requires ValidChanges(changes)
    ensures PathsFrom(before + Entries(changes), |before|) == Ok(ReportedPaths(changes))
    decreases |changes|
  {
    var all := before + Entries(changes);
    if changes == [] {
      assert all[|before|] == "" && |all| == |before| + 1;
      assert PathsFrom(all, |before|) == PathsFrom(all, |before| + 1) == Ok({});
      assert ReportedPaths(changes) == {};
    } else {
      var c := changes[0];
      var head := [Record(c)] + (if c.origin.Some? then [c.origin.value] else []);
      assert all == (before + head) + Entries(changes[1..]);
      PathsOfEntries(before + head, changes[1..]);
      assert all[|before|] == Record(c);
      assert all[|before|][..2] == c.status && all[|before|][3..] == c.path;
      assert c.origin.Some? ==> all[|before| + 1] == c.origin.value;
      ReportedStep(changes);
    }
  }

  lemma ReportedStep(changes: seq<Change>)
    requires changes != []
    ensures ReportedPaths(changes) == {Reported(changes[0])} + ReportedPaths(changes[1..])
    ensures CurrentPaths(changes) == {changes[0].path} + CurrentPaths(changes[1..])
  {
    assert forall c :: c in changes <==> c == changes[0] || c in changes[1..];
  }

  /** Reading what git writes never fails, and reports each change once: a rename by its origin. */
  lemma ReadsWhatGitWrites(changes: seq<Change>)
    requires ValidChanges(changes)
    ensures PathsFrom(Split(Render(changes)), 0) == Ok(ReportedPaths(changes))
  {
    SplitRender(changes);
    PathsOfEntries([], changes);
    assert [] + Entries(changes) == Entries(changes);
  }

  /** A new path of a rename or copy is reported exactly if some change has it as its reported path. */
  lemma CurrentPathsExactly(changes: seq<Change>)
    requires ValidChanges(changes)
    ensures CurrentPaths(changes) <= ReportedPaths(changes) <==>
            forall c <- changes :: Moves(c.status) ==> exists d <- changes :: Reported(d) == c.path
  {
    if CurrentPaths(changes) <= ReportedPaths(changes) {
      forall c <- changes | Moves(c.status) ensures exists d <- changes :: Reported(d) == c.path {
        assert c.path in CurrentPaths(changes);
      }
    }
    if forall c <- changes :: Moves(c.status) ==> exists d <- changes :: Reported(d) == c.path {
      forall path | path in CurrentPaths(changes) ensures path in ReportedPaths(changes) {
        var c :| c in changes && c.path == path;
        assert !Moves(c.status) ==> Reported(c) == path;
      }
    }
  }

  /** Each path once, as git lists them, and nothing moved from where something else moved to. */
  predicate OncePerPath(changes: seq<Change>) {
    && (forall i, j :: 0 <= i < j < |changes| ==> changes[i].path != changes[j].path)
    && (forall i, j :: 0 <= i < |changes| && 0 <= j < |changes| && changes[i].origin.Some? && Moves(changes[j].status) ==>
         changes[i].origin.value != changes[j].path)
  }

  /** For such a list the reader covers every changed file exactly if no status has an R or a C. */
  lemma CoveredExactlyWithoutMoves(changes: seq<Change>)
    requires ValidChanges(changes) && OncePerPath(changes)
    ensures CurrentPaths(changes) <= ReportedPaths(changes) <==>
            forall i :: 0 <= i < |changes| ==> !Moves(changes[i].status)
  {
    hide Moves;
    CurrentPathsExactly(changes);
    forall j | 0 <= j < |changes| && Moves(changes[j].status)
      ensures !(exists d <- changes :: Reported(d) == changes[j].path)
    {
      forall d | d in changes ensures Reported(d) != changes[j].path {
        var i :| 0 <= i < |changes| && changes[i] == d;
        assert ValidChange(changes[i]);
      }
    }
    if forall i :: 0 <= i < |changes| ==> !Moves(changes[i].status) {
      forall c <- changes ensures !Moves(c.status) {
        var i :| 0 <= i < |changes| && changes[i] == c;
      }
    } else {
      var j :| 0 <= j < |changes| && Moves(changes[j].status);
      assert changes[j] in changes;
    }
  }

  /** A single rename is reported without the file that is now there. */
  lemma RenameHidesItsTarget()
    ensures exists changes :: ValidChanges(changes) && !(CurrentPaths(changes) <= ReportedPaths(changes))
  {
    var c := Change("R ", "new.py", Some("old.py"));
    assert 'R' in c.status;
    assert "new.py" in CurrentPaths([c]);
    assert Reported(c) == "old.py" && "old.py"[0] != "new.py"[0];
    assert ValidChange(c);
    assert ValidChanges([c]);
  }
}
