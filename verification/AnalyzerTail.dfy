/** The bounded output capture of `_run_gitnexus_analyzer` in scripts/bootstrap_dev_environment.py. */
module AnalyzerTail {
  const TAIL_CHARS := 65_536

  function Last(s: string, n: nat): (t: string)
    ensures |t| == if |s| <= n then |s| else n
  {
    if |s| <= n then s else s[|s| - n..]
  }

  /** The last characters end the text, as many as there are up to the bound. */
  lemma LastIsSuffix(s: string, n: nat)
    ensures exists k :: 0 <= k <= |s| && Last(s, n) == s[k..] && (k == 0 || |s| - k == n)
  {
    var k := if |s| <= n then 0 else |s| - n;
    assert Last(s, n) == s[k..];
  }

  function Joined(texts: seq<string>): string {
    if texts == [] then "" else Joined(texts[..|texts| - 1]) + texts[|texts| - 1]
  }

  /** A deque of bounded length that takes the characters one at a time, dropping from the left. */
  method Extend(tail: string, text: string, maxlen: nat) returns (longer: string)
    requires |tail| <= maxlen
    ensures longer == Last(tail + text, maxlen)
  {
    longer := tail;
    for i := 0 to |text|
      invariant longer == Last(tail + text[..i], maxlen)
    {
      assert tail + text[..i + 1] == tail + text[..i] + [text[i]];
      longer := if |longer| < maxlen then longer + [text[i]] else (longer + [text[i]])[1..];
    }
    assert text[..|text|] == text;
  }

  /** Cutting early does not change what the last characters are. */
  lemma LastOfLast(s: string, t: string, n: nat)
    ensures Last(Last(s, n) + t, n) == Last(s + t, n)
  {
    var cut, whole := Last(s, n) + t, s + t;
    if |s| > n {
      assert cut == whole[|s| - n..];
    }
  }

  /** However the output is cut into chunks, the last characters are kept, and the notice says if any were lost. */
  method Capture(texts: seq<string>, finalText: string, notice: string) returns (shown: string, captured: string)
    ensures shown == Joined(texts) + finalText
    ensures |shown| <= TAIL_CHARS ==> captured == shown
    ensures |shown| > TAIL_CHARS ==> captured == notice + shown[|shown| - TAIL_CHARS..]
    ensures captured == (if |shown| > TAIL_CHARS then notice else "") + Last(shown, TAIL_CHARS)
  {
    var tail, count := "", 0;
    shown := "";
    for i := 0 to |texts|
      invariant shown == Joined(texts[..i]) && count == |shown| && tail == Last(shown, TAIL_CHARS)
    {
      var text := texts[i];
      assert texts[..i + 1][..i] == texts[..i];
      LastOfLast(shown, text, TAIL_CHARS);
      if text != "" {
        tail := Extend(tail, text, TAIL_CHARS);
        count := count + |text|;
        shown := shown + text;
      }
    }
    assert texts[..|texts|] == texts;
    LastOfLast(shown, finalText, TAIL_CHARS);
    if finalText != "" {
      tail := Extend(tail, finalText, TAIL_CHARS);
      count := count + |finalText|;
      shown := shown + finalText;
    }
    assert shown == Joined(texts) + finalText;
    captured := (if count > TAIL_CHARS then notice else "") + tail;
  }

  lemma {:induction false} JoinedAppend(left: seq<string>, right: seq<string>)
    ensures Joined(left + right) == Joined(left) + Joined(right)
  {
    if right == [] {
      assert left + right == left;
    } else {
      var most := right[..|right| - 1];
      assert (left + right)[..|left + right| - 1] == left + most;
      JoinedAppend(left, most);
    }
  }

  /** Two ways of cutting the same output capture the same text. */
  lemma SplitDoesNotMatter(before: seq<string>, a: string, b: string, after: seq<string>)
    ensures Joined(before + [a + b] + after) == Joined(before + [a, b] + after)
  {
    JoinedTwo(a, b);
    hide Joined;
    JoinedAppend(before + [a + b], after);
    JoinedAppend(before + [a, b], after);
    JoinedAppend(before, [a + b]);
    JoinedAppend(before, [a, b]);
  }

  lemma JoinedTwo(a: string, b: string)
    ensures Joined([a, b]) == Joined([a + b])
  {
    assert [a, b][..1] == [a] && [a][..0] == [] && [a + b][..0] == [];
    assert Joined([a]) == Joined([]) + a == a;
    assert Joined([a + b]) == Joined([]) + (a + b) == a + b;
  }
}
