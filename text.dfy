/** The Python string operations the checker relies on: `in`, `str.replace(tok, "")`,
    `str.count` and `str.split` on one separator character. */
module Text {

  predicate StartsWith(s: string, t: string) {
    |t| <= |s| && s[..|t|] == t
  }

  /** Python's `t in s`: `t` occurs somewhere in `s` (the empty string occurs everywhere). */
  predicate Contains(s: string, t: string)
    decreases |s|
  {
    StartsWith(s, t) || (|s| > 0 && Contains(s[1..], t))
  }

  /** Python's `s.count(t)`: the number of non-overlapping occurrences of `t`, scanning left to right. */
  function Occurrences(s: string, t: string): nat
    decreases |s|
  {
    if t == [] then |s| + 1
    else if |s| < |t| then 0
    else if StartsWith(s, t) then 1 + Occurrences(s[|t|..], t)
    else Occurrences(s[1..], t)
  }

  /** Python's `s.replace(t, "")`: every non-overlapping occurrence of `t`, found scanning left to
      right, is deleted. Replacing the empty string by the empty string leaves `s` as it is. */
  function Remove(s: string, t: string): (r: string)
    ensures |r| <= |s|
    decreases |s|
  {
    if t == [] || |s| < |t| then s
    else if StartsWith(s, t) then Remove(s[|t|..], t)
    else [s[0]] + Remove(s[1..], t)
  }

  /** Python's `s.split(c)` for a one-character separator. */
  function Split(s: string, c: char): (parts: seq<string>)
    ensures |parts| >= 1
    decreases |s|
  {
    if |s| == 0 then [""]
    else
      var rest := Split(s[1..], c);
      if s[0] == c then [""] + rest else [[s[0]] + rest[0]] + rest[1..]
  }

  /** Python's `c.join(parts)`, the inverse of `Split`. */
  function Join(parts: seq<string>, c: char): string
    requires |parts| >= 1
    decreases |parts|
  {
    if |parts| == 1 then parts[0] else parts[0] + [c] + Join(parts[1..], c)
  }

  lemma {:induction false} OccurrencesIffContains(s: string, t: string)
    requires t != []
    ensures Occurrences(s, t) > 0 <==> Contains(s, t)
    decreases |s|
  {
    if |s| < |t| {
      if Contains(s, t) { ContainsNeedsRoom(s, t); }
    } else if !StartsWith(s, t) {
      OccurrencesIffContains(s[1..], t);
    }
  }

  /** `t` is found wherever it occurs, not only at the start. */
  lemma {:induction false} ContainsInfix(before: string, t: string, after: string)
    ensures Contains(before + t + after, t)
    decreases |before|
  {
    var s := before + t + after;
    if before == [] {
      assert s[..|t|] == t;
    } else {
      assert s[1..] == before[1..] + t + after;
      ContainsInfix(before[1..], t, after);
    }
  }

  lemma {:induction false} ContainsNeedsRoom(s: string, t: string)
    requires Contains(s, t)
    ensures |t| <= |s|
    decreases |s|
  {
    if !StartsWith(s, t) { ContainsNeedsRoom(s[1..], t); }
  }

  /** Every removal shortens the string by exactly one token: `replace` deletes `s.count(t)` copies. */
  lemma {:induction false} RemoveLength(s: string, t: string)
    requires t != []
    ensures |Remove(s, t)| + |t| * Occurrences(s, t) == |s|
    decreases |s|
  {
    if |s| < |t| {
    } else if StartsWith(s, t) {
      RemoveLength(s[|t|..], t);
      calc {
        |Remove(s, t)| + |t| * Occurrences(s, t);
        |Remove(s[|t|..], t)| + |t| * (1 + Occurrences(s[|t|..], t));
        |Remove(s[|t|..], t)| + |t| * Occurrences(s[|t|..], t) + |t|;
      }
    } else {
      RemoveLength(s[1..], t);
    }
  }

  /** A token that does not occur is not removed: the string comes back unchanged. */
  lemma {:induction false} RemoveAbsent(s: string, t: string)
    requires !Contains(s, t)
    ensures Remove(s, t) == s
    decreases |s|
  {
    if t != [] && |s| >= |t| {
      RemoveAbsent(s[1..], t);
      assert s == [s[0]] + s[1..];
    }
  }

  /** A token that does occur is removed: the string gets strictly shorter. */
  lemma RemovePresent(s: string, t: string)
    requires t != [] && Contains(s, t)
    ensures |Remove(s, t)| < |s|
  {
    OccurrencesIffContains(s, t);
    RemoveLength(s, t);
  }

  /** `replace` is not idempotent: removing "ab" from "aabb" leaves "ab", which still holds "ab". */
  lemma RemoveNotIdempotent()
    ensures Remove("aabb", "ab") == "ab"
    ensures Remove(Remove("aabb", "ab"), "ab") == ""
  {
    assert StartsWith("ab", "ab");
    assert "aabb"[..2] == "aa";
    assert "aabb"[1..] == "abb";
    assert StartsWith("abb", "ab");
    assert "abb"[2..] == "b";
    assert Remove("b", "ab") == "b";
    assert "ab"[2..] == "";
  }

  /** The split pieces joined back with the separator give the original string. */
  lemma {:induction false} JoinSplit(s: string, c: char)
    ensures Join(Split(s, c), c) == s
    decreases |s|
  {
    if |s| > 0 {
      var rest := Split(s[1..], c);
      JoinSplit(s[1..], c);
      if s[0] == c {
        assert Split(s, c) == [""] + rest;
        assert ([""] + rest)[1..] == rest;
      } else {
        var parts := [[s[0]] + rest[0]] + rest[1..];
        assert Split(s, c) == parts;
        if |rest| == 1 {
          assert Join(parts, c) == [s[0]] + rest[0];
        } else {
          assert parts[1..] == rest[1..];
          assert Join(rest, c) == rest[0] + [c] + Join(rest[1..], c);
        }
      }
    }
  }

  /** `s.split(c)` has one more piece than `s` has separators, and no piece holds the separator. */
  lemma {:induction false} SplitPieces(s: string, c: char)
    ensures |Split(s, c)| == Occurrences(s, [c]) + 1
    ensures forall k :: 0 <= k < |Split(s, c)| ==> c !in Split(s, c)[k]
    decreases |s|
  {
    if |s| > 0 {
      SplitPieces(s[1..], c);
      assert StartsWith(s, [c]) <==> s[0] == c;
      assert s[|[c]|..] == s[1..];
    }
  }
}
