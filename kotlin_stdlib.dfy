/** Models of the Kotlin standard-library calls that the validator and the
    publish convention are written with: `Iterable.any`, `Iterable.flatMap`,
    `CharSequence.contains` and `joinToString("\n")` (the shape of a
    `trimIndent`-ed multi-line literal). Each is defined the way the library
    computes it and specified by what it means. */
module KotlinStdlib {

  datatype Option<+T> = None | Some(value: T)

  /** `s.any(p)`: scans from the front and stops at the first element that
      satisfies `p`. */
  function Any<T>(s: seq<T>, p: T -> bool): (r: bool)
    ensures r <==> exists i :: 0 <= i < |s| && p(s[i])
  {
    if |s| == 0 then false
    else if p(s[0]) then true
    else
      assert forall i :: 0 < i < |s| ==> s[i] == s[1..][i - 1];
      Any(s[1..], p)
  }

  /** `s.flatMap(f)`: the concatenation, in order, of `f` applied to each element. */
  function FlatMap<T, U(!new)>(s: seq<T>, f: T -> seq<U>): (r: seq<U>)
    ensures forall u :: u in r <==> exists i :: 0 <= i < |s| && u in f(s[i])
  {
    if |s| == 0 then []
    else
      assert forall i :: 0 < i < |s| ==> s[i] == s[1..][i - 1];
      f(s[0]) + FlatMap(s[1..], f)
  }

  /** `sub` occurs in `s` starting at index `i`. */
  ghost predicate OccursAt(s: string, sub: string, i: int) {
    0 <= i && i + |sub| <= |s| && s[i..i + |sub|] == sub
  }

  /** `s.contains(sub)` (case-sensitive, so `s.indexOf(sub) >= 0`): tries each
      start position from the left. The empty string occurs in every string. */
  function Contains(s: string, sub: string): (r: bool)
    ensures r <==> exists i :: OccursAt(s, sub, i)
    decreases |s|
  {
    if |sub| > |s| then
      assert forall i :: !OccursAt(s, sub, i);
      false
    else if s[..|sub|] == sub then
      assert OccursAt(s, sub, 0);
      true
    else
      assert !OccursAt(s, sub, 0) by { assert s[0..|sub|] == s[..|sub|]; }
      ShiftOccurrence(s, sub);
      Contains(s[1..], sub)
  }

  /** Dropping the first character shifts every occurrence but the one at 0. */
  lemma ShiftOccurrence(s: string, sub: string)
    requires |s| > 0
    ensures forall i :: 0 <= i ==> (OccursAt(s[1..], sub, i) <==> OccursAt(s, sub, i + 1))
    ensures forall j :: 0 < j && OccursAt(s, sub, j) ==> OccursAt(s[1..], sub, j - 1)
  {
    forall i | 0 <= i
      ensures OccursAt(s[1..], sub, i) <==> OccursAt(s, sub, i + 1)
    {
      if i + 1 + |sub| <= |s| {
        assert s[1..][i..i + |sub|] == s[i + 1..i + 1 + |sub|];
      }
    }
  }

  /** An occurrence in a prefix is an occurrence in the whole. */
  lemma {:induction false} ContainsAppendRight(s: string, t: string, sub: string)
    requires Contains(s, sub)
    ensures Contains(s + t, sub)
  {
    var i :| OccursAt(s, sub, i);
    assert (s + t)[i..i + |sub|] == s[i..i + |sub|];
    assert OccursAt(s + t, sub, i);
  }

  /** An occurrence in a suffix is an occurrence in the whole. */
  lemma {:induction false} ContainsAppendLeft(s: string, t: string, sub: string)
    requires Contains(t, sub)
    ensures Contains(s + t, sub)
  {
    var i :| OccursAt(t, sub, i);
    assert (s + t)[|s| + i..|s| + i + |sub|] == t[i..i + |sub|];
    assert OccursAt(s + t, sub, |s| + i);
  }

  /** Every string contains itself. */
  lemma ContainsSelf(s: string)
    ensures Contains(s, s)
  {
    assert OccursAt(s, s, 0);
  }

  /** Containment is transitive: an occurrence of `u` inside an occurrence of
      `t` inside `s` is an occurrence of `u` in `s`. */
  lemma {:induction false} ContainsTransitive(s: string, t: string, u: string)
    requires Contains(s, t) && Contains(t, u)
    ensures Contains(s, u)
  {
    var i :| OccursAt(s, t, i);
    var j :| OccursAt(t, u, j);
    forall k | 0 <= k < |u|
      ensures s[i + j + k] == u[k]
    {
      assert s[i..i + |t|][j + k] == t[j + k];
      assert t[j..j + |u|][k] == u[k];
    }
    assert s[i + j..i + j + |u|] == u;
    assert OccursAt(s, u, i + j);
  }

  /** If `s` contains `sub`, so does every string that contains `s`
      as a factor `a + s + b`. */
  lemma ContainsInside(a: string, s: string, b: string, sub: string)
    requires Contains(s, sub)
    ensures Contains(a + s + b, sub)
  {
    ContainsAppendLeft(a, s, sub);
    ContainsAppendRight(a + s, b, sub);
  }

  /** `lines.joinToString("\n")`. */
  function JoinLines(lines: seq<string>): string {
    if |lines| == 0 then ""
    else if |lines| == 1 then lines[0]
    else lines[0] + "\n" + JoinLines(lines[1..])
  }

  /** Whatever one line contains, the joined text contains. */
  lemma {:induction false} ContainsLine(lines: seq<string>, k: int, sub: string)
    requires 0 <= k < |lines| && Contains(lines[k], sub)
    ensures Contains(JoinLines(lines), sub)
  {
    if |lines| == 1 {
    } else if k == 0 {
      ContainsAppendRight(lines[0], "\n", sub);
      ContainsAppendRight(lines[0] + "\n", JoinLines(lines[1..]), sub);
    } else {
      ContainsLine(lines[1..], k - 1, sub);
      ContainsAppendLeft(lines[0] + "\n", JoinLines(lines[1..]), sub);
    }
  }
}
