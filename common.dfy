/** Small value types and string helpers shared by every module of the model. */
module Common {

  /** A value that may be missing: Python `None`, JavaScript `null`/`undefined`. */
  datatype Option<+T> = None | Some(value: T) {
    function GetOr(default: T): T {
      match this
      case Some(v) => v
      case None => default
    }
  }

  /** The outcome of an operation that can fail with an error value. */
  datatype Result<+T, +E> = Success(value: T) | Failure(error: E)

  /** `s.startsWith(p)` in JavaScript, `s.startswith(p)` in Python. */
  predicate StartsWith(s: string, p: string) {
    p <= s
  }

  /** `s.endsWith(p)`. */
  predicate EndsWith(s: string, p: string) {
    |p| <= |s| && s[|s| - |p|..] == p
  }

  /** `t` occurs in `s` starting at index `i`. */
  predicate OccursAt(s: string, t: string, i: nat) {
    i + |t| <= |s| && s[i..i + |t|] == t
  }

  /** `t in s` in Python, `s.includes(t)` in JavaScript: `t` occurs somewhere in `s`. */
  predicate Contains(s: string, t: string) {
    exists i: nat :: i <= |s| - |t| && OccursAt(s, t, i)
  }

  /** The first index at or after `from` where `t` occurs in `s`, or -1 (`indexOf`). */
  function IndexOf(s: string, t: string, from: nat): (k: int)
    ensures k == -1 || (from <= k && OccursAt(s, t, k))
    ensures k >= 0 ==> forall j: nat :: from <= j < k ==> !OccursAt(s, t, j)
    ensures k == -1 ==> forall j: nat :: from <= j ==> !OccursAt(s, t, j)
    decreases |s| - from
  {
    if from + |t| > |s| then -1
    else if OccursAt(s, t, from) then from
    else IndexOf(s, t, from + 1)
  }

  /** `s.replace(t, r)` with a string pattern: only the first occurrence is replaced. */
  function ReplaceFirst(s: string, t: string, r: string): string {
    var k := IndexOf(s, t, 0);
    if k < 0 then s else s[..k] + r + s[k + |t|..]
  }

  /** Replacing a pattern that starts the string replaces that prefix. */
  lemma ReplaceFirstOfPrefix(s: string, t: string, r: string)
    requires StartsWith(s, t)
    ensures ReplaceFirst(s, t, r) == r + s[|t|..]
  {
    assert OccursAt(s, t, 0);
  }

  /** Python's `s[n:]` for `n >= 0`: empty when `n` is past the end. */
  function DropFrom(s: string, n: nat): (r: string)
    ensures n <= |s| ==> r == s[n..]
    ensures n >= |s| ==> r == []
  {
    if n <= |s| then s[n..] else []
  }

  /** The concatenation of `parts`, in order (`"".join(parts)`, or `+=` in a loop). */
  function Concat(parts: seq<string>): string {
    if parts == [] then [] else Concat(parts[..|parts| - 1]) + parts[|parts| - 1]
  }

  lemma {:induction false} ConcatAppend(a: seq<string>, b: seq<string>)
    ensures Concat(a + b) == Concat(a) + Concat(b)
    decreases |b|
  {
    if b == [] {
      assert a + b == a;
    } else {
      var last := b[|b| - 1];
      assert (a + b)[..|a + b| - 1] == a + b[..|b| - 1];
      ConcatAppend(a, b[..|b| - 1]);
    }
  }

  /** `s.filter(p)`: the elements satisfying `p`, in their order. */
  function Filter<T>(s: seq<T>, p: T -> bool): (r: seq<T>)
    ensures |r| <= |s|
    ensures forall x :: x in r ==> x in s && p(x)
  {
    if s == [] then [] else Filter(s[..|s| - 1], p) + (if p(s[|s| - 1]) then [s[|s| - 1]] else [])
  }

  lemma {:induction false} FilterAppend<T>(a: seq<T>, b: seq<T>, p: T -> bool)
    ensures Filter(a + b, p) == Filter(a, p) + Filter(b, p)
    decreases |b|
  {
    if b == [] {
      assert a + b == a;
    } else {
      assert (a + b)[..|a + b| - 1] == a + b[..|b| - 1];
      FilterAppend(a, b[..|b| - 1], p);
    }
  }

  /** Filtering by `q` after a weaker `p` is filtering by `q` alone. */
  lemma {:induction false} FilterAfterWeaker<T>(s: seq<T>, p: T -> bool, q: T -> bool)
    requires forall x :: q(x) ==> p(x)
    ensures Filter(Filter(s, p), q) == Filter(s, q)
    decreases |s|
  {
    if s != [] {
      var init, last := s[..|s| - 1], s[|s| - 1];
      FilterAfterWeaker(init, p, q);
      FilterAppend(Filter(init, p), if p(last) then [last] else [], q);
      assert Filter([last], q) == if q(last) then [last] else [] by {
        assert [last][..0] == [];
      }
      if !p(last) {
        assert Filter([], q) == [];
        assert Filter(init, p) + [] == Filter(init, p);
      }
    }
  }

  /** ASCII lower-casing of one character. */
  function LowerChar(c: char): char {
    if 'A' <= c <= 'Z' then (c as int + 32) as char else c
  }

  /** `s.lower()` / `s.toLowerCase()`, restricted to the ASCII letters. */
  function Lower(s: string): (r: string)
    ensures |r| == |s|
    ensures forall i :: 0 <= i < |s| ==> r[i] == LowerChar(s[i])
  {
    seq(|s|, i requires 0 <= i < |s| => LowerChar(s[i]))
  }
}
