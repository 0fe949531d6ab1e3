/** Shared vocabulary: optional values, results, and the few string and path
    operations of Go's standard library that the modelled code relies on
    (`strings.Split`, `strings.SplitN(_, "=", 2)`, `strings.HasPrefix`,
    `strings.TrimSuffix`, `strings.Contains`, `filepath.Join`, `filepath.Base`). */
module Common {

  datatype Option<+T> = None | Some(value: T)

  datatype Result<+T, +E> = Ok(value: T) | Err(error: E)

  predicate StartsWith(s: string, prefix: string) {
    |prefix| <= |s| && s[..|prefix|] == prefix
  }

  predicate EndsWith(s: string, suffix: string) {
    |suffix| <= |s| && s[|s| - |suffix|..] == suffix
  }

  /** `strings.TrimSuffix`: removes one occurrence of `suffix` at the end, if present. */
  function TrimSuffix(s: string, suffix: string): (r: string)
    ensures EndsWith(s, suffix) ==> r + suffix == s
    ensures !EndsWith(s, suffix) ==> r == s
  {
    if EndsWith(s, suffix) then s[..|s| - |suffix|] else s
  }

  /** `strings.Contains`: `sub` occurs somewhere in `s`. */
  predicate Contains(s: string, sub: string)
    decreases |s|
  {
    StartsWith(s, sub) || (|s| > 0 && Contains(s[1..], sub))
  }

  /** `strings.Split(s, string(sep))`: the pieces between separators, in order;
      never empty (a string without a separator is one piece). */
  function Split(s: string, sep: char): (parts: seq<string>)
    ensures |parts| >= 1
    ensures forall i :: 0 <= i < |parts| ==> sep !in parts[i]
    decreases |s|
  {
    if |s| == 0 then [""]
    else if s[0] == sep then [""] + Split(s[1..], sep)
    else
      var rest := Split(s[1..], sep);
      [[s[0]] + rest[0]] + rest[1..]
  }

  /** The inverse of `Split`: glue the pieces back with the separator. */
  function JoinParts(parts: seq<string>, sep: char): string
    requires |parts| >= 1
  {
    if |parts| == 1 then parts[0] else parts[0] + [sep] + JoinParts(parts[1..], sep)
  }

  lemma {:induction false} SplitJoin(s: string, sep: char)
    ensures JoinParts(Split(s, sep), sep) == s
    decreases |s|
  {
    if |s| == 0 {
    } else if s[0] == sep {
      SplitJoin(s[1..], sep);
      assert [sep] + s[1..] == s;
    } else {
      SplitJoin(s[1..], sep);
      var rest := Split(s[1..], sep);
      if |rest| == 1 {
        assert [s[0]] + rest[0] == s;
      } else {
        assert JoinParts(rest, sep) == rest[0] + [sep] + JoinParts(rest[1..], sep);
        assert ([s[0]] + rest[0]) + [sep] + JoinParts(rest[1..], sep) == [s[0]] + s[1..];
        assert [s[0]] + s[1..] == s;
      }
    }
  }

  /** Splitting at a separator between two strings splits each side on its own. */
  lemma {:induction false} SplitConcat(a: string, b: string, sep: char)
    ensures Split(a + [sep] + b, sep) == Split(a, sep) + Split(b, sep)
    decreases |a|
  {
    if |a| == 0 {
      assert a + [sep] + b == [sep] + b;
      assert ([sep] + b)[1..] == b;
    } else {
      assert (a + [sep] + b)[0] == a[0];
      assert (a + [sep] + b)[1..] == a[1..] + [sep] + b;
      SplitConcat(a[1..], b, sep);
    }
  }

  /** Prefixing a character to the first piece commutes with extending the last one. */
  lemma ExtendLastAfterCons(c: char, q: seq<string>, t: string)
    requires |q| >= 1
    ensures var p := [[c] + q[0]] + q[1..];
      var rest := q[..|q| - 1] + [q[|q| - 1] + t];
      [[c] + rest[0]] + rest[1..] == p[..|p| - 1] + [p[|p| - 1] + t]
  {
    var n := |q|;
    var p := [[c] + q[0]] + q[1..];
    var rest := q[..n - 1] + [q[n - 1] + t];
    if n == 1 {
      assert rest == [q[0] + t];
      assert [c] + (q[0] + t) == ([c] + q[0]) + t;
    } else {
      assert rest[0] == q[0];
      assert rest[1..] == q[1..n - 1] + [q[n - 1] + t];
      assert p[..|p| - 1] == [[c] + q[0]] + q[1..n - 1];
    }
  }

  /** Appending text without a separator only extends the last piece. */
  lemma {:induction false} SplitAppend(s: string, t: string, sep: char)
    requires sep !in t
    ensures var p := Split(s, sep);
      Split(s + t, sep) == p[..|p| - 1] + [p[|p| - 1] + t]
    decreases |s|
  {
    if |s| == 0 {
      SplitNoSep(t, sep);
      assert s + t == t;
    } else {
      assert (s + t)[0] == s[0];
      assert (s + t)[1..] == s[1..] + t;
      SplitAppend(s[1..], t, sep);
      var q := Split(s[1..], sep);
      if s[0] != sep {
        ExtendLastAfterCons(s[0], q, t);
      }
    }
  }

  /** A string without separators is a single piece. */
  lemma {:induction false} SplitNoSep(s: string, sep: char)
    requires sep !in s
    ensures Split(s, sep) == [s]
    decreases |s|
  {
    if |s| > 0 {
      SplitNoSep(s[1..], sep);
      assert [s[0]] + s[1..] == s;
    }
  }

  /** The last piece of a non-empty string that does not end with the separator is non-empty. */
  lemma {:induction false} SplitLastNonEmpty(s: string, sep: char)
    requires |s| > 0 && s[|s| - 1] != sep
    ensures var p := Split(s, sep); p[|p| - 1] != ""
  {
    var k := |s| - 1;
    SplitAppend(s[..k], [s[k]], sep);
    assert s[..k] + [s[k]] == s;
  }

  /** The last `sep`-separated piece of `s`. */
  function LastPiece(s: string, sep: char): (r: string)
    ensures sep !in r
  {
    var p := Split(s, sep); p[|p| - 1]
  }

  /** `strings.SplitN(s, string(c), 2)` when it yields two parts: the text before
      the first `c` and the text after it; `None` when `c` does not occur. */
  function CutFirst(s: string, c: char): (r: Option<(string, string)>)
    ensures r.None? <==> c !in s
    ensures r.Some? ==> s == r.value.0 + [c] + r.value.1 && c !in r.value.0
    decreases |s|
  {
    if |s| == 0 then None
    else if s[0] == c then Some(("", s[1..]))
    else match CutFirst(s[1..], c)
      case None => None
      case Some(p) =>
        assert s == [s[0]] + s[1..];
        Some(([s[0]] + p.0, p.1))
  }

  /** `filepath.Join(a, b)`, without the lexical clean-up Go applies afterwards:
      an empty operand is dropped, otherwise the two are joined with `/`. */
  function Join(a: string, b: string): (r: string)
    ensures a != "" && b != "" ==> r == a + "/" + b
    ensures a == "" ==> r == b
    ensures b == "" ==> r == a
  {
    if a == "" then b else if b == "" then a else a + "/" + b
  }

  /** Removes every trailing occurrence of `c`. */
  function TrimTrailing(s: string, c: char): (r: string)
    ensures r == "" || r[|r| - 1] != c
    ensures |r| <= |s| && r == s[..|r|]
    decreases |s|
  {
    if |s| > 0 && s[|s| - 1] == c then TrimTrailing(s[..|s| - 1], c) else s
  }

  /** `filepath.Base`: the last element of a slash-separated path, trailing
      slashes ignored; "." for the empty path and "/" for a path of slashes. */
  function Base(p: string): (r: string)
    ensures r != ""
    ensures r == "/" || '/' !in r
  {
    if p == "" then "."
    else
      var q := TrimTrailing(p, '/');
      if q == "" then "/"
      else
        SplitLastNonEmpty(q, '/');
        LastPiece(q, '/')
  }

  /** `filepath.Join(a, b, c)`. */
  function Join3(a: string, b: string, c: string): string {
    Join(Join(a, b), c)
  }

  /** The first non-empty candidate, or "" when every candidate is empty: the
      shape of a search loop that returns on its first hit. */
  function FirstNonEmpty(cands: seq<string>): (r: string)
    ensures r == "" <==> forall i :: 0 <= i < |cands| ==> cands[i] == ""
    ensures r != "" ==> exists i :: 0 <= i < |cands| && cands[i] == r && forall j :: 0 <= j < i ==> cands[j] == ""
  {
    if |cands| == 0 then ""
    else if cands[0] != "" then cands[0]
    else
      var r := FirstNonEmpty(cands[1..]);
      assert forall i :: 1 <= i < |cands| ==> cands[i] == cands[1..][i - 1];
      if r != "" then
        var i :| 0 <= i < |cands| - 1 && cands[1..][i] == r && forall j :: 0 <= j < i ==> cands[1..][j] == "";
        assert cands[i + 1] == r;
        r
      else r
  }

  /** The search stops at the first hit: a non-empty candidate preceded only by empty ones is the answer. */
  lemma {:induction false} FirstNonEmptyAt(cands: seq<string>, i: nat)
    requires i < |cands| && cands[i] != ""
    requires forall j :: 0 <= j < i ==> cands[j] == ""
    ensures FirstNonEmpty(cands) == cands[i]
  {
    var r := FirstNonEmpty(cands);
    var k :| 0 <= k < |cands| && cands[k] == r && forall j :: 0 <= j < k ==> cands[j] == "";
    assert k == i;
  }
}
