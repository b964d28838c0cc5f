/** Shared vocabulary of the judge core: paths, verdicts, results, errors,
    file bindings and the platform configuration the core reads. */
module Common {

  datatype Option<T> = None | Some(value: T)

  /** A JavaScript exception, kept apart by the error classes the core throws. */
  datatype Error =
    | SystemError(message: string)
    | CompileError(message: string)
    | TestCaseError(message: string)
    | JudgeError(message: string)
    | FsError(message: string)      // a rejection of Node's `fs` module
    | PlainError(message: string)   // a bare `new Error(...)`

  /** The value of an async call: it resolves with a value or rejects. */
  datatype Outcome<T> = Done(value: T) | Threw(error: Error)

  /** The value of an async call that resolves with nothing. */
  datatype Status = Ok | Failed(error: Error)

  // ---------------------------------------------------------------------
  // Paths
  // ---------------------------------------------------------------------

  type Path = string

  /** `path.join(dir, name)` for components that need no normalisation. */
  function Join(dir: Path, name: string): (p: Path)
    ensures |p| == |dir| + 1 + |name|
    ensures p[..|dir| + 1] == dir + "/"
  {
    dir + "/" + name
  }

  /** `p` is `d` itself or lies somewhere inside directory `d`. */
  predicate Under(p: Path, d: Path) {
    p == d || (|d| < |p| && p[..|d| + 1] == d + "/")
  }

  lemma JoinIsUnder(dir: Path, name: string)
    ensures Under(Join(dir, name), dir)
  {
  }

  /** Two directories that both contain a path are nested one in the other. */
  lemma {:induction false} UnderBoth(p: Path, a: Path, b: Path)
    requires Under(p, a) && Under(p, b)
    ensures Under(a, b) || Under(b, a)
  {
    if p == a || p == b {
    } else if |a| < |b| {
      assert p[..|a| + 1] == a + "/" && p[..|b| + 1] == b + "/";
      assert b[..|a| + 1] == p[..|a| + 1];
    } else if |b| < |a| {
      assert a[..|b| + 1] == p[..|b| + 1];
    } else {
      assert a == p[..|a|] == b;
    }
  }

  /** Only a path holding a separator lies inside a directory other than itself. */
  lemma UnderHasSlash(d: Path, a: Path)
    requires Under(d, a) && d != a
    ensures '/' in d
  {
    assert d[|a|] == d[..|a| + 1][|a|] == '/';
  }

  /** The decimal rendering of a natural number (`String(n)`). */
  function Decimal(n: nat): (s: string)
    ensures |s| >= 1
    ensures forall i :: 0 <= i < |s| ==> '0' <= s[i] <= '9'
  {
    if n < 10 then [Digit(n)] else Decimal(n / 10) + [Digit(n % 10)]
  }

  function Digit(d: nat): (c: char)
    requires d < 10
    ensures '0' <= c <= '9'
    ensures c as int - '0' as int == d
  {
    "0123456789"[d]
  }

  /** Different numbers have different renderings, so a version number
      names one directory. */
  lemma {:induction false} DecimalInjective(m: nat, n: nat)
    requires Decimal(m) == Decimal(n)
    ensures m == n
  {
    if m >= 10 && n >= 10 {
      var a, b := Decimal(m), Decimal(n);
      assert a[..|a| - 1] == Decimal(m / 10) && b[..|b| - 1] == Decimal(n / 10);
      DecimalInjective(m / 10, n / 10);
      assert Digit(m % 10) == a[|a| - 1] == b[|b| - 1] == Digit(n % 10);
    } else if m < 10 && n < 10 {
      assert Digit(m) == Decimal(m)[0];
    }
  }

  /** The string of `n` copies of `c`. */
  function Repeat(c: char, n: nat): (s: string)
    ensures |s| == n
    ensures forall i :: 0 <= i < n ==> s[i] == c
  {
    if n == 0 then "" else [c] + Repeat(c, n - 1)
  }

  // ---------------------------------------------------------------------
  // Verdicts and results
  // ---------------------------------------------------------------------

  /** The verdicts the core names (the rest of the enumeration lives outside it). */
  datatype Verdict =
    | Accepted
    | WrongAnswer
    | RuntimeError
    | TimeLimitExceeded
    | IdlenessLimitExceeded
    | MemoryLimitExceeded
    | Point

  /** What one sandboxed run reports, plus the fields callers attach later. */
  datatype RunResult = RunResult(
    verdict: Verdict,
    time: int,
    memory: int,
    exitCode: int,
    message: Option<string>,
    stdout: Option<string>,
    checkerOut: Option<string>)

  /** `SubmissionType`: the role of a program. */
  datatype Role = SubmissionRole | CheckerRole | GeneratorRole | ValidatorRole | InteractorRole

  /** Bind-mount mode: `-R` read-only, `-B` read-write. */
  datatype Mode = ReadOnly | ReadWrite

  function Flag(m: Mode): string {
    match m
    case ReadOnly => "-R"
    case ReadWrite => "-B"
  }

  datatype FileBinding = FileBinding(src: Path, dst: string, mode: Mode)

  /** Platform configuration read from the environment at start-up. */
  datatype Config = Config(
    compilerUserId: int,
    compilerGroupId: int,
    runUserId: int,
    runGroupId: int,
    outputLimit: int,
    env: seq<string>,
    subPath: Path,
    problemPath: Path,
    nsjailPath: Path)

  // ---------------------------------------------------------------------
  // String.prototype.trim
  // ---------------------------------------------------------------------

  /** ECMAScript WhiteSpace and LineTerminator code points. */
  predicate IsSpace(c: char) {
    c == '\t' || c == '\n' || c == '\U{0B}' || c == '\U{0C}' || c == '\r' || c == ' '
    || c == '\U{A0}' || c == '\U{1680}' || ('\U{2000}' <= c <= '\U{200A}')
    || c == '\U{2028}' || c == '\U{2029}' || c == '\U{202F}' || c == '\U{205F}'
    || c == '\U{3000}' || c == '\U{FEFF}'
  }

  function TrimStart(s: string): (r: string)
    ensures |r| <= |s| && r == s[|s| - |r|..]
    ensures forall i :: 0 <= i < |s| - |r| ==> IsSpace(s[i])
    ensures r != [] ==> !IsSpace(r[0])
  {
    if s != [] && IsSpace(s[0]) then TrimStart(s[1..]) else s
  }

  function TrimEnd(s: string): (r: string)
    ensures |r| <= |s| && r == s[..|r|]
    ensures forall i :: |r| <= i < |s| ==> IsSpace(s[i])
    ensures r != [] ==> !IsSpace(r[|r| - 1])
  {
    if s != [] && IsSpace(s[|s| - 1]) then TrimEnd(s[..|s| - 1]) else s
  }

  /** `s.trim()`. */
  function Trim(s: string): string {
    TrimEnd(TrimStart(s))
  }

  /** Trimming keeps a contiguous slice and drops only white space. */
  lemma TrimSpec(s: string)
    ensures exists i, j ::
              && 0 <= i <= j <= |s| && Trim(s) == s[i..j]
              && (forall k :: 0 <= k < i ==> IsSpace(s[k]))
              && (forall k :: j <= k < |s| ==> IsSpace(s[k]))
  {
    var a := TrimStart(s);
    var b := TrimEnd(a);
    var i := |s| - |a|;
    var j := i + |b|;
    assert Trim(s) == s[i..j] by {
      assert a == s[i..];
      assert b == a[..|b|];
    }
    forall k | j <= k < |s| ensures IsSpace(s[k]) {
      assert s[k] == a[k - i];
    }
    assert 0 <= i <= j <= |s| && Trim(s) == s[i..j]
           && (forall k :: 0 <= k < i ==> IsSpace(s[k]))
           && (forall k :: j <= k < |s| ==> IsSpace(s[k]));
  }

  /** A trimmed string has no white space at either end. */
  lemma TrimEnds(s: string)
    requires Trim(s) != []
    ensures !IsSpace(Trim(s)[0]) && !IsSpace(Trim(s)[|Trim(s)| - 1])
  {
    var a := TrimStart(s);
    assert TrimEnd(a)[0] == a[0];
  }

  // ---------------------------------------------------------------------
  // Substring search (String.prototype.indexOf)
  // ---------------------------------------------------------------------

  /** `pat` occurs in `s` starting at index `i`. */
  predicate OccursAt(s: string, pat: string, i: int) {
    0 <= i && i + |pat| <= |s| && s[i..i + |pat|] == pat
  }

  /** The first occurrence of `pat` in `s` at or after `k`. */
  function IndexFrom(s: string, pat: string, k: nat): (r: Option<nat>)
    ensures r.Some? ==> k <= r.value && OccursAt(s, pat, r.value)
    ensures r.Some? ==> forall j :: k <= j < r.value ==> !OccursAt(s, pat, j)
    ensures r.None? ==> forall j :: k <= j ==> !OccursAt(s, pat, j)
    decreases |s| - k
  {
    if k + |pat| > |s| then None
    else if s[k..k + |pat|] == pat then Some(k)
    else IndexFrom(s, pat, k + 1)
  }

  /** `s.indexOf(pat)`, with -1 read as `None`. */
  function IndexOf(s: string, pat: string): Option<nat> {
    IndexFrom(s, pat, 0)
  }

  predicate Contains(s: string, pat: string) {
    IndexOf(s, pat).Some?
  }

  /** `s.replace(pat, rep)` with a string pattern: only the first occurrence
      is replaced. */
  function ReplaceFirst(s: string, pat: string, rep: string): string {
    match IndexOf(s, pat)
    case None => s
    case Some(i) => s[..i] + rep + s[i + |pat|..]
  }

  /** Replacing the first occurrence: the text before it is unchanged and
      free of `pat`, and the text after it is kept as it was, later
      occurrences included; without an occurrence nothing changes. */
  lemma ReplaceFirstSpec(s: string, pat: string, rep: string)
    ensures !Contains(s, pat) <==> (forall j :: !OccursAt(s, pat, j))
    ensures !Contains(s, pat) ==> ReplaceFirst(s, pat, rep) == s
    ensures Contains(s, pat) ==>
              var i := IndexOf(s, pat).value;
              && OccursAt(s, pat, i)
              && (forall j :: 0 <= j < i ==> !OccursAt(s, pat, j))
              && ReplaceFirst(s, pat, rep) == s[..i] + rep + s[i + |pat|..]
  {
  }

  /** When `pat` occurs, the replacement text appears in the result. */
  lemma ReplaceFirstInserts(s: string, pat: string, rep: string)
    requires Contains(s, pat)
    ensures Contains(ReplaceFirst(s, pat, rep), rep)
  {
    var i := IndexOf(s, pat).value;
    var r := ReplaceFirst(s, pat, rep);
    assert r[i..i + |rep|] == rep;
    assert OccursAt(r, rep, i);
    assert IndexFrom(r, rep, 0).Some?;
  }
}
