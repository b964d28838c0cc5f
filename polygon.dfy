/** The problem build pipeline: compile a problem's programs, then make,
    check and publish each of its test cases in turn, telling the caller
    what happens through a trace of notifications that ends at the first
    failure. */
module Polygon {
  import opened Common
  import opened Languages
  import opened Submissions
  import opened TestCases
  import opened Problems

  /** A program of the build task (`IBuildCode`). */
  datatype BuildCode = BuildCode(id: int, name: string, language: string, kind: string, version: int, fullname: string)

  /** How a test case's input is obtained (`TestcaseConfig`): a static file,
      a generator run, or a configuration of some other type. */
  datatype TestcaseConfig =
    | FileCase(filename: string, example: bool)
    | GeneratorCase(generator: int, args: seq<string>, example: bool)
    | OtherCase(kind: string)

  /** A test case configuration with its 1-based position. */
  datatype Indexed = Indexed(index: int, config: TestcaseConfig)

  /** `IBuildTask`. */
  datatype BuildTask = BuildTask(
    problem: string,
    version: nat,
    timeLimit: int,
    memoryLimit: int,
    testcases: seq<TestcaseConfig>,
    staticFiles: seq<string>,
    checker: BuildCode,
    validator: BuildCode,
    solution: BuildCode,
    generators: seq<BuildCode>)

  /** The notifications of the build (`PolygonMessage`, one constructor per
      action it is sent with); an ERROR carries the result it reports. */
  datatype Message =
    | StartMsg
    | CompileMsg(name: string, code: BuildCode)
    | CompileErrorMsg(message: string)
    | DownloadMsg(testcase: Indexed)
    | GenInMsg(testcase: Indexed, code: BuildCode)
    | ValidateMsg(testcase: Indexed, code: BuildCode)
    | GenAnsMsg(testcase: Indexed, code: BuildCode)
    | UploadMsg(testcase: Indexed)
    | ErrorMsg(result: RunResult, testcase: Indexed)
    | EndMsg

  /** Which `ensure…` step makes a program's artifact. */
  datatype Kind = CheckerKind | ValidatorKind | GeneratorKind

  /** The outcomes of the steps the build awaits, as functions of their
      arguments: `ensureChecker`, `ensureValidator` and `ensureGenerator`
      (by kind, full name and language), constructing the problem's
      validator, and a test case's `downloadIn`, `genIn`, `validate`,
      `genAns` and `uploadToMinio`. */
  datatype Steps = Steps(
    ensure: (Kind, string, string) -> Status,
    validator: Status,
    downloadIn: (TestCase, Path) -> Status,
    genIn: (TestCase, Submission, seq<string>) -> Outcome<RunResult>,
    validate: TestCase -> Outcome<RunResult>,
    genAns: (TestCase, Submission) -> Outcome<RunResult>,
    upload: (TestCase, string) -> Status)

  /** How a build ends: it resolves after END, it resolves early after
      COMPILE_ERROR or ERROR, or it rejects. */
  datatype End = Finished | Stopped | Rejected(error: Error)

  /** The notifications sent and how the build ended. */
  datatype BuildRun = BuildRun(trace: seq<Message>, end: End)

  /** A program to compile, with the step that makes it. */
  datatype Program = Program(kind: Kind, code: BuildCode)

  /** The compile notifications sent and the error that stopped compiling. */
  datatype CompileRun = CompileRun(msgs: seq<Message>, failure: Option<Error>)

  /** What the build does after a test case: go on, resolve, or reject. */
  datatype After = Proceed | Halted | Aborted(error: Error)

  /** The notifications about one test case and what comes after it. */
  datatype CaseRun = CaseRun(msgs: seq<Message>, after: After)

  predicate AboutTestcase(m: Message) {
    m.DownloadMsg? || m.GenInMsg? || m.ValidateMsg? || m.GenAnsMsg? || m.UploadMsg? || m.ErrorMsg?
  }

  /** Position of a test case notification within its test case. */
  function Phase(m: Message): nat {
    match m
    case ValidateMsg(_, _) => 1
    case GenAnsMsg(_, _) => 2
    case UploadMsg(_) => 3
    case _ => 0
  }

  /** `String(n)` for an integer. */
  function IntString(n: int): string {
    if n < 0 then "-" + Decimal(-n) else Decimal(n)
  }

  // ---------------------------------------------------------------------
  // Compiling
  // ---------------------------------------------------------------------

  /** The programs in the order the build compiles them: checker,
      validator, solution, then every generator in list order. */
  function Programs(task: BuildTask): (ps: seq<Program>)
    ensures |ps| == 3 + |task.generators|
    ensures ps[0] == Program(CheckerKind, task.checker)
    ensures ps[1] == Program(ValidatorKind, task.validator)
    ensures ps[2] == Program(GeneratorKind, task.solution)
    ensures forall j :: 0 <= j < |task.generators| ==> ps[3 + j] == Program(GeneratorKind, task.generators[j])
  {
    [Program(CheckerKind, task.checker), Program(ValidatorKind, task.validator), Program(GeneratorKind, task.solution)]
    + seq(|task.generators|, j requires 0 <= j < |task.generators| => Program(GeneratorKind, task.generators[j]))
  }

  /** The COMPILE notification for a program. */
  function Announce(p: Program): Message {
    CompileMsg(p.code.fullname, p.code)
  }

  /** The COMPILE notifications for a list of programs, in order. */
  function Announced(ps: seq<Program>): seq<Message> {
    seq(|ps|, j requires 0 <= j < |ps| => Announce(ps[j]))
  }

  /** The outcome of the `ensure…` step for a program. */
  function Ensured(steps: Steps, p: Program): Status {
    steps.ensure(p.kind, p.code.fullname, p.code.language)
  }

  /** Compiling the programs from position `k` on: each is announced, then
      ensured, and the first error stops the phase. */
  function CompileFrom(steps: Steps, ps: seq<Program>, k: nat): CompileRun
    requires k <= |ps|
    decreases |ps| - k
  {
    if k == |ps| then CompileRun([], None)
    else match Ensured(steps, ps[k])
      case Failed(e) => CompileRun([Announce(ps[k])], Some(e))
      case Ok => var rest := CompileFrom(steps, ps, k + 1);
                 CompileRun([Announce(ps[k])] + rest.msgs, rest.failure)
  }

  /** The compile phase announces a prefix of the programs in order; it
      fails exactly at the first program whose step fails, and it finishes
      only when every program's step succeeds. */
  lemma {:induction false} CompileFirstFailure(steps: Steps, ps: seq<Program>, k: nat)
    requires k <= |ps|
    ensures var c := CompileFrom(steps, ps, k);
            && k + |c.msgs| <= |ps|
            && c.msgs == Announced(ps[k..k + |c.msgs|])
            && (c.failure.None? ==> k + |c.msgs| == |ps|)
            && (c.failure.Some? ==> |c.msgs| >= 1 && Ensured(steps, ps[k + |c.msgs| - 1]) == Failed(c.failure.value))
            && (forall m :: k <= m < k + |c.msgs| && (c.failure.None? || m < k + |c.msgs| - 1) ==>
                  Ensured(steps, ps[m]) == Ok)
    decreases |ps| - k
  {
    if k < |ps| && Ensured(steps, ps[k]).Ok? {
      CompileFirstFailure(steps, ps, k + 1);
      var c, rest := CompileFrom(steps, ps, k), CompileFrom(steps, ps, k + 1);
      assert c.msgs == [Announce(ps[k])] + rest.msgs;
      assert Announced(ps[k..k + |c.msgs|]) == [Announce(ps[k])] + Announced(ps[k + 1..k + 1 + |rest.msgs|]);
    } else if k < |ps| {
      assert Announced(ps[k..k + 1]) == [Announce(ps[k])];
    }
  }

  /** `done` announces the first |done| programs, all of which compiled,
      and the phase goes on from there. */
  ghost predicate CompiledUpTo(steps: Steps, ps: seq<Program>, done: seq<Message>) {
    && |done| <= |ps|
    && CompileFrom(steps, ps, 0)
       == CompileRun(done + CompileFrom(steps, ps, |done|).msgs, CompileFrom(steps, ps, |done|).failure)
  }

  /** One more program: a failed step ends the phase right after its
      announcement; otherwise the phase goes on after it. */
  lemma CompileStep(steps: Steps, ps: seq<Program>, done: seq<Message>)
    requires CompiledUpTo(steps, ps, done) && |done| < |ps|
    ensures var k := |done|;
            var next := done + [Announce(ps[k])];
            && (Ensured(steps, ps[k]).Failed? ==>
                  CompileFrom(steps, ps, 0) == CompileRun(next, Some(Ensured(steps, ps[k]).error)))
            && (Ensured(steps, ps[k]).Ok? ==> CompiledUpTo(steps, ps, next))
  {
    var k := |done|;
    var rest := CompileFrom(steps, ps, k + 1);
    if Ensured(steps, ps[k]).Ok? {
      assert done + CompileFrom(steps, ps, k).msgs == done + [Announce(ps[k])] + rest.msgs;
    }
  }

  /** A compile failure: a CompileError is reported with one COMPILE_ERROR
      carrying its message and the build resolves; any other error
      rejects the build. */
  function CompileFailure(e: Error): BuildRun {
    if e.CompileError? then BuildRun([CompileErrorMsg(e.message)], Stopped)
    else BuildRun([], Rejected(e))
  }

  // ---------------------------------------------------------------------
  // Test cases
  // ---------------------------------------------------------------------

  /** `generators.find(g => g.id === id)`: the first generator with that id. */
  function FindGenerator(gens: seq<BuildCode>, id: int): (r: Option<BuildCode>)
    ensures r.None? <==> forall j :: 0 <= j < |gens| ==> gens[j].id != id
    ensures r.Some? ==> exists j :: 0 <= j < |gens| && gens[j] == r.value && (forall m :: 0 <= m < j ==> gens[m].id != id)
    ensures r.Some? ==> r.value.id == id
  {
    if gens == [] then None
    else if gens[0].id == id then Some(gens[0])
    else
      var r := FindGenerator(gens[1..], id);
      if r.Some? then
        var j :| 0 <= j < |gens| - 1 && gens[1..][j] == r.value && (forall m :: 0 <= m < j ==> gens[1..][m].id != id);
        assert gens[j + 1] == r.value && forall m :: 0 <= m < j + 1 ==> gens[m].id != id;
        r
      else r
  }

  /** Test case `i` of the task: `<i+1>` in the version's directory. */
  function CaseFile(cfg: Config, task: BuildTask, p: Problem, i: nat): TestCase {
    p.Testcase(cfg, task.version, Decimal(i + 1))
  }

  /** A result that is not Accepted ends the build with an ERROR carrying it. */
  function Verdicted(msgs: seq<Message>, out: Outcome<RunResult>, ix: Indexed, next: CaseRun): CaseRun {
    match out
    case Threw(e) => CaseRun(msgs, Aborted(e))
    case Done(r) => if r.verdict != Accepted then CaseRun(msgs + [ErrorMsg(r, ix)], Halted) else next
  }

  /** Validating, answering and uploading a test case whose input is in place. */
  function Checked(steps: Steps, task: BuildTask, p: Problem, solution: Submission, ix: Indexed, tc: TestCase,
                   msgs: seq<Message>): CaseRun
  {
    var m1 := msgs + [ValidateMsg(ix, task.validator)];
    Verdicted(m1, steps.validate(tc), ix,
      var m2 := m1 + [GenAnsMsg(ix, task.solution)];
      Verdicted(m2, steps.genAns(tc, solution), ix,
        var m3 := m2 + [UploadMsg(ix)];
        match steps.upload(tc, p.MinioTestcasesBasePath(task.version))
        case Failed(e) => CaseRun(m3, Aborted(e))
        case Ok => CaseRun(m3, Proceed)))
  }

  /** One test case: its input is downloaded or generated, then validated,
      answered and uploaded; an unknown generator id or type rejects the
      build before anything is sent for that test case. */
  function CaseSpec(table: map<string, LangConfig>, cfg: Config, steps: Steps, task: BuildTask, p: Problem,
                    solution: Submission, i: nat): CaseRun
    requires i < |task.testcases|
  {
    var config := task.testcases[i];
    var ix := Indexed(i + 1, config);
    var tc := CaseFile(cfg, task, p, i);
    match config
    case FileCase(filename, _) =>
      var m0 := [DownloadMsg(ix)];
      (match steps.downloadIn(tc, Join(Join(task.problem, "static"), filename))
       case Failed(e) => CaseRun(m0, Aborted(e))
       case Ok => Checked(steps, task, p, solution, ix, tc, m0))
    case GeneratorCase(g, args, _) =>
      (match FindGenerator(task.generators, g)
       case None => CaseRun([], Aborted(PlainError("Unexpected generator " + IntString(g) + " at " + Decimal(i) + "-th testcase")))
       case Some(code) =>
         var m0 := [GenInMsg(ix, code)];
         match GeneratorOf(table, cfg, p, code.fullname, code.language)
         case Threw(e) => CaseRun(m0, Aborted(e))
         case Done(gen) => Verdicted(m0, steps.genIn(tc, gen, args), ix, Checked(steps, task, p, solution, ix, tc, m0)))
    case OtherCase(kind) =>
      CaseRun([], Aborted(PlainError("Unexpected testcase type " + kind + " at " + Decimal(i) + "-th testcase")))
  }

  /** The test cases from position `k` on, then END. */
  function CasesFrom(table: map<string, LangConfig>, cfg: Config, steps: Steps, task: BuildTask, p: Problem,
                     solution: Submission, k: nat): BuildRun
    requires k <= |task.testcases|
    decreases |task.testcases| - k
  {
    if k == |task.testcases| then BuildRun([EndMsg], Finished)
    else
      var c := CaseSpec(table, cfg, steps, task, p, solution, k);
      match c.after
      case Halted => BuildRun(c.msgs, Stopped)
      case Aborted(e) => BuildRun(c.msgs, Rejected(e))
      case Proceed => var rest := CasesFrom(table, cfg, steps, task, p, solution, k + 1);
                      BuildRun(c.msgs + rest.trace, rest.end)
  }

  /** The whole build: START, the compile phase, then (once the validator
      and the solution are made) the test cases. */
  function BuildSpec(table: map<string, LangConfig>, cfg: Config, steps: Steps, task: BuildTask): BuildRun {
    var c := CompileFrom(steps, Programs(task), 0);
    var a := AfterCompile(table, cfg, steps, task, c.failure);
    BuildRun([StartMsg] + c.msgs + a.trace, a.end)
  }

  /** What follows the compile phase: the compile failure, or (once the
      validator and the solution are made) the test cases. */
  function AfterCompile(table: map<string, LangConfig>, cfg: Config, steps: Steps, task: BuildTask,
                        failure: Option<Error>): BuildRun {
    var p := NewProblem(task.problem, None);
    if failure.Some? then CompileFailure(failure.value)
    else if steps.validator.Failed? then BuildRun([], Rejected(steps.validator.error))
    else match GeneratorOf(table, cfg, p, task.solution.fullname, task.solution.language)
      case Threw(e) => BuildRun([], Rejected(e))
      case Done(solution) => CasesFrom(table, cfg, steps, task, p, solution, 0)
  }

  // ---------------------------------------------------------------------
  // What the trace says
  // ---------------------------------------------------------------------

  /** The shape of one test case's notifications: at most four, all about
      `ix`, in phase order, an ERROR only last and exactly when the run
      halts, and four ending in UPLOAD when the build goes on. */
  predicate Shaped(c: CaseRun, ix: Indexed) {
    && |c.msgs| <= 4
    && AllAbout(c.msgs, ix)
    && (forall j :: 0 <= j < |c.msgs| && !c.msgs[j].ErrorMsg? ==> Phase(c.msgs[j]) == j)
    && (forall j :: 0 <= j < |c.msgs| && c.msgs[j].ErrorMsg? ==> j == |c.msgs| - 1 && c.after.Halted?)
    && (c.after.Halted? ==> |c.msgs| > 0 && c.msgs[|c.msgs| - 1].ErrorMsg?)
    && (c.after.Proceed? ==> |c.msgs| == 4 && c.msgs[3] == UploadMsg(ix))
  }

  /** Validating, answering and uploading after a first notification of
      phase 0 sends at most the next three phases in order, all about the
      same test case, with an ERROR only at the end of a halted run. */
  lemma CheckedShape(steps: Steps, task: BuildTask, p: Problem, solution: Submission, ix: Indexed, tc: TestCase,
                     first: Message)
    requires AboutTestcase(first) && !first.ErrorMsg? && Phase(first) == 0 && first.testcase == ix
    ensures var c := Checked(steps, task, p, solution, ix, tc, [first]);
            && 2 <= |c.msgs| && c.msgs[0] == first && Shaped(c, ix)
  {
  }

  /** A first notification of phase 0 that fails, or whose result is not
      Accepted, keeps the shape of a test case. */
  lemma FirstShape(first: Message, out: Outcome<RunResult>, ix: Indexed, next: CaseRun, e: Error)
    requires AboutTestcase(first) && !first.ErrorMsg? && Phase(first) == 0 && first.testcase == ix
    requires Shaped(next, ix)
    ensures Shaped(CaseRun([first], Aborted(e)), ix)
    ensures Shaped(Verdicted([first], out, ix, next), ix)
  {
  }

  /** One test case's notifications: all carry its 1-based index and its
      configuration, in phase order (DOWNLOAD or GEN_IN, then VALIDATE,
      GEN_ANS and UPLOAD); a non-Accepted result adds one ERROR and stops;
      only a test case that uploads lets the build go on. */
  lemma CaseShape(table: map<string, LangConfig>, cfg: Config, steps: Steps, task: BuildTask, p: Problem,
                  solution: Submission, i: nat)
    requires i < |task.testcases|
    ensures Shaped(CaseSpec(table, cfg, steps, task, p, solution, i), Indexed(i + 1, task.testcases[i]))
  {
    var config := task.testcases[i];
    var ix := Indexed(i + 1, config);
    var tc := CaseFile(cfg, task, p, i);
    match config
    case FileCase(filename, _) =>
      CheckedShape(steps, task, p, solution, ix, tc, DownloadMsg(ix));
      var out := steps.downloadIn(tc, Join(Join(task.problem, "static"), filename));
      if out.Failed? {
        FirstShape(DownloadMsg(ix), Threw(out.error), ix, Checked(steps, task, p, solution, ix, tc, [DownloadMsg(ix)]),
                   out.error);
      }
    case GeneratorCase(g, args, _) =>
      var found := FindGenerator(task.generators, g);
      if found.Some? {
        var m0 := GenInMsg(ix, found.value);
        var next := Checked(steps, task, p, solution, ix, tc, [m0]);
        CheckedShape(steps, task, p, solution, ix, tc, m0);
        match GeneratorOf(table, cfg, p, found.value.fullname, found.value.language)
        case Threw(e) => FirstShape(m0, Threw(e), ix, next, e);
        case Done(gen) => FirstShape(m0, steps.genIn(tc, gen, args), ix, next, PlainError(""));
      }
    case OtherCase(_) =>
  }

  /** How one test case starts: DOWNLOAD for a file, GEN_IN with the first
      generator whose id matches; an unknown generator or type sends
      nothing and rejects the build. */
  lemma CaseStart(table: map<string, LangConfig>, cfg: Config, steps: Steps, task: BuildTask, p: Problem,
                  solution: Submission, i: nat)
    requires i < |task.testcases|
    ensures var c := CaseSpec(table, cfg, steps, task, p, solution, i);
            var ix := Indexed(i + 1, task.testcases[i]);
            && (task.testcases[i].FileCase? ==> |c.msgs| > 0 && c.msgs[0] == DownloadMsg(ix))
            && (task.testcases[i].GeneratorCase? ==>
                  var found := FindGenerator(task.generators, task.testcases[i].generator);
                  && (found.None? ==> c == CaseRun([], Aborted(PlainError("Unexpected generator " + IntString(task.testcases[i].generator)
                                                                          + " at " + Decimal(i) + "-th testcase"))))
                  && (found.Some? ==> |c.msgs| > 0 && c.msgs[0] == GenInMsg(ix, found.value)))
            && (task.testcases[i].OtherCase? ==>
                  c == CaseRun([], Aborted(PlainError("Unexpected testcase type " + task.testcases[i].kind
                                                      + " at " + Decimal(i) + "-th testcase"))))
  {
    var config := task.testcases[i];
    var ix := Indexed(i + 1, config);
    var tc := CaseFile(cfg, task, p, i);
    match config
    case FileCase(filename, _) =>
      CheckedShape(steps, task, p, solution, ix, tc, DownloadMsg(ix));
    case GeneratorCase(g, args, _) =>
      var found := FindGenerator(task.generators, g);
      if found.Some? {
        CheckedShape(steps, task, p, solution, ix, tc, GenInMsg(ix, found.value));
      }
    case OtherCase(_) =>
  }

  /** The ending rules of a trace of test case notifications: END last,
      and exactly when the build finishes; an ERROR only last, in a build
      that stopped, and a stopped build ends with one. */
  predicate EndsWell(t: seq<Message>, end: End) {
    && (forall j :: 0 <= j < |t| ==> AboutTestcase(t[j]) || t[j].EndMsg?)
    && (forall j :: 0 <= j < |t| ==> (t[j].EndMsg? <==> j == |t| - 1 && end.Finished?))
    && (end.Finished? ==> |t| > 0)
    && (forall j :: 0 <= j < |t| && t[j].ErrorMsg? ==> j == |t| - 1 && end.Stopped?)
    && (end.Stopped? ==> |t| > 0 && t[|t| - 1].ErrorMsg?)
  }

  /** Test case notifications without an ERROR in front keep the ending rules. */
  lemma EndsWellAppend(msgs: seq<Message>, rest: seq<Message>, end: End)
    requires forall j :: 0 <= j < |msgs| ==> AboutTestcase(msgs[j]) && !msgs[j].ErrorMsg?
    requires EndsWell(rest, end)
    ensures EndsWell(msgs + rest, end)
  {
    var t := msgs + rest;
    assert forall j :: |msgs| <= j < |t| ==> t[j] == rest[j - |msgs|];
  }

  /** The test cases from `k` on: their notifications, then END exactly
      when every one of them went through; an ERROR only as the last
      notification of a build that stopped. */
  lemma {:induction false} CasesEnding(table: map<string, LangConfig>, cfg: Config, steps: Steps, task: BuildTask,
                                       p: Problem, solution: Submission, k: nat)
    requires k <= |task.testcases|
    ensures var r := CasesFrom(table, cfg, steps, task, p, solution, k);
            EndsWell(r.trace, r.end)
    decreases |task.testcases| - k
  {
    if k < |task.testcases| {
      CaseShape(table, cfg, steps, task, p, solution, k);
      var c := CaseSpec(table, cfg, steps, task, p, solution, k);
      if c.after.Proceed? {
        CasesEnding(table, cfg, steps, task, p, solution, k + 1);
        var rest := CasesFrom(table, cfg, steps, task, p, solution, k + 1);
        EndsWellAppend(c.msgs, rest.trace, rest.end);
      }
    }
  }

  /** Every test case notification in `t` names a test case at or after
      position `lo` (1-based) together with that test case's configuration. */
  predicate IndexedFrom(t: seq<Message>, testcases: seq<TestcaseConfig>, lo: int) {
    forall j :: 0 <= j < |t| && AboutTestcase(t[j]) ==>
      && lo <= t[j].testcase.index && 1 <= t[j].testcase.index <= |testcases|
      && t[j].testcase.config == testcases[t[j].testcase.index - 1]
  }

  /** The test case notifications in `t` never go back to an earlier test case. */
  predicate Nondecreasing(t: seq<Message>) {
    forall j1, j2 :: 0 <= j1 < j2 < |t| && AboutTestcase(t[j1]) && AboutTestcase(t[j2]) ==>
      t[j1].testcase.index <= t[j2].testcase.index
  }

  /** Every notification in `msgs` is about the test case `ix`. */
  predicate AllAbout(msgs: seq<Message>, ix: Indexed) {
    forall j :: 0 <= j < |msgs| ==> AboutTestcase(msgs[j]) && msgs[j].testcase == ix
  }

  lemma IndexedAppend(a: seq<Message>, b: seq<Message>, testcases: seq<TestcaseConfig>, n: int)
    requires 1 <= n <= |testcases|
    requires AllAbout(a, Indexed(n, testcases[n - 1]))
    requires IndexedFrom(b, testcases, n + 1)
    ensures IndexedFrom(a + b, testcases, n)
  {
    var t := a + b;
    assert forall j :: |a| <= j < |t| ==> t[j] == b[j - |a|];
  }

  lemma NondecreasingAppend(a: seq<Message>, b: seq<Message>, testcases: seq<TestcaseConfig>, n: int)
    requires 1 <= n <= |testcases|
    requires AllAbout(a, Indexed(n, testcases[n - 1]))
    requires IndexedFrom(b, testcases, n + 1) && Nondecreasing(b)
    ensures Nondecreasing(a + b)
  {
    var t := a + b;
    forall j1, j2 | 0 <= j1 < j2 < |t| && AboutTestcase(t[j1]) && AboutTestcase(t[j2])
      ensures t[j1].testcase.index <= t[j2].testcase.index
    {
      if j1 >= |a| {
        assert t[j1] == b[j1 - |a|] && t[j2] == b[j2 - |a|];
      } else if j2 >= |a| {
        assert t[j1] == a[j1] && t[j2] == b[j2 - |a|];
      }
    }
  }

  /** One step of the test case loop: a test case that uploads is followed
      by the remaining ones; any other result ends the trace with it. */
  lemma CasesStep(table: map<string, LangConfig>, cfg: Config, steps: Steps, task: BuildTask,
                  p: Problem, solution: Submission, k: nat)
    requires k < |task.testcases|
    ensures var c := CaseSpec(table, cfg, steps, task, p, solution, k);
            var r := CasesFrom(table, cfg, steps, task, p, solution, k);
            && (c.after.Proceed? ==>
                  r == BuildRun(c.msgs + CasesFrom(table, cfg, steps, task, p, solution, k + 1).trace,
                                CasesFrom(table, cfg, steps, task, p, solution, k + 1).end))
            && (!c.after.Proceed? ==> r.trace == c.msgs && !r.end.Finished?)
  {
  }

  /** A test case's notifications, alone or followed by later ones that
      are indexed and in order, are indexed and in order. */
  lemma IndexedCase(a: seq<Message>, rest: seq<Message>, t: seq<Message>, testcases: seq<TestcaseConfig>, n: int)
    requires 1 <= n <= |testcases|
    requires AllAbout(a, Indexed(n, testcases[n - 1]))
    requires t == a || (t == a + rest && IndexedFrom(rest, testcases, n + 1) && Nondecreasing(rest))
    ensures IndexedFrom(t, testcases, n) && Nondecreasing(t)
  {
    if t == a {
      assert t == a + [];
      IndexedAppend(a, [], testcases, n);
      NondecreasingAppend(a, [], testcases, n);
    } else {
      IndexedAppend(a, rest, testcases, n);
      NondecreasingAppend(a, rest, testcases, n);
    }
  }

  /** The test case notifications from `k` on carry indices between k+1
      and the number of test cases, each with its own configuration, and
      never go back to an earlier test case. */
  lemma {:induction false} CasesIndexed(table: map<string, LangConfig>, cfg: Config, steps: Steps, task: BuildTask,
                                        p: Problem, solution: Submission, k: nat)
    requires k <= |task.testcases|
    ensures var t := CasesFrom(table, cfg, steps, task, p, solution, k).trace;
            IndexedFrom(t, task.testcases, k + 1) && Nondecreasing(t)
    decreases |task.testcases| - k
  {
    if k < |task.testcases| {
      CaseShape(table, cfg, steps, task, p, solution, k);
      CasesStep(table, cfg, steps, task, p, solution, k);
      var c := CaseSpec(table, cfg, steps, task, p, solution, k);
      var t := CasesFrom(table, cfg, steps, task, p, solution, k).trace;
      if c.after.Proceed? {
        CasesIndexed(table, cfg, steps, task, p, solution, k + 1);
        var rest := CasesFrom(table, cfg, steps, task, p, solution, k + 1).trace;
        IndexedCase(c.msgs, rest, t, task.testcases, k + 1);
      } else {
        IndexedCase(c.msgs, [], t, task.testcases, k + 1);
      }
    }
  }

  /** The test cases from `k` on finish only when each of them went
      through and was uploaded. */
  lemma {:induction false} CasesComplete(table: map<string, LangConfig>, cfg: Config, steps: Steps, task: BuildTask,
                                         p: Problem, solution: Submission, k: nat)
    requires k <= |task.testcases|
    ensures var r := CasesFrom(table, cfg, steps, task, p, solution, k);
            r.end.Finished? ==>
              forall i :: k <= i < |task.testcases| ==>
                && CaseSpec(table, cfg, steps, task, p, solution, i).after.Proceed?
                && UploadMsg(Indexed(i + 1, task.testcases[i])) in r.trace
    decreases |task.testcases| - k
  {
    var r := CasesFrom(table, cfg, steps, task, p, solution, k);
    if k < |task.testcases| && r.end.Finished? {
      CaseShape(table, cfg, steps, task, p, solution, k);
      var c := CaseSpec(table, cfg, steps, task, p, solution, k);
      assert c.after.Proceed?;
      CasesComplete(table, cfg, steps, task, p, solution, k + 1);
      var rest := CasesFrom(table, cfg, steps, task, p, solution, k + 1);
      assert r.trace == c.msgs + rest.trace && rest.end.Finished?;
      forall i | k <= i < |task.testcases|
        ensures CaseSpec(table, cfg, steps, task, p, solution, i).after.Proceed?
        ensures UploadMsg(Indexed(i + 1, task.testcases[i])) in r.trace
      {
        if i == k {
          assert c.msgs[3] in r.trace;
        } else {
          assert UploadMsg(Indexed(i + 1, task.testcases[i])) in rest.trace;
        }
      }
    }
  }

  /** Every notification after START up to the end of the compile phase
      is a COMPILE, for the programs in order. */
  lemma CompileHead(steps: Steps, task: BuildTask)
    ensures var c := CompileFrom(steps, Programs(task), 0);
            var head := [StartMsg] + c.msgs;
            && |c.msgs| <= |Programs(task)|
            && head[1..] == Announced(Programs(task)[..|c.msgs|])
            && forall j :: 1 <= j < |head| ==> head[j].CompileMsg?
  {
    CompileFirstFailure(steps, Programs(task), 0);
  }

  /** What follows the compile phase: END last, and only when the build
      finishes; COMPILE_ERROR exactly for a CompileError, alone; ERROR
      only last, when the build stops. */
  lemma AfterCompileShape(table: map<string, LangConfig>, cfg: Config, steps: Steps, task: BuildTask,
                          failure: Option<Error>)
    ensures var a := AfterCompile(table, cfg, steps, task, failure);
            var t := a.trace;
            && (forall j :: 0 <= j < |t| ==> AboutTestcase(t[j]) || t[j].EndMsg? || t[j].CompileErrorMsg?)
            && (forall j :: 0 <= j < |t| ==> (t[j].EndMsg? <==> j == |t| - 1 && a.end.Finished?))
            && (a.end.Finished? ==> |t| > 0)
            && (forall j :: 0 <= j < |t| && t[j].ErrorMsg? ==> j == |t| - 1 && a.end.Stopped?)
            && (forall j :: 0 <= j < |t| ==>
                  (t[j].CompileErrorMsg? <==> j == |t| - 1 && failure.Some? && failure.value.CompileError?))
            && (failure.Some? && failure.value.CompileError? ==>
                  t == [CompileErrorMsg(failure.value.message)] && a.end == Stopped)
            && (failure.Some? && !failure.value.CompileError? ==> t == [] && a.end == Rejected(failure.value))
            && (a.end.Stopped? ==> |t| > 0 && (t[|t| - 1].ErrorMsg? || t[|t| - 1].CompileErrorMsg?))
  {
    var p := NewProblem(task.problem, None);
    if failure.None? && steps.validator.Ok? {
      var made := GeneratorOf(table, cfg, p, task.solution.fullname, task.solution.language);
      if made.Done? {
        CasesEnding(table, cfg, steps, task, p, made.value, 0);
      }
    }
  }

  /** The test case notifications after the compile phase carry their
      index and configuration and never go back. */
  lemma AfterCompileIndexed(table: map<string, LangConfig>, cfg: Config, steps: Steps, task: BuildTask,
                            failure: Option<Error>)
    ensures var t := AfterCompile(table, cfg, steps, task, failure).trace;
            IndexedFrom(t, task.testcases, 1) && Nondecreasing(t)
  {
    var p := NewProblem(task.problem, None);
    if failure.None? && steps.validator.Ok? {
      var made := GeneratorOf(table, cfg, p, task.solution.fullname, task.solution.language);
      if made.Done? {
        CasesIndexed(table, cfg, steps, task, p, made.value, 0);
      }
    }
  }

  /** The compile phase sends only COMPILE notifications. */
  lemma CompileQuiet(steps: Steps, task: BuildTask)
    ensures forall j :: 0 <= j < |CompileFrom(steps, Programs(task), 0).msgs| ==>
              CompileFrom(steps, Programs(task), 0).msgs[j].CompileMsg?
  {
    CompileHead(steps, task);
    var msgs := CompileFrom(steps, Programs(task), 0).msgs;
    assert forall j :: 0 <= j < |msgs| ==> msgs[j] == ([StartMsg] + msgs)[j + 1];
  }

  /** After the compile phase no COMPILE is sent, and after a compile
      failure no test case is touched. */
  lemma AfterCompileQuiet(table: map<string, LangConfig>, cfg: Config, steps: Steps, task: BuildTask,
                          failure: Option<Error>)
    ensures var t := AfterCompile(table, cfg, steps, task, failure).trace;
            && (forall j :: 0 <= j < |t| ==> !t[j].CompileMsg?)
            && (failure.Some? ==> forall j :: 0 <= j < |t| ==> !AboutTestcase(t[j]))
  {
    AfterCompileShape(table, cfg, steps, task, failure);
  }

  /** START and COMPILE notifications, followed by others, split into the
      two phases: no COMPILE after the first part, and no test case at all
      when the second part touches none. */
  lemma PhasesApart(msgs: seq<Message>, tail: seq<Message>, failed: bool)
    requires forall j :: 0 <= j < |msgs| ==> msgs[j].CompileMsg?
    requires forall j :: 0 <= j < |tail| ==> !tail[j].CompileMsg?
    requires failed ==> forall j :: 0 <= j < |tail| ==> !AboutTestcase(tail[j])
    ensures var head := [StartMsg] + msgs;
            var t := head + tail;
            && t[..|head|] == head
            && (forall j :: |head| <= j < |t| ==> !t[j].CompileMsg?)
            && (failed ==> forall j :: 0 <= j < |t| ==> !AboutTestcase(t[j]))
  {
    var head := [StartMsg] + msgs;
    var t := head + tail;
    assert forall j :: 1 <= j < |head| ==> t[j] == msgs[j - 1];
    assert forall j :: |head| <= j < |t| ==> t[j] == tail[j - |head|];
  }

  /** START and COMPILE notifications in front keep the indexing rules. */
  lemma QuietPrefix(msgs: seq<Message>, tail: seq<Message>, testcases: seq<TestcaseConfig>)
    requires forall j :: 0 <= j < |msgs| ==> msgs[j].CompileMsg?
    requires IndexedFrom(tail, testcases, 1) && Nondecreasing(tail)
    ensures IndexedFrom([StartMsg] + msgs + tail, testcases, 1) && Nondecreasing([StartMsg] + msgs + tail)
  {
    var head := [StartMsg] + msgs;
    var t := head + tail;
    assert forall j :: 1 <= j < |head| ==> t[j] == msgs[j - 1];
    assert forall j :: 0 <= j < |t| && AboutTestcase(t[j]) ==> j >= |head| && t[j] == tail[j - |head|];
  }

  /** START and the COMPILE notifications, followed by what comes after
      the compile phase, keep the ending rules of the latter. */
  lemma JoinTrace(head: seq<Message>, tail: seq<Message>, end: End, compileError: bool)
    requires |head| > 0 && head[0] == StartMsg && forall j :: 1 <= j < |head| ==> head[j].CompileMsg?
    requires forall j :: 0 <= j < |tail| ==> AboutTestcase(tail[j]) || tail[j].EndMsg? || tail[j].CompileErrorMsg?
    requires forall j :: 0 <= j < |tail| ==> (tail[j].EndMsg? <==> j == |tail| - 1 && end.Finished?)
    requires end.Finished? ==> |tail| > 0
    requires forall j :: 0 <= j < |tail| && tail[j].ErrorMsg? ==> j == |tail| - 1 && end.Stopped?
    requires forall j :: 0 <= j < |tail| ==> (tail[j].CompileErrorMsg? <==> j == |tail| - 1 && compileError)
    requires compileError ==> |tail| > 0
    requires end.Stopped? ==> |tail| > 0 && (tail[|tail| - 1].ErrorMsg? || tail[|tail| - 1].CompileErrorMsg?)
    ensures var t := head + tail;
            && t[0] == StartMsg
            && (forall j :: 0 < j < |t| ==> !t[j].StartMsg?)
            && (forall j :: 0 <= j < |t| ==> (t[j].EndMsg? <==> j == |t| - 1 && end.Finished?))
            && (forall j :: 0 <= j < |t| && t[j].ErrorMsg? ==> j == |t| - 1 && end.Stopped?)
            && (forall j :: 0 <= j < |t| ==> (t[j].CompileErrorMsg? <==> j == |t| - 1 && compileError))
            && (end.Stopped? ==> t[|t| - 1].ErrorMsg? || t[|t| - 1].CompileErrorMsg?)
            && (|tail| > 0 ==> t[|t| - 1] == tail[|tail| - 1])
  {
    var t := head + tail;
    assert forall j :: 0 <= j < |head| ==> t[j] == head[j];
    assert forall j :: |head| <= j < |t| ==> t[j] == tail[j - |head|];
  }

  /** The build's trace: START first and only first; END last, and sent
      exactly when the build finishes; COMPILE_ERROR last and sent exactly
      when a program fails to compile with a CompileError, which stops the
      build; an ERROR only last, in a build that stopped; any other compile
      error rejects the build; a build that stops early ends with ERROR or
      COMPILE_ERROR. */
  lemma BuildTrace(table: map<string, LangConfig>, cfg: Config, steps: Steps, task: BuildTask)
    ensures var r := BuildSpec(table, cfg, steps, task);
            var t := r.trace;
            var c := CompileFrom(steps, Programs(task), 0);
            && |t| > 0 && t[0] == StartMsg
            && (forall j :: 0 < j < |t| ==> !t[j].StartMsg?)
            && (forall j :: 0 <= j < |t| ==> (t[j].EndMsg? <==> j == |t| - 1 && r.end.Finished?))
            && (forall j :: 0 <= j < |t| && t[j].ErrorMsg? ==> j == |t| - 1 && r.end.Stopped?)
            && (forall j :: 0 <= j < |t| ==>
                  (t[j].CompileErrorMsg? <==> j == |t| - 1 && c.failure.Some? && c.failure.value.CompileError?))
            && (c.failure.Some? && c.failure.value.CompileError? ==>
                  t[|t| - 1] == CompileErrorMsg(c.failure.value.message) && r.end == Stopped)
            && (c.failure.Some? && !c.failure.value.CompileError? ==> r.end == Rejected(c.failure.value))
            && (r.end.Stopped? ==> t[|t| - 1].ErrorMsg? || t[|t| - 1].CompileErrorMsg?)
  {
    var c := CompileFrom(steps, Programs(task), 0);
    var a := AfterCompile(table, cfg, steps, task, c.failure);
    CompileHead(steps, task);
    AfterCompileShape(table, cfg, steps, task, c.failure);
    JoinTrace([StartMsg] + c.msgs, a.trace, a.end, c.failure.Some? && c.failure.value.CompileError?);
  }

  /** The build compiles the programs in order (checker, validator,
      solution, generators), announcing each before its step; it sends no
      COMPILE afterwards; compiling stops at the first failing step, and a
      test case is only touched once every program compiled. */
  lemma BuildCompileOrder(table: map<string, LangConfig>, cfg: Config, steps: Steps, task: BuildTask)
    ensures var t := BuildSpec(table, cfg, steps, task).trace;
            var ps := Programs(task);
            var c := CompileFrom(steps, ps, 0);
            var n := |c.msgs|;
            && n <= |ps| && 1 + n <= |t|
            && t[1..1 + n] == Announced(ps[..n])
            && (forall j :: 1 + n <= j < |t| ==> !t[j].CompileMsg?)
            && (c.failure.None? <==> forall m :: 0 <= m < |ps| ==> Ensured(steps, ps[m]) == Ok)
            && (c.failure.None? ==> n == |ps|)
            && (c.failure.Some? ==>
                  && n >= 1 && Ensured(steps, ps[n - 1]) == Failed(c.failure.value)
                  && forall m :: 0 <= m < n - 1 ==> Ensured(steps, ps[m]) == Ok)
            && (forall j :: 0 <= j < |t| && AboutTestcase(t[j]) ==> c.failure.None?)
  {
    var ps := Programs(task);
    var c := CompileFrom(steps, ps, 0);
    var a := AfterCompile(table, cfg, steps, task, c.failure);
    var head := [StartMsg] + c.msgs;
    CompileFirstFailure(steps, ps, 0);
    if c.failure.Some? {
      assert Ensured(steps, ps[|c.msgs| - 1]).Failed?;
    }
    CompileQuiet(steps, task);
    AfterCompileQuiet(table, cfg, steps, task, c.failure);
    PhasesApart(c.msgs, a.trace, c.failure.Some?);
    assert head[1..] == c.msgs;
  }

  /** Every test case notification of the build carries a 1-based index
      within the task's test cases and that test case's configuration, and
      the build never goes back to an earlier test case. */
  lemma BuildIndexed(table: map<string, LangConfig>, cfg: Config, steps: Steps, task: BuildTask)
    ensures var t := BuildSpec(table, cfg, steps, task).trace;
            IndexedFrom(t, task.testcases, 1) && Nondecreasing(t)
  {
    var c := CompileFrom(steps, Programs(task), 0);
    var a := AfterCompile(table, cfg, steps, task, c.failure);
    var head := [StartMsg] + c.msgs;
    CompileQuiet(steps, task);
    AfterCompileIndexed(table, cfg, steps, task, c.failure);
    QuietPrefix(c.msgs, a.trace, task.testcases);
  }

  /** A build that finishes compiled every program, made its validator and
      its solution, and uploaded every test case; none of them named an
      unknown generator or an unknown type. */
  lemma BuildFinished(table: map<string, LangConfig>, cfg: Config, steps: Steps, task: BuildTask)
    ensures var r := BuildSpec(table, cfg, steps, task);
            var p := NewProblem(task.problem, None);
            r.end.Finished? ==>
              && (forall m :: 0 <= m < |Programs(task)| ==> Ensured(steps, Programs(task)[m]) == Ok)
              && steps.validator.Ok?
              && GeneratorOf(table, cfg, p, task.solution.fullname, task.solution.language).Done?
              && forall i :: 0 <= i < |task.testcases| ==>
                   && UploadMsg(Indexed(i + 1, task.testcases[i])) in r.trace
                   && !task.testcases[i].OtherCase?
                   && (task.testcases[i].GeneratorCase? ==> FindGenerator(task.generators, task.testcases[i].generator).Some?)
  {
    var r := BuildSpec(table, cfg, steps, task);
    var p := NewProblem(task.problem, None);
    var c := CompileFrom(steps, Programs(task), 0);
    CompileFirstFailure(steps, Programs(task), 0);
    if r.end.Finished? {
      assert c.failure.None? && steps.validator.Ok?;
      var made := GeneratorOf(table, cfg, p, task.solution.fullname, task.solution.language);
      assert made.Done?;
      var rest := CasesFrom(table, cfg, steps, task, p, made.value, 0);
      CasesComplete(table, cfg, steps, task, p, made.value, 0);
      assert r.trace == [StartMsg] + c.msgs + rest.trace;
      forall i | 0 <= i < |task.testcases|
        ensures UploadMsg(Indexed(i + 1, task.testcases[i])) in r.trace
        ensures !task.testcases[i].OtherCase?
        ensures task.testcases[i].GeneratorCase? ==> FindGenerator(task.generators, task.testcases[i].generator).Some?
      {
        CaseShape(table, cfg, steps, task, p, made.value, i);
        CaseStart(table, cfg, steps, task, p, made.value, i);
      }
    }
  }

  // ---------------------------------------------------------------------
  // The pipeline
  // ---------------------------------------------------------------------

  /** One pass of the test case loop. */
  method ProcessCase(table: map<string, LangConfig>, cfg: Config, steps: Steps, task: BuildTask, p: Problem,
                     solution: Submission, i: nat)
    returns (msgs: seq<Message>, after: After)
    requires i < |task.testcases|
    ensures CaseRun(msgs, after) == CaseSpec(table, cfg, steps, task, p, solution, i)
  {
    var config := task.testcases[i];
    var ix := Indexed(i + 1, config);
    var tc := p.Testcase(cfg, task.version, Decimal(i + 1));
    if config.FileCase? {
      msgs := [DownloadMsg(ix)];
      var st := steps.downloadIn(tc, Join(Join(task.problem, "static"), config.filename));
      if st.Failed? {
        return msgs, Aborted(st.error);
      }
    } else if config.GeneratorCase? {
      var found := FindGenerator(task.generators, config.generator);
      if found.None? {
        return [], Aborted(PlainError("Unexpected generator " + IntString(config.generator) + " at " + Decimal(i) + "-th testcase"));
      }
      msgs := [GenInMsg(ix, found.value)];
      var made := GeneratorOf(table, cfg, p, found.value.fullname, found.value.language);
      if made.Threw? {
        return msgs, Aborted(made.error);
      }
      var result := steps.genIn(tc, made.value, config.args);
      if result.Threw? {
        return msgs, Aborted(result.error);
      }
      if result.value.verdict != Accepted {
        return msgs + [ErrorMsg(result.value, ix)], Halted;
      }
    } else {
      return [], Aborted(PlainError("Unexpected testcase type " + config.kind + " at " + Decimal(i) + "-th testcase"));
    }
    msgs, after := CheckCase(steps, task, p, solution, ix, tc, msgs);
  }

  /** The rest of a pass once the input is in place: validate, answer,
      upload, each announced first, and the first failure ends the pass. */
  method CheckCase(steps: Steps, task: BuildTask, p: Problem, solution: Submission, ix: Indexed, tc: TestCase,
                   sent: seq<Message>)
    returns (msgs: seq<Message>, after: After)
    ensures CaseRun(msgs, after) == Checked(steps, task, p, solution, ix, tc, sent)
  {
    msgs := sent + [ValidateMsg(ix, task.validator)];
    var valid := steps.validate(tc);
    if valid.Threw? {
      return msgs, Aborted(valid.error);
    }
    if valid.value.verdict != Accepted {
      return msgs + [ErrorMsg(valid.value, ix)], Halted;
    }

    msgs := msgs + [GenAnsMsg(ix, task.solution)];
    var answer := steps.genAns(tc, solution);
    if answer.Threw? {
      return msgs, Aborted(answer.error);
    }
    if answer.value.verdict != Accepted {
      return msgs + [ErrorMsg(answer.value, ix)], Halted;
    }

    msgs := msgs + [UploadMsg(ix)];
    var st := steps.upload(tc, p.MinioTestcasesBasePath(task.version));
    if st.Failed? {
      return msgs, Aborted(st.error);
    }
    after := Proceed;
  }

  /** The compile phase of `build`: the checker, the validator and the
      solution, then every generator, each announced before its step runs;
      the first error ends the phase. */
  method CompileAll(steps: Steps, task: BuildTask) returns (msgs: seq<Message>, failure: Option<Error>)
    ensures CompileRun(msgs, failure) == CompileFrom(steps, Programs(task), 0)
  {
    ghost var ps := Programs(task);
    msgs := [];
    assert CompiledUpTo(steps, ps, msgs);
    msgs := msgs + [CompileMsg(task.checker.fullname, task.checker)];
    var st := steps.ensure(CheckerKind, task.checker.fullname, task.checker.language);
    CompileStep(steps, ps, []);
    if st.Failed? {
      return msgs, Some(st.error);
    }
    ghost var done := msgs;
    msgs := msgs + [CompileMsg(task.validator.fullname, task.validator)];
    st := steps.ensure(ValidatorKind, task.validator.fullname, task.validator.language);
    CompileStep(steps, ps, done);
    if st.Failed? {
      return msgs, Some(st.error);
    }
    done := msgs;
    msgs := msgs + [CompileMsg(task.solution.fullname, task.solution)];
    st := steps.ensure(GeneratorKind, task.solution.fullname, task.solution.language);
    CompileStep(steps, ps, done);
    if st.Failed? {
      return msgs, Some(st.error);
    }

    for j := 0 to |task.generators|
      invariant |msgs| == 3 + j
      invariant CompiledUpTo(steps, ps, msgs)
    {
      var g := task.generators[j];
      done := msgs;
      msgs := msgs + [CompileMsg(g.fullname, g)];
      st := steps.ensure(GeneratorKind, g.fullname, g.language);
      CompileStep(steps, ps, done);
      if st.Failed? {
        return msgs, Some(st.error);
      }
    }
    failure := None;
  }

  /** `build(buildTask, fn)`: the notifications sent through `fn`, in order,
      and how the returned promise settles. Making the problem's
      directories never fails the build and is left to `Problems`. */
  method Build(table: map<string, LangConfig>, cfg: Config, steps: Steps, task: BuildTask)
    returns (trace: seq<Message>, end: End)
    ensures BuildRun(trace, end) == BuildSpec(table, cfg, steps, task)
  {
    trace := [StartMsg];
    var p := NewProblem(task.problem, None);

    var compiled, failure := CompileAll(steps, task);
    trace := trace + compiled;
    if failure.Some? {
      var f := CompileFailure(failure.value);
      return trace + f.trace, f.end;
    }

    if steps.validator.Failed? {
      return trace, Rejected(steps.validator.error);
    }
    var made := GeneratorOf(table, cfg, p, task.solution.fullname, task.solution.language);
    if made.Threw? {
      return trace, Rejected(made.error);
    }
    var solution := made.value;

    for i := 0 to |task.testcases|
      invariant BuildSpec(table, cfg, steps, task)
                == BuildRun(trace + CasesFrom(table, cfg, steps, task, p, solution, i).trace,
                            CasesFrom(table, cfg, steps, task, p, solution, i).end)
    {
      var msgs, after := ProcessCase(table, cfg, steps, task, p, solution, i);
      ghost var before := trace;
      trace := trace + msgs;
      if after.Halted? {
        return trace, Stopped;
      }
      if after.Aborted? {
        return trace, Rejected(after.error);
      }
      assert before + CasesFrom(table, cfg, steps, task, p, solution, i).trace
             == trace + CasesFrom(table, cfg, steps, task, p, solution, i + 1).trace;
    }
    trace := trace + [EndMsg];
    end := Finished;
  }
}
