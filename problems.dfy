/** A problem: where its programs and test cases live on the judge's disk
    and on the object store, the factories for its programs, and the steps
    that make sure its directories and its checker exist. */
module Problems {
  import opened Common
  import opened Files
  import opened Languages
  import opened Submissions
  import opened Checkers
  import opened Generators
  import opened TestCases

  /** A problem's name and the directory it is kept under, relative to the
      problem root locally and to the bucket on the object store. */
  datatype Problem = Problem(name: string, basePath: string)
  {
    /** `localBasePath`: the problem's directory under PROBLEM_PATH. */
    function LocalBasePath(cfg: Config): Path {
      Join(cfg.problemPath, basePath)
    }

    /** `minioBasePath`: the problem's prefix on the object store. */
    function MinioBasePath(): string {
      basePath
    }

    /** `localTestcasesBasePath(version)`. */
    function LocalTestcasesBasePath(cfg: Config, version: nat): Path {
      Join(Join(LocalBasePath(cfg), "testcases"), Decimal(version))
    }

    /** `minioTestcasesBasePath(version)`. */
    function MinioTestcasesBasePath(version: nat): string {
      Join(Join(MinioBasePath(), "testcases"), Decimal(version))
    }

    /** `testcase(version, name)`. */
    function Testcase(cfg: Config, version: nat, name: string): TestCase {
      TestCase(name, LocalTestcasesBasePath(cfg, version))
    }
  }

  /** `new Problem(name, basePath?)`: an absent base path is the name
      itself (an empty one is kept). */
  function NewProblem(name: string, basePath: Option<string>): Problem {
    Problem(name, if basePath.Some? then basePath.value else name)
  }

  /** Where a problem and its test cases are: the problem made from its name
      alone sits at PROBLEM_PATH/<name>, its test cases of a version at
      .../testcases/<version>/<name>.in and .ans, and the object store
      mirrors the same layout under the problem's prefix. */
  lemma ProblemLayout(cfg: Config, name: string, version: nat, tcName: string)
    ensures var p := NewProblem(name, None);
            var tc := p.Testcase(cfg, version, tcName);
            && p.LocalBasePath(cfg) == cfg.problemPath + "/" + name
            && p.MinioTestcasesBasePath(version) == name + "/testcases/" + Decimal(version)
            && tc.InputFile() == cfg.problemPath + "/" + name + "/testcases/" + Decimal(version) + "/" + tcName + ".in"
            && tc.AnswerFile() == cfg.problemPath + "/" + name + "/testcases/" + Decimal(version) + "/" + tcName + ".ans"
            && Under(tc.InputFile(), p.LocalBasePath(cfg)) && Under(tc.AnswerFile(), p.LocalBasePath(cfg))
  {
    var p := NewProblem(name, None);
    var base := p.LocalBasePath(cfg);
    var dir := p.LocalTestcasesBasePath(cfg, version);
    var tc := p.Testcase(cfg, version, tcName);
    assert dir == cfg.problemPath + "/" + name + "/testcases/" + Decimal(version);
    assert tc.InputFile() == dir + "/" + tcName + ".in";
    assert tc.AnswerFile() == dir + "/" + tcName + ".ans";
    assert dir[..|base| + 1] == base + "/";
    assert tc.InputFile()[..|base| + 1] == dir[..|base| + 1];
    assert tc.AnswerFile()[..|base| + 1] == dir[..|base| + 1];
  }

  /** Two different separator-free names in the same directory are
      apart: neither path lies inside the other. */
  lemma LastComponent(d: Path, x: string, y: string)
    requires '/' !in x && '/' !in y && x != y
    ensures !Under(Join(d, x), Join(d, y))
  {
    var a, b := Join(d, x), Join(d, y);
    if |y| < |x| {
      assert a[|b|] == x[|y|];
      assert a[..|b| + 1][|b|] != (b + "/")[|b|];
    } else if |x| == |y| {
      assert a[|d| + 1..] == x && b[|d| + 1..] == y;
    }
  }

  /** Different versions of a problem's test cases never share a
      directory or a file, and neither directory lies inside the other. */
  lemma VersionsApart(p: Problem, cfg: Config, v1: nat, v2: nat, n1: string, n2: string)
    requires v1 != v2
    ensures !Under(p.LocalTestcasesBasePath(cfg, v1), p.LocalTestcasesBasePath(cfg, v2))
    ensures !Under(p.LocalTestcasesBasePath(cfg, v2), p.LocalTestcasesBasePath(cfg, v1))
    ensures p.Testcase(cfg, v1, n1).InputFile() != p.Testcase(cfg, v2, n2).InputFile()
    ensures p.Testcase(cfg, v1, n1).AnswerFile() != p.Testcase(cfg, v2, n2).AnswerFile()
  {
    var d := Join(p.LocalBasePath(cfg), "testcases");
    var a, b := p.LocalTestcasesBasePath(cfg, v1), p.LocalTestcasesBasePath(cfg, v2);
    assert '/' !in Decimal(v1) && '/' !in Decimal(v2) by {
      assert forall i :: 0 <= i < |Decimal(v1)| ==> Decimal(v1)[i] != '/';
      assert forall i :: 0 <= i < |Decimal(v2)| ==> Decimal(v2)[i] != '/';
    }
    assert Decimal(v1) != Decimal(v2) by {
      if Decimal(v1) == Decimal(v2) {
        DecimalInjective(v1, v2);
      }
    }
    LastComponent(d, Decimal(v1), Decimal(v2));
    LastComponent(d, Decimal(v2), Decimal(v1));
    var t1, t2 := p.Testcase(cfg, v1, n1), p.Testcase(cfg, v2, n2);
    JoinIsUnder(a, n1 + ".in");
    JoinIsUnder(b, n2 + ".in");
    JoinIsUnder(a, n1 + ".ans");
    JoinIsUnder(b, n2 + ".ans");
    if t1.InputFile() == t2.InputFile() {
      UnderBoth(t1.InputFile(), a, b);
    }
    if t1.AnswerFile() == t2.AnswerFile() {
      UnderBoth(t1.AnswerFile(), a, b);
    }
  }

  /** `checker(name, lang)`: the artifact is `<name>.<compiledExtension>` in
      the problem's directory; an unknown language rejects with the
      lookup's error. */
  function CheckerOf(table: map<string, LangConfig>, cfg: Config, p: Problem, name: string, lang: string)
    : (r: Outcome<Submission>)
    ensures r.Done? <==> lang in table
    ensures r.Threw? ==> r == Threw(Lookup(table, lang).error)
    ensures r.Done? ==>
              && r.value.role == CheckerRole
              && FullFilePath(r.value) == Join(p.LocalBasePath(cfg), name + "." + table[lang].compiledExtension)
  {
    match Lookup(table, lang)
    case Threw(e) => Threw(e)
    case Done(c) => NewChecker(table, cfg, name + "." + c.compiledExtension, p.LocalBasePath(cfg), lang)
  }

  /** `generator(name, lang)`: as `checker`, with the generator role. */
  function GeneratorOf(table: map<string, LangConfig>, cfg: Config, p: Problem, name: string, lang: string)
    : (r: Outcome<Submission>)
    ensures r.Done? <==> lang in table
    ensures r.Threw? ==> r == Threw(Lookup(table, lang).error)
    ensures r.Done? ==>
              && r.value.role == GeneratorRole
              && FullFilePath(r.value) == Join(p.LocalBasePath(cfg), name + "." + table[lang].compiledExtension)
  {
    match Lookup(table, lang)
    case Threw(e) => Threw(e)
    case Done(c) => NewGenerator(table, cfg, name + "." + c.compiledExtension, p.LocalBasePath(cfg), lang)
  }

  /** `ensureProblem()`: makes the problem's directory; a failure (something
      is already there) is only logged. Afterwards something is there. */
  method EnsureProblem(fs: Fs, cfg: Config, p: Problem)
    modifies fs
    ensures fs.files == old(fs.files)
    ensures fs.dirs == old(fs.dirs) + (if p.LocalBasePath(cfg) in old(fs.files) then {} else {p.LocalBasePath(cfg)})
    ensures p.LocalBasePath(cfg) in fs.files || p.LocalBasePath(cfg) in fs.dirs
  {
    var st := fs.Mkdir(p.LocalBasePath(cfg));
  }

  /** `ensureTestcasesBasePath(version)`: the problem's directory, then the
      version's test case directory with its parents; failures are only
      logged. */
  method EnsureTestcasesBasePath(fs: Fs, cfg: Config, p: Problem, version: nat)
    modifies fs
    ensures fs.files == old(fs.files)
    ensures var base := p.LocalBasePath(cfg);
            var dir := p.LocalTestcasesBasePath(cfg, version);
            fs.dirs == old(fs.dirs) + (if base in old(fs.files) then {} else {base})
                                    + (if dir in old(fs.files) then {} else {dir})
    ensures p.LocalTestcasesBasePath(cfg, version) in fs.files || p.LocalTestcasesBasePath(cfg, version) in fs.dirs
  {
    EnsureProblem(fs, cfg, p);
    var st := fs.MkdirRecursive(p.LocalTestcasesBasePath(cfg, version));
  }

  /** `ensureChecker(name, lang)`, with the download from the object store,
      the JSON decoding and the base64 decoding as the oracle `fetch`: an
      artifact that can already be read is kept as it is; otherwise the
      source stored under `<minioBasePath>/<name>` is fetched and compiled
      (with `compile`'s default 16 s), and an unknown language rejects
      before anything is touched. After success the artifact is there, so
      a second call changes nothing. */
  method EnsureChecker(fs: Fs, cfg: Config, sandbox: Sandbox, table: map<string, LangConfig>, p: Problem,
                       name: string, lang: string, fetch: string -> Outcome<string>)
    returns (st: Status, ghost compileDir: Path)
    modifies fs
    ensures fs.dirs == old(fs.dirs)
    ensures lang !in table ==> st == Failed(Lookup(table, lang).error) && fs.files == old(fs.files)
    ensures lang in table ==>
              var c := CheckerOf(table, cfg, p, name, lang).value;
              var full := FullFilePath(c);
              var src := fetch(Join(p.MinioBasePath(), name));
              && (full in old(fs.files) || full in old(fs.dirs) ==> st == Ok && fs.files == old(fs.files))
              && (full !in old(fs.files) && full !in old(fs.dirs) && src.Threw? ==>
                    st == Failed(src.error) && fs.files == old(fs.files))
              && (full !in old(fs.files) && full !in old(fs.dirs) && src.Done? ==>
                    && st == CompileStatus(old(fs.files), old(fs.dirs), sandbox, c, src.value, 16, compileDir)
                    && Fresh(compileDir, old(fs.files), old(fs.dirs), {full}))
    ensures st.Ok? ==> var full := FullFilePath(CheckerOf(table, cfg, p, name, lang).value);
                       full in fs.files || full in fs.dirs
    ensures forall q :: lang in table && q != FullFilePath(CheckerOf(table, cfg, p, name, lang).value) ==>
              EntryAt(fs.files, q) == EntryAt(old(fs.files), q)
  {
    compileDir := "";
    var made := CheckerOf(table, cfg, p, name, lang);
    if made.Threw? {
      st := Failed(made.error);
      return;
    }
    var checker := made.value;
    var full := FullFilePath(checker);
    if full in fs.files || full in fs.dirs {
      st := Ok;
      return;
    }
    var src := fetch(Join(p.MinioBasePath(), name));
    if src.Threw? {
      st := Failed(src.error);
      return;
    }
    st, compileDir := Compile(fs, cfg, sandbox, checker, src.value, 16);
  }
}
