/** The validator role: a program kept in the problem directory that reads
    a test case's input and accepts or rejects it. */
module Validators {
  import opened Common
  import opened Files
  import opened Languages
  import opened Submissions
  import opened TestCases

  /** `new Validator(id, lang)`: the artifact is `<id>.<compiledExtension>`
      in the problem directory; an unknown language fails the extension
      lookup first, with the same error. */
  function NewValidator(table: map<string, LangConfig>, cfg: Config, id: string, lang: string): (r: Outcome<Submission>)
    ensures r.Done? <==> lang in table
    ensures r.Threw? ==> r == Threw(SystemError("Unsupported language <" + lang + ">"))
    ensures r.Done? ==>
              && r.value.role == ValidatorRole
              && r.value.execute.file == id + "." + table[lang].compiledExtension
              && r.value.execute.dir == cfg.problemPath
  {
    match Lookup(table, lang)
    case Threw(e) => Threw(e)
    case Done(c) => New(table, cfg, lang, ValidatorRole, Some(Location(id + "." + c.compiledExtension, cfg.problemPath)), "")
  }

  /** The test case a validator reads: `<id>.in` in the problem directory. */
  function Target(cfg: Config, testcaseId: string): (tc: TestCase)
    ensures tc.InputFile() == cfg.problemPath + "/" + testcaseId + ".in"
  {
    TestCase(testcaseId, cfg.problemPath)
  }

  function ValErr(valDir: Path): Path { Join(valDir, "val.err") }

  /** `validate`'s run: trusted, 15 s and 1024 MB, only its own artifact
      bound read-only, the input file as standard input, no standard output
      redirection. */
  function ValidateParam(cfg: Config, v: Submission, testcaseId: string, runDir: Path, valDir: Path): RunParam {
    RunParam(runDir, [FileBinding(FullFilePath(v), v.execute.file, ReadOnly)], true, None, None,
             15, 1024, Some(Target(cfg, testcaseId).InputFile()), None, Some(ValErr(valDir)))
  }

  /** A scratch run without a standard output redirection leaves no trace
      once both scratch directories are removed. */
  lemma {:induction false} ValidationLeavesNoTrace(files: map<Path, FileEntry>, dirs: set<Path>, avoid: set<Path>,
                                                   sandbox: Sandbox, req: Request, runDir: Path, valDir: Path)
    requires ScratchRequest(files, dirs, avoid, req, runDir, valDir, "val.err")
    requires req.stdout.None?
    ensures FilesWithout(FilesWithout(RunFiles(files, dirs + {runDir, valDir}, sandbox, req), runDir), valDir) == files
  {
    var left := FilesWithout(FilesWithout(RunFiles(files, dirs + {runDir, valDir}, sandbox, req), runDir), valDir);
    forall q ensures EntryAt(left, q) == EntryAt(files, q) {
      ScratchKeeps(files, dirs, avoid, sandbox, req, runDir, valDir, "val.err", q);
    }
    MapExt(left, files);
  }

  /** `validate(testcaseId)`: a missing input file rejects with a
      TestCaseError; otherwise the result is the validator's, with its
      trimmed standard error as message unless it is Accepted. Nothing on
      disk changes, and both scratch directories are removed on every
      path. */
  method Validate(fs: Fs, cfg: Config, sandbox: Sandbox, v: Submission, testcaseId: string)
    returns (out: Outcome<RunResult>, ghost runDir: Path, ghost valDir: Path)
    modifies fs
    ensures fs.files == old(fs.files) && fs.dirs == old(fs.dirs)
    ensures runDir != valDir
    ensures Fresh(runDir, old(fs.files), old(fs.dirs), {Target(cfg, testcaseId).InputFile()})
    ensures Fresh(valDir, old(fs.files), old(fs.dirs), {Target(cfg, testcaseId).InputFile()})
    ensures var req := Resolve(v, ValidateParam(cfg, v, testcaseId, runDir, valDir));
            out == if StdinMissing(old(fs.files), old(fs.dirs), req)
                   then Threw(TestCaseError(NoEntry("open", Target(cfg, testcaseId).InputFile()).message))
                   else Reported(sandbox(req))
  {
    var tc := Target(cfg, testcaseId);
    ghost var files1, dirs1 := fs.files, fs.dirs;
    var avoid := {tc.InputFile()};
    var rd := fs.MakeTempDir(avoid);
    var vd := fs.MakeTempDir(avoid);
    runDir, valDir := rd, vd;
    assert Fresh(vd, files1, dirs1, avoid);
    ghost var req := Resolve(v, ValidateParam(cfg, v, testcaseId, rd, vd));
    assert ScratchRequest(files1, dirs1, avoid, req, rd, vd, "val.err");
    ScratchOutcome(files1, dirs1, avoid, sandbox, req, rd, vd, "val.err");
    ValidationLeavesNoTrace(files1, dirs1, avoid, sandbox, req, rd, vd);

    out := RunCapturing(fs, cfg, sandbox, v, ValidateParam(cfg, v, testcaseId, rd, vd), ValErr(vd),
                        files1, dirs1, avoid, rd, vd, "val.err");
    RemoveTempDirs(fs, rd, vd, files1, dirs1, avoid);
  }
}
