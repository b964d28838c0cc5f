/** A test case: an input file and an answer file in one directory, filled
    by running generators. */
module TestCases {
  import opened Common
  import opened Files
  import opened Submissions

  /** `new TestCase(name, basePath)`: `<name>.in` and `<name>.ans` inside
      `basePath`. */
  datatype TestCase = TestCase(name: string, basePath: Path) {
    function InputFile(): Path { Join(basePath, name + ".in") }
    function AnswerFile(): Path { Join(basePath, name + ".ans") }
  }

  /** The two files of a test case are distinct and neither lies inside the
      other, so removing one keeps the other. */
  lemma PathsApart(tc: TestCase)
    ensures tc.InputFile() != tc.AnswerFile()
    ensures !Under(tc.InputFile(), tc.AnswerFile()) && !Under(tc.AnswerFile(), tc.InputFile())
  {
    var i, a := tc.InputFile(), tc.AnswerFile();
    var k := |tc.basePath| + 1 + |tc.name| + 1;
    assert i[k] == 'i' && a[k] == 'a';
  }

  // ---------------------------------------------------------------------
  // clear
  // ---------------------------------------------------------------------

  /** The files left by `clear`. */
  function Cleared(files: map<Path, FileEntry>, tc: TestCase): (r: map<Path, FileEntry>)
    ensures forall q :: EntryAt(r, q) ==
              if Under(q, tc.InputFile()) || Under(q, tc.AnswerFile()) then None else EntryAt(files, q)
  {
    FilesWithout(FilesWithout(files, tc.InputFile()), tc.AnswerFile())
  }

  /** The directories left by `clear`. */
  function ClearedDirs(dirs: set<Path>, tc: TestCase): (r: set<Path>)
    ensures forall q :: q in r <==> q in dirs && !Under(q, tc.InputFile()) && !Under(q, tc.AnswerFile())
  {
    DirsWithout(DirsWithout(dirs, tc.InputFile()), tc.AnswerFile())
  }

  /** `clear()`: removes both files, whatever they are; it never fails. */
  method Clear(fs: Fs, tc: TestCase)
    modifies fs
    ensures fs.files == Cleared(old(fs.files), tc)
    ensures fs.dirs == ClearedDirs(old(fs.dirs), tc)
  {
    fs.Rimraf(tc.InputFile());
    fs.Rimraf(tc.AnswerFile());
  }

  /** Clearing twice is clearing once. */
  lemma ClearIdempotent(files: map<Path, FileEntry>, dirs: set<Path>, tc: TestCase)
    ensures Cleared(Cleared(files, tc), tc) == Cleared(files, tc)
    ensures ClearedDirs(ClearedDirs(dirs, tc), tc) == ClearedDirs(dirs, tc)
  {
    forall q ensures EntryAt(Cleared(Cleared(files, tc), tc), q) == EntryAt(Cleared(files, tc), q) {
    }
    MapExt(Cleared(Cleared(files, tc), tc), Cleared(files, tc));
  }

  // ---------------------------------------------------------------------
  // writeIn / writeAns
  // ---------------------------------------------------------------------

  /** The filesystem after an attempt, and how the attempt ended. */
  datatype Attempt = Attempt(files: map<Path, FileEntry>, dirs: set<Path>, status: Status)

  /** `writeIn` and `writeAns` as written: `mkdir(p)` with its failure
      ignored, then `writeFile(p, content)`. The directory is made at the file's
      own path, so the write succeeds only when the file already exists. */
  function WriteAsWritten(files: map<Path, FileEntry>, dirs: set<Path>, p: Path, content: string): (r: Attempt)
    ensures r.status.Ok? <==> p in files && p !in dirs
    ensures r.status.Ok? ==> r.files == Written(files, p, content) && r.dirs == dirs
    ensures r.status.Failed? ==>
              && r.status.error == IsDirectory("open", p)
              && r.files == files && p in r.dirs
  {
    var dirs1 := if p in dirs || p in files then dirs else dirs + {p};
    if p in dirs1 then Attempt(files, dirs1, Failed(IsDirectory("open", p)))
    else Attempt(Written(files, p, content), dirs1, Ok)
  }

  /** `writeIn(content)` as written. */
  method WriteInAsWritten(fs: Fs, tc: TestCase, content: string) returns (st: Status)
    modifies fs
    ensures Attempt(fs.files, fs.dirs, st) == WriteAsWritten(old(fs.files), old(fs.dirs), tc.InputFile(), content)
  {
    var ignored := fs.Mkdir(tc.InputFile());
    st := fs.WriteFile(tc.InputFile(), content);
  }

  /** `writeAns()` as written. */
  method WriteAnsAsWritten(fs: Fs, tc: TestCase) returns (st: Status)
    modifies fs
    ensures Attempt(fs.files, fs.dirs, st) == WriteAsWritten(old(fs.files), old(fs.dirs), tc.AnswerFile(), "")
  {
    var ignored := fs.Mkdir(tc.AnswerFile());
    st := fs.WriteFile(tc.AnswerFile(), "");
  }

  /** `genIn` clears the test case and then calls `writeIn('')` outside its
      `try`: as written, that call always rejects with EISDIR and leaves a
      directory where the input file should be, so `genIn` never runs the
      generator. */
  lemma WriteInAfterClearFails(files: map<Path, FileEntry>, dirs: set<Path>, tc: TestCase)
    ensures var a := WriteAsWritten(Cleared(files, tc), ClearedDirs(dirs, tc), tc.InputFile(), "");
            && a.status == Failed(IsDirectory("open", tc.InputFile()))
            && tc.InputFile() in a.dirs
  {
    assert EntryAt(Cleared(files, tc), tc.InputFile()) == None;
  }

  /** `genAns` calls `writeAns()` outside its `try`: as written, the first
      call for an answer file that does not exist yet rejects and leaves a
      directory in its place, and from then on every call rejects. */
  lemma WriteAnsAsWrittenStuck(files: map<Path, FileEntry>, dirs: set<Path>, tc: TestCase)
    requires tc.AnswerFile() !in files
    ensures var a := WriteAsWritten(files, dirs, tc.AnswerFile(), "");
            && a.status.Failed?
            && WriteAsWritten(a.files, a.dirs, tc.AnswerFile(), "").status.Failed?
  {
  }

  /** `writeIn(content)` as evidently intended: the input file is written. */
  method WriteIn(fs: Fs, tc: TestCase, content: string) returns (st: Status)
    modifies fs
    ensures fs.dirs == old(fs.dirs)
    ensures tc.InputFile() in old(fs.dirs) ==> st == Failed(IsDirectory("open", tc.InputFile())) && fs.files == old(fs.files)
    ensures tc.InputFile() !in old(fs.dirs) ==> st == Ok && fs.files == Written(old(fs.files), tc.InputFile(), content)
  {
    st := fs.WriteFile(tc.InputFile(), content);
  }

  /** `writeAns()` as evidently intended: the answer file is truncated. */
  method WriteAns(fs: Fs, tc: TestCase) returns (st: Status)
    modifies fs
    ensures fs.dirs == old(fs.dirs)
    ensures tc.AnswerFile() in old(fs.dirs) ==> st == Failed(IsDirectory("open", tc.AnswerFile())) && fs.files == old(fs.files)
    ensures tc.AnswerFile() !in old(fs.dirs) ==> st == Ok && fs.files == Written(old(fs.files), tc.AnswerFile(), "")
  {
    st := fs.WriteFile(tc.AnswerFile(), "");
  }

  // ---------------------------------------------------------------------
  // Running a generator
  // ---------------------------------------------------------------------

  /** What a generator or validator run resolves with: a failed run carries
      its trimmed standard error as the message, an accepted one is returned
      as reported, and a rejected run rejects. */
  function Reported(x: SandboxOutcome): (r: Outcome<RunResult>)
    ensures r.Threw? <==> Submissions.Outcome(x).Threw?
    ensures r.Threw? ==> r == Submissions.Outcome(x)
    ensures r.Done? ==>
              && x.Exited? && x.report.Parsed?
              && r.value.(message := None) == x.report.result.(message := None)
              && r.value.message == (if x.report.result.verdict == Accepted then x.report.result.message
                                     else Some(Trim(x.stderr)))
  {
    match Submissions.Outcome(x)
    case Threw(e) => Threw(e)
    case Done(res) =>
      if res.verdict == Accepted then Done(res) else Done(res.(message := Some(Trim(x.stderr))))
  }

  /** The run resolved with an Accepted result. */
  predicate AcceptedRun(out: Outcome<RunResult>) {
    out.Done? && out.value.verdict == Accepted
  }

  function GenErr(genDir: Path): Path { Join(genDir, "gen.err") }

  /** The generator binding: its artifact, read-only, under its own name. */
  function GeneratorBinding(g: Submission): seq<FileBinding> {
    [FileBinding(FullFilePath(g), g.execute.file, ReadOnly)]
  }

  /** `genIn`'s run: trusted, 15 s and 1024 MB, the extra arguments after the
      generator's own, standard output into the input file. */
  function GenInParam(tc: TestCase, g: Submission, args: seq<string>, runDir: Path, genDir: Path): RunParam {
    RunParam(runDir, GeneratorBinding(g), true, Some(g.execute.command), Some(g.execute.args + args),
             15, 1024, None, Some(tc.InputFile()), Some(GenErr(genDir)))
  }

  /** `genAns`'s run: the generator's own command, the input file as
      standard input and the answer file as standard output. */
  function GenAnsParam(tc: TestCase, g: Submission, runDir: Path, genDir: Path): RunParam {
    RunParam(runDir, GeneratorBinding(g), true, None, None,
             15, 1024, Some(tc.InputFile()), Some(tc.AnswerFile()), Some(GenErr(genDir)))
  }

  /** The files `genIn` leaves: the generated input when the run is
      accepted, and otherwise nothing of the test case. */
  lemma {:induction false} GenInFiles(files0: map<Path, FileEntry>, dirs0: set<Path>, tc: TestCase, avoid: set<Path>,
                                      sandbox: Sandbox, req: Request, runDir: Path, genDir: Path)
    requires tc.InputFile() in avoid && tc.AnswerFile() in avoid
    requires ScratchRequest(Written(Cleared(files0, tc), tc.InputFile(), ""), ClearedDirs(dirs0, tc), avoid, req,
                            runDir, genDir, "gen.err")
    requires req.stdin.None? && req.stdout == Some(tc.InputFile())
    ensures var f1 := Written(Cleared(files0, tc), tc.InputFile(), "");
            var r := RunFiles(f1, ClearedDirs(dirs0, tc) + {runDir, genDir}, sandbox, req);
            var x := sandbox(req);
            && FilesWithout(FilesWithout(r, runDir), genDir)
               == Cleared(files0, tc)[tc.InputFile() := FileEntry(if x.Exited? then x.stdout else "", None)]
            && FilesWithout(FilesWithout(Cleared(r, tc), runDir), genDir) == Cleared(files0, tc)
  {
    var inp := tc.InputFile();
    var f1 := Written(Cleared(files0, tc), inp, "");
    var dc := ClearedDirs(dirs0, tc);
    var r := RunFiles(f1, dc + {runDir, genDir}, sandbox, req);
    var x := sandbox(req);
    var left := FilesWithout(FilesWithout(r, runDir), genDir);
    var target := Cleared(files0, tc)[inp := FileEntry(if x.Exited? then x.stdout else "", None)];
    assert inp !in dc;
    assert EntryAt(Cleared(files0, tc), inp) == None;
    ScratchStdout(f1, dc, avoid, sandbox, req, runDir, genDir, "gen.err");
    forall q ensures EntryAt(left, q) == EntryAt(target, q) {
      if q != inp {
        ScratchKeeps(f1, dc, avoid, sandbox, req, runDir, genDir, "gen.err", q);
      }
    }
    MapExt(left, target);
    var left2 := FilesWithout(FilesWithout(Cleared(r, tc), runDir), genDir);
    forall q ensures EntryAt(left2, q) == EntryAt(Cleared(files0, tc), q) {
      if Under(q, inp) || Under(q, tc.AnswerFile()) {
      } else if Under(q, runDir) || Under(q, genDir) {
      } else {
        assert q != inp;
        ScratchKeeps(f1, dc, avoid, sandbox, req, runDir, genDir, "gen.err", q);
      }
    }
    MapExt(left2, Cleared(files0, tc));
  }

  /** The files `genAns` leaves: the generated answer when the input
      could be opened, and after the answer file is removed, the files from
      before the call without it. */
  lemma {:induction false} GenAnsFiles(files0: map<Path, FileEntry>, dirs0: set<Path>, tc: TestCase, avoid: set<Path>,
                                       sandbox: Sandbox, req: Request, runDir: Path, genDir: Path)
    requires tc.AnswerFile() in avoid && tc.AnswerFile() !in dirs0
    requires ScratchRequest(Written(files0, tc.AnswerFile(), ""), dirs0, avoid, req, runDir, genDir, "gen.err")
    requires req.stdin == Some(tc.InputFile()) && req.stdout == Some(tc.AnswerFile())
    ensures var ans := tc.AnswerFile();
            var f1 := Written(files0, ans, "");
            var r := RunFiles(f1, dirs0 + {runDir, genDir}, sandbox, req);
            var x := sandbox(req);
            && (!StdinMissing(files0, dirs0, req) ==>
                  FilesWithout(FilesWithout(r, runDir), genDir)
                  == files0[ans := FileEntry(if x.Exited? then x.stdout else "", if ans in files0 then files0[ans].mode else None)])
            && FilesWithout(FilesWithout(FilesWithout(r, ans), runDir), genDir) == FilesWithout(files0, ans)
  {
    var ans := tc.AnswerFile();
    PathsApart(tc);
    var f1 := Written(files0, ans, "");
    var r := RunFiles(f1, dirs0 + {runDir, genDir}, sandbox, req);
    var x := sandbox(req);
    assert StdinMissing(f1, dirs0, req) == StdinMissing(files0, dirs0, req);
    if !StdinMissing(files0, dirs0, req) {
      var left := FilesWithout(FilesWithout(r, runDir), genDir);
      var target := files0[ans := FileEntry(if x.Exited? then x.stdout else "", if ans in files0 then files0[ans].mode else None)];
      ScratchStdout(f1, dirs0, avoid, sandbox, req, runDir, genDir, "gen.err");
      forall q ensures EntryAt(left, q) == EntryAt(target, q) {
        if q != ans {
          ScratchKeeps(f1, dirs0, avoid, sandbox, req, runDir, genDir, "gen.err", q);
        }
      }
      MapExt(left, target);
    }
    var left2 := FilesWithout(FilesWithout(FilesWithout(r, ans), runDir), genDir);
    forall q ensures EntryAt(left2, q) == EntryAt(FilesWithout(files0, ans), q) {
      if Under(q, ans) {
      } else if Under(q, runDir) || Under(q, genDir) {
      } else {
        ScratchKeeps(f1, dirs0, avoid, sandbox, req, runDir, genDir, "gen.err", q);
      }
    }
    MapExt(left2, FilesWithout(files0, ans));
  }

  /** The paths a test case's scratch directories must stay clear of. */
  function Avoid(tc: TestCase): set<Path> {
    {tc.InputFile(), tc.AnswerFile()}
  }

  /** What a captured scratch run whose output is no directory reports:
      a missing input file, or the sandbox's outcome; an accepted run
      opened its input and exited. */
  lemma CapturedOutcome(files: map<Path, FileEntry>, dirs: set<Path>, avoid: set<Path>, sandbox: Sandbox, req: Request,
                        runDir: Path, errDir: Path, errName: string, out: Outcome<RunResult>)
    requires ScratchRequest(files, dirs, avoid, req, runDir, errDir, errName)
    requires !StdoutIsDir(dirs, req)
    requires var o := RunOutcome(files, dirs + {runDir, errDir}, sandbox, req);
             out == if o.Threw? then o else Reported(sandbox(req))
    ensures out == if StdinMissing(files, dirs, req) then Threw(TestCaseError(NoEntry("open", req.stdin.value).message))
                   else Reported(sandbox(req))
    ensures AcceptedRun(out) ==> !StdinMissing(files, dirs, req) && sandbox(req).Exited?
  {
    ScratchOutcome(files, dirs, avoid, sandbox, req, runDir, errDir, errName);
  }

  /** The run shared by generators and validators: `run`, and for a
      result other than Accepted, the trimmed captured standard error as its
      message. The scratch directories are still in place afterwards. */
  method RunCapturing(fs: Fs, cfg: Config, sandbox: Sandbox, s: Submission, param: RunParam, errFile: Path,
                      ghost files1: map<Path, FileEntry>, ghost dirs1: set<Path>, ghost avoid: set<Path>,
                      ghost runDir: Path, ghost errDir: Path, ghost errName: string)
    returns (out: Outcome<RunResult>)
    requires ScratchRequest(files1, dirs1, avoid, Resolve(s, param), runDir, errDir, errName)
    requires errFile == Join(errDir, errName)
    requires fs.files == files1 && fs.dirs == dirs1 + {runDir, errDir}
    modifies fs
    ensures fs.dirs == old(fs.dirs)
    ensures fs.files == RunFiles(files1, dirs1 + {runDir, errDir}, sandbox, Resolve(s, param))
    ensures var o := RunOutcome(files1, dirs1 + {runDir, errDir}, sandbox, Resolve(s, param));
            out == if o.Threw? then o else Reported(sandbox(Resolve(s, param)))
  {
    var result;
    ghost var call;
    result, call := Run(fs, cfg, sandbox, s, param);
    match result {
      case Threw(e) =>
        out := Threw(e);
      case Done(res) =>
        if res.verdict == Accepted {
          out := Done(res);
        } else {
          ScratchOutcome(files1, dirs1, avoid, sandbox, Resolve(s, param), runDir, errDir, errName);
          ScratchStderr(files1, dirs1, avoid, sandbox, Resolve(s, param), runDir, errDir, errName);
          // The run's standard error was captured, so this read succeeds.
          var text := fs.ReadFile(errFile);
          out := Done(res.(message := Some(Trim(text.value))));
        }
    }
  }

  /** `genIn(generator, args)`, with `writeIn` as evidently intended: the
      test case is cleared, the generator's output becomes the input file
      when the run is accepted, and every other ending leaves the test case
      cleared; the scratch directories are removed on every path. */
  method GenIn(fs: Fs, cfg: Config, sandbox: Sandbox, tc: TestCase, g: Submission, args: seq<string>)
    returns (out: Outcome<RunResult>, ghost runDir: Path, ghost genDir: Path)
    modifies fs
    ensures runDir != genDir
    ensures Fresh(runDir, Cleared(old(fs.files), tc), ClearedDirs(old(fs.dirs), tc), Avoid(tc))
    ensures Fresh(genDir, Cleared(old(fs.files), tc), ClearedDirs(old(fs.dirs), tc), Avoid(tc))
    ensures fs.dirs == ClearedDirs(old(fs.dirs), tc)
    ensures var x := sandbox(Resolve(g, GenInParam(tc, g, args, runDir, genDir)));
            && out == Reported(x)
            && fs.files == if AcceptedRun(out) then Cleared(old(fs.files), tc)[tc.InputFile() := FileEntry(x.stdout, None)]
                           else Cleared(old(fs.files), tc)
  {
    Clear(fs, tc);
    var st := WriteIn(fs, tc, "");
    // Once cleared, the input path is no directory, so the write succeeds.
    assert st == Ok;
    out, runDir, genDir := GenInCleared(fs, cfg, sandbox, tc, g, args, old(fs.files), old(fs.dirs));
  }

  /** The rest of `genIn` once the test case is cleared and the input file
      is empty: the generator runs in two fresh scratch directories. */
  method GenInCleared(fs: Fs, cfg: Config, sandbox: Sandbox, tc: TestCase, g: Submission, args: seq<string>,
                      ghost files0: map<Path, FileEntry>, ghost dirs0: set<Path>)
    returns (out: Outcome<RunResult>, ghost runDir: Path, ghost genDir: Path)
    requires fs.files == Written(Cleared(files0, tc), tc.InputFile(), "") && fs.dirs == ClearedDirs(dirs0, tc)
    modifies fs
    ensures runDir != genDir
    ensures Fresh(runDir, Cleared(files0, tc), ClearedDirs(dirs0, tc), Avoid(tc))
    ensures Fresh(genDir, Cleared(files0, tc), ClearedDirs(dirs0, tc), Avoid(tc))
    ensures fs.dirs == ClearedDirs(dirs0, tc)
    ensures var x := sandbox(Resolve(g, GenInParam(tc, g, args, runDir, genDir)));
            && out == Reported(x)
            && fs.files == if AcceptedRun(out) then Cleared(files0, tc)[tc.InputFile() := FileEntry(x.stdout, None)]
                           else Cleared(files0, tc)
  {
    ghost var files1, dirs1 := fs.files, fs.dirs;
    var rd := fs.MakeTempDir(Avoid(tc));
    var gd := fs.MakeTempDir(Avoid(tc));
    runDir, genDir := rd, gd;
    assert Fresh(gd, files1, dirs1, Avoid(tc));
    ClearIdempotent(files0, dirs0, tc);
    FreshFewer(rd, files1, dirs1, Avoid(tc), Cleared(files0, tc), dirs1);
    FreshFewer(gd, files1, dirs1, Avoid(tc), Cleared(files0, tc), dirs1);
    ghost var req := Resolve(g, GenInParam(tc, g, args, rd, gd));
    assert ScratchRequest(files1, dirs1, Avoid(tc), req, rd, gd, "gen.err");
    GenInFiles(files0, dirs0, tc, Avoid(tc), sandbox, req, rd, gd);

    out := RunCapturing(fs, cfg, sandbox, g, GenInParam(tc, g, args, rd, gd), GenErr(gd),
                        files1, dirs1, Avoid(tc), rd, gd, "gen.err");
    CapturedOutcome(files1, dirs1, Avoid(tc), sandbox, req, rd, gd, "gen.err", out);
    DropGenerated(fs, tc, AcceptedRun(out), rd, gd, files1, dirs1);
  }

  /** The end of `genIn`: a run that was not accepted clears the test
      case again, and both scratch directories are removed. */
  method DropGenerated(fs: Fs, tc: TestCase, accepted: bool, rd: Path, gd: Path,
                       ghost files1: map<Path, FileEntry>, ghost dirs1: set<Path>)
    requires Fresh(rd, files1, dirs1, Avoid(tc)) && Fresh(gd, files1, dirs1, Avoid(tc)) && rd != gd
    requires ClearedDirs(dirs1, tc) == dirs1 && fs.dirs == dirs1 + {rd, gd}
    modifies fs
    ensures fs.dirs == dirs1
    ensures fs.files == FilesWithout(FilesWithout(if accepted then old(fs.files) else Cleared(old(fs.files), tc), rd), gd)
  {
    if !accepted {
      ScratchDirsUncleared(dirs1, tc, rd, gd, files1);
      Clear(fs, tc);
    }
    RemoveTempDirs(fs, rd, gd, files1, dirs1, Avoid(tc));
  }

  /** Clearing a cleared test case leaves its fresh scratch directories. */
  lemma ScratchDirsUncleared(dirs: set<Path>, tc: TestCase, r: Path, g: Path, files: map<Path, FileEntry>)
    requires Fresh(r, files, dirs, Avoid(tc)) && Fresh(g, files, dirs, Avoid(tc))
    requires ClearedDirs(dirs, tc) == dirs
    ensures ClearedDirs(dirs + {r, g}, tc) == dirs + {r, g}
  {
    FreshApart(r, files, dirs, Avoid(tc), tc.InputFile());
    FreshApart(r, files, dirs, Avoid(tc), tc.AnswerFile());
    FreshApart(g, files, dirs, Avoid(tc), tc.InputFile());
    FreshApart(g, files, dirs, Avoid(tc), tc.AnswerFile());
  }

  /** Removing the answer file and then both fresh scratch directories
      leaves the directories from before without the answer file. */
  lemma AnswerDirsGone(dirs: set<Path>, tc: TestCase, r: Path, g: Path, files: map<Path, FileEntry>)
    requires Fresh(r, files, dirs, Avoid(tc)) && Fresh(g, files, dirs, Avoid(tc)) && r != g
    ensures DirsWithout(DirsWithout(DirsWithout(dirs + {r, g}, tc.AnswerFile()), r), g) == DirsWithout(dirs, tc.AnswerFile())
  {
    var ans := tc.AnswerFile();
    FreshApart(r, files, dirs, Avoid(tc), ans);
    FreshApart(g, files, dirs, Avoid(tc), ans);
    assert DirsWithout(dirs + {r, g}, ans) == DirsWithout(dirs, ans) + {r, g};
    TempDirsGone(DirsWithout(dirs, ans), r, g, files, Avoid(tc));
  }

  /** `genAns(generator)`, with `writeAns` as evidently intended: the answer
      file is truncated (a directory in its place rejects before anything
      runs), the generator reads the input file and writes the answer file,
      and every ending other than Accepted removes the answer file; the
      input file is never changed. */
  method GenAns(fs: Fs, cfg: Config, sandbox: Sandbox, tc: TestCase, g: Submission)
    returns (out: Outcome<RunResult>, ghost runDir: Path, ghost genDir: Path)
    modifies fs
    ensures tc.AnswerFile() in old(fs.dirs) ==>
              && out == Threw(IsDirectory("open", tc.AnswerFile()))
              && fs.files == old(fs.files) && fs.dirs == old(fs.dirs)
    ensures tc.AnswerFile() !in old(fs.dirs) ==>
              && runDir != genDir
              && Fresh(runDir, old(fs.files), old(fs.dirs), Avoid(tc))
              && Fresh(genDir, old(fs.files), old(fs.dirs), Avoid(tc))
    ensures tc.AnswerFile() !in old(fs.dirs) ==>
              var req := Resolve(g, GenAnsParam(tc, g, runDir, genDir));
              var x := sandbox(req);
              && out == (if StdinMissing(old(fs.files), old(fs.dirs), req)
                         then Threw(TestCaseError(NoEntry("open", tc.InputFile()).message))
                         else Reported(x))
              && (AcceptedRun(out) ==>
                    && fs.files == old(fs.files)[tc.AnswerFile() := FileEntry(x.stdout,
                         if tc.AnswerFile() in old(fs.files) then old(fs.files)[tc.AnswerFile()].mode else None)]
                    && fs.dirs == old(fs.dirs))
              && (!AcceptedRun(out) ==>
                    && fs.files == FilesWithout(old(fs.files), tc.AnswerFile())
                    && fs.dirs == DirsWithout(old(fs.dirs), tc.AnswerFile()))
  {
    var st := WriteAns(fs, tc);
    if st.Failed? {
      out := Threw(st.error);
      runDir, genDir := "", "";
      return;
    }
    out, runDir, genDir := GenAnsTruncated(fs, cfg, sandbox, tc, g, old(fs.files), old(fs.dirs));
  }

  /** The rest of `genAns` once the answer file is truncated: the
      generator runs in two fresh scratch directories. */
  method GenAnsTruncated(fs: Fs, cfg: Config, sandbox: Sandbox, tc: TestCase, g: Submission,
                         ghost files0: map<Path, FileEntry>, ghost dirs0: set<Path>)
    returns (out: Outcome<RunResult>, ghost runDir: Path, ghost genDir: Path)
    requires tc.AnswerFile() !in dirs0
    requires fs.files == Written(files0, tc.AnswerFile(), "") && fs.dirs == dirs0
    modifies fs
    ensures runDir != genDir
    ensures Fresh(runDir, files0, dirs0, Avoid(tc)) && Fresh(genDir, files0, dirs0, Avoid(tc))
    ensures var req := Resolve(g, GenAnsParam(tc, g, runDir, genDir));
            var x := sandbox(req);
            && out == (if StdinMissing(files0, dirs0, req)
                       then Threw(TestCaseError(NoEntry("open", tc.InputFile()).message))
                       else Reported(x))
            && (AcceptedRun(out) ==>
                  && fs.files == files0[tc.AnswerFile() := FileEntry(x.stdout,
                       if tc.AnswerFile() in files0 then files0[tc.AnswerFile()].mode else None)]
                  && fs.dirs == dirs0)
            && (!AcceptedRun(out) ==>
                  && fs.files == FilesWithout(files0, tc.AnswerFile())
                  && fs.dirs == DirsWithout(dirs0, tc.AnswerFile()))
  {
    ghost var files1, dirs1 := fs.files, fs.dirs;
    var rd := fs.MakeTempDir(Avoid(tc));
    var gd := fs.MakeTempDir(Avoid(tc));
    runDir, genDir := rd, gd;
    assert Fresh(gd, files1, dirs1, Avoid(tc));
    FreshFewer(rd, files1, dirs1, Avoid(tc), files0, dirs1);
    FreshFewer(gd, files1, dirs1, Avoid(tc), files0, dirs1);
    ghost var req := Resolve(g, GenAnsParam(tc, g, rd, gd));
    assert ScratchRequest(files1, dirs1, Avoid(tc), req, rd, gd, "gen.err");
    PathsApart(tc);
    assert StdinMissing(files1, dirs1, req) == StdinMissing(files0, dirs1, req);
    GenAnsFiles(files0, dirs0, tc, Avoid(tc), sandbox, req, rd, gd);

    out := RunCapturing(fs, cfg, sandbox, g, GenAnsParam(tc, g, rd, gd), GenErr(gd),
                        files1, dirs1, Avoid(tc), rd, gd, "gen.err");
    CapturedOutcome(files1, dirs1, Avoid(tc), sandbox, req, rd, gd, "gen.err", out);
    DropAnswer(fs, tc, AcceptedRun(out), rd, gd, files1, dirs1);
  }

  /** The end of `genAns`: a run that was not accepted removes the answer
      file, and both scratch directories are removed. */
  method DropAnswer(fs: Fs, tc: TestCase, accepted: bool, rd: Path, gd: Path,
                    ghost files1: map<Path, FileEntry>, ghost dirs1: set<Path>)
    requires Fresh(rd, files1, dirs1, Avoid(tc)) && Fresh(gd, files1, dirs1, Avoid(tc)) && rd != gd
    requires fs.dirs == dirs1 + {rd, gd}
    modifies fs
    ensures fs.dirs == if accepted then dirs1 else DirsWithout(dirs1, tc.AnswerFile())
    ensures fs.files == FilesWithout(FilesWithout(if accepted then old(fs.files)
                                                  else FilesWithout(old(fs.files), tc.AnswerFile()), rd), gd)
  {
    if !accepted {
      fs.Rimraf(tc.AnswerFile());
      AnswerDirsGone(dirs1, tc, rd, gd, files1);
    } else {
      TempDirsGone(dirs1, rd, gd, files1, Avoid(tc));
    }
    fs.Rimraf(rd);
    fs.Rimraf(gd);
  }
}
