/** Judging one submission on one test case: run it, and on Accepted run the
    checker on its output; scratch files live in one lazily made directory
    that `clear` removes. */
module Runners {
  import opened Common
  import opened Files
  import opened Submissions
  import opened Checkers
  import opened TestCases

  /** The permissions of a scratch output file (octal 0766). */
  const ScratchMode := 502

  /** A scratch file: a random name with an extension, in the scratch
      directory. */
  function ScratchFile(dir: Path, random: string, extension: string): (p: Path)
    ensures Under(p, dir) && p != dir && p[|dir|] == '/'
  {
    Join(dir, random + "." + extension)
  }

  /** The checker's command-line arguments: the names it sees its files by. */
  const CheckerArgs := ["in", "out", "ans", "result"]

  /** The checker's five bindings: its own artifact, the input, the
      submission's output and the answer read-only, and its result file
      read-write. */
  function CheckerBindings(checker: Submission, tc: TestCase, runOut: Path, chkOut: Path): (bs: seq<FileBinding>)
    ensures |bs| == 5
    ensures forall i :: 0 <= i < 4 ==> bs[i].mode == ReadOnly
    ensures bs[4] == FileBinding(chkOut, "result", ReadWrite)
  {
    [FileBinding(FullFilePath(checker), checker.execute.file, ReadOnly),
     FileBinding(tc.InputFile(), "in", ReadOnly),
     FileBinding(runOut, "out", ReadOnly),
     FileBinding(tc.AnswerFile(), "ans", ReadOnly),
     FileBinding(chkOut, "result", ReadWrite)]
  }

  /** The checker's run: untrusted, no redirections, twice the runner's
      time and memory. */
  function CheckParam(checker: Submission, tc: TestCase, runOut: Path, chkOut: Path, workDir: Path,
                      maxTime: int, maxMemory: int): RunParam {
    RunParam(workDir, CheckerBindings(checker, tc, runOut, chkOut), false, None, Some(CheckerArgs),
             maxTime * 2, maxMemory * 2, None, None, None)
  }

  /** The submission's run: untrusted, only its own artifact bound
      read-only, the runner's limits, the input file as standard input and
      two scratch files for its output. */
  function SubmitParam(s: Submission, tc: TestCase, runDir: Path, runOut: Path, runErr: Path,
                       maxTime: int, maxMemory: int): RunParam {
    RunParam(runDir, [FileBinding(FullFilePath(s), s.execute.file, ReadOnly)], false, None, None,
             maxTime, maxMemory, Some(tc.InputFile()), Some(runOut), Some(runErr))
  }

  /** What the checker's result file holds after its run: what the checker
      wrote there, or still nothing. */
  function ResultText(y: SandboxOutcome, chkOut: Path): string {
    if y.Exited? && chkOut in y.writes then y.writes[chkOut] else ""
  }

  /** The verdict `check` resolves with, given the checker's run and the
      head of its result file: a rejected run rejects as it is, and a
      JudgeError takes the head of the result file as its message. */
  function CheckVerdict(y: SandboxOutcome, head: string): (r: Outcome<Verdict>)
    ensures Submissions.Outcome(y).Threw? ==> r == Threw(Submissions.Outcome(y).error)
    ensures Submissions.Outcome(y).Done? ==>
              var c := Submissions.Outcome(y).value;
              && (r.Threw? <==> c.verdict != Accepted && c.exitCode == 3)
              && (r.Threw? ==> r.error == JudgeError(head))
              && (r.Done? ==> r == GetVerdict(c.verdict, c.exitCode))
    ensures r == Done(Accepted) <==> y.Exited? && y.report.Parsed? && y.report.result.verdict == Accepted
  {
    match Submissions.Outcome(y)
    case Threw(e) => Threw(e)
    case Done(c) =>
      match GetVerdict(c.verdict, c.exitCode)
      case Done(w) => Done(w)
      case Threw(_) => Threw(JudgeError(head))
  }

  /** A run with no redirections, untrusted, whose only read-write binding
      is `chkOut`, changes nothing but `chkOut`, which ends up holding what
      the process wrote there. */
  lemma CheckerRunFiles(files: map<Path, FileEntry>, dirs: set<Path>, sandbox: Sandbox, req: Request, chkOut: Path)
    requires req.stdin.None? && req.stdout.None? && req.stderr.None? && !req.trusted
    requires |req.bindings| == 5 && req.bindings[4] == FileBinding(chkOut, "result", ReadWrite)
    requires forall i :: 0 <= i < 4 ==> req.bindings[i].mode == ReadOnly
    requires chkOut in files && chkOut !in dirs && files[chkOut].content == ""
    ensures RunOutcome(files, dirs, sandbox, req) == Submissions.Outcome(sandbox(req))
    ensures RunFiles(files, dirs, sandbox, req)
            == files[chkOut := FileEntry(ResultText(sandbox(req), chkOut), files[chkOut].mode)]
  {
    var x := sandbox(req);
    var f := RunFiles(files, dirs, sandbox, req);
    var target := files[chkOut := FileEntry(ResultText(x, chkOut), files[chkOut].mode)];
    assert Outputs(req) == {};
    assert Writable(req, chkOut);
    forall q ensures EntryAt(f, q) == EntryAt(target, q) {
      if q == chkOut {
        if x.Exited? {
          assert f == Applied(files, dirs, req, x.writes);
        }
      } else {
        RunConfined(files, dirs, sandbox, req, q);
      }
    }
    MapExt(f, target);
  }

  /** The checker's run inside `check`, once its result file exists: the
      verdict from `getVerdict`, the head of the result file attached when a
      report is asked for, and the head of the result file as the message of
      a JudgeError; only the result file changes. */
  method RunChecker(fs: Fs, cfg: Config, sandbox: Sandbox, checker: Submission, param: RunParam, chkOut: Path,
                    report: bool, head: string -> string)
    returns (v: Outcome<Verdict>, checkerOut: Option<string>)
    requires param.stdin.None? && param.stdout.None? && param.stderr.None? && !param.trusted
    requires |param.bindings| == 5 && param.bindings[4] == FileBinding(chkOut, "result", ReadWrite)
    requires forall i :: 0 <= i < 4 ==> param.bindings[i].mode == ReadOnly
    requires chkOut in fs.files && chkOut !in fs.dirs && fs.files[chkOut].content == ""
    modifies fs
    ensures var y := sandbox(Resolve(checker, param));
            var text := ResultText(y, chkOut);
            && v == CheckVerdict(y, head(text))
            && checkerOut == (if report && Submissions.Outcome(y).Done? then Some(head(text)) else None)
            && fs.files == old(fs.files)[chkOut := FileEntry(text, old(fs.files)[chkOut].mode)]
            && fs.dirs == old(fs.dirs)
  {
    CheckerRunFiles(fs.files, fs.dirs, sandbox, Resolve(checker, param), chkOut);
    var res;
    ghost var call;
    res, call := Submissions.Run(fs, cfg, sandbox, checker, param);
    checkerOut := None;
    match res {
      case Threw(e) =>
        v := Threw(e);
      case Done(c) =>
        if report {
          var t := fs.ReadFile(chkOut);
          checkerOut := Some(head(t.value));
        }
        match GetVerdict(c.verdict, c.exitCode) {
          case Done(w) =>
            v := Done(w);
          case Threw(_) =>
            // `err instanceof JudgeError`: only getVerdict's error gets the message.
            var t := fs.ReadFile(chkOut);
            v := Threw(JudgeError(head(t.value)));
        }
    }
  }

  /** The checker's work directory, fresh when it is made, is apart from
      the scratch directory, whether that already existed or is made after
      it, and from the result file in it; so removing the work directory
      leaves every other file and directory as it was. */
  lemma WorkDirApart(files: map<Path, FileEntry>, dirs: set<Path>, scratch: set<Path>, made: bool,
                     wd: Path, od: Path, co: Path, e: FileEntry)
    requires Fresh(wd, files, dirs, scratch)
    requires made ==> Fresh(od, files, dirs + {wd}, {})
    requires !made ==> od in scratch
    requires Under(co, od) && co != od
    ensures od != wd && !Under(co, wd)
    ensures DirsWithout(dirs + {wd} + (if made then {od} else {}), wd) == dirs + (if made then {od} else {})
    ensures FilesWithout(files[co := e], wd) == files[co := e]
  {
    if made {
      SlashFreeNotUnder(od, wd);
    } else {
      FreshApart(wd, files, dirs, scratch, od);
    }
    if Under(co, wd) {
      UnderBoth(co, od, wd);
      if wd != od {
        UnderHasSlash(wd, od);
      }
    }
    forall q | q in dirs ensures !Under(q, wd) {
      FreshApart(wd, files, dirs, scratch, q);
    }
    var f := files[co := e];
    forall q ensures EntryAt(FilesWithout(f, wd), q) == EntryAt(f, q) {
      if q in files && q != co {
        FreshApart(wd, files, dirs, scratch, q);
      }
    }
    MapExt(FilesWithout(f, wd), f);
  }

  /** The part of `check` after its work directory and result file exist:
      the checker's run, then the removal of the work directory, which
      leaves the result file and the scratch directory in place. */
  method CheckAndRemove(fs: Fs, cfg: Config, sandbox: Sandbox, checker: Submission, tc: TestCase, runOut: Path,
                        co: Path, wd: Path, maxTime: int, maxMemory: int, report: bool, head: string -> string,
                        ghost files0: map<Path, FileEntry>, ghost dirs0: set<Path>, ghost scratch0: set<Path>,
                        ghost made: bool, ghost od: Path)
    returns (v: Outcome<Verdict>, checkerOut: Option<string>)
    requires Fresh(wd, files0, dirs0, scratch0)
    requires made ==> Fresh(od, files0, dirs0 + {wd}, {})
    requires !made ==> od in scratch0
    requires Under(co, od) && co != od
    requires fs.files == files0[co := FileEntry("", Some(ScratchMode))]
    requires fs.dirs == dirs0 + {wd} + (if made then {od} else {}) && co !in fs.dirs
    modifies fs
    ensures var y := sandbox(Resolve(checker, CheckParam(checker, tc, runOut, co, wd, maxTime, maxMemory)));
            var text := ResultText(y, co);
            && v == CheckVerdict(y, head(text))
            && checkerOut == (if report && Submissions.Outcome(y).Done? then Some(head(text)) else None)
            && fs.files == files0[co := FileEntry(text, Some(ScratchMode))]
            && fs.dirs == dirs0 + (if made then {od} else {})
  {
    v, checkerOut := RunChecker(fs, cfg, sandbox, checker, CheckParam(checker, tc, runOut, co, wd, maxTime, maxMemory),
                                co, report, head);
    ghost var text := fs.files[co].content;
    assert fs.files == files0[co := FileEntry(text, Some(ScratchMode))];
    fs.Rimraf(wd);
    WorkDirApart(files0, dirs0, scratch0, made, wd, od, co, FileEntry(text, Some(ScratchMode)));
  }

  /** The runner's fixed parts: the program judged, its checker and the
      limits. */
  datatype Job = Job(submission: Submission, checker: Submission, maxTime: int, maxMemory: int)

  /** An empty scratch file as `makeWriteFile` leaves it. */
  const Blank := FileEntry("", Some(ScratchMode))

  /** The content of a file, or nothing when it is absent. */
  function Contents(files: map<Path, FileEntry>, p: Path): string {
    if p in files then files[p].content else ""
  }

  /** A run that is untrusted, whose bindings are all read-only and whose
      output redirections already exist, adds no file and removes none. */
  lemma UntrustedRunKeys(files: map<Path, FileEntry>, dirs: set<Path>, sandbox: Sandbox, req: Request)
    requires !req.trusted && forall i :: 0 <= i < |req.bindings| ==> req.bindings[i].mode == ReadOnly
    requires forall p :: p in Outputs(req) ==> p in files
    ensures RunFiles(files, dirs, sandbox, req).Keys == files.Keys
  {
    var f := RunFiles(files, dirs, sandbox, req);
    forall q ensures q in f <==> q in files {
      assert !Writable(req, q);
      if q in Outputs(req) {
        var o := Redirect(files, dirs, req);
        assert q in o.files;
        if o.error.None? && sandbox(req).Exited? {
          var x := sandbox(req);
          var f1 := if Given(req.stdout) then Written(o.files, req.stdout.value, x.stdout) else o.files;
          var f2 := if Given(req.stderr) then Written(f1, req.stderr.value, x.stderr) else f1;
          assert q in f2;
          assert f == Applied(f2, dirs, req, x.writes);
          assert EntryAt(f, q) == EntryAt(f2, q);
        }
      } else {
        RunConfined(files, dirs, sandbox, req, q);
      }
    }
  }

  /** What one call of `run` ends with: its result, the files and
      directories it leaves, and whether `check` was called. */
  datatype Trace = Trace(out: Outcome<RunResult>, files: map<Path, FileEntry>, dirs: set<Path>, checked: bool)

  /** The submission's run request in `run`. */
  function SubmitRequest(job: Job, tc: TestCase, runDir: Path, od: Path, rOut: string, rErr: string): Request {
    Resolve(job.submission, SubmitParam(job.submission, tc, runDir, ScratchFile(od, rOut, "out"),
                                        ScratchFile(od, rErr, "err"), job.maxTime, job.maxMemory))
  }

  /** The checker's run request in `check`. */
  function CheckRequest(job: Job, tc: TestCase, workDir: Path, od: Path, rOut: string, rChk: string): Request {
    Resolve(job.checker, CheckParam(job.checker, tc, ScratchFile(od, rOut, "out"), ScratchFile(od, rChk, "chk"),
                                    workDir, job.maxTime, job.maxMemory))
  }

  /** Both scratch files of the submission could be made. */
  predicate SetUp(dirs0: set<Path>, od: Path, rOut: string, rErr: string) {
    ScratchFile(od, rOut, "out") !in dirs0 && ScratchFile(od, rErr, "err") !in dirs0
  }

  /** The files once both scratch files of the submission exist. */
  function ScratchReady(files0: map<Path, FileEntry>, od: Path, rOut: string, rErr: string): map<Path, FileEntry> {
    files0[ScratchFile(od, rOut, "out") := Blank][ScratchFile(od, rErr, "err") := Blank]
  }

  /** The end of `run` once the submission's result `c` (with its output
      attached when a report is asked for) is known: a result that is not
      Accepted is final; an Accepted one is checked in `workDir`, and the
      checker's verdict replaces it, or its failure rejects. */
  function Checked(files: map<Path, FileEntry>, dirs: set<Path>, c: RunResult, od: Path, workDir: Path,
                   sandbox: Sandbox, job: Job, tc: TestCase, report: bool, head: string -> string,
                   rOut: string, rChk: string): (t: Trace)
    ensures t.checked <==> c.verdict == Accepted
    ensures c.verdict != Accepted ==> t == Trace(Done(c), files, dirs, false)
    ensures forall q :: q != ScratchFile(od, rChk, "chk") ==> EntryAt(t.files, q) == EntryAt(files, q)
    ensures t.dirs == dirs + (if t.checked && ScratchFile(od, rChk, "chk") in dirs then {workDir} else {})
    ensures t.out.Done? ==>
              && t.out.value == c.(verdict := t.out.value.verdict, checkerOut := t.out.value.checkerOut)
              && (report && t.checked ==> t.out.value.checkerOut.Some?)
    ensures t.out.Done? && t.out.value.verdict == Accepted ==>
              && c.verdict == Accepted
              && var y := sandbox(CheckRequest(job, tc, workDir, od, rOut, rChk));
                 y.Exited? && y.report.Parsed? && y.report.result.verdict == Accepted
  {
    if c.verdict != Accepted then Trace(Done(c), files, dirs, false)
    else
      var chkOut := ScratchFile(od, rChk, "chk");
      if chkOut in dirs then Trace(Threw(IsDirectory("open", chkOut)), files, dirs + {workDir}, true)
      else
        var y := sandbox(CheckRequest(job, tc, workDir, od, rOut, rChk));
        var text := ResultText(y, chkOut);
        var f3 := files[chkOut := FileEntry(text, Some(ScratchMode))];
        match CheckVerdict(y, head(text))
        case Threw(e) => Trace(Threw(e), f3, dirs, true)
        case Done(w) =>
          Trace(Done(c.(verdict := w, checkerOut := if report then Some(head(text)) else c.checkerOut)), f3, dirs, true)
  }

  /** The part of `run` after both scratch files exist: the submission's
      run, then `Checked`, then the removal of the run directory. */
  function Submitted(start: map<Path, FileEntry>, dirs: set<Path>, runDir: Path, od: Path, workDir: Path,
                     sandbox: Sandbox, job: Job, tc: TestCase, report: bool, head: string -> string,
                     rOut: string, rErr: string, rChk: string): Trace
  {
    var req := SubmitRequest(job, tc, runDir, od, rOut, rErr);
    var f2 := RunFiles(start, dirs, sandbox, req);
    var t := match RunOutcome(start, dirs, sandbox, req)
             case Threw(e) => Trace(Threw(e), f2, dirs, false)
             case Done(r) =>
               var c := r.(stdout := if report then Some(head(Contents(f2, ScratchFile(od, rOut, "out")))) else r.stdout);
               Checked(f2, dirs, c, od, workDir, sandbox, job, tc, report, head, rOut, rChk);
    Trace(t.out, FilesWithout(t.files, runDir), DirsWithout(t.dirs, runDir), t.checked)
  }

  /** The directories left after the submission's run: the checker's work
      directory only when its result file could not be made, and without
      the run directory. */
  lemma SubmittedDirs(start: map<Path, FileEntry>, dirs: set<Path>, runDir: Path, od: Path, workDir: Path,
                      sandbox: Sandbox, job: Job, tc: TestCase, report: bool, head: string -> string,
                      rOut: string, rErr: string, rChk: string)
    ensures var t := Submitted(start, dirs, runDir, od, workDir, sandbox, job, tc, report, head, rOut, rErr, rChk);
            t.dirs == DirsWithout(dirs + (if t.checked && ScratchFile(od, rChk, "chk") in dirs then {workDir} else {}),
                                  runDir)
  {
  }

  /** `run(testcase, {returnReport})` from a filesystem `files0`/`dirs0`:
      the run directory `runDir` is made together with the scratch
      directory `od` (`made` is {od} when it is made now), a failure to
      make either scratch file of the submission rejects and leaks the run
      directory, and otherwise `Submitted` follows. */
  function Judged(files0: map<Path, FileEntry>, dirs0: set<Path>, made: set<Path>, od: Path, runDir: Path, workDir: Path,
                  sandbox: Sandbox, job: Job, tc: TestCase, report: bool, head: string -> string,
                  rOut: string, rErr: string, rChk: string): Trace
  {
    var runOut := ScratchFile(od, rOut, "out");
    var runErr := ScratchFile(od, rErr, "err");
    var d1 := dirs0 + {runDir} + made;
    if runOut in dirs0 then Trace(Threw(IsDirectory("open", runOut)), files0, d1, false)
    else if runErr in dirs0 then Trace(Threw(IsDirectory("open", runErr)), files0[runOut := Blank], d1, false)
    else Submitted(ScratchReady(files0, od, rOut, rErr), d1, runDir, od, workDir, sandbox, job, tc, report, head,
                   rOut, rErr, rChk)
  }

  /** The run directory, fresh when it is made, holds none of the files
      that exist before it or live in the scratch directory, and none of the
      directories made after it; so removing it removes only itself. */
  lemma RunDirApart(files0: map<Path, FileEntry>, dirs0: set<Path>, scratch0: set<Path>, made: bool,
                    rd: Path, od: Path, f: map<Path, FileEntry>, later: set<Path>)
    requires Fresh(rd, files0, dirs0, scratch0)
    requires made ==> Fresh(od, files0, dirs0 + {rd}, {})
    requires !made ==> od in scratch0
    requires forall q :: q in f ==> q in files0 || Under(q, od)
    requires forall q :: q in later ==> '/' !in q && |rd| < |q|
    ensures FilesWithout(f, rd) == f
    ensures DirsWithout(dirs0 + {rd} + (if made then {od} else {}) + later, rd)
            == dirs0 + (if made then {od} else {}) + later
  {
    if made {
      SlashFreeNotUnder(od, rd);
    } else {
      FreshApart(rd, files0, dirs0, scratch0, od);
    }
    forall q | q in f ensures !Under(q, rd) {
      if q in files0 {
        FreshApart(rd, files0, dirs0, scratch0, q);
      } else if Under(q, rd) {
        UnderBoth(q, od, rd);
        if od != rd && Under(rd, od) {
          UnderHasSlash(rd, od);
        }
      }
    }
    assert FilesWithout(f, rd).Keys == f.Keys;
    forall q | q in dirs0 ensures !Under(q, rd) {
      FreshApart(rd, files0, dirs0, scratch0, q);
    }
    forall q | q in later ensures !Under(q, rd) {
      SlashFreeNotUnder(q, rd);
    }
  }

  /** `run` changes no file outside the scratch directory: the test case,
      the programs and everything else stay as they were. */
  lemma JudgedConfined(files0: map<Path, FileEntry>, dirs0: set<Path>, made: set<Path>, od: Path, runDir: Path,
                       workDir: Path, sandbox: Sandbox, job: Job, tc: TestCase, report: bool, head: string -> string,
                       rOut: string, rErr: string, rChk: string, scratch0: set<Path>)
    requires Fresh(runDir, files0, dirs0, scratch0)
    ensures var t := Judged(files0, dirs0, made, od, runDir, workDir, sandbox, job, tc, report, head, rOut, rErr, rChk);
            forall q :: !Under(q, od) ==> EntryAt(t.files, q) == EntryAt(files0, q)
  {
    var t := Judged(files0, dirs0, made, od, runDir, workDir, sandbox, job, tc, report, head, rOut, rErr, rChk);
    if SetUp(dirs0, od, rOut, rErr) {
      var start := ScratchReady(files0, od, rOut, rErr);
      var d1 := dirs0 + {runDir} + made;
      var req := SubmitRequest(job, tc, runDir, od, rOut, rErr);
      var f2 := RunFiles(start, d1, sandbox, req);
      forall q | !Under(q, od) ensures EntryAt(t.files, q) == EntryAt(files0, q) {
        if q in files0 {
          FreshApart(runDir, files0, dirs0, scratch0, q);
        }
        if !Under(q, runDir) {
          assert !Writable(req, q);
          RunConfined(start, d1, sandbox, req, q);
          assert EntryAt(f2, q) == EntryAt(files0, q);
        }
      }
    }
  }

  /** The directories `run` leaves: the scratch directory, the run
      directory only when a scratch file of the submission could not be
      made, and the checker's work directory only when its result file
      could not be. */
  lemma JudgedDirs(files0: map<Path, FileEntry>, dirs0: set<Path>, made: set<Path>, od: Path, runDir: Path,
                   workDir: Path, sandbox: Sandbox, job: Job, tc: TestCase, report: bool, head: string -> string,
                   rOut: string, rErr: string, rChk: string, scratch0: set<Path>)
    requires Fresh(runDir, files0, dirs0, scratch0)
    requires made == {} ==> od in scratch0
    requires made != {} ==> made == {od} && Fresh(od, files0, dirs0 + {runDir}, {})
    requires '/' !in workDir && |runDir| < |workDir|
    ensures var t := Judged(files0, dirs0, made, od, runDir, workDir, sandbox, job, tc, report, head, rOut, rErr, rChk);
            t.dirs == dirs0 + made + (if SetUp(dirs0, od, rOut, rErr) then {} else {runDir})
                      + (if t.checked && ScratchFile(od, rChk, "chk") in dirs0 then {workDir} else {})
  {
    var t := Judged(files0, dirs0, made, od, runDir, workDir, sandbox, job, tc, report, head, rOut, rErr, rChk);
    if SetUp(dirs0, od, rOut, rErr) {
      var chkOut := ScratchFile(od, rChk, "chk");
      var d1 := dirs0 + {runDir} + made;
      assert chkOut in d1 <==> chkOut in dirs0 by {
        if made != {} {
          assert |chkOut| > |od|;
        }
        assert '/' in chkOut;
      }
      SubmittedDirs(ScratchReady(files0, od, rOut, rErr), d1, runDir, od, workDir, sandbox, job, tc, report, head,
                    rOut, rErr, rChk);
      assert (if made != {} then {od} else {}) == made;
      if t.checked && chkOut in d1 {
        RunDirApart(files0, dirs0, scratch0, made != {}, runDir, od, map[], {workDir});
      } else {
        RunDirApart(files0, dirs0, scratch0, made != {}, runDir, od, map[], {});
      }
    }
  }

  /** The verdict of `run`: `check` is called exactly when the submission
      ran and was Accepted; any other verdict of the submission is the
      result's; and the result is Accepted only when both the submission and
      the checker were. A scratch file that cannot be made rejects with
      Node's error. */
  lemma JudgedVerdict(files0: map<Path, FileEntry>, dirs0: set<Path>, made: set<Path>, od: Path, runDir: Path,
                      workDir: Path, sandbox: Sandbox, job: Job, tc: TestCase, report: bool, head: string -> string,
                      rOut: string, rErr: string, rChk: string)
    ensures var t := Judged(files0, dirs0, made, od, runDir, workDir, sandbox, job, tc, report, head, rOut, rErr, rChk);
            var o := RunOutcome(ScratchReady(files0, od, rOut, rErr), dirs0 + {runDir} + made, sandbox,
                                SubmitRequest(job, tc, runDir, od, rOut, rErr));
            && (!SetUp(dirs0, od, rOut, rErr) ==> t.out.Threw? && t.out.error.FsError? && !t.checked)
            && (t.checked <==> SetUp(dirs0, od, rOut, rErr) && o.Done? && o.value.verdict == Accepted)
            && (SetUp(dirs0, od, rOut, rErr) && o.Done? && o.value.verdict != Accepted ==>
                  t.out.Done? && t.out.value.verdict == o.value.verdict)
            && (t.out.Done? && t.out.value.verdict == Accepted ==>
                  && SetUp(dirs0, od, rOut, rErr) && o.Done? && o.value.verdict == Accepted
                  && var y := sandbox(CheckRequest(job, tc, workDir, od, rOut, rChk));
                     y.Exited? && y.report.Parsed? && y.report.result.verdict == Accepted)
  {
    if SetUp(dirs0, od, rOut, rErr) {
      var start := ScratchReady(files0, od, rOut, rErr);
      var d1 := dirs0 + {runDir} + made;
      var req := SubmitRequest(job, tc, runDir, od, rOut, rErr);
      var f2 := RunFiles(start, d1, sandbox, req);
      match RunOutcome(start, d1, sandbox, req)
      case Threw(e) =>
      case Done(r) =>
        var c := r.(stdout := if report then Some(head(Contents(f2, ScratchFile(od, rOut, "out")))) else r.stdout);
        var ti := Checked(f2, d1, c, od, workDir, sandbox, job, tc, report, head, rOut, rChk);
        assert c.verdict == r.verdict;
    }
  }

  /** A test case without its input file makes `run` reject with a
      TestCaseError naming it, and no program runs. */
  lemma JudgedMissingInput(files0: map<Path, FileEntry>, dirs0: set<Path>, made: set<Path>, od: Path, runDir: Path,
                           workDir: Path, sandbox: Sandbox, job: Job, tc: TestCase, report: bool, head: string -> string,
                           rOut: string, rErr: string, rChk: string)
    requires SetUp(dirs0, od, rOut, rErr)
    requires tc.InputFile() !in files0 && tc.InputFile() !in dirs0
    requires made == {} || made == {od}
    requires !Under(tc.InputFile(), od) && tc.InputFile() != runDir
    ensures var t := Judged(files0, dirs0, made, od, runDir, workDir, sandbox, job, tc, report, head, rOut, rErr, rChk);
            t.out == Threw(TestCaseError(NoEntry("open", tc.InputFile()).message)) && !t.checked
  {
    var start := ScratchReady(files0, od, rOut, rErr);
    var d1 := dirs0 + {runDir} + made;
    var req := SubmitRequest(job, tc, runDir, od, rOut, rErr);
    assert tc.InputFile() !in start;
    assert tc.InputFile() !in d1;
    MissingStdin(start, d1, sandbox, req);
  }

  /** With a report, the output attached to a result is the head of what
      the submission printed. */
  lemma JudgedStdout(files0: map<Path, FileEntry>, dirs0: set<Path>, made: set<Path>, od: Path, runDir: Path,
                     workDir: Path, sandbox: Sandbox, job: Job, tc: TestCase, head: string -> string,
                     rOut: string, rErr: string, rChk: string)
    ensures var t := Judged(files0, dirs0, made, od, runDir, workDir, sandbox, job, tc, true, head, rOut, rErr, rChk);
            t.out.Done? ==> t.out.value.stdout == Some(head(sandbox(SubmitRequest(job, tc, runDir, od, rOut, rErr)).stdout))
  {
    if SetUp(dirs0, od, rOut, rErr) {
      SubmittedStdout(ScratchReady(files0, od, rOut, rErr), dirs0 + {runDir} + made, runDir, od, workDir, sandbox,
                      job, tc, head, rOut, rErr, rChk);
    }
  }

  /** `JudgedStdout` once both scratch files exist. */
  lemma SubmittedStdout(start: map<Path, FileEntry>, dirs: set<Path>, runDir: Path, od: Path, workDir: Path,
                        sandbox: Sandbox, job: Job, tc: TestCase, head: string -> string,
                        rOut: string, rErr: string, rChk: string)
    ensures var t := Submitted(start, dirs, runDir, od, workDir, sandbox, job, tc, true, head, rOut, rErr, rChk);
            t.out.Done? ==> t.out.value.stdout == Some(head(sandbox(SubmitRequest(job, tc, runDir, od, rOut, rErr)).stdout))
  {
    var t := Submitted(start, dirs, runDir, od, workDir, sandbox, job, tc, true, head, rOut, rErr, rChk);
    if t.out.Done? {
      var runOut := ScratchFile(od, rOut, "out");
      var runErr := ScratchFile(od, rErr, "err");
      assert runOut[|runOut| - 1] == 't' && runErr[|runErr| - 1] == 'r';
      var req := SubmitRequest(job, tc, runDir, od, rOut, rErr);
      var f2 := RunFiles(start, dirs, sandbox, req);
      var o := RunOutcome(start, dirs, sandbox, req);
      assert o.Done?;
      assert !Writable(req, runOut) && !Writable(req, runErr);
      ExitedOutputs(start, dirs, sandbox, req);
      assert Contents(f2, runOut) == sandbox(req).stdout;
      var c := o.value.(stdout := Some(head(Contents(f2, runOut))));
      var ti := Checked(f2, dirs, c, od, workDir, sandbox, job, tc, true, head, rOut, rChk);
      assert t.out == ti.out;
    }
  }

  class Runner {
    const submission: Submission
    const checker: Submission
    const maxTime: int
    const maxMemory: int
    var outDir: Option<Path>

    /** `new Runner(submission, checker, maxTime, maxMemory)`: no scratch
        directory yet. */
    constructor (submission: Submission, checker: Submission, maxTime: int, maxMemory: int)
      ensures this.submission == submission && this.checker == checker
      ensures this.maxTime == maxTime && this.maxMemory == maxMemory
      ensures outDir.None?
    {
      this.submission := submission;
      this.checker := checker;
      this.maxTime := maxTime;
      this.maxMemory := maxMemory;
      outDir := None;
    }

    /** The scratch directory as a set, for the names a new directory
        must stay clear of. */
    function Scratch(): set<Path>
      reads this
    {
      if outDir.Some? then {outDir.value} else {}
    }

    /** `makeWriteFile(extension)`, with `randomString()` as `random`: the
        scratch directory is made on first use only, and an empty file with
        permissions 0766 is made in it. */
    method MakeWriteFile(fs: Fs, extension: string, random: string, avoid: set<Path>) returns (r: Outcome<Path>)
      modifies this, fs
      ensures outDir.Some?
      ensures old(outDir).Some? ==> outDir == old(outDir) && fs.dirs == old(fs.dirs)
      ensures old(outDir).None? ==>
                && fs.dirs == old(fs.dirs) + {outDir.value}
                && Fresh(outDir.value, old(fs.files), old(fs.dirs), avoid)
      ensures var file := ScratchFile(outDir.value, random, extension);
              && (file in old(fs.dirs) ==> r == Threw(IsDirectory("open", file)) && fs.files == old(fs.files))
              && (file !in old(fs.dirs) ==>
                    && r == Done(file) && file !in fs.dirs
                    && fs.files == old(fs.files)[file := FileEntry("", Some(ScratchMode))])
    {
      if outDir.None? {
        var d := fs.MakeTempDir(avoid);
        outDir := Some(d);
      }
      var file := ScratchFile(outDir.value, random, extension);
      var st := fs.WriteFile(file, "");
      if st.Failed? {
        r := Threw(st.error);
        return;
      }
      st := fs.Chmod(file, ScratchMode);
      r := Done(file);
    }

    /** `clear()`: forgets the scratch directory and removes it; without one
        it does nothing, so clearing twice is clearing once. */
    method Clear(fs: Fs)
      modifies this, fs
      ensures outDir.None?
      ensures old(outDir).None? ==> fs.files == old(fs.files) && fs.dirs == old(fs.dirs)
      ensures old(outDir).Some? ==>
                && fs.files == FilesWithout(old(fs.files), old(outDir).value)
                && fs.dirs == DirsWithout(old(fs.dirs), old(outDir).value)
    {
      if outDir.Some? {
        var d := outDir.value;
        outDir := None;
        fs.Rimraf(d);
      }
    }
  
    /** `check(testcase, runOut, result?)`, with `readFileHead` as `head`
        applied to the file's content: the checker runs in a fresh work
        directory on the input, the submission's output and the answer, and
        writes its verdict file in the scratch directory; nothing outside
        the scratch directory changes, and the work directory is removed
        once the checker has run. */
    method Check(fs: Fs, cfg: Config, sandbox: Sandbox, tc: TestCase, runOut: Path, report: bool,
                 head: string -> string, random: string)
      returns (v: Outcome<Verdict>, checkerOut: Option<string>, ghost workDir: Path, ghost chkOut: Path)
      modifies this, fs
      ensures outDir.Some? && (old(outDir).Some? ==> outDir == old(outDir))
      ensures chkOut == ScratchFile(outDir.value, random, "chk")
      ensures Fresh(workDir, old(fs.files), old(fs.dirs), old(Scratch()))
      ensures chkOut in old(fs.dirs) ==>
                && v == Threw(IsDirectory("open", chkOut)) && checkerOut.None?
                && fs.files == old(fs.files)
                && fs.dirs == old(fs.dirs) + {workDir} + (if old(outDir).None? then {outDir.value} else {})
      ensures chkOut !in old(fs.dirs) ==>
                var y := sandbox(Resolve(checker, CheckParam(checker, tc, runOut, chkOut, workDir, maxTime, maxMemory)));
                var text := ResultText(y, chkOut);
                && v == CheckVerdict(y, head(text))
                && checkerOut == (if report && Submissions.Outcome(y).Done? then Some(head(text)) else None)
                && fs.files == old(fs.files)[chkOut := FileEntry(text, Some(ScratchMode))]
                && fs.dirs == old(fs.dirs) + (if old(outDir).None? then {outDir.value} else {})
    {
      ghost var files0, dirs0, scratch0, made := fs.files, fs.dirs, Scratch(), outDir.None?;
      var wd := fs.MakeTempDir(Scratch());
      workDir := wd;
      var mk := MakeWriteFile(fs, "chk", random, Scratch());
      ghost var od := outDir.value;
      chkOut := ScratchFile(od, random, "chk");
      if mk.Threw? {
        v := Threw(mk.error);
        checkerOut := None;
        return;
      }
      var co := mk.value;
      v, checkerOut := CheckAndRemove(fs, cfg, sandbox, checker, tc, runOut, co, wd, maxTime, maxMemory, report, head,
                                      files0, dirs0, scratch0, made, od);
    }

    /** The end of `run` once the submission's result is known: `check`
        on Accepted. */
    method Settle(fs: Fs, cfg: Config, sandbox: Sandbox, tc: TestCase, report: bool, head: string -> string,
                  c: RunResult, runOut: Path, rOut: string, rChk: string)
      returns (out: Outcome<RunResult>, ghost workDir: Path, ghost checked: bool)
      requires outDir.Some? && runOut == ScratchFile(outDir.value, rOut, "out")
      modifies this, fs
      ensures outDir == old(outDir)
      ensures checked ==> Fresh(workDir, old(fs.files), old(fs.dirs), {outDir.value})
      ensures Trace(out, fs.files, fs.dirs, checked)
              == Checked(old(fs.files), old(fs.dirs), c, outDir.value, workDir, sandbox,
                         Job(submission, checker, maxTime, maxMemory), tc, report, head, rOut, rChk)
    {
      workDir, checked := runOut, false;
      if c.verdict != Accepted {
        out := Done(c);
        return;
      }
      var v, checkerOut, wd, chkOut := Check(fs, cfg, sandbox, tc, runOut, report, head, rChk);
      workDir, checked := wd, true;
      if v.Threw? {
        out := Threw(v.error);
      } else {
        out := Done(c.(verdict := v.value, checkerOut := if report then checkerOut else c.checkerOut));
      }
    }

    /** The part of `run` after both scratch files exist. */
    method Submit(fs: Fs, cfg: Config, sandbox: Sandbox, tc: TestCase, report: bool, head: string -> string,
                  rd: Path, runOut: Path, runErr: Path, rOut: string, rErr: string, rChk: string,
                  ghost files0: map<Path, FileEntry>, ghost dirs0: set<Path>, ghost scratch0: set<Path>, ghost made: bool)
      returns (out: Outcome<RunResult>, ghost workDir: Path, ghost checked: bool)
      requires outDir.Some? && runOut == ScratchFile(outDir.value, rOut, "out") && runErr == ScratchFile(outDir.value, rErr, "err")
      requires Fresh(rd, files0, dirs0, scratch0)
      requires made ==> Fresh(outDir.value, files0, dirs0 + {rd}, {})
      requires !made ==> outDir.value in scratch0
      requires SetUp(dirs0, outDir.value, rOut, rErr)
      requires fs.files == ScratchReady(files0, outDir.value, rOut, rErr)
      requires fs.dirs == dirs0 + {rd} + (if made then {outDir.value} else {})
      modifies this, fs
      ensures outDir == old(outDir)
      ensures checked ==> Fresh(workDir, old(fs.files), old(fs.dirs), {outDir.value})
      ensures Trace(out, fs.files, fs.dirs, checked)
              == Submitted(old(fs.files), old(fs.dirs), rd, outDir.value, workDir, sandbox,
                           Job(submission, checker, maxTime, maxMemory), tc, report, head, rOut, rErr, rChk)
    {
      ghost var od := outDir.value;
      var res := RunSubmission(fs, cfg, sandbox, tc, report, head, rd, runOut, runErr, rOut, rErr);
      workDir, checked := rd, false;
      if res.Threw? {
        out := res;
      } else {
        ghost var files2, dirs2 := fs.files, fs.dirs;
        out, workDir, checked := Settle(fs, cfg, sandbox, tc, report, head, res.value, runOut, rOut, rChk);
        if checked {
          FreshFewer(workDir, files2, dirs2, {od}, old(fs.files), old(fs.dirs));
        }
      }
      fs.Rimraf(rd);
    }

    /** The submission's run in `run`, with its standard output read back
        as the result's `stdout` when a report is asked for. The run keeps
        the set of files. */
    method RunSubmission(fs: Fs, cfg: Config, sandbox: Sandbox, tc: TestCase, report: bool, head: string -> string,
                         rd: Path, runOut: Path, runErr: Path, rOut: string, rErr: string)
      returns (res: Outcome<RunResult>)
      requires outDir.Some? && runOut == ScratchFile(outDir.value, rOut, "out") && runErr == ScratchFile(outDir.value, rErr, "err")
      requires runOut in fs.files && runErr in fs.files
      modifies fs
      ensures fs.dirs == old(fs.dirs)
      ensures var req := SubmitRequest(Job(submission, checker, maxTime, maxMemory), tc, rd, outDir.value, rOut, rErr);
              && fs.files == RunFiles(old(fs.files), old(fs.dirs), sandbox, req)
              && fs.files.Keys == old(fs.files).Keys
              && res == match RunOutcome(old(fs.files), old(fs.dirs), sandbox, req)
                        case Threw(e) => Threw(e)
                        case Done(r) => Done(r.(stdout := if report then Some(head(Contents(fs.files, runOut))) else r.stdout))
    {
      ghost var req := SubmitRequest(Job(submission, checker, maxTime, maxMemory), tc, rd, outDir.value, rOut, rErr);
      UntrustedRunKeys(fs.files, fs.dirs, sandbox, req);
      ghost var call;
      res, call := Submissions.Run(fs, cfg, sandbox, submission,
                                   SubmitParam(submission, tc, rd, runOut, runErr, maxTime, maxMemory));
      if res.Done? && report {
        var text := fs.ReadFile(runOut);
        res := Done(res.value.(stdout := Some(head(text.value))));
      }
    }

    /** `run(testcase, {returnReport})`, with `randomString()`'s three draws
        as `rOut`, `rErr` and `rChk`: what it resolves or rejects with and
        what it leaves on disk are `Judged`'s. */
    method Run(fs: Fs, cfg: Config, sandbox: Sandbox, tc: TestCase, report: bool, head: string -> string,
               rOut: string, rErr: string, rChk: string)
      returns (out: Outcome<RunResult>, ghost runDir: Path, ghost workDir: Path, ghost checked: bool)
      modifies this, fs
      ensures outDir.Some? && (old(outDir).Some? ==> outDir == old(outDir))
      ensures Fresh(runDir, old(fs.files), old(fs.dirs), old(Scratch()) + {tc.InputFile(), tc.AnswerFile()})
      ensures old(outDir).None? ==> Fresh(outDir.value, old(fs.files), old(fs.dirs) + {runDir}, {})
      ensures checked ==> Fresh(workDir, old(fs.files), old(fs.dirs) + {runDir}, {outDir.value})
      ensures Trace(out, fs.files, fs.dirs, checked)
              == Judged(old(fs.files), old(fs.dirs), if old(outDir).None? then {outDir.value} else {}, outDir.value,
                        runDir, workDir, sandbox, Job(submission, checker, maxTime, maxMemory), tc, report, head,
                        rOut, rErr, rChk)
    {
      ghost var files0, dirs0, scratch0 := fs.files, fs.dirs, Scratch() + {tc.InputFile(), tc.AnswerFile()};
      ghost var made := outDir.None?;
      var rd := fs.MakeTempDir(Scratch() + {tc.InputFile(), tc.AnswerFile()});
      runDir, workDir, checked := rd, rd, false;
      var mkOut := MakeWriteFile(fs, "out", rOut, {});
      ghost var od := outDir.value;
      if mkOut.Threw? {
        out := Threw(mkOut.error);
        return;
      }
      var runOut := mkOut.value;
      var mkErr := MakeWriteFile(fs, "err", rErr, {});
      if mkErr.Threw? {
        out := Threw(mkErr.error);
        return;
      }
      var runErr := mkErr.value;
      out, workDir, checked := Submit(fs, cfg, sandbox, tc, report, head, rd, runOut, runErr, rOut, rErr, rChk,
                                      files0, dirs0, scratch0, made);
    }
  }
}