/** A program the judge compiles and runs under the isolation supervisor
    (nsjail): its artifact location, the execute command with the artifact
    name filled in, the supervisor's argument list, one sandboxed run, and the
    multi-step compile. */
module Submissions {
  import opened Common
  import opened Files
  import opened Languages

  /** Where the artifact lives and how to start it. */
  datatype Execute = Execute(file: string, dir: Path, command: string, args: seq<string>)

  /** A program of some role; nothing in it changes after construction. */
  datatype Submission = Submission(lang: string, config: LangConfig, role: Role, execute: Execute)

  /** The `{ file, dir }` options of the constructor. */
  datatype Location = Location(file: string, dir: Path)

  // ---------------------------------------------------------------------
  // Construction
  // ---------------------------------------------------------------------

  /** The artifact's file name: the given one, or `<random>.<extension>`. */
  function ArtifactName(config: LangConfig, options: Option<Location>, random: string): string {
    if options.Some? then options.value.file else random + "." + config.compiledExtension
  }

  /** Each execute argument with its first `${executableFile}` replaced. */
  function SubstituteExecutable(args: seq<string>, fileName: string): (r: seq<string>)
    ensures |r| == |args|
    ensures forall i :: 0 <= i < |args| ==> r[i] == ReplaceFirst(args[i], ExecutableFile, fileName)
  {
    seq(|args|, i requires 0 <= i < |args| => ReplaceFirst(args[i], ExecutableFile, fileName))
  }

  /** `new Submission(lang, type, options)`, with `randomString()` as the
      parameter `random`. */
  function New(table: map<string, LangConfig>, cfg: Config, lang: string, role: Role,
               options: Option<Location>, random: string): (r: Outcome<Submission>)
    ensures r.Done? <==> lang in table
    ensures r.Threw? ==> r == Threw(SystemError("Unsupported language <" + lang + ">"))
    ensures r.Done? ==>
              && r.value.lang == lang && r.value.role == role && r.value.config == table[lang]
              && r.value.execute.file == ArtifactName(table[lang], options, random)
              && r.value.execute.dir == (if options.Some? then options.value.dir else cfg.subPath)
  {
    match Lookup(table, lang)
    case Threw(e) => Threw(e)
    case Done(config) =>
      var fileName := ArtifactName(config, options, random);
      Done(Submission(lang, config, role, Execute(
        fileName,
        if options.Some? then options.value.dir else cfg.subPath,
        ReplaceFirst(config.executeCommand, ExecutableFile, fileName),
        SubstituteExecutable(config.executeArgs, fileName))))
  }

  /** Substitution replaces only the first placeholder of the command and of
      each argument, keeps the argument list's length and order, and for a
      built-in profile puts the artifact name into the command line. */
  lemma NewExecuteSpec(table: map<string, LangConfig>, cfg: Config, lang: string, role: Role,
                       options: Option<Location>, random: string, i: nat)
    requires lang in table
    requires i < |table[lang].executeArgs|
    ensures var s := New(table, cfg, lang, role, options, random).value;
            && s.execute.command == ReplaceFirst(table[lang].executeCommand, ExecutableFile, s.execute.file)
            && |s.execute.args| == |table[lang].executeArgs|
            && s.execute.args[i] == ReplaceFirst(table[lang].executeArgs[i], ExecutableFile, s.execute.file)
            && (table[lang].executeArgs[i] == ExecutableFile ==> s.execute.args[i] == s.execute.file)
  {
    var f := New(table, cfg, lang, role, options, random).value.execute.file;
    if table[lang].executeArgs[i] == ExecutableFile {
      assert OccursAt(ExecutableFile, ExecutableFile, 0);
      assert IndexOf(ExecutableFile, ExecutableFile) == Some(0);
    }
  }

  /** For every built-in language the substituted command or one of the
      substituted arguments carries the artifact name. */
  lemma BuiltinExecuteNamesArtifact(cfg: Config, lang: string, role: Role, options: Option<Location>, random: string)
    requires lang in Builtin()
    ensures var s := New(Builtin(), cfg, lang, role, options, random).value;
            Contains(s.execute.command, s.execute.file) || s.execute.file in s.execute.args
  {
    var c := Builtin()[lang];
    var s := New(Builtin(), cfg, lang, role, options, random).value;
    ExecutableFileNamed(lang);
    if Contains(c.executeCommand, ExecutableFile) {
      ReplaceFirstInserts(c.executeCommand, ExecutableFile, s.execute.file);
    } else {
      var i :| 0 <= i < |c.executeArgs| && c.executeArgs[i] == ExecutableFile;
      NewExecuteSpec(Builtin(), cfg, lang, role, options, random, i);
      assert s.execute.args[i] == s.execute.file;
    }
  }

  /** `fullFilePath`. */
  function FullFilePath(s: Submission): (p: Path)
    ensures Under(p, s.execute.dir)
  {
    Join(s.execute.dir, s.execute.file)
  }

  // ---------------------------------------------------------------------
  // The supervisor's argument list
  // ---------------------------------------------------------------------

  /** An element of the argument list: the source mixes strings and numbers. */
  datatype Arg = Str(s: string) | Num(n: int)

  function Strs(ss: seq<string>): (r: seq<Arg>)
    ensures |r| == |ss| && forall i :: 0 <= i < |ss| ==> r[i] == Str(ss[i])
  {
    seq(|ss|, i requires 0 <= i < |ss| => Str(ss[i]))
  }

  /** `envArgs`: `-E name` for each forwarded variable, in order (a left fold). */
  function EnvArgs(env: seq<string>): (r: seq<string>)
    ensures |r| == 2 * |env|
    ensures forall i :: 0 <= i < |env| ==> r[2 * i] == "-E" && r[2 * i + 1] == env[i]
  {
    if env == [] then [] else EnvArgs(env[..|env| - 1]) + ["-E", env[|env| - 1]]
  }

  /** The chroot, identity, report paths and fixed read-only mounts, then the
      work directory: `-B` when trusted, `-R` otherwise. */
  function BaseArgs(cfg: Config, workDir: Path, rootDir: Path, infoDir: Path, trusted: bool): (r: seq<Arg>)
    ensures |r| == 27
  {
    [Str("-Mo"), Str("--chroot"), Str(rootDir),
     Str("--user"), Num(if trusted then cfg.compilerUserId else cfg.runUserId),
     Str("--group"), Num(if trusted then cfg.compilerGroupId else cfg.runGroupId),
     Str("--log"), Str(Join(infoDir, "log")),
     Str("--usage"), Str(Join(infoDir, "usage")),
     Str("-R"), Str("/bin"), Str("-R"), Str("/lib"), Str("-R"), Str("/lib64"),
     Str("-R"), Str("/usr"), Str("-R"), Str("/sbin"), Str("-R"), Str("/dev"),
     Str("-R"), Str("/etc"),
     Str(if trusted then "-B" else "-R"), Str(workDir + ":/app")]
  }

  /** The resource ceilings. */
  function LimitArgs(cfg: Config, maxTime: int, maxMemory: int): (r: seq<Arg>)
    ensures |r| == 16
  {
    [Str("--cgroup_pids_max"), Num(64),
     Str("--cgroup_cpu_ms_per_sec"), Num(1000),
     Str("--cgroup_mem_max"), Num((maxMemory + 32) * 1024 * 1024),
     Str("--time_limit"), Num(maxTime * 2 + 1),
     Str("--rlimit_cpu"), Num(maxTime + 1),
     Str("--rlimit_as"), Str("inf"),
     Str("--rlimit_stack"), Num(if maxMemory + 32 >= 256 then maxMemory + 32 else 256),
     Str("--rlimit_fsize"), Num(cfg.outputLimit)]
  }

  function BindingPair(b: FileBinding): seq<Arg> {
    [Str(Flag(b.mode)), Str(b.src + ":/app/" + b.dst)]
  }

  /** The `extraFiles` list: one `(mode, src:/app/dst)` pair per binding. */
  function BindingArgs(bindings: seq<FileBinding>): (r: seq<Arg>)
    ensures |r| == 2 * |bindings|
    ensures forall i :: 0 <= i < |bindings| ==> r[2 * i..2 * i + 2] == BindingPair(bindings[i])
  {
    if bindings == [] then []
    else
      var n := |bindings| - 1;
      var r := BindingArgs(bindings[..n]) + BindingPair(bindings[n]);
      assert forall i :: 0 <= i < n ==> bindings[..n][i] == bindings[i];
      r
  }

  /** The whole supervisor argument list before the command. */
  function NsjailArgs(cfg: Config, workDir: Path, rootDir: Path, infoDir: Path, trusted: bool,
                      bindings: seq<FileBinding>, maxTime: int, maxMemory: int): seq<Arg> {
    BaseArgs(cfg, workDir, rootDir, infoDir, trusted)
    + BindingArgs(bindings)
    + [Str("-D"), Str("/app")]
    + LimitArgs(cfg, maxTime, maxMemory)
    + Strs(EnvArgs(cfg.env))
    + [Str("--")]
  }

  /** `buildNsjailArgs`: the bindings are pushed one pair at a time. */
  method BuildNsjailArgs(cfg: Config, workDir: Path, rootDir: Path, infoDir: Path, trusted: bool,
                         bindings: seq<FileBinding>, maxTime: int, maxMemory: int) returns (args: seq<Arg>)
    ensures args == NsjailArgs(cfg, workDir, rootDir, infoDir, trusted, bindings, maxTime, maxMemory)
  {
    var nsjailArgs := BaseArgs(cfg, workDir, rootDir, infoDir, trusted);
    var limitArgs := LimitArgs(cfg, maxTime, maxMemory);
    var extraFiles: seq<Arg> := [];
    for i := 0 to |bindings|
      invariant extraFiles == BindingArgs(bindings[..i])
    {
      assert bindings[..i + 1][..i] == bindings[..i];
      extraFiles := extraFiles + [Str(Flag(bindings[i].mode)), Str(bindings[i].src + ":/app/" + bindings[i].dst)];
    }
    assert bindings[..|bindings|] == bindings;
    args := nsjailArgs + extraFiles + [Str("-D"), Str("/app")] + limitArgs + Strs(EnvArgs(cfg.env)) + [Str("--")];
  }

  /** The layout of the list: the base part, one pair per binding in order
      (see `BindingArgs`), `-D /app`, the limits, one `-E name` pair per
      forwarded variable (see `EnvArgs`), and `--` last. */
  lemma NsjailArgsLayout(cfg: Config, workDir: Path, rootDir: Path, infoDir: Path, trusted: bool,
                         bindings: seq<FileBinding>, maxTime: int, maxMemory: int)
    ensures var args := NsjailArgs(cfg, workDir, rootDir, infoDir, trusted, bindings, maxTime, maxMemory);
            var k := 27 + 2 * |bindings|;
            && |args| == k + 2 + 16 + 2 * |cfg.env| + 1
            && args[..27] == BaseArgs(cfg, workDir, rootDir, infoDir, trusted)
            && args[27..k] == BindingArgs(bindings)
            && args[k] == Str("-D") && args[k + 1] == Str("/app")
            && args[k + 2..k + 18] == LimitArgs(cfg, maxTime, maxMemory)
            && args[k + 18..|args| - 1] == Strs(EnvArgs(cfg.env))
            && args[|args| - 1] == Str("--")
  {
    var base := BaseArgs(cfg, workDir, rootDir, infoDir, trusted);
    var bs := BindingArgs(bindings);
    var lim := LimitArgs(cfg, maxTime, maxMemory);
    var env := Strs(EnvArgs(cfg.env));
    assert NsjailArgs(cfg, workDir, rootDir, infoDir, trusted, bindings, maxTime, maxMemory)
        == base + bs + [Str("-D"), Str("/app")] + lim + env + [Str("--")];
    Sections(base, bs, lim, env);
  }

  lemma Sections(base: seq<Arg>, bs: seq<Arg>, lim: seq<Arg>, env: seq<Arg>)
    requires |base| == 27 && |lim| == 16
    ensures var args := base + bs + [Str("-D"), Str("/app")] + lim + env + [Str("--")];
            var k := 27 + |bs|;
            && |args| == k + 2 + 16 + |env| + 1
            && args[..27] == base && args[27..k] == bs
            && args[k] == Str("-D") && args[k + 1] == Str("/app")
            && args[k + 2..k + 18] == lim
            && args[k + 18..|args| - 1] == env
            && args[|args| - 1] == Str("--")
  {
    var k := 27 + |bs|;
    var x1 := base + bs;
    var x2 := x1 + [Str("-D"), Str("/app")];
    var x3 := x2 + lim;
    var x4 := x3 + env;
    var args := x4 + [Str("--")];
    assert args[..27] == x1[..27] == base;
    assert args[27..k] == x1[27..k] == bs;
    assert args[k + 2..k + 18] == x3[k + 2..k + 18] == lim;
    assert args[k + 18..|args| - 1] == x4[k + 18..] == env;
  }

  /** The trust tier picks the compiler identity and a writable work
      directory, or the runner identity and a read-only one. */
  lemma TrustTier(cfg: Config, workDir: Path, rootDir: Path, infoDir: Path, trusted: bool)
    ensures var base := BaseArgs(cfg, workDir, rootDir, infoDir, trusted);
            && base[3] == Str("--user") && base[5] == Str("--group")
            && (trusted ==> base[4] == Num(cfg.compilerUserId) && base[6] == Num(cfg.compilerGroupId) && base[25] == Str("-B"))
            && (!trusted ==> base[4] == Num(cfg.runUserId) && base[6] == Num(cfg.runGroupId) && base[25] == Str("-R"))
            && base[26] == Str(workDir + ":/app")
            && forall i :: 11 <= i < 25 && i % 2 == 1 ==> base[i] == Str("-R")
  {
  }

  /** For any time limit of at least 1 s and any non-negative memory limit (so also for
      the checker's doubled limits): the CPU rlimit is one
      second past the limit and the wall-clock kill comes later still; the
      memory ceiling is the limit plus 32 MiB, in bytes; the stack rlimit is
      at least that ceiling in MiB and at least 256. */
  lemma LimitsSpec(cfg: Config, maxTime: int, maxMemory: int)
    requires 1 <= maxTime && 0 <= maxMemory
    ensures var lim := LimitArgs(cfg, maxTime, maxMemory);
            && lim[1] == Num(64) && lim[3] == Num(1000)
            && lim[5].n == (maxMemory + 32) * 1048576
            && maxTime < lim[9].n < lim[7].n
            && lim[7].n == 2 * maxTime + 1
            && lim[11] == Str("inf")
            && lim[13].n >= maxMemory + 32 && lim[13].n >= 256
            && (lim[13].n == maxMemory + 32 || lim[13].n == 256)
            && lim[15] == Num(cfg.outputLimit)
  {
  }

  // ---------------------------------------------------------------------
  // One sandboxed run
  // ---------------------------------------------------------------------

  /** `ISubmissionRunParam`: an absent command or argument list means the
      program's own execute command and arguments. */
  datatype RunParam = RunParam(
    workDir: Path,
    bindings: seq<FileBinding>,
    trusted: bool,
    command: Option<string>,
    args: Option<seq<string>>,
    maxTime: int,
    maxMemory: int,
    stdin: Option<Path>,
    stdout: Option<Path>,
    stderr: Option<Path>)

  /** A run with every default filled in. */
  datatype Request = Request(
    workDir: Path,
    bindings: seq<FileBinding>,
    trusted: bool,
    command: string,
    args: seq<string>,
    maxTime: int,
    maxMemory: int,
    stdin: Option<Path>,
    stdout: Option<Path>,
    stderr: Option<Path>)

  function Resolve(s: Submission, p: RunParam): (req: Request)
    ensures req.command == (if p.command.Some? then p.command.value else s.execute.command)
    ensures req.args == (if p.args.Some? then p.args.value else s.execute.args)
  {
    Request(p.workDir, p.bindings, p.trusted,
            if p.command.Some? then p.command.value else s.execute.command,
            if p.args.Some? then p.args.value else s.execute.args,
            p.maxTime, p.maxMemory, p.stdin, p.stdout, p.stderr)
  }

  /** What the supervisor's usage report decodes to. */
  datatype Report = Parsed(result: RunResult) | Unreadable(message: string)

  /** What happens when the supervised process is started: `exec` rejects
      (with or without a reason), or the process exits having written its
      standard output and error, possibly some files, and the usage report. */
  datatype SandboxOutcome =
    | ExecFailed(reason: Option<string>)
    | Exited(stdout: string, stderr: string, writes: map<Path, string>, report: Report)

  /** Process execution and the usage decoder, as one oracle. */
  type Sandbox = Request -> SandboxOutcome

  /** The supervisor's command line, with the scratch directories it used. */
  datatype Invocation = Invocation(program: Path, argv: seq<Arg>, rootDir: Path, infoDir: Path)

  /** A redirection is requested by a non-empty path. */
  predicate Given(p: Option<Path>) {
    p.Some? && p.value != ""
  }

  function Stdio(req: Request): set<Path> {
    (if Given(req.stdin) then {req.stdin.value} else {})
    + (if Given(req.stdout) then {req.stdout.value} else {})
    + (if Given(req.stderr) then {req.stderr.value} else {})
  }

  /** The redirections that are opened for writing. */
  function Outputs(req: Request): set<Path> {
    (if Given(req.stdout) then {req.stdout.value} else {})
    + (if Given(req.stderr) then {req.stderr.value} else {})
  }

  /** A path the sandboxed process can write: inside the work directory when
      it is mounted read-write, or the source of a read-write binding. */
  predicate Writable(req: Request, p: Path) {
    || (req.trusted && Under(p, req.workDir))
    || exists i :: 0 <= i < |req.bindings| && req.bindings[i].src == p && req.bindings[i].mode == ReadWrite
  }

  /** Every path the caller names. */
  function Named(req: Request): set<Path> {
    {req.workDir} + Stdio(req) + set i | 0 <= i < |req.bindings| :: req.bindings[i].src
  }

  /** The filesystem after `openRedirect` and the error it threw, if any. */
  datatype Opened = Opened(files: map<Path, FileEntry>, error: Option<Error>)

  /** `open(p, 'w')` when `p` is given. */
  function OpenW(files: map<Path, FileEntry>, dirs: set<Path>, p: Option<Path>): Opened {
    if !Given(p) then Opened(files, None)
    else if p.value in dirs then Opened(files, Some(TestCaseError(IsDirectory("open", p.value).message)))
    else Opened(Written(files, p.value, ""), None)
  }

  /** `openRedirect`: stdin must exist, then stdout and stderr are truncated
      in that order; the first failure becomes a TestCaseError and stops the
      rest (a truncation already done stays done). */
  function Redirect(files: map<Path, FileEntry>, dirs: set<Path>, req: Request): (o: Opened)
    ensures o.error.Some? ==> o.error.value.TestCaseError?
    ensures forall q :: q !in Outputs(req) ==> EntryAt(o.files, q) == EntryAt(files, q)
  {
    if Given(req.stdin) && req.stdin.value !in files && req.stdin.value !in dirs then
      Opened(files, Some(TestCaseError(NoEntry("open", req.stdin.value).message)))
    else
      var o1 := OpenW(files, dirs, req.stdout);
      if o1.error.Some? then o1 else OpenW(o1.files, dirs, req.stderr)
  }

  /** The files the process wrote, where it was allowed to. */
  function Applied(files: map<Path, FileEntry>, dirs: set<Path>, req: Request, writes: map<Path, string>): (r: map<Path, FileEntry>)
    ensures forall q :: EntryAt(r, q) ==
              if q in writes && Writable(req, q) && q !in dirs
              then Some(FileEntry(writes[q], if q in files then files[q].mode else None))
              else EntryAt(files, q)
  {
    map q | q in files.Keys + writes.Keys && (q in files || (Writable(req, q) && q !in dirs)) ::
      if q in writes && Writable(req, q) && q !in dirs
      then FileEntry(writes[q], if q in files then files[q].mode else None)
      else files[q]
  }

  /** What an exited process leaves: its output in the redirected files,
      then its own writes. */
  function Deliver(files: map<Path, FileEntry>, dirs: set<Path>, req: Request,
                   out: string, err: string, writes: map<Path, string>): map<Path, FileEntry> {
    var f1 := if Given(req.stdout) then Written(files, req.stdout.value, out) else files;
    var f2 := if Given(req.stderr) then Written(f1, req.stderr.value, err) else f1;
    Applied(f2, dirs, req, writes)
  }

  /** What the process's end turns into: a rejected `exec` or an unreadable
      report becomes a SystemError. */
  function Outcome(x: SandboxOutcome): (r: Outcome<RunResult>)
    ensures r.Threw? ==> r.error.SystemError?
    ensures r.Done? <==> x.Exited? && x.report.Parsed?
  {
    match x
    case ExecFailed(reason) =>
      Threw(SystemError(if reason.Some? then reason.value else "Unknown System Error"))
    case Exited(_, _, _, report) =>
      match report
      case Parsed(result) => Done(result)
      case Unreadable(message) => Threw(SystemError(message))
  }

  /** What the process leaves on disk. */
  function Effects(files: map<Path, FileEntry>, dirs: set<Path>, req: Request, x: SandboxOutcome): map<Path, FileEntry> {
    match x
    case ExecFailed(_) => files
    case Exited(out, err, writes, _) => Deliver(files, dirs, req, out, err, writes)
  }

  /** What `run` resolves or rejects with. */
  function RunOutcome(files: map<Path, FileEntry>, dirs: set<Path>, sandbox: Sandbox, req: Request): Outcome<RunResult> {
    var o := Redirect(files, dirs, req);
    if o.error.Some? then Threw(o.error.value) else Outcome(sandbox(req))
  }

  /** The files `run` leaves behind. */
  function RunFiles(files: map<Path, FileEntry>, dirs: set<Path>, sandbox: Sandbox, req: Request): map<Path, FileEntry> {
    var o := Redirect(files, dirs, req);
    if o.error.Some? then o.files else Effects(o.files, dirs, req, sandbox(req))
  }

  /** The argument vector the supervisor is started with. */
  function Argv(cfg: Config, req: Request, rootDir: Path, infoDir: Path): seq<Arg> {
    NsjailArgs(cfg, req.workDir, rootDir, infoDir, req.trusted, req.bindings, req.maxTime, req.maxMemory)
    + [Str(req.command)] + Strs(req.args)
  }

  /** A run changes nothing but its output redirections and the paths the
      process could write. */
  lemma RunConfined(files: map<Path, FileEntry>, dirs: set<Path>, sandbox: Sandbox, req: Request, q: Path)
    requires q !in Outputs(req) && !Writable(req, q)
    ensures EntryAt(RunFiles(files, dirs, sandbox, req), q) == EntryAt(files, q)
  {
    var o := Redirect(files, dirs, req);
    if o.error.None? && sandbox(req).Exited? {
      assert RunFiles(files, dirs, sandbox, req) == Effects(o.files, dirs, req, sandbox(req));
      var x := sandbox(req);
      var f1 := if Given(req.stdout) then Written(o.files, req.stdout.value, x.stdout) else o.files;
      var f2 := if Given(req.stderr) then Written(f1, req.stderr.value, x.stderr) else f1;
      assert EntryAt(f2, q) == EntryAt(o.files, q);
    }
  }

  /** Nothing the run leaves lies inside a directory that is fresh with
      respect to the paths the caller names. */
  lemma RunFilesApart(files: map<Path, FileEntry>, dirs: set<Path>, sandbox: Sandbox, req: Request, d: Path)
    requires Fresh(d, files, dirs, Named(req))
    ensures forall q :: q in RunFiles(files, dirs, sandbox, req) ==> !Under(q, d)
  {
    forall q | q in RunFiles(files, dirs, sandbox, req)
      ensures !Under(q, d)
    {
      if q in Outputs(req) {
        FreshApart(d, files, dirs, Named(req), q);
      } else if req.trusted && Under(q, req.workDir) {
        FreshRemovalKeeps(d, files, dirs, Named(req), req.workDir);
      } else if Writable(req, q) {
        var i :| 0 <= i < |req.bindings| && req.bindings[i].src == q && req.bindings[i].mode == ReadWrite;
        assert q in Named(req);
        FreshApart(d, files, dirs, Named(req), q);
      } else {
        RunConfined(files, dirs, sandbox, req, q);
        assert q in files;
        FreshApart(d, files, dirs, Named(req), q);
      }
    }
  }

  /** Removing a directory nothing lies in changes nothing. */
  lemma RimrafNothing(files: map<Path, FileEntry>, d: Path)
    requires forall q :: q in files ==> !Under(q, d)
    ensures FilesWithout(files, d) == files
  {
    assert FilesWithout(files, d).Keys == files.Keys;
  }

  /** Directories whose names are no stdio path do not change the redirections. */
  lemma RedirectIgnores(files: map<Path, FileEntry>, dirs: set<Path>, extra: set<Path>, req: Request)
    requires forall p :: p in extra ==> p !in Stdio(req)
    ensures Redirect(files, dirs + extra, req) == Redirect(files, dirs, req)
  {
  }

  /** `openRedirect`, step by step. */
  method OpenRedirect(fs: Fs, req: Request) returns (err: Option<Error>)
    modifies fs
    ensures fs.dirs == old(fs.dirs)
    ensures Opened(fs.files, err) == Redirect(old(fs.files), old(fs.dirs), req)
  {
    err := None;
    if Given(req.stdin) {
      var st := fs.OpenRead(req.stdin.value);
      if st.Failed? {
        err := Some(TestCaseError(st.error.message));
      }
    }
    if err.None? && Given(req.stdout) {
      var st := fs.WriteFile(req.stdout.value, "");
      if st.Failed? {
        err := Some(TestCaseError(st.error.message));
      }
    }
    if err.None? && Given(req.stderr) {
      var st := fs.WriteFile(req.stderr.value, "");
      if st.Failed? {
        err := Some(TestCaseError(st.error.message));
      }
    }
  }

  /** The supervised process itself, after the redirections succeeded. */
  method Supervise(fs: Fs, sandbox: Sandbox, req: Request, dirs0: set<Path>) returns (out: Outcome<RunResult>)
    modifies fs
    ensures fs.dirs == old(fs.dirs)
    ensures out == Outcome(sandbox(req))
    ensures fs.files == Effects(old(fs.files), dirs0, req, sandbox(req))
  {
    match sandbox(req)
    case ExecFailed(reason) =>
      out := Threw(SystemError(if reason.Some? then reason.value else "Unknown System Error"));
    case Exited(stdout, stderr, writes, report) =>
      fs.files := Deliver(fs.files, dirs0, req, stdout, stderr, writes);
      match report
      case Parsed(result) =>
        out := Done(result);
      case Unreadable(message) =>
        out := Threw(SystemError(message));
  }

  /** `run`: two fresh scratch directories (the supervisor's root and its
      report directory), the redirections, the supervised process, and the
      removal of both scratch directories on every path. */
  method Run(fs: Fs, cfg: Config, sandbox: Sandbox, s: Submission, param: RunParam)
    returns (out: Outcome<RunResult>, ghost call: Option<Invocation>)
    modifies fs
    ensures fs.dirs == old(fs.dirs)
    ensures out == RunOutcome(old(fs.files), old(fs.dirs), sandbox, Resolve(s, param))
    ensures fs.files == RunFiles(old(fs.files), old(fs.dirs), sandbox, Resolve(s, param))
    ensures call.Some? <==> Redirect(old(fs.files), old(fs.dirs), Resolve(s, param)).error.None?
    ensures call.Some? ==>
              var c := call.value;
              && c.program == cfg.nsjailPath
              && c.argv == Argv(cfg, Resolve(s, param), c.rootDir, c.infoDir)
              && c.rootDir != c.infoDir
              && Fresh(c.rootDir, old(fs.files), old(fs.dirs), Named(Resolve(s, param)))
              && Fresh(c.infoDir, old(fs.files), old(fs.dirs), Named(Resolve(s, param)))
  {
    var req := Resolve(s, param);
    var files0, dirs0 := fs.files, fs.dirs;
    var avoid := Named(req);
    var rootDir := fs.MakeTempDir(avoid);
    var infoDir := fs.MakeTempDir(avoid);
    assert Fresh(infoDir, files0, dirs0, avoid);
    assert fs.dirs == dirs0 + {rootDir, infoDir};
    ghost var o := Redirect(files0, dirs0, req);
    RedirectIgnores(files0, dirs0, {rootDir, infoDir}, req);

    var err := OpenRedirect(fs, req);
    assert fs.files == o.files && err == o.error;
    call := None;
    if err.Some? {
      out := Threw(err.value);
    } else {
      var nsjailArgs := BuildNsjailArgs(cfg, req.workDir, rootDir, infoDir, req.trusted, req.bindings, req.maxTime, req.maxMemory);
      call := Some(Invocation(cfg.nsjailPath, nsjailArgs + [Str(req.command)] + Strs(req.args), rootDir, infoDir));
      out := Supervise(fs, sandbox, req, dirs0);
    }
    assert out == RunOutcome(files0, dirs0, sandbox, req);
    assert fs.files == RunFiles(files0, dirs0, sandbox, req);

    RunFilesApart(files0, dirs0, sandbox, req, rootDir);
    RunFilesApart(files0, dirs0, sandbox, req, infoDir);
    ClearWorkDir(fs, rootDir, infoDir, files0, dirs0, avoid);
  }

  /** `clearWorkDir`: removing the two fresh scratch directories removes
      nothing else. */
  method ClearWorkDir(fs: Fs, rootDir: Path, infoDir: Path, ghost files0: map<Path, FileEntry>,
                      ghost dirs0: set<Path>, ghost avoid: set<Path>)
    requires Fresh(rootDir, files0, dirs0, avoid) && Fresh(infoDir, files0, dirs0, avoid)
    requires rootDir != infoDir
    requires fs.dirs == dirs0 + {rootDir, infoDir}
    requires forall q :: q in fs.files ==> !Under(q, rootDir) && !Under(q, infoDir)
    modifies fs
    ensures fs.files == old(fs.files) && fs.dirs == dirs0
  {
    RimrafNothing(fs.files, rootDir);
    fs.Rimraf(rootDir);
    RimrafNothing(fs.files, infoDir);
    fs.Rimraf(infoDir);
    forall q | q in dirs0
      ensures !Under(q, rootDir) && !Under(q, infoDir)
    {
      FreshApart(rootDir, files0, dirs0, avoid, q);
      FreshApart(infoDir, files0, dirs0, avoid, q);
    }
    if |rootDir| < |infoDir| {
      SlashFreeNotUnder(infoDir, rootDir);
    } else if |infoDir| < |rootDir| {
      SlashFreeNotUnder(rootDir, infoDir);
    }
  }

  // ---------------------------------------------------------------------
  // Compilation
  // ---------------------------------------------------------------------

  /** The artifact permissions `compile` sets (octal 0775). */
  const ArtifactMode := 509

  /** A step's argument list: an element equal to `${sourceFile}` becomes the
      source file name, one equal to `${compiledFile}` the step's output name,
      and every other element is kept (whole elements only, no substrings). */
  function SubstituteArgs(args: seq<string>, sourceFileName: string, out: string): (r: seq<string>)
    ensures |r| == |args|
    ensures forall i :: 0 <= i < |args| && args[i] != SourceFile && args[i] != CompiledFile ==> r[i] == args[i]
    ensures forall i :: 0 <= i < |args| && args[i] == SourceFile ==> r[i] == sourceFileName
    ensures forall i :: 0 <= i < |args| && args[i] == CompiledFile ==> r[i] == out
  {
    seq(|args|, i requires 0 <= i < |args| =>
      if args[i] == SourceFile then sourceFileName
      else if args[i] == CompiledFile then out
      else args[i])
  }

  /** The `CompileError` text of a failed step, by priority: the captured
      standard error, then the time and memory messages, then a generic one. */
  function CompileMessage(stderr: string, verdict: Verdict): string {
    if stderr != "" then stderr
    else if verdict == TimeLimitExceeded then "Time limit exceeded when compiling"
    else if verdict == MemoryLimitExceeded then "Memory limit exceeded when compiling"
    else "Something is wrong, but nothing is reported"
  }

  function CompileOut(compileDir: Path): Path { Join(compileDir, "compile") }
  function CompileErr(compileDir: Path): Path { Join(compileDir, "compile.err") }
  function CompileArtifact(compileDir: Path): Path { Join(compileDir, "compile.out") }

  /** The run of one compile step: trusted, in the compile directory, no
      bindings, 1024 MB, output and error captured in the scratch files. */
  function StepParam(s: Submission, compileDir: Path, step: CompileConfig, maxTime: int): RunParam {
    RunParam(compileDir, [], true, Some(step.command),
             Some(SubstituteArgs(step.args, s.config.sourceFileName, OutOf(step))),
             maxTime, 1024, None, Some(CompileOut(compileDir)), Some(CompileErr(compileDir)))
  }

  /** The files after some steps, the error that stopped them, and how many
      steps were started. */
  datatype StepsResult = StepsResult(files: map<Path, FileEntry>, failure: Option<Error>, ran: nat)

  /** One step, started after `ran` others. */
  function StepOnce(files: map<Path, FileEntry>, dirs: set<Path>, sandbox: Sandbox, s: Submission,
                    compileDir: Path, maxTime: int, step: CompileConfig, ran: nat): (r: StepsResult)
    ensures r.ran == ran + 1
  {
    var req := Resolve(s, StepParam(s, compileDir, step, maxTime));
    var f := RunFiles(files, dirs, sandbox, req);
    match RunOutcome(files, dirs, sandbox, req)
    case Threw(e) => StepsResult(f, Some(e), ran + 1)
    case Done(result) =>
      if result.verdict == Accepted then StepsResult(f, None, ran + 1)
      else match Read(f, dirs, CompileErr(compileDir))
        case Threw(e) => StepsResult(f, Some(e), ran + 1)
        case Done(text) => StepsResult(f, Some(CompileError(CompileMessage(text, result.verdict))), ran + 1)
  }

  /** The steps in order, stopping at the first failure. */
  function RunSteps(files: map<Path, FileEntry>, dirs: set<Path>, sandbox: Sandbox, s: Submission,
                    compileDir: Path, maxTime: int, steps: seq<CompileConfig>): (r: StepsResult)
    ensures r.ran <= |steps|
    ensures r.failure.None? ==> r.ran == |steps|
    ensures r.failure.Some? ==> r.ran >= 1
    decreases |steps|
  {
    if steps == [] then StepsResult(files, None, 0)
    else
      var p := RunSteps(files, dirs, sandbox, s, compileDir, maxTime, steps[..|steps| - 1]);
      if p.failure.Some? then p
      else StepOnce(p.files, dirs, sandbox, s, compileDir, maxTime, steps[|steps| - 1], p.ran)
  }

  /** The compile directory after the source and the two empty capture files
      are written. */
  function Prepared(files: map<Path, FileEntry>, s: Submission, compileDir: Path, code: string): map<Path, FileEntry> {
    Written(Written(Written(files, Join(compileDir, s.config.sourceFileName), code), CompileOut(compileDir), ""),
            CompileErr(compileDir), "")
  }

  /** The steps of a compile in scratch directory `compileDir`. */
  function CompileSteps(files: map<Path, FileEntry>, dirs: set<Path>, sandbox: Sandbox, s: Submission,
                        code: string, maxTime: int, compileDir: Path): StepsResult {
    RunSteps(Prepared(files, s, compileDir, code), dirs + {compileDir}, sandbox, s, compileDir, maxTime,
             StepsOf(s.config.compile))
  }

  /** How `compile` ends once its steps are over: the first failing step's
      error, else a failed copy of `compile.out`, else success. */
  function Finish(files: map<Path, FileEntry>, failure: Option<Error>, dirs: set<Path>, dir: Path, full: Path): Status {
    if failure.Some? then Failed(failure.value)
    else if CompileArtifact(dir) !in files then
      Failed(CopyFailed("ENOENT: no such file or directory", CompileArtifact(dir), full))
    else if full in dirs then
      Failed(CopyFailed("EISDIR: illegal operation on a directory", CompileArtifact(dir), full))
    else Ok
  }

  /** How `compile` ends. */
  function CompileStatus(files: map<Path, FileEntry>, dirs: set<Path>, sandbox: Sandbox, s: Submission,
                         code: string, maxTime: int, compileDir: Path): Status {
    var r := CompileSteps(files, dirs, sandbox, s, code, maxTime, compileDir);
    Finish(r.files, r.failure, dirs, compileDir, FullFilePath(s))
  }

  /** A compile step writes nothing outside its compile directory. */
  lemma {:induction false} StepsConfined(files: map<Path, FileEntry>, dirs: set<Path>, sandbox: Sandbox, s: Submission,
                                         compileDir: Path, maxTime: int, steps: seq<CompileConfig>, q: Path)
    requires !Under(q, compileDir)
    ensures EntryAt(RunSteps(files, dirs, sandbox, s, compileDir, maxTime, steps).files, q) == EntryAt(files, q)
    decreases |steps|
  {
    if steps != [] {
      var p := RunSteps(files, dirs, sandbox, s, compileDir, maxTime, steps[..|steps| - 1]);
      StepsConfined(files, dirs, sandbox, s, compileDir, maxTime, steps[..|steps| - 1], q);
      if p.failure.None? {
        StepConfined(p.files, dirs, sandbox, s, compileDir, maxTime, steps[|steps| - 1], p.ran, q);
      }
    }
  }

  /** One compile step writes nothing outside its compile directory. */
  lemma StepConfined(files: map<Path, FileEntry>, dirs: set<Path>, sandbox: Sandbox, s: Submission,
                     compileDir: Path, maxTime: int, step: CompileConfig, ran: nat, q: Path)
    requires !Under(q, compileDir)
    ensures EntryAt(StepOnce(files, dirs, sandbox, s, compileDir, maxTime, step, ran).files, q) == EntryAt(files, q)
  {
    var req := Resolve(s, StepParam(s, compileDir, step, maxTime));
    JoinIsUnder(compileDir, "compile");
    JoinIsUnder(compileDir, "compile.err");
    assert Outputs(req) == {CompileOut(compileDir), CompileErr(compileDir)};
    assert !Writable(req, q);
    RunConfined(files, dirs, sandbox, req, q);
  }

  /** Once a step has failed, the later steps change nothing: they are
      never started. */
  lemma {:induction false} StepsStop(files: map<Path, FileEntry>, dirs: set<Path>, sandbox: Sandbox, s: Submission,
                                     compileDir: Path, maxTime: int, steps: seq<CompileConfig>, k: nat)
    requires k <= |steps|
    requires RunSteps(files, dirs, sandbox, s, compileDir, maxTime, steps[..k]).failure.Some?
    ensures RunSteps(files, dirs, sandbox, s, compileDir, maxTime, steps)
         == RunSteps(files, dirs, sandbox, s, compileDir, maxTime, steps[..k])
    decreases |steps|
  {
    if k < |steps| {
      var n := |steps| - 1;
      assert steps[..n][..k] == steps[..k];
      StepsStop(files, dirs, sandbox, s, compileDir, maxTime, steps[..n], k);
    } else {
      assert steps[..k] == steps;
    }
  }

  /** The first part of `compile`: a fresh directory holding the source and
      two empty capture files. */
  method PrepareCompileDir(fs: Fs, s: Submission, code: string) returns (dir: Path)
    modifies fs
    ensures Fresh(dir, old(fs.files), old(fs.dirs), {FullFilePath(s)})
    ensures fs.dirs == old(fs.dirs) + {dir}
    ensures fs.files == Prepared(old(fs.files), s, dir, code)
  {
    dir := fs.MakeTempDir({FullFilePath(s)});
    var w1 := fs.WriteFile(Join(dir, s.config.sourceFileName), code);
    var w2 := fs.WriteFile(CompileOut(dir), "");
    var w3 := fs.WriteFile(CompileErr(dir), "");
  }

  /** The compile loop: each step in turn until one fails. */
  method CompileLoop(fs: Fs, cfg: Config, sandbox: Sandbox, s: Submission, dir: Path, maxTime: int)
    returns (failure: Option<Error>)
    modifies fs
    ensures fs.dirs == old(fs.dirs)
    ensures var r := RunSteps(old(fs.files), old(fs.dirs), sandbox, s, dir, maxTime, StepsOf(s.config.compile));
            fs.files == r.files && failure == r.failure
  {
    var steps := StepsOf(s.config.compile);
    var files1, dirs1 := fs.files, fs.dirs;
    var i := 0;
    failure := None;
    while i < |steps| && failure.None?
      invariant 0 <= i <= |steps|
      invariant fs.dirs == dirs1
      invariant RunSteps(files1, dirs1, sandbox, s, dir, maxTime, steps[..i]) == StepsResult(fs.files, failure, i)
      decreases |steps| - i
    {
      assert steps[..i + 1][..i] == steps[..i];
      var out;
      ghost var call;
      out, call := Run(fs, cfg, sandbox, s, StepParam(s, dir, steps[i], maxTime));
      match out {
        case Threw(e) =>
          failure := Some(e);
        case Done(result) =>
          if result.verdict != Accepted {
            var errorMsg := fs.ReadFile(CompileErr(dir));
            match errorMsg {
              case Threw(e) =>
                failure := Some(e);
              case Done(text) =>
                failure := Some(CompileError(CompileMessage(text, result.verdict)));
            }
          }
      }
      i := i + 1;
    }
    if failure.None? {
      assert steps[..i] == steps;
    } else {
      StepsStop(files1, dirs1, sandbox, s, dir, maxTime, steps, i);
    }
  }

  /** `copyFile(src, dst)` then `chmod(dst, 0o775)`. */
  method InstallArtifact(fs: Fs, src: Path, dst: Path) returns (st: Status)
    modifies fs
    ensures fs.dirs == old(fs.dirs)
    ensures src !in old(fs.files) ==>
              st == Failed(CopyFailed("ENOENT: no such file or directory", src, dst)) && fs.files == old(fs.files)
    ensures src in old(fs.files) && dst in old(fs.dirs) ==>
              st == Failed(CopyFailed("EISDIR: illegal operation on a directory", src, dst)) && fs.files == old(fs.files)
    ensures src in old(fs.files) && dst !in old(fs.dirs) ==>
              st == Ok && fs.files == old(fs.files)[dst := FileEntry(old(fs.files)[src].content, Some(ArtifactMode))]
  {
    st := fs.CopyFile(src, dst);
    if st.Ok? {
      st := fs.Chmod(dst, ArtifactMode);
    }
  }

  /** `compile`: a fresh compile directory, the steps in order, then the
      fixed `compile.out` copied to the artifact path with mode 0775; the
      compile directory is removed on every path. Nothing outside it changes
      except, on success, the artifact. */
  method Compile(fs: Fs, cfg: Config, sandbox: Sandbox, s: Submission, code: string, maxTime: int)
    returns (st: Status, ghost compileDir: Path)
    modifies fs
    ensures fs.dirs == old(fs.dirs)
    ensures Fresh(compileDir, old(fs.files), old(fs.dirs), {FullFilePath(s)})
    ensures st == CompileStatus(old(fs.files), old(fs.dirs), sandbox, s, code, maxTime, compileDir)
    ensures st.Failed? ==> fs.files == old(fs.files)
    ensures st.Ok? ==>
              var r := CompileSteps(old(fs.files), old(fs.dirs), sandbox, s, code, maxTime, compileDir);
              && CompileArtifact(compileDir) in r.files
              && fs.files == old(fs.files)[FullFilePath(s) := FileEntry(r.files[CompileArtifact(compileDir)].content, Some(ArtifactMode))]
  {
    ghost var files0, dirs0 := fs.files, fs.dirs;
    var dir := PrepareCompileDir(fs, s, code);
    compileDir := dir;
    var failure := CompileLoop(fs, cfg, sandbox, s, dir, maxTime);
    CompileConfined(files0, dirs0, sandbox, s, code, maxTime, dir);
    st := FinishCompile(fs, dir, FullFilePath(s), failure, files0, dirs0);
  }

  /** The end of `compile`: install the artifact unless a step failed, then
      remove the compile directory. */
  method FinishCompile(fs: Fs, dir: Path, full: Path, failure: Option<Error>,
                       ghost files0: map<Path, FileEntry>, ghost dirs0: set<Path>) returns (st: Status)
    requires Fresh(dir, files0, dirs0, {full})
    requires fs.dirs == dirs0 + {dir}
    requires forall q :: !Under(q, dir) ==> EntryAt(fs.files, q) == EntryAt(files0, q)
    modifies fs
    ensures fs.dirs == dirs0
    ensures st == Finish(old(fs.files), failure, dirs0, dir, full)
    ensures st.Failed? ==> fs.files == files0
    ensures st.Ok? ==>
              && CompileArtifact(dir) in old(fs.files)
              && fs.files == files0[full := FileEntry(old(fs.files)[CompileArtifact(dir)].content, Some(ArtifactMode))]
  {
    ghost var files1 := fs.files;
    FreshApart(dir, files0, dirs0, {full}, full);
    if failure.Some? {
      st := Failed(failure.value);
    } else {
      st := InstallArtifact(fs, CompileArtifact(dir), full);
    }
    ghost var target := if st.Failed? then files0
                        else files0[full := FileEntry(files1[CompileArtifact(dir)].content, Some(ArtifactMode))];
    ghost var files2 := fs.files;
    fs.Rimraf(dir);
    FreshDirGone(dirs0, dir, files0, {full});
    RimrafFresh(files2, dir, target, files0, dirs0, {full});
  }

  /** Compiling writes nothing outside the compile directory before the
      artifact is installed. */
  lemma CompileConfined(files0: map<Path, FileEntry>, dirs0: set<Path>, sandbox: Sandbox, s: Submission,
                        code: string, maxTime: int, dir: Path)
    ensures forall q :: !Under(q, dir) ==>
              EntryAt(CompileSteps(files0, dirs0, sandbox, s, code, maxTime, dir).files, q) == EntryAt(files0, q)
  {
    forall q | !Under(q, dir)
      ensures EntryAt(CompileSteps(files0, dirs0, sandbox, s, code, maxTime, dir).files, q) == EntryAt(files0, q)
    {
      StepsConfined(Prepared(files0, s, dir, code), dirs0 + {dir}, sandbox, s, dir, maxTime, StepsOf(s.config.compile), q);
      JoinIsUnder(dir, s.config.sourceFileName);
      JoinIsUnder(dir, "compile");
      JoinIsUnder(dir, "compile.err");
    }
  }

  /** The failure of a compile comes from its last started step, and every
      step before that one succeeded. */
  lemma {:induction false} FirstFailure(files: map<Path, FileEntry>, dirs: set<Path>, sandbox: Sandbox, s: Submission,
                                        compileDir: Path, maxTime: int, steps: seq<CompileConfig>)
    requires RunSteps(files, dirs, sandbox, s, compileDir, maxTime, steps).failure.Some?
    ensures var r := RunSteps(files, dirs, sandbox, s, compileDir, maxTime, steps);
            var before := RunSteps(files, dirs, sandbox, s, compileDir, maxTime, steps[..r.ran - 1]);
            && 1 <= r.ran <= |steps|
            && before.failure.None?
            && r == StepOnce(before.files, dirs, sandbox, s, compileDir, maxTime, steps[r.ran - 1], r.ran - 1)
    decreases |steps|
  {
    var n := |steps| - 1;
    var r := RunSteps(files, dirs, sandbox, s, compileDir, maxTime, steps);
    var p := RunSteps(files, dirs, sandbox, s, compileDir, maxTime, steps[..n]);
    if p.failure.Some? {
      assert r == p;
      FirstFailure(files, dirs, sandbox, s, compileDir, maxTime, steps[..n]);
      assert steps[..n][..p.ran - 1] == steps[..p.ran - 1];
    } else {
      assert r == StepOnce(p.files, dirs, sandbox, s, compileDir, maxTime, steps[n], p.ran);
      assert r.ran - 1 == n;
    }
  }

  /** A step that exits with a verdict other than Accepted fails the compile
      with the text it wrote to standard error, or, when that is empty, with
      the time, memory or generic message. */
  lemma StepErrorMessage(files: map<Path, FileEntry>, dirs: set<Path>, sandbox: Sandbox, s: Submission,
                         compileDir: Path, maxTime: int, step: CompileConfig, ran: nat)
    requires CompileOut(compileDir) !in dirs && CompileErr(compileDir) !in dirs
    requires var x := sandbox(Resolve(s, StepParam(s, compileDir, step, maxTime)));
             && x.Exited? && x.report.Parsed? && x.report.result.verdict != Accepted
             && CompileErr(compileDir) !in x.writes
    ensures var x := sandbox(Resolve(s, StepParam(s, compileDir, step, maxTime)));
            var r := StepOnce(files, dirs, sandbox, s, compileDir, maxTime, step, ran);
            && r.failure == Some(CompileError(CompileMessage(x.stderr, x.report.result.verdict)))
            && (x.stderr != "" ==> r.failure.value.message == x.stderr)
            && (x.stderr == "" && x.report.result.verdict == TimeLimitExceeded ==>
                  r.failure.value.message == "Time limit exceeded when compiling")
            && (x.stderr == "" && x.report.result.verdict == MemoryLimitExceeded ==>
                  r.failure.value.message == "Memory limit exceeded when compiling")
  {
    var req := Resolve(s, StepParam(s, compileDir, step, maxTime));
    var x := sandbox(req);
    var o := Redirect(files, dirs, req);
    assert o.error.None?;
    var f1 := Written(o.files, CompileOut(compileDir), x.stdout);
    var f2 := Written(f1, CompileErr(compileDir), x.stderr);
    assert RunFiles(files, dirs, sandbox, req) == Applied(f2, dirs, req, x.writes);
    assert EntryAt(Applied(f2, dirs, req, x.writes), CompileErr(compileDir)) == EntryAt(f2, CompileErr(compileDir));
  }

  /** A run whose redirections cannot be opened rejects with a TestCaseError
      and never starts the process; otherwise a rejection is a SystemError,
      and the run resolves exactly when the process exits with a readable
      report. */
  lemma RunErrors(files: map<Path, FileEntry>, dirs: set<Path>, sandbox: Sandbox, other: Sandbox, req: Request)
    ensures var o := Redirect(files, dirs, req);
            var r := RunOutcome(files, dirs, sandbox, req);
            && (o.error.Some? ==>
                  && r.Threw? && r.error.TestCaseError?
                  && r == RunOutcome(files, dirs, other, req)
                  && RunFiles(files, dirs, sandbox, req) == RunFiles(files, dirs, other, req))
            && (o.error.None? ==>
                  && (r.Threw? ==> r.error.SystemError?)
                  && (r.Done? <==> sandbox(req).Exited? && sandbox(req).report.Parsed?))
  {
  }

  /** A missing input file is reported with Node's ENOENT text for `open`. */
  lemma MissingStdin(files: map<Path, FileEntry>, dirs: set<Path>, sandbox: Sandbox, req: Request)
    requires Given(req.stdin) && req.stdin.value !in files && req.stdin.value !in dirs
    ensures RunOutcome(files, dirs, sandbox, req)
         == Threw(TestCaseError("ENOENT: no such file or directory, open '" + req.stdin.value + "'"))
    ensures RunFiles(files, dirs, sandbox, req) == files
  {
  }

  /** java's two steps: javac on the source with `-d .`, then jar writing the
      default output `compile.out` from `Main.class`. */
  lemma JavaStepArgs(s: Submission, compileDir: Path, maxTime: int)
    requires s.config == Builtin()["java"]
    ensures var steps := StepsOf(s.config.compile);
            && |steps| == 2
            && StepParam(s, compileDir, steps[0], maxTime).args == Some(["-encoding", "utf8", "-d", ".", "Main.java"])
            && StepParam(s, compileDir, steps[1], maxTime).args == Some(["-cvf", "compile.out", "Main.class"])
  {
    var steps := StepsOf(s.config.compile);
    assert SubstituteArgs(steps[0].args, "Main.java", "Main.class") == ["-encoding", "utf8", "-d", ".", "Main.java"];
    assert SubstituteArgs(steps[1].args, "Main.java", "compile.out") == ["-cvf", "compile.out", "Main.class"];
  }

  /** Every single-step built-in profile tells its compiler to write the
      step's declared output, and that output is `compile.out` for every
      built-in profile except kotlin, whose compiler is told to write
      `compile.jar`. */
  lemma BuiltinOutputs(s: Submission, compileDir: Path, maxTime: int, k: nat)
    requires s.lang in Builtin() && s.config == Builtin()[s.lang]
    requires k < |StepsOf(s.config.compile)|
    requires !(s.lang == "java" && k == 0)
    ensures var step := StepsOf(s.config.compile)[k];
            && OutOf(step) in StepParam(s, compileDir, step, maxTime).args.value
            && (OutOf(step) == DefaultOut <==> s.lang != "kotlin")
  {
    var step := StepsOf(s.config.compile)[k];
    CompiledFileNamed(s.lang, k);
    var i :| 0 <= i < |step.args| && step.args[i] == CompiledFile;
    assert StepParam(s, compileDir, step, maxTime).args.value[i] == OutOf(step);
  }

  /** `clear()`: checkers and validators keep their artifact; every other
      role unlinks it. */
  method Clear(fs: Fs, s: Submission) returns (st: Status)
    modifies fs
    ensures fs.dirs == old(fs.dirs)
    ensures s.role == CheckerRole || s.role == ValidatorRole ==> st == Ok && fs.files == old(fs.files)
    ensures s.role != CheckerRole && s.role != ValidatorRole ==>
              && (FullFilePath(s) in old(fs.files) ==> st == Ok && fs.files == old(fs.files) - {FullFilePath(s)})
              && (FullFilePath(s) !in old(fs.files) && FullFilePath(s) in old(fs.dirs) ==>
                    st == Failed(IsDirectory("unlink", FullFilePath(s))) && fs.files == old(fs.files))
              && (FullFilePath(s) !in old(fs.files) && FullFilePath(s) !in old(fs.dirs) ==>
                    st == Failed(NoEntry("unlink", FullFilePath(s))) && fs.files == old(fs.files))
  {
    if s.role == CheckerRole || s.role == ValidatorRole {
      st := Ok;
    } else {
      st := fs.Unlink(FullFilePath(s));
    }
  }

  /** After a run whose process exited, a redirected output the process
      cannot write directly holds exactly what it printed there. */
  lemma ExitedOutputs(files: map<Path, FileEntry>, dirs: set<Path>, sandbox: Sandbox, req: Request)
    requires Redirect(files, dirs, req).error.None? && sandbox(req).Exited?
    ensures var x := sandbox(req);
            var f := RunFiles(files, dirs, sandbox, req);
            && (Given(req.stdout) && !Writable(req, req.stdout.value)
                && !(Given(req.stderr) && req.stderr.value == req.stdout.value) ==>
                  EntryAt(f, req.stdout.value)
                  == Some(FileEntry(x.stdout, if req.stdout.value in files then files[req.stdout.value].mode else None)))
            && (Given(req.stderr) && !Writable(req, req.stderr.value) ==>
                  EntryAt(f, req.stderr.value)
                  == Some(FileEntry(x.stderr, if req.stderr.value in files then files[req.stderr.value].mode else None)))
  {
    var x := sandbox(req);
    var o := Redirect(files, dirs, req);
    var f1 := if Given(req.stdout) then Written(o.files, req.stdout.value, x.stdout) else o.files;
    var f2 := if Given(req.stderr) then Written(f1, req.stderr.value, x.stderr) else f1;
    assert RunFiles(files, dirs, sandbox, req) == Applied(f2, dirs, req, x.writes);
  }

  /** The conditions of a trusted run in a fresh work directory, with
      read-only bindings and standard error captured in a second fresh
      directory (how generators and validators are run). */
  ghost predicate ScratchRequest(files: map<Path, FileEntry>, dirs: set<Path>, avoid: set<Path>, req: Request,
                                 runDir: Path, errDir: Path, errName: string)
  {
    && Fresh(runDir, files, dirs, avoid) && Fresh(errDir, files, dirs, avoid) && runDir != errDir
    && req.workDir == runDir && req.trusted
    && (forall i :: 0 <= i < |req.bindings| ==> req.bindings[i].mode == ReadOnly)
    && req.stderr == Some(Join(errDir, errName))
    && (req.stdout.Some? ==> req.stdout.value in avoid && req.stdout.value != "")
    && (req.stdin.Some? ==> req.stdin.value in avoid && req.stdin.value != "")
  }

  predicate StdinMissing(files: map<Path, FileEntry>, dirs: set<Path>, req: Request) {
    req.stdin.Some? && req.stdin.value !in files && req.stdin.value !in dirs
  }

  predicate StdoutIsDir(dirs: set<Path>, req: Request) {
    req.stdout.Some? && req.stdout.value in dirs
  }

  /** Such a run fails to open its redirections only for a missing input or
      an output that is a directory. */
  lemma ScratchOutcome(files: map<Path, FileEntry>, dirs: set<Path>, avoid: set<Path>, sandbox: Sandbox, req: Request,
                       runDir: Path, errDir: Path, errName: string)
    requires ScratchRequest(files, dirs, avoid, req, runDir, errDir, errName)
    ensures var d := dirs + {runDir, errDir};
            && Redirect(files, d, req).error.None? == (!StdinMissing(files, dirs, req) && !StdoutIsDir(dirs, req))
            && (Redirect(files, d, req).error.Some? ==> RunFiles(files, d, sandbox, req) == files)
            && RunOutcome(files, d, sandbox, req)
               == (if StdinMissing(files, dirs, req) then Threw(TestCaseError(NoEntry("open", req.stdin.value).message))
                   else if StdoutIsDir(dirs, req) then Threw(TestCaseError(IsDirectory("open", req.stdout.value).message))
                   else Outcome(sandbox(req)))
  {
    var e := Join(errDir, errName);
    assert e[|errDir|] == '/';
    assert e !in dirs;
    assert Stdio(req) == (if req.stdin.Some? then {req.stdin.value} else {})
                         + (if req.stdout.Some? then {req.stdout.value} else {}) + {e};
    RedirectIgnores(files, dirs, {runDir, errDir}, req);
    var o1 := OpenW(files, dirs, req.stdout);
    if !StdinMissing(files, dirs, req) && !StdoutIsDir(dirs, req) {
      assert o1.error.None?;
      assert OpenW(o1.files, dirs, req.stderr).error.None?;
    }
  }

  /** Once both scratch directories are removed, such a run has changed
      nothing but its standard output file. */
  lemma ScratchKeeps(files: map<Path, FileEntry>, dirs: set<Path>, avoid: set<Path>, sandbox: Sandbox, req: Request,
                     runDir: Path, errDir: Path, errName: string, q: Path)
    requires ScratchRequest(files, dirs, avoid, req, runDir, errDir, errName)
    requires req.stdout.None? || q != req.stdout.value
    ensures var left := FilesWithout(FilesWithout(RunFiles(files, dirs + {runDir, errDir}, sandbox, req), runDir), errDir);
            EntryAt(left, q) == EntryAt(files, q)
  {
    var d := dirs + {runDir, errDir};
    JoinIsUnder(errDir, errName);
    if Under(q, runDir) || Under(q, errDir) {
      if q in files {
        FreshApart(runDir, files, dirs, avoid, q);
        FreshApart(errDir, files, dirs, avoid, q);
      }
    } else {
      assert q !in Outputs(req);
      RunConfined(files, d, sandbox, req, q);
    }
  }

  /** What such a run leaves in its standard output file. */
  lemma ScratchStdout(files: map<Path, FileEntry>, dirs: set<Path>, avoid: set<Path>, sandbox: Sandbox, req: Request,
                      runDir: Path, errDir: Path, errName: string)
    requires ScratchRequest(files, dirs, avoid, req, runDir, errDir, errName)
    requires req.stdout.Some?
    ensures var x := sandbox(req);
            var p := req.stdout.value;
            var left := FilesWithout(FilesWithout(RunFiles(files, dirs + {runDir, errDir}, sandbox, req), runDir), errDir);
            && (StdinMissing(files, dirs, req) || StdoutIsDir(dirs, req) ==> EntryAt(left, p) == EntryAt(files, p))
            && (!StdinMissing(files, dirs, req) && !StdoutIsDir(dirs, req) ==>
                  EntryAt(left, p) == Some(FileEntry(if x.Exited? then x.stdout else "", if p in files then files[p].mode else None)))
  {
    var p := req.stdout.value;
    FreshApart(runDir, files, dirs, avoid, p);
    FreshApart(errDir, files, dirs, avoid, p);
    if !StdinMissing(files, dirs, req) && !StdoutIsDir(dirs, req) {
      ScratchStdoutWritten(files, dirs, avoid, sandbox, req, runDir, errDir, errName);
    } else {
      ScratchOutcome(files, dirs, avoid, sandbox, req, runDir, errDir, errName);
    }
  }

  /** The standard output file of such a run that opened its redirections,
      before the scratch directories are removed. */
  lemma ScratchStdoutWritten(files: map<Path, FileEntry>, dirs: set<Path>, avoid: set<Path>, sandbox: Sandbox,
                             req: Request, runDir: Path, errDir: Path, errName: string)
    requires ScratchRequest(files, dirs, avoid, req, runDir, errDir, errName)
    requires req.stdout.Some? && !StdinMissing(files, dirs, req) && !StdoutIsDir(dirs, req)
    ensures var x := sandbox(req);
            var p := req.stdout.value;
            EntryAt(RunFiles(files, dirs + {runDir, errDir}, sandbox, req), p)
            == Some(FileEntry(if x.Exited? then x.stdout else "", if p in files then files[p].mode else None))
  {
    var d := dirs + {runDir, errDir};
    var p := req.stdout.value;
    ScratchOutcome(files, dirs, avoid, sandbox, req, runDir, errDir, errName);
    FreshApart(runDir, files, dirs, avoid, p);
    FreshApart(errDir, files, dirs, avoid, p);
    JoinIsUnder(errDir, errName);
    assert Join(errDir, errName) != p;
    assert !Writable(req, p);
    if sandbox(req).Exited? {
      ExitedOutputs(files, d, sandbox, req);
    }
  }

  /** What such a run captured as standard error, read before the scratch
      directories are removed. */
  lemma ScratchStderr(files: map<Path, FileEntry>, dirs: set<Path>, avoid: set<Path>, sandbox: Sandbox, req: Request,
                      runDir: Path, errDir: Path, errName: string)
    requires ScratchRequest(files, dirs, avoid, req, runDir, errDir, errName)
    requires !StdinMissing(files, dirs, req) && !StdoutIsDir(dirs, req) && sandbox(req).Exited?
    ensures var d := dirs + {runDir, errDir};
            Read(RunFiles(files, d, sandbox, req), d, Join(errDir, errName)) == Done(sandbox(req).stderr)
  {
    var d := dirs + {runDir, errDir};
    ScratchOutcome(files, dirs, avoid, sandbox, req, runDir, errDir, errName);
    JoinIsUnder(errDir, errName);
    var e := Join(errDir, errName);
    assert |e| > |runDir| ==> !Under(e, runDir) by {
      if |e| > |runDir| && Under(e, runDir) {
        UnderBoth(e, runDir, errDir);
        if Under(errDir, runDir) {
          SlashFreeNotUnder(errDir, runDir);
        } else {
          SlashFreeNotUnder(runDir, errDir);
        }
      }
    }
    ExitedOutputs(files, d, sandbox, req);
  }
}
