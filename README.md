# XLoJ judge core, modelled in Dafny

This project models the judging and problem-building core of XLoJ, a judge server for
competitive programming written in TypeScript. The model covers:

- the language table: a registry of per-language profiles, each with a source file
  name, one or more compile steps, a compiled extension and an execute template;
- submissions: the artifact name and the substitution of the execute template, the
  argument list handed to the nsjail isolation supervisor, the compile pipeline and
  the supervised run;
- the checker's verdict mapping;
- the checker, generator and validator roles;
- the runner: it judges one test case, runs the checker only on Accepted and keeps a
  lazily made scratch directory;
- test cases: the input/answer pair, generation of input and answer, and `clear`;
- problems: path composition, the program factories and the `ensure…` steps;
- the Polygon `build` pipeline: a sequence of notifications that stops at the first
  failure.

The filesystem is the class `Files.Fs`, holding a map from paths to files and a set
of directories. Its methods mirror the Node calls the source makes (`writeFile`,
`mkdir`, `rimraf`, `copyFile`, `chmod`, `makeTempDir`, …), and fresh temporary names
are slash-free names longer than every path in use.

Process execution stays abstract. Launching nsjail and reading its usage report
(`exec` and `usageToResult`) together form the oracle `Sandbox`: a function from the
caller-visible run request to an outcome. That outcome says whether the process
exited, what it printed on standard output and standard error, the files it wrote
and the parsed report. The model applies only the writes that the process could
make: inside its work directory when trusted, or through a `-B` binding.

Modules follow the source files: `Common` (paths, decimal rendering, trimming,
first-occurrence replacement), `Files`, `Languages`, `Submissions`, `Checkers`,
`Generators`, `Validators`, `TestCases`, `Runners`, `Problems` and `Polygon`.
Operations that change the filesystem are methods on `Files.Fs`. Each is proved
against a specification function of the old state. The properties the source
promises are lemmas about those functions.

## Model

| member | source | states |
|---|---|---|
| Common.ReplaceFirstSpec | src/core/submission.ts:61-67 | `String.replace` with a string pattern: the text before the first occurrence is unchanged and free of the pattern, the rest after it is kept (later occurrences included), and without an occurrence nothing changes |
| Common.TrimSpec | src/core/validtor.ts:50 | trimming keeps one contiguous slice and drops only white space from the two ends |
| Common.TrimEnds | src/core/validtor.ts:50 | a trimmed message has no white space at either end |
| Common.DecimalInjective | src/core/problem.ts:85-87 | different version numbers render differently, so a version names exactly one test case directory |
| Languages.Lookup | src/configs/lang.ts:197-203 | lookup succeeds exactly for a defined key and returns the stored entry; an unknown key fails with a SystemError `Unsupported language <lang>` |
| Languages.Registry.constructor | src/configs/lang.ts:22-191 | the registry starts as the built-in table |
| Languages.Registry.SetLangConfig | src/configs/lang.ts:193-195 | after registering, the key looks up to the new profile and every other key looks up as before |
| Languages.Registry.GetLangConfig | src/configs/lang.ts:197-203 | the lookup over the registry's current table |
| Languages.SetThenGet | src/configs/lang.ts:193-203 | registering then looking up returns the registered profile and leaves the other keys unchanged |
| Languages.BuiltinKeys | src/configs/lang.ts:22-191 | the built-in table defines exactly c, cpp, cc14, cc17, java, py2, python, kotlin, go and text |
| Languages.OnlyJavaHasSteps | src/configs/lang.ts:111-128 | java alone has two compile steps (javac writing Main.class, then jar with the default output); every other profile has one |
| Languages.CompiledFileNamed | src/configs/lang.ts:22-191 | every built-in compile step names `${compiledFile}` among its arguments, except java's javac step |
| Languages.ExecutableFileNamed | src/configs/lang.ts:22-191 | every built-in profile mentions `${executableFile}` in its execute command or in one of its execute arguments |
| Languages.StepsOf | src/core/submission.ts:224-228 | a single compile configuration counts as a one-element list |
| Submissions.New | src/core/submission.ts:42-69 | a submission exists exactly for a known language; an unknown one fails with the lookup's error; role, language and profile are kept; the artifact is `<random>.<ext>` in SUB_PATH unless a file and directory are given |
| Submissions.SubstituteExecutable | src/core/submission.ts:64-67 | the argument list keeps its length and order, and each argument has its first `${executableFile}` replaced by the artifact name |
| Submissions.NewExecuteSpec | src/core/submission.ts:61-67 | the command and each argument have only their first placeholder replaced; an argument that is exactly the placeholder becomes the artifact name |
| Submissions.BuiltinExecuteNamesArtifact | src/core/submission.ts:61-67 | for every built-in language, the substituted command or one of its arguments carries the artifact name |
| Submissions.FullFilePath | src/core/submission.ts:71-73 | the artifact path lies inside the artifact directory |
| Submissions.EnvArgs | src/core/submission.ts:24-27 | `-E name` for every forwarded variable, in order, two entries each |
| Submissions.BindingArgs | src/core/submission.ts:138-141 | one `(mode, src:/app/dst)` pair per binding, in binding order |
| Submissions.BuildNsjailArgs | src/core/submission.ts:75-152 | the loop that pushes the binding pairs yields exactly the specified argument list |
| Submissions.NsjailArgsLayout | src/core/submission.ts:75-152 | the list is the base part, the binding pairs, `-D /app`, the limits, the `-E` pairs and a final `--`, each at the computed positions |
| Submissions.TrustTier | src/core/submission.ts:84-116 | trusted selects the compiler uid/gid and binds the work directory `-B` to /app; untrusted selects the run uid/gid and `-R`; the fixed system mounts are read-only |
| Submissions.LimitsSpec | src/core/submission.ts:117-136 | pids 64, cpu 1000 ms/s, memory `(maxMemory+32)*1024*1024` bytes, wall `2*maxTime+1` beyond rlimit_cpu `maxTime+1`, address space `inf`, stack `max(maxMemory+32,256)`, file size OUTPUT_LIMIT |
| Submissions.Resolve | src/core/submission.ts:277-288 | an explicit command or argument list replaces the submission's own |
| Submissions.Redirect | src/core/submission.ts:162-186 | opening the redirections fails only with a TestCaseError and touches no file other than the two outputs |
| Submissions.OpenRedirect | src/core/submission.ts:162-186 | the step-by-step opening matches the redirection specification and makes no directory |
| Submissions.Applied | src/core/submission.ts:298-323 | the process changes exactly the files it wrote where it had write access, keeping their modes |
| Submissions.Outcome | src/core/submission.ts:323-331 | a run resolves exactly when the process exits with a readable report; otherwise it fails with a SystemError |
| Submissions.Supervise | src/core/submission.ts:298-331 | the supervised process resolves as its outcome says and leaves the specified files |
| Submissions.Run | src/core/submission.ts:277-337 | `run` resolves as specified, runs nsjail with the computed argument list in two distinct fresh scratch directories, starts only when the redirections open, and leaves the directories as they were |
| Submissions.RunErrors | src/core/submission.ts:289-337 | a redirection failure is a TestCaseError and no process starts; any other failure is a SystemError; the run resolves exactly for an exited process with a readable report |
| Submissions.MissingStdin | src/core/submission.ts:172-185 | a missing input file fails with Node's ENOENT text for `open` and changes nothing |
| Submissions.RunConfined | src/core/submission.ts:277-337 | a run changes only its output redirections and the paths the process may write |
| Submissions.RunFilesApart | src/core/submission.ts:154-160 | nothing a run leaves lies inside a fresh scratch directory |
| Submissions.ExitedOutputs | src/core/submission.ts:162-186 | a redirected output holds exactly what the process printed there |
| Submissions.ClearWorkDir | src/core/submission.ts:158-160 | removing the two fresh scratch directories removes nothing else |
| Submissions.ScratchOutcome | src/core/submission.ts:162-186 | with scratch-only output files, opening fails only for a missing input or an output that is a directory, and a failure changes nothing |
| Submissions.ScratchKeeps | src/core/submission.ts:324-335 | once both scratch directories are removed, such a run has changed nothing but its standard output file |
| Submissions.ScratchStdout | src/core/submission.ts:162-186 | the standard output file holds the process's output, or is unchanged when the redirections failed |
| Submissions.ScratchStderr | src/core/submission.ts:162-186 | the captured standard error file holds exactly what the process printed there |
| Submissions.SubstituteArgs | src/core/submission.ts:233-240 | whole-element substitution: an argument equal to `${sourceFile}` becomes the source file name, one equal to `${compiledFile}` becomes the step's output, every other is kept, and the length is kept |
| Submissions.JavaStepArgs | src/core/submission.ts:229-240 | java's steps run javac on Main.java with `-d .`, then jar writing `compile.out` from Main.class |
| Submissions.BuiltinOutputs | src/core/submission.ts:229-240 | every built-in step except javac tells its compiler to write the step's output, which is `compile.out` except for kotlin's `compile.jar` |
| Submissions.RunSteps | src/core/submission.ts:229-262 | the steps run in order and stop at the first failure; success means every step ran |
| Submissions.StepsConfined | src/core/submission.ts:229-262 | compile steps write nothing outside the compile directory |
| Submissions.StepsStop | src/core/submission.ts:229-262 | once a step has failed, the later steps are never started |
| Submissions.FirstFailure | src/core/submission.ts:229-262 | the failure comes from the last started step, and every earlier step succeeded |
| Submissions.StepErrorMessage | src/core/submission.ts:248-260 | a failing step raises a CompileError with its standard error text if non-empty, else the time-limit, memory-limit or generic message, in that order |
| Submissions.PrepareCompileDir | src/core/submission.ts:210-223 | a fresh compile directory holding the source and two empty capture files |
| Submissions.CompileLoop | src/core/submission.ts:229-262 | the loop over steps matches the stepwise specification |
| Submissions.InstallArtifact | src/core/submission.ts:264-269 | the copy takes the content of `compile.out` and mode 0775, and fails with Node's error otherwise |
| Submissions.Compile | src/core/submission.ts:210-275 | `compile` succeeds only if every step did, and then installs the fixed `compile.out` at the artifact path with mode 0775; on failure no file changes; the compile directory is removed on every path |
| Submissions.FinishCompile | src/core/submission.ts:264-274 | the artifact is installed unless a step failed, and the compile directory is then removed |
| Submissions.CompileConfined | src/core/submission.ts:210-262 | compiling writes nothing outside the compile directory before installing the artifact |
| Submissions.Clear | src/core/submission.ts:206-208 | checkers and validators keep their artifact; every other role unlinks it, rejecting with ENOENT for a missing artifact and EISDIR for a directory |
| Checkers.NewChecker | src/core/checker.ts:9-14 | the checker's artifact is `name` verbatim in `basePath`, with the checker role |
| Checkers.GetVerdict | src/core/checker.ts:18-32 | Accepted out exactly for Accepted in; a JudgeError exactly for a non-Accepted result with exit code 3; never RuntimeError out; exit code 7 gives Point |
| Checkers.GetVerdictCases | src/core/checker.ts:18-32 | exit 3 comes before exit 7 and before the RuntimeError rule; RuntimeError becomes WrongAnswer; every other verdict passes through |
| Generators.NewGenerator | src/core/generator.ts:4-10 | the generator role, `name` verbatim in `basePath`, and the execute template substituted with that name |
| Generators.GeneratorClearDeletes | src/core/generator.ts:4-10 | a generator's `clear` deletes its artifact, and no extension is appended to the name |
| Validators.NewValidator | src/core/validtor.ts:12-18 | the artifact is `<id>.<ext>` in PROBLEM_PATH with the validator role; an unknown language fails with the lookup's error |
| Validators.Target | src/core/validtor.ts:24 | the validated input is `PROBLEM_PATH/<id>.in` |
| Validators.ValidationLeavesNoTrace | src/core/validtor.ts:32-56 | a run without a standard output redirection leaves no trace once both scratch directories are removed |
| Validators.Validate | src/core/validtor.ts:22-57 | a missing input rejects with a TestCaseError; otherwise the validator's result, carrying its trimmed standard error unless Accepted; nothing on disk changes |
| TestCases.PathsApart | src/core/testcase.ts:16-21 | the input and answer files are distinct, and neither lies inside the other |
| TestCases.Cleared | src/core/testcase.ts:128-133 | `clear` removes everything at or inside the two files and keeps the rest |
| TestCases.ClearedDirs | src/core/testcase.ts:128-133 | the directories left by `clear` |
| TestCases.Clear | src/core/testcase.ts:128-133 | `clear` never fails and leaves exactly the cleared state |
| TestCases.ClearIdempotent | src/core/testcase.ts:128-133 | clearing twice is clearing once |
| TestCases.WriteAsWritten | src/core/testcase.ts:35-42 | as written, the write succeeds only when the file already exists, and otherwise leaves a directory in its place |
| TestCases.WriteInAsWritten | src/core/testcase.ts:35-42 | `writeIn` as written: mkdir at the file's own path, then the write |
| TestCases.WriteAnsAsWritten | src/core/testcase.ts:135-142 | `writeAns` as written: mkdir at the file's own path, then the write |
| TestCases.WriteInAfterClearFails | src/core/testcase.ts:44-46 | as written, `genIn` always rejects with EISDIR after its `clear` and never runs the generator |
| TestCases.WriteAnsAsWrittenStuck | src/core/testcase.ts:87-88 | as written, `genAns` rejects for a fresh answer file and every later call rejects too |
| TestCases.WriteIn | src/core/testcase.ts:35-42 | corrected `writeIn`: the input file holds the content |
| TestCases.WriteAns | src/core/testcase.ts:135-142 | corrected `writeAns`: the answer file is truncated; a directory in its place rejects |
| TestCases.Reported | src/core/testcase.ts:71-77 | a failed run carries its trimmed standard error as the message, an accepted one is returned as reported, and a rejected run rejects |
| TestCases.GenInFiles | src/core/testcase.ts:44-85 | `genIn` leaves the generated input when accepted, and otherwise nothing of the test case |
| TestCases.GenAnsFiles | src/core/testcase.ts:87-126 | `genAns` leaves the generated answer, and after the answer file is removed, the earlier files without it |
| TestCases.RunCapturing | src/core/testcase.ts:54-77 | the run with its message captured on failure |
| TestCases.GenIn | src/core/testcase.ts:44-85 | the test case is cleared; the generator's output becomes the input file exactly when the run is accepted; every other ending leaves it cleared; the scratch directories are removed |
| TestCases.ScratchDirsUncleared | src/core/testcase.ts:75-83 | clearing a cleared test case leaves its scratch directories |
| TestCases.AnswerDirsGone | src/core/testcase.ts:116-124 | removing the answer and both scratch directories leaves the earlier directories without the answer |
| TestCases.GenAns | src/core/testcase.ts:87-126 | the generator reads the input and writes the answer; any ending other than Accepted removes the answer file; the input file never changes |
| Runners.ScratchFile | src/core/runner.ts:47 | a scratch file lies in the scratch directory |
| Runners.CheckerBindings | src/core/runner.ts:122-132 | exactly five bindings: executable, in, out and ans read-only, result read-write |
| Runners.CheckVerdict | src/core/runner.ts:134-157 | the checker's verdict through `getVerdict`; a JudgeError carries the head of the result file as its message |
| Runners.CheckerRunFiles | src/core/runner.ts:134-141 | the checker's run changes only its result file |
| Runners.RunChecker | src/core/runner.ts:134-154 | the verdict from `getVerdict`, the head of the result file as report and as JudgeError message; only the result file changes |
| Runners.WorkDirApart | src/core/runner.ts:117-120 | the checker's fresh work directory is apart from the scratch directory and the result file |
| Runners.CheckAndRemove | src/core/runner.ts:134-157 | the checker's run, then removal of the work directory, which leaves the scratch directory |
| Runners.UntrustedRunKeys | src/core/runner.ts:73-87 | an untrusted run with read-only bindings and existing outputs adds and removes no file |
| Runners.Checked | src/core/runner.ts:93-106 | a non-Accepted result is final; an Accepted one is checked, and only its verdict is replaced |
| Runners.RunDirApart | src/core/runner.ts:65-109 | removing the run directory removes only itself |
| Runners.JudgedConfined | src/core/runner.ts:61-110 | `run` changes no file outside the scratch directory |
| Runners.JudgedDirs | src/core/runner.ts:61-110 | `run` leaves the scratch directory; the run directory stays only when a scratch file could not be made; the checker's directory stays only when its result file could not be made |
| Runners.JudgedVerdict | src/core/runner.ts:93-106 | `check` is called exactly when the submission ran and was Accepted; other verdicts are the result's; Accepted only when both were |
| Runners.JudgedMissingInput | src/core/runner.ts:73-87 | a missing input file rejects with a TestCaseError naming it, and no program runs |
| Runners.JudgedStdout | src/core/runner.ts:89-91 | with a report, the attached output is the head of what the submission printed |
| Runners.Runner.constructor | src/core/runner.ts:31-41 | no scratch directory yet |
| Runners.Runner.MakeWriteFile | src/core/runner.ts:43-51 | the scratch directory is made on first use only, and the empty file with mode 0766 is made in it |
| Runners.Runner.Clear | src/core/runner.ts:53-59 | forgets and removes the scratch directory; without one it does nothing, so it is idempotent |
| Runners.Runner.Check | src/core/runner.ts:112-158 | the checker runs in a fresh work directory and writes its result in the scratch directory; nothing outside the scratch directory changes |
| Runners.Runner.Settle | src/core/runner.ts:93-106 | the check runs only on Accepted |
| Runners.Runner.Submit | src/core/runner.ts:72-109 | the submission's run, then the check, then removal of the run directory |
| Runners.Runner.Run | src/core/runner.ts:61-110 | what `run` resolves or rejects with and what it leaves on disk are those of the judging specification |
| Problems.ProblemLayout | src/core/problem.ts:19-34 | a problem without a base path lives at PROBLEM_PATH/name; its test cases at .../testcases/<version>/<name>.in and .ans; the object store mirrors this under the problem's prefix |
| Problems.LastComponent | src/core/problem.ts:85-87 | two different names in one directory are apart |
| Problems.VersionsApart | src/core/problem.ts:81-87 | different versions never share a directory or a test case file |
| Problems.CheckerOf | src/core/problem.ts:36-39 | the checker artifact is `name.<ext>` in the problem directory; an unknown language propagates the lookup failure |
| Problems.GeneratorOf | src/core/problem.ts:46-49 | the generator artifact is `name.<ext>` in the problem directory; an unknown language propagates the lookup failure |
| Problems.EnsureProblem | src/core/problem.ts:51-57 | makes the problem directory, swallowing the failure; afterwards something is there |
| Problems.EnsureTestcasesBasePath | src/core/problem.ts:70-79 | makes the problem and version directories, swallowing failures |
| Problems.EnsureChecker | src/core/problem.ts:59-68 | a readable artifact is kept; otherwise the source under `<prefix>/<name>` is fetched and compiled with 16 s; an unknown language fails first; after success the artifact is there |
| Polygon.Programs | src/polygon/build.ts:21-59 | compile order: checker, validator, solution, then every generator in list order |
| Polygon.CompileFirstFailure | src/polygon/build.ts:21-59 | the compile phase announces a prefix of the programs in order, fails exactly at the first failing step, and finishes only when every step succeeds |
| Polygon.FindGenerator | src/polygon/build.ts:97-99 | the first generator whose id matches, or none exactly when no id matches |
| Polygon.CheckedShape | src/polygon/build.ts:136-187 | validate, answer and upload send at most three notifications in order, all about one test case, with ERROR only at the end of a halted run |
| Polygon.CaseShape | src/polygon/build.ts:80-187 | at most four notifications, all with the test case's index and configuration, in the order DOWNLOAD or GEN_IN, VALIDATE, GEN_ANS, UPLOAD; a non-Accepted result adds one ERROR and stops; the loop goes on only after UPLOAD |
| Polygon.CaseStart | src/polygon/build.ts:84-133 | a file test case starts with DOWNLOAD, a generated one with GEN_IN naming the first generator whose id matches; an unknown generator or type sends nothing and rejects with its message |
| Polygon.CasesEnding | src/polygon/build.ts:79-190 | END exactly when every test case went through; ERROR only last, in a stopped build |
| Polygon.CasesIndexed | src/polygon/build.ts:79-82 | indices lie between k+1 and the number of test cases, carry their configuration, and never go back |
| Polygon.CasesComplete | src/polygon/build.ts:79-190 | the test cases finish only when each was uploaded |
| Polygon.CompileHead | src/polygon/build.ts:14-59 | after START, the compile phase sends only COMPILE, for the programs in order |
| Polygon.AfterCompileShape | src/polygon/build.ts:60-190 | END last and only when finished; COMPILE_ERROR exactly for a CompileError, alone; ERROR only last |
| Polygon.JoinTrace | src/polygon/build.ts:14-190 | START and the compile notifications keep the ending rules of what follows |
| Polygon.BuildTrace | src/polygon/build.ts:13-191 | START first and only first; END last and exactly when the build finishes; COMPILE_ERROR exactly for a CompileError, which stops the build; ERROR only last; other compile errors reject |
| Polygon.BuildCompileOrder | src/polygon/build.ts:21-67 | programs compile in order, each announced before its step; no COMPILE afterwards; the first failing step stops compiling; test cases only after every program compiled |
| Polygon.BuildIndexed | src/polygon/build.ts:79-82 | every test case notification carries a 1-based index and its configuration, and the build never goes back |
| Polygon.BuildFinished | src/polygon/build.ts:79-190 | a finished build compiled every program, made its validator and solution, and uploaded every test case; none named an unknown generator or type |
| Polygon.CheckCase | src/polygon/build.ts:136-187 | validating, answering and uploading one test case matches its specification |
| Polygon.ProcessCase | src/polygon/build.ts:80-187 | one pass of the test case loop matches the case specification |
| Polygon.CompileAll | src/polygon/build.ts:21-59 | the compile phase's steps and loop match the compile specification |
| Polygon.Build | src/polygon/build.ts:13-191 | the notifications and the settlement of `build` are exactly those of the build specification |

## Left out

- Checker trust: the checker runs untrusted (`-R` work directory, run uid/gid), as `check` passes no `trusted` flag; a checker treated as trusted is not modelled.
- `Promise.all`: modelled as sequential, with the run (or work) directory made before the scratch file.
- `readFileHead`: a parameter function `head` applied to the file's content.
- `randomString`: parameters (`random`, `rOut`, `rErr`, `rChk`); `makeTempDir`'s name is a fresh slash-free name.
- `exec` of nsjail and `usageToResult`: the `Sandbox` oracle; the usage-to-verdict rules live outside the core.
- `Problem.validator`: not modelled; it calls the validator constructor with three arguments, which takes two.
- The validate step of `build`: a step oracle, since `validate` takes a test case id while `build` passes a test case.
- `ensureValidator`, `ensureGenerator`, `downloadIn` and `uploadToMinio`: called by `build` but not defined in the repository, so they are step oracles in `Polygon.Steps`.
- Polygon.Build: `ensureChecker`'s status is a step oracle there; its behaviour is modelled by Problems.EnsureChecker.
- Polygon.Build: `ensureProblem` and `ensureTestcasesBasePath` never fail the build, so they are left to Problems and do not appear in the trace.
- The `fn` callback: the trace of notifications; awaiting it is not modelled.
- Paths: `path.join` normalisation (`..`, repeated separators) is not modelled, and parent-directory existence is not modelled for `mkdir`, `writeFile`, `open` or `copyFile`; a missing parent, which Node rejects with ENOENT, succeeds in the model.
- Languages.Lookup: lookup is modelled over the table's own keys only; keys inherited from `Object.prototype` (such as `constructor` or `toString`), which the source resolves to a non-configuration value that later fails with a TypeError, are not modelled. Languages.Registry.GetLangConfig inherits the same gap.
- Polygon.Build: the generator steps `genIn` and `genAns` are step oracles in `Polygon.Steps`; TestCases.GenIn and TestCases.GenAns model the corrected versions (see Findings). As written, `genIn` always rejects with EISDIR, so a build with a generator test case rejects right after that case's GEN_IN notification.
- `access(R_OK)`: checks existence only; permissions are not modelled.
- JSON: the ERROR notification carries the RunResult itself rather than its JSON text; the JSON and base64 decoding in `ensureChecker` is folded into the `fetch` oracle.
- Numbers: the build version is a `nat` and generator ids are integers; nothing in the core does arithmetic that could overflow a double.
- LimitArgs, Job: the time and memory limits are modelled as integers; the request schema admits any number, and fractional limits (such as 1.5 s), which nsjail receives as decimal text, are not modelled.
- Common.ReplaceFirstSpec: the `$` replacement patterns of `String.replace` are not modelled.
- Logger calls: dropped.
- Object storage (`src/minio.ts`), the HTTP and AMQP transport and the judge factory are not part of this model.

## Findings

| source | as written | input that shows it | evidently intended | confidence | as-written member | corrected member |
|---|---|---|---|---|---|---|
| src/core/testcase.ts:35-46 | `writeIn` makes a directory at the input file's own path and then writes the file there; `genIn` calls it right after `clear` | any `genIn` call: after `clear`, the input path is free, `mkdir` makes it a directory, and `writeFile` rejects with EISDIR | write an empty input file before running the generator | not executed | TestCases.WriteInAfterClearFails | TestCases.GenIn |
| src/core/testcase.ts:87-88 | `writeAns` does the same at the answer file's path, outside `genAns`'s `try` | `genAns` for a test case whose answer file does not exist yet: the call rejects and leaves a directory at the answer path, so every later call rejects too | truncate the answer file before running the generator | not executed | TestCases.WriteAnsAsWrittenStuck | TestCases.GenAns |
