/** The per-language profile table: source file name, compile steps, the
    extension of the compiled artifact and the execute template. */
module Languages {
  import opened Common

  /** One compile step; `out` absent means `compile.out`. */
  datatype CompileConfig = CompileConfig(command: string, args: seq<string>, out: Option<string>)

  /** A profile declares either one step or an ordered list of steps. */
  datatype CompileSetting = Single(step: CompileConfig) | Steps(steps: seq<CompileConfig>)

  datatype LangConfig = LangConfig(
    sourceFileName: string,
    compile: CompileSetting,
    compiledExtension: string,
    executeCommand: string,
    executeArgs: seq<string>)

  const SourceFile := "${sourceFile}"
  const CompiledFile := "${compiledFile}"
  const ExecutableFile := "${executableFile}"
  const DefaultOut := "compile.out"

  /** A single step counts as a one-element list. */
  function StepsOf(c: CompileSetting): (steps: seq<CompileConfig>)
    ensures c.Single? ==> steps == [c.step]
    ensures c.Steps? ==> steps == c.steps
  {
    match c
    case Single(s) => [s]
    case Steps(ss) => ss
  }

  /** The output name a step declares, `compile.out` by default. */
  function OutOf(step: CompileConfig): string {
    match step.out
    case Some(o) => o
    case None => DefaultOut
  }

  function GccProfile(source: string, compiler: string, std: string, ext: string): LangConfig {
    LangConfig(
      source,
      Single(CompileConfig(compiler,
        ["-static", "-O2", std, "-DONLINE_JUDGE", "-lm", "-fmax-errors=127", "-o", CompiledFile, SourceFile],
        None)),
      ext,
      "./" + ExecutableFile,
      [])
  }

  function CopyProfile(source: string, ext: string, runner: string): LangConfig {
    LangConfig(source, Single(CompileConfig("/bin/cp", [SourceFile, CompiledFile], None)), ext, runner, [ExecutableFile])
  }

  /** The table the module starts with. */
  function Builtin(): map<string, LangConfig> {
    map[
      "c" := GccProfile("sub.c", "/usr/bin/gcc", "-std=c99", "bin"),
      "cpp" := GccProfile("sub.cpp", "/usr/bin/g++", "-std=c++11", "bin11"),
      "cc14" := GccProfile("sub.cpp", "/usr/bin/g++", "-std=c++14", "bin14"),
      "cc17" := GccProfile("sub.cpp", "/usr/bin/g++", "-std=c++17", "bin17"),
      "java" := LangConfig(
        "Main.java",
        Steps([
          CompileConfig("/usr/bin/javac", ["-encoding", "utf8", "-d", ".", SourceFile], Some("Main.class")),
          CompileConfig("/usr/bin/jar", ["-cvf", CompiledFile, "Main.class"], None)]),
        "jar",
        "/usr/bin/java",
        ["-cp", ExecutableFile, "Main"]),
      "py2" := CopyProfile("sub.py", "py2", "/usr/bin/python"),
      "python" := CopyProfile("sub.py", "py3", "/usr/bin/python3"),
      "kotlin" := LangConfig(
        "sub.kt",
        Single(CompileConfig("/usr/bin/kotlin/bin/kotlinc", [SourceFile, "-include-runtime", "-d", CompiledFile], Some("compile.jar"))),
        "jar",
        "/usr/bin/java",
        ["-jar", ExecutableFile]),
      "go" := LangConfig(
        "sub.go",
        Single(CompileConfig("/usr/local/go/bin/go", ["build", "-o", CompiledFile, SourceFile], None)),
        "bingo",
        "./" + ExecutableFile,
        []),
      "text" := CopyProfile("sub.txt", "txt", "/bin/cat")
    ]
  }

  /** `getLangConfig` over a table value: the stored entry, or a SystemError
      naming the language. */
  function Lookup(table: map<string, LangConfig>, lang: string): (r: Outcome<LangConfig>)
    ensures r.Done? <==> lang in table
    ensures r.Done? ==> r.value == table[lang]
    ensures r.Threw? ==> r.error == SystemError("Unsupported language <" + lang + ">")
  {
    if lang in table then Done(table[lang])
    else Threw(SystemError("Unsupported language <" + lang + ">"))
  }

  /** The module-level table, which `setLangConfig` updates in place. */
  class Registry {
    var table: map<string, LangConfig>

    constructor ()
      ensures table == Builtin()
    {
      table := Builtin();
    }

    /** `setLangConfig(lang, config)`. */
    method SetLangConfig(lang: string, config: LangConfig)
      modifies this
      ensures table == old(table)[lang := config]
      ensures GetLangConfig(lang) == Done(config)
      ensures forall k :: k != lang ==> GetLangConfig(k) == old(GetLangConfig(k))
    {
      table := table[lang := config];
    }

    /** `getLangConfig(lang)`. */
    function GetLangConfig(lang: string): (r: Outcome<LangConfig>)
      reads this
      ensures r == Lookup(table, lang)
    {
      Lookup(table, lang)
    }
  }

  /** Registering then looking up returns the registered profile and leaves
      every other key as it was. */
  lemma SetThenGet(table: map<string, LangConfig>, lang: string, config: LangConfig, other: string)
    requires other != lang
    ensures Lookup(table[lang := config], lang) == Done(config)
    ensures Lookup(table[lang := config], other) == Lookup(table, other)
  {
  }

  /** The built-in table defines exactly these ten languages. */
  lemma BuiltinKeys()
    ensures Builtin().Keys == {"c", "cpp", "cc14", "cc17", "java", "py2", "python", "kotlin", "go", "text"}
  {
  }

  /** java is the only built-in profile with more than one step: javac
      producing Main.class, then jar with the default output. */
  lemma OnlyJavaHasSteps(lang: string)
    requires lang in Builtin()
    ensures |StepsOf(Builtin()[lang].compile)| == (if lang == "java" then 2 else 1)
    ensures lang == "java" ==>
              var steps := StepsOf(Builtin()[lang].compile);
              && steps[0].command == "/usr/bin/javac" && OutOf(steps[0]) == "Main.class"
              && steps[1].command == "/usr/bin/jar" && OutOf(steps[1]) == DefaultOut
  {
  }

  /** Every built-in step except javac's names `${compiledFile}` among its
      arguments. */
  lemma CompiledFileNamed(lang: string, k: nat)
    requires lang in Builtin()
    requires k < |StepsOf(Builtin()[lang].compile)|
    ensures CompiledFile in StepsOf(Builtin()[lang].compile)[k].args <==> !(lang == "java" && k == 0)
  {
  }

  /** Every built-in profile mentions `${executableFile}` in its execute
      command or in one of its execute arguments. */
  lemma ExecutableFileNamed(lang: string)
    requires lang in Builtin()
    ensures var c := Builtin()[lang];
            Contains(c.executeCommand, ExecutableFile) || ExecutableFile in c.executeArgs
  {
    var c := Builtin()[lang];
    if c.executeCommand == "./" + ExecutableFile {
      assert OccursAt(c.executeCommand, ExecutableFile, 2);
      assert IndexFrom(c.executeCommand, ExecutableFile, 0).Some?;
    }
  }
}
