/** The generator role: a program whose artifact is named verbatim, whose
    output becomes test data, and whose `clear` deletes its artifact. */
module Generators {
  import opened Common
  import opened Files
  import opened Languages
  import opened Submissions

  /** `new Generator(name, basePath, lang)`. */
  function NewGenerator(table: map<string, LangConfig>, cfg: Config, name: string, basePath: Path, lang: string)
    : (r: Outcome<Submission>)
    ensures r.Done? <==> lang in table
    ensures r.Done? ==>
              && r.value.role == GeneratorRole
              && r.value.execute.file == name
              && r.value.execute.dir == basePath
              && r.value.execute.command == ReplaceFirst(table[lang].executeCommand, ExecutableFile, name)
              && r.value.execute.args == SubstituteExecutable(table[lang].executeArgs, name)
  {
    New(table, cfg, lang, GeneratorRole, Some(Location(name, basePath)), "")
  }

  /** Unlike a checker's, a generator's `clear` deletes its artifact, and
      the artifact is not renamed: no extension is appended to `name`. */
  lemma GeneratorClearDeletes(table: map<string, LangConfig>, cfg: Config, name: string, basePath: Path, lang: string)
    requires lang in table
    ensures var g := NewGenerator(table, cfg, name, basePath, lang).value;
            && g.role != CheckerRole && g.role != ValidatorRole
            && FullFilePath(g) == basePath + "/" + name
  {
  }
}
