/** The checker role: a program compiled like any other whose artifact is
    named verbatim, which is never deleted by `clear`, and whose run result is
    mapped to the verdict of the submission it checked. */
module Checkers {
  import opened Common
  import opened Languages
  import opened Submissions

  /** `new Checker(name, basePath, lang)`. */
  function NewChecker(table: map<string, LangConfig>, cfg: Config, name: string, basePath: Path, lang: string)
    : (r: Outcome<Submission>)
    ensures r.Done? <==> lang in table
    ensures r.Done? ==>
              && r.value.role == CheckerRole
              && r.value.execute.file == name
              && r.value.execute.dir == basePath
              && FullFilePath(r.value) == Join(basePath, name)
  {
    New(table, cfg, lang, CheckerRole, Some(Location(name, basePath)), "")
  }

  /** `Checker.getVerdict`: the checker's own result read as the final
      verdict of the checked submission. */
  function GetVerdict(verdict: Verdict, exitCode: int): (r: Outcome<Verdict>)
    ensures r == Done(Accepted) <==> verdict == Accepted
    ensures r.Threw? <==> verdict != Accepted && exitCode == 3
    ensures r.Threw? ==> r.error == JudgeError("")
    ensures r.Done? ==> r.value != RuntimeError
    ensures verdict != Accepted && exitCode == 7 ==> r == Done(Point)
  {
    if verdict != Accepted then
      if exitCode == 3 then Threw(JudgeError(""))
      else if exitCode == 7 then Done(Point)
      else if verdict != RuntimeError then Done(verdict)
      else Done(WrongAnswer)
    else Done(Accepted)
  }

  /** The mapping, case by case: the checker's internal fault (exit 3) comes
      first, then partial credit (exit 7); a checker that fails at run time
      rejects the answer; every other verdict passes through; an accepted
      checker accepts whatever its exit code. */
  lemma GetVerdictCases(verdict: Verdict, exitCode: int)
    ensures verdict == Accepted ==> GetVerdict(verdict, exitCode) == Done(Accepted)
    ensures verdict != Accepted && exitCode == 3 ==> GetVerdict(verdict, exitCode) == Threw(JudgeError(""))
    ensures verdict == RuntimeError && exitCode != 3 && exitCode != 7 ==> GetVerdict(verdict, exitCode) == Done(WrongAnswer)
    ensures verdict != Accepted && verdict != RuntimeError && exitCode != 3 && exitCode != 7 ==>
              GetVerdict(verdict, exitCode) == Done(verdict)
  {
  }
}
