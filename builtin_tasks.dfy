/**
  The four default tasks of the automation manager (lint, test, format,
  security). Each one prints a banner, runs one external tool without
  enforcing success, and then reports on the tool's return code. The four
  are one template with different messages; the tool itself is seen only
  through the CommandResult it leaves behind.
 */
module BuiltinTasks {

  /** The bound methods that setup_automation registers. */
  datatype BuiltinTask = Lint | Test | Format | Security

  /** What a non-checking run of a shell command hands back. */
  datatype CommandResult = CommandResult(returnCode: int, stdout: string, stderr: string)

  /** The registry key each task is bound under. */
  function TaskName(t: BuiltinTask): string
  {
    match t
    case Lint => "lint"
    case Test => "test"
    case Format => "format"
    case Security => "security"
  }

  /** The line printed before the tool is started. */
  function Banner(t: BuiltinTask): string
  {
    match t
    case Lint => "Running flake8..."
    case Test => "Running tests..."
    case Format => "Formatting code with black..."
    case Security => "Running security checks..."
  }

  /** The line printed when the tool exits with code 0. */
  function SuccessLine(t: BuiltinTask): string
  {
    match t
    case Lint => "\U{2705} Linting passed"
    case Test => "\U{2705} All tests passed"
    case Format => "\U{2705} Code formatted"
    case Security => "\U{2705} Security check passed"
  }

  /** The line printed when the tool exits with any other code. */
  function FailureLine(t: BuiltinTask): string
  {
    match t
    case Lint => "\U{274C} Linting failed"
    case Test => "\U{274C} Some tests failed"
    case Format => "\U{274C} Formatting failed"
    case Security => "\U{274C} Security issues found"
  }

  /**
    The shared template: the lines printed (one per print call) by a task
    with the given banner and labels, once its command produced `result`.
    A zero return code yields the success label only; anything else yields
    the failure label followed by the tool's captured standard output.
    Standard error is captured but never shown.
   */
  function CheckedRun(banner: string, success: string, failure: string, result: CommandResult): (lines: seq<string>)
    ensures 2 <= |lines| <= 3 && lines[0] == banner
    ensures |lines| == 2 <==> result.returnCode == 0
    ensures result.returnCode == 0 ==> lines[1] == success
    ensures result.returnCode != 0 ==> lines[1] == failure && lines[2] == result.stdout
  {
    if result.returnCode == 0 then
      [banner, success]
    else
      [banner, failure, result.stdout]
  }

  /** What the built-in task `t` prints, given what its tool returned. */
  function TaskOutput(t: BuiltinTask, result: CommandResult): (lines: seq<string>)
    ensures |lines| >= 2 && lines[0] == Banner(t)
    ensures lines[1] == SuccessLine(t) <==> result.returnCode == 0
    ensures result.returnCode == 0 ==> lines == [Banner(t), SuccessLine(t)]
    ensures result.returnCode != 0 ==> lines == [Banner(t), FailureLine(t), result.stdout]
  {
    LabelsDiffer(t);
    CheckedRun(Banner(t), SuccessLine(t), FailureLine(t), result)
  }

  /** Every task's success and failure labels can be told apart. */
  lemma LabelsDiffer(t: BuiltinTask)
    ensures SuccessLine(t) != FailureLine(t)
  {
  }

  /**
    The report a task prints is decided by the return code alone: two runs
    whose codes agree on being zero produce the same verdict line, and runs
    that disagree produce different ones.
   */
  lemma VerdictDependsOnlyOnCode(t: BuiltinTask, a: CommandResult, b: CommandResult)
    ensures TaskOutput(t, a)[1] == TaskOutput(t, b)[1] <==> ((a.returnCode == 0) == (b.returnCode == 0))
  {
  }
}
