/**
 * The low-level task records that box compilers emit. Every attribute is
 * None until the compiler calls its setter; the PHP classes Task and SandboxConfig
 * themselves are not part of this model, so their defaults are
 * left unset rather than guessed.
 */
module JobConfig {
  import opened Wrappers

  datatype TaskType = Initiation | Execution | Evaluation

  datatype SandboxConfig = SandboxConfig(
    name: Option<string>,
    stdin: Option<string>,
    stdout: Option<string>,
    output: Option<bool>)

  datatype Task = Task(
    taskType: Option<TaskType>,
    fatalFailure: Option<bool>,
    commandBinary: Option<string>,
    commandArguments: Option<seq<string>>,
    sandbox: Option<SandboxConfig>)

  /** The job-level limits of one hardware group, as `compile` on the exercise limits fills them. */
  datatype JobLimits = JobLimits(id: string, wallTime: real, memory: int, parallel: int)

  /** `new Task()` and `new SandboxConfig()`. */
  const EMPTY_TASK := Task(None, None, None, None, None)
  const EMPTY_SANDBOX := SandboxConfig(None, None, None, None)

  /** The Linux sandbox every compiled box runs in. */
  const ISOLATE := "isolate"

  /**
   * Deployment constants the compilers read: the evaluation and source
   * directory prefixes and the fetch command. Their values live in files
   * that are not part of this model, so they are inputs here.
   */
  datatype ConfigParams = ConfigParams(evalDir: string, sourceDir: string, fetchCommand: string)

  /**
   * Why compiling a box fails: the configuration exception a box throws, or
   * a method called on the value of a port that has none, which PHP raises
   * as an Error.
   */
  datatype ConfigError = ExerciseConfigException(message: string) | CallOnNull(port: string)

  /** A variable's value with a directory prefix put in front (`getPrefixedValue`). */
  function Prefixed(prefix: string, value: string): string {
    prefix + value
  }

  /** `getPrefixedValue` of an array variable: every element prefixed, order kept. */
  function PrefixedAll(prefix: string, values: seq<string>): (r: seq<string>)
    ensures |r| == |values|
    ensures forall i :: 0 <= i < |values| ==> r[i] == Prefixed(prefix, values[i])
  {
    if values == [] then [] else [Prefixed(prefix, values[0])] + PrefixedAll(prefix, values[1..])
  }
}
