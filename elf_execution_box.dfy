/**
 * The "elf-exec" box: runs a compiled binary inside the sandbox, with
 * optional arguments, standard input and standard output.
 */
module ElfExecutionBox {
  import opened Wrappers
  import opened Ports
  import opened JobConfig

  const ELF_EXEC_TYPE := "elf-exec"
  const BINARY_FILE_PORT_KEY := "binary-file"
  const BINARY_ARGS_PORT_KEY := "args"
  const INPUT_FILES_PORT_KEY := "input-files"
  const STDIN_FILE_PORT_KEY := "stdin"
  const OUTPUT_FILE_PORT_KEY := "output-file"
  const STDOUT_FILE_PORT_KEY := "stdout"
  const DEFAULT_NAME := "ELF Execution"

  /** `getType()`: the type name the box is registered under. */
  function GetType(): (r: string)
    ensures r == "elf-exec"
  {
    ELF_EXEC_TYPE
  }

  /** `getDefaultName()`: the name a new box of this type gets. */
  function GetDefaultName(): (r: string)
    ensures r == "ELF Execution"
  {
    DEFAULT_NAME
  }

  function Template(name: string, t: VariableType): Port {
    Port(GenericPort, Meta(Some(name), Some(t), Some("")))
  }

  /** args, stdin, input-files, binary-file; all bound to "". */
  function InputTemplates(): seq<Port> {
    [Template(BINARY_ARGS_PORT_KEY, StringArrayType),
     Template(STDIN_FILE_PORT_KEY, FileType),
     Template(INPUT_FILES_PORT_KEY, FileArrayType),
     Template(BINARY_FILE_PORT_KEY, FileType)]
  }

  /** stdout, output-file; both bound to "". */
  function OutputTemplates(): seq<Port> {
    [Template(STDOUT_FILE_PORT_KEY, FileType),
     Template(OUTPUT_FILE_PORT_KEY, FileType)]
  }

  class Statics {
    var initialized: bool
    var defaultInputPorts: seq<Port>
    var defaultOutputPorts: seq<Port>

    predicate Valid()
      reads this
    {
      initialized ==> defaultInputPorts == InputTemplates() && defaultOutputPorts == OutputTemplates()
    }

    constructor ()
      ensures Valid() && !initialized
      ensures defaultInputPorts == [] && defaultOutputPorts == []
    {
      initialized := false;
      defaultInputPorts := [];
      defaultOutputPorts := [];
    }

    /** Fills the templates on the first call; later calls change nothing. */
    method Init()
      requires Valid()
      modifies this
      ensures Valid() && initialized
      ensures defaultInputPorts == InputTemplates() && defaultOutputPorts == OutputTemplates()
      ensures old(initialized) ==> unchanged(this)
    {
      if !initialized {
        initialized := true;
        var args := NewPort(GenericPort, BINARY_ARGS_PORT_KEY, Some(StringArrayType), Some(""));
        var stdin := NewPort(GenericPort, STDIN_FILE_PORT_KEY, Some(FileType), Some(""));
        var inputFiles := NewPort(GenericPort, INPUT_FILES_PORT_KEY, Some(FileArrayType), Some(""));
        var binary := NewPort(GenericPort, BINARY_FILE_PORT_KEY, Some(FileType), Some(""));
        defaultInputPorts := [args, stdin, inputFiles, binary];
        var stdout := NewPort(GenericPort, STDOUT_FILE_PORT_KEY, Some(FileType), Some(""));
        var outputFile := NewPort(GenericPort, OUTPUT_FILE_PORT_KEY, Some(FileType), Some(""));
        defaultOutputPorts := [stdout, outputFile];
      }
    }

    method GetDefaultInputPorts() returns (ports: seq<Port>)
      requires Valid()
      modifies this
      ensures Valid() && initialized
      ensures ports == InputTemplates()
    {
      Init();
      ports := defaultInputPorts;
    }

    method GetDefaultOutputPorts() returns (ports: seq<Port>)
      requires Valid()
      modifies this
      ensures Valid() && initialized
      ensures ports == OutputTemplates()
    {
      Init();
      ports := defaultOutputPorts;
    }
  }

  /**
   * `compile()`: `binary`, `args`, `stdin` and `stdout` are the values of
   * their ports, None when the port has no variable value. The binary-file
   * value is read without a check, so a missing one is a call on null.
   */
  method Compile(binary: Option<string>, args: Option<seq<string>>, stdin: Option<string>, stdout: Option<string>,
                 params: ConfigParams)
    returns (r: Result<seq<Task>, ConfigError>)
    ensures r.Failure? <==> binary.None?
    ensures r.Failure? ==> r.error == CallOnNull(BINARY_FILE_PORT_KEY)
    ensures r.Success? ==> |r.value| == 1
    ensures r.Success? ==> var task := r.value[0];
      && task.taskType == Some(Execution)
      && task.fatalFailure == None
      && task.commandBinary == Some(Prefixed(params.evalDir, binary.value))
      && (task.commandArguments.Some? <==> args.Some?)
      && (args.Some? ==> task.commandArguments.value == args.value)
      && task.sandbox.Some? && task.sandbox.value.name == Some(ISOLATE)
      && (task.sandbox.value.stdin.Some? <==> stdin.Some?)
      && (stdin.Some? ==> task.sandbox.value.stdin.value == Prefixed(params.evalDir, stdin.value))
      && (task.sandbox.value.stdout.Some? <==> stdout.Some?)
      && (stdout.Some? ==> task.sandbox.value.stdout.value == Prefixed(params.evalDir, stdout.value))
      && task.sandbox.value.output == None
  {
    if binary.None? {
      return Failure(CallOnNull(BINARY_FILE_PORT_KEY));
    }
    var task := EMPTY_TASK;
    task := task.(taskType := Some(Execution));
    task := task.(commandBinary := Some(Prefixed(params.evalDir, binary.value)));
    if args.Some? {
      task := task.(commandArguments := Some(args.value));
    }
    var sandbox := EMPTY_SANDBOX.(name := Some(ISOLATE));
    if stdin.Some? {
      sandbox := sandbox.(stdin := Some(Prefixed(params.evalDir, stdin.value)));
    }
    if stdout.Some? {
      sandbox := sandbox.(stdout := Some(Prefixed(params.evalDir, stdout.value)));
    }
    task := task.(sandbox := Some(sandbox));
    r := Success([task]);
  }
}
