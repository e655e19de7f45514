/**
 * The "javac" box: compiles Java sources into class files during the
 * initiation stage.
 */
module JavacCompilationBox {
  import opened Wrappers
  import opened Ports
  import opened JobConfig

  const JAVAC_TYPE := "javac"
  const JAVAC_BINARY := "/usr/bin/javac"
  const JAVAC_ARGS_PORT_KEY := "args"
  const SOURCE_FILES_PORT_KEY := "source-files"
  const CLASS_FILES_PORT_KEY := "class-files"
  const DEFAULT_NAME := "Javac Compilation"

  /** `getType()`: the type name the box is registered under. */
  function GetType(): (r: string)
    ensures r == "javac"
  {
    JAVAC_TYPE
  }

  /** `getDefaultName()`: the name a new box of this type gets. */
  function GetDefaultName(): (r: string)
    ensures r == "Javac Compilation"
  {
    DEFAULT_NAME
  }

  /** args (string array) and source-files (file array), no variables bound. */
  function InputTemplates(): seq<Port> {
    [Port(GenericPort, Meta(Some(JAVAC_ARGS_PORT_KEY), Some(StringArrayType), None)),
     Port(GenericPort, Meta(Some(SOURCE_FILES_PORT_KEY), Some(FileArrayType), None))]
  }

  /** class-files (file array), no variable bound. */
  function OutputTemplates(): seq<Port> {
    [Port(GenericPort, Meta(Some(CLASS_FILES_PORT_KEY), Some(FileArrayType), None))]
  }

  class Statics {
    var initialized: bool
    var defaultInputPorts: seq<Port>
    var defaultOutputPorts: seq<Port>

    predicate Valid()
      reads this
    {
      initialized ==> defaultInputPorts == InputTemplates() && defaultOutputPorts == OutputTemplates()
    }

    constructor ()
      ensures Valid() && !initialized
      ensures defaultInputPorts == [] && defaultOutputPorts == []
    {
      initialized := false;
      defaultInputPorts := [];
      defaultOutputPorts := [];
    }

    /** Fills the templates on the first call; later calls change nothing. */
    method Init()
      requires Valid()
      modifies this
      ensures Valid() && initialized
      ensures defaultInputPorts == InputTemplates() && defaultOutputPorts == OutputTemplates()
      ensures old(initialized) ==> unchanged(this)
    {
      if !initialized {
        initialized := true;
        var args := NewPort(GenericPort, JAVAC_ARGS_PORT_KEY, Some(StringArrayType), None);
        var sources := NewPort(GenericPort, SOURCE_FILES_PORT_KEY, Some(FileArrayType), None);
        defaultInputPorts := [args, sources];
        var classes := NewPort(GenericPort, CLASS_FILES_PORT_KEY, Some(FileArrayType), None);
        defaultOutputPorts := [classes];
      }
    }

    method GetDefaultInputPorts() returns (ports: seq<Port>)
      requires Valid()
      modifies this
      ensures Valid() && initialized
      ensures ports == InputTemplates()
    {
      Init();
      ports := defaultInputPorts;
    }

    method GetDefaultOutputPorts() returns (ports: seq<Port>)
      requires Valid()
      modifies this
      ensures Valid() && initialized
      ensures ports == OutputTemplates()
    {
      Init();
      ports := defaultOutputPorts;
    }
  }

  /**
   * The compiler's argument list: the user arguments (none when the args
   * port has no value) followed by every source file under the evaluation
   * directory, in order.
   */
  function Arguments(args: Option<seq<string>>, sources: seq<string>, evalDir: string): (argv: seq<string>)
    ensures |argv| == |args.GetOr([])| + |sources|
    ensures argv[..|args.GetOr([])|] == args.GetOr([])
    ensures forall i :: 0 <= i < |sources| ==> argv[|args.GetOr([])| + i] == Prefixed(evalDir, sources[i])
  {
    args.GetOr([]) + PrefixedAll(evalDir, sources)
  }

  /**
   * `compile()`: `args` and `sources` are the values of the args and
   * source-files ports, None when the port has no value. The source-files
   * value is read without a check, so a missing one is a call on null.
   */
  method Compile(args: Option<seq<string>>, sources: Option<seq<string>>, params: ConfigParams)
    returns (r: Result<seq<Task>, ConfigError>)
    ensures r.Failure? <==> sources.None?
    ensures r.Failure? ==> r.error == CallOnNull(SOURCE_FILES_PORT_KEY)
    ensures r.Success? ==> |r.value| == 1
    ensures r.Success? ==> var task := r.value[0];
      && task.taskType == Some(Initiation)
      && task.fatalFailure == Some(true)
      && task.commandBinary == Some(JAVAC_BINARY)
      && task.commandArguments == Some(Arguments(args, sources.value, params.evalDir))
      && task.sandbox == Some(SandboxConfig(Some(ISOLATE), None, None, Some(true)))
  {
    if sources.None? {
      return Failure(CallOnNull(SOURCE_FILES_PORT_KEY));
    }
    var task := EMPTY_TASK;
    task := task.(taskType := Some(Initiation));
    task := task.(fatalFailure := Some(true));
    task := task.(commandBinary := Some(JAVAC_BINARY));
    var userArgs: seq<string> := [];
    if args.Some? {
      userArgs := args.value;
    }
    task := task.(commandArguments := Some(userArgs + PrefixedAll(params.evalDir, sources.value)));
    task := task.(sandbox := Some(EMPTY_SANDBOX.(name := Some(ISOLATE)).(output := Some(true))));
    r := Success([task]);
  }
}
