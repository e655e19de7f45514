/**
 * The "fetch-files" box: a data source that downloads remote files from the
 * file server into the source directory. Its port templates live in
 * class-wide statics that `init` fills on first use.
 */
module FetchFilesBox {
  import opened Wrappers
  import opened Ports
  import opened JobConfig

  const FETCH_TYPE := "fetch-files"
  const REMOTE_PORT_KEY := "remote"
  const INPUT_PORT_KEY := "input"
  const DEFAULT_NAME := "Fetch Pipeline Files"

  /** Message of the exception thrown on a length mismatch. */
  const COUNT_MISMATCH := "Different count of remote variables and local variables in box 'fetch-files'"

  /** `getType()`: the type name the box is registered under. */
  function GetType(): (r: string)
    ensures r == "fetch-files"
  {
    FETCH_TYPE
  }

  /** `getDefaultName()`: the name a new box of this type gets. */
  function GetDefaultName(): (r: string)
    ensures r == "Fetch Pipeline Files"
  {
    DEFAULT_NAME
  }

  /** One input port "remote" of remote-file-array type, no variable bound. */
  function InputTemplates(): seq<Port> {
    [Port(GenericPort, Meta(Some(REMOTE_PORT_KEY), Some(RemoteFileArrayType), None))]
  }

  /** One output port "input" of file-array type, no variable bound. */
  function OutputTemplates(): seq<Port> {
    [Port(GenericPort, Meta(Some(INPUT_PORT_KEY), Some(FileArrayType), None))]
  }

  /** The class-wide statics; PHP's initial null arrays are the empty sequence. */
  class Statics {
    var initialized: bool
    var defaultInputPorts: seq<Port>
    var defaultOutputPorts: seq<Port>

    /** Once initialised, the statics hold exactly the templates. */
    predicate Valid()
      reads this
    {
      initialized ==> defaultInputPorts == InputTemplates() && defaultOutputPorts == OutputTemplates()
    }

    constructor ()
      ensures Valid() && !initialized
      ensures defaultInputPorts == [] && defaultOutputPorts == []
    {
      initialized := false;
      defaultInputPorts := [];
      defaultOutputPorts := [];
    }

    /** Fills the templates on the first call; later calls change nothing. */
    method Init()
      requires Valid()
      modifies this
      ensures Valid() && initialized
      ensures defaultInputPorts == InputTemplates() && defaultOutputPorts == OutputTemplates()
      ensures old(initialized) ==> unchanged(this)
    {
      if !initialized {
        initialized := true;
        var remote := NewPort(GenericPort, REMOTE_PORT_KEY, Some(RemoteFileArrayType), None);
        defaultInputPorts := [remote];
        var input := NewPort(GenericPort, INPUT_PORT_KEY, Some(FileArrayType), None);
        defaultOutputPorts := [input];
      }
    }

    method GetDefaultInputPorts() returns (ports: seq<Port>)
      requires Valid()
      modifies this
      ensures Valid() && initialized
      ensures ports == InputTemplates()
    {
      Init();
      ports := defaultInputPorts;
    }

    method GetDefaultOutputPorts() returns (ports: seq<Port>)
      requires Valid()
      modifies this
      ensures Valid() && initialized
      ensures ports == OutputTemplates()
    {
      Init();
      ports := defaultOutputPorts;
    }
  }

  /**
   * The fetch task for one file: the fetch command with the remote name and
   * the local name under the source directory.
   */
  function FetchTask(params: ConfigParams, remote: string, local: string): Task {
    EMPTY_TASK.(commandBinary := Some(params.fetchCommand),
                commandArguments := Some([remote, Prefixed(params.sourceDir, local)]))
  }

  /**
   * `compile()`: `remote` is the value bound to the "remote" input port and
   * `local` the value bound to the "input" output port, None when the port
   * has no value. Both are read without a check, the remote one first, so a
   * missing one is a call on null.
   */
  method Compile(remote: Option<seq<string>>, local: Option<seq<string>>, params: ConfigParams)
    returns (r: Result<seq<Task>, ConfigError>)
    ensures remote.None? ==> r == Failure(CallOnNull(REMOTE_PORT_KEY))
    ensures remote.Some? && local.None? ==> r == Failure(CallOnNull(INPUT_PORT_KEY))
    ensures remote.Some? && local.Some? ==>
      (r.Failure? <==> |remote.value| != |local.value|) &&
      (r.Failure? ==> r.error == ExerciseConfigException(COUNT_MISMATCH))
    ensures r.Success? ==> remote.Some? && local.Some? && |r.value| == |local.value|
    ensures r.Success? ==> forall i :: 0 <= i < |local.value| ==>
      r.value[i] == FetchTask(params, remote.value[i], local.value[i])
  {
    if remote.None? {
      return Failure(CallOnNull(REMOTE_PORT_KEY));
    }
    if local.None? {
      return Failure(CallOnNull(INPUT_PORT_KEY));
    }
    var remote, local := remote.value, local.value;
    if |remote| != |local| {
      return Failure(ExerciseConfigException(COUNT_MISMATCH));
    }
    var files := PrefixedAll(params.sourceDir, local);
    var tasks: seq<Task> := [];
    for i := 0 to |files|
      invariant |tasks| == i
      invariant forall j :: 0 <= j < i ==> tasks[j] == FetchTask(params, remote[j], local[j])
    {
      var task := EMPTY_TASK;
      task := task.(commandBinary := Some(params.fetchCommand));
      task := task.(commandArguments := Some([remote[i], files[i]]));
      tasks := tasks + [task];
    }
    r := Success(tasks);
  }
}
