/**
 * The "gcc" box: only its port templates and default name, which `init`
 * stores in class-wide statics on first use.
 */
module GccCompilationBox {
  import opened Wrappers
  import opened Ports

  const GCC_TYPE := "gcc"
  const DEFAULT_NAME := "GCC Compilation"

  /** `getType()`: the type name the box is registered under. */
  function GetType(): (r: string)
    ensures r == "gcc"
  {
    GCC_TYPE
  }

  /** One file port "source-file" bound to "", with no declared type. */
  function InputTemplates(): seq<Port> {
    [Port(FilePort, Meta(Some("source-file"), None, Some("")))]
  }

  /** One file port "binary-file" bound to "", with no declared type. */
  function OutputTemplates(): seq<Port> {
    [Port(FilePort, Meta(Some("binary-file"), None, Some("")))]
  }

  /** The class-wide statics; the default name is null until `init` runs. */
  class Statics {
    var initialized: bool
    var defaultName: Option<string>
    var defaultInputPorts: seq<Port>
    var defaultOutputPorts: seq<Port>

    predicate Valid()
      reads this
    {
      initialized ==>
        defaultName == Some(DEFAULT_NAME) &&
        defaultInputPorts == InputTemplates() && defaultOutputPorts == OutputTemplates()
    }

    constructor ()
      ensures Valid() && !initialized
      ensures defaultName == None && defaultInputPorts == [] && defaultOutputPorts == []
    {
      initialized := false;
      defaultName := None;
      defaultInputPorts := [];
      defaultOutputPorts := [];
    }

    /** Fills name and templates on the first call; later calls change nothing. */
    method Init()
      requires Valid()
      modifies this
      ensures Valid() && initialized
      ensures defaultName == Some(DEFAULT_NAME)
      ensures defaultInputPorts == InputTemplates() && defaultOutputPorts == OutputTemplates()
      ensures old(initialized) ==> unchanged(this)
    {
      if !initialized {
        initialized := true;
        defaultName := Some(DEFAULT_NAME);
        var source := NewPort(FilePort, "source-file", None, Some(""));
        defaultInputPorts := [source];
        var binary := NewPort(FilePort, "binary-file", None, Some(""));
        defaultOutputPorts := [binary];
      }
    }

    /** `getDefaultName()` runs `init` first, so the name is always available. */
    method GetDefaultName() returns (name: string)
      requires Valid()
      modifies this
      ensures Valid() && initialized
      ensures name == DEFAULT_NAME
    {
      Init();
      name := defaultName.value;
    }

    method GetDefaultInputPorts() returns (ports: seq<Port>)
      requires Valid()
      modifies this
      ensures Valid() && initialized
      ensures ports == InputTemplates()
    {
      Init();
      ports := defaultInputPorts;
    }

    method GetDefaultOutputPorts() returns (ports: seq<Port>)
      requires Valid()
      modifies this
      ensures Valid() && initialized
      ensures ports == OutputTemplates()
    {
      Init();
      ports := defaultOutputPorts;
    }
  }
}
