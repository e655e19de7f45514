/**
 * Port holders of a box: the mutable `PortMeta` (name, type and bound
 * variable, each unset until its fluent setter runs), its value `Meta`, and
 * the `Port` wrapper a box template stores.
 */
module Ports {
  import opened Wrappers

  /** The variable types a port may declare (their textual names are not part of this model). */
  datatype VariableType = FileType | FileArrayType | StringType | StringArrayType | RemoteFileArrayType

  /** The value held by a PortMeta; None stands for PHP's null. */
  datatype Meta = Meta(name: Option<string>, portType: Option<VariableType>, variable: Option<string>)

  /** Which port class wraps the meta: the generic `Port` or the `FilePort` subclass. */
  datatype PortKind = GenericPort | FilePort

  datatype Port = Port(kind: PortKind, meta: Meta)

  /** `toArray()`: exactly the keys "type" and "value"; the name is not serialised. */
  datatype PortArray = PortArray(portType: Option<VariableType>, value: Option<string>)

  class PortMeta {
    var name: Option<string>
    var portType: Option<VariableType>
    var variable: Option<string>

    constructor ()
      ensures name == None && portType == None && variable == None
    {
      name := None;
      portType := None;
      variable := None;
    }

    function GetName(): Option<string>
      reads this
    {
      name
    }

    function GetType(): Option<VariableType>
      reads this
    {
      portType
    }

    function GetVariable(): Option<string>
      reads this
    {
      variable
    }

    /** The current value of this holder. */
    function View(): Meta
      reads this
    {
      Meta(name, portType, variable)
    }

    method SetName(n: string) returns (self: PortMeta)
      modifies this
      ensures self == this
      ensures GetName() == Some(n)
      ensures portType == old(portType) && variable == old(variable)
    {
      name := Some(n);
      self := this;
    }

    method SetType(t: VariableType) returns (self: PortMeta)
      modifies this
      ensures self == this
      ensures GetType() == Some(t)
      ensures name == old(name) && variable == old(variable)
    {
      portType := Some(t);
      self := this;
    }

    method SetVariable(v: string) returns (self: PortMeta)
      modifies this
      ensures self == this
      ensures GetVariable() == Some(v)
      ensures name == old(name) && portType == old(portType)
    {
      variable := Some(v);
      self := this;
    }

    function ToArray(): (r: PortArray)
      reads this
      ensures r.portType == GetType() && r.value == GetVariable()
      ensures r == ArrayOf(View())
    {
      PortArray(portType, variable)
    }

    function JsonSerialize(): (r: PortArray)
      reads this
      ensures r == ToArray()
    {
      ToArray()
    }
  }

  /** Serialised form of a meta value: its name never appears in it. */
  function ArrayOf(m: Meta): PortArray {
    PortArray(m.portType, m.variable)
  }

  /**
   * Builds a template port the way box initialisers do:
   * `new Port((new PortMeta)->setName(..)->setType(..)->setVariable(..))`,
   * where the type and the variable are set only when given.
   */
  method NewPort(kind: PortKind, n: string, t: Option<VariableType>, v: Option<string>) returns (p: Port)
    ensures p == Port(kind, Meta(Some(n), t, v))
  {
    var meta := new PortMeta();
    var chained := meta.SetName(n);
    if t.Some? {
      chained := chained.SetType(t.value);
    }
    if v.Some? {
      chained := chained.SetVariable(v.value);
    }
    p := Port(kind, chained.View());
  }
}
