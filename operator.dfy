/** Operator vertices of the operator graph: an ordered list of properties (input
    ports, output ports and arguments) and a set of constraints, with the builder
    operations that append to them, the attribute copy used by `copy()`, lookups and
    filtered views. Edges between ports live in a `Wiring`: one directed edge per
    `connect` call, from an upstream output port to a downstream input port. */
module Operators {
  import opened Common

  /** `OperatorKind`. */
  datatype OperatorKind = Core | User | Flow | ExternalInput | ExternalOutput

  /** The three kinds of operator properties. */
  datatype PropertyKind = Input | Output | Argument

  /** Data type descriptor of a port. */
  datatype TypeDescription = TypeDescription(name: string)

  /** Grouping instruction of an input port (keys and ordering). */
  datatype Group = Group(grouping: seq<string>, ordering: seq<string>)

  /** The literal value bound to an argument. */
  datatype ValueDescription = ValueDescription(representation: string)

  /** A constraint flag on an operator. */
  datatype OperatorConstraint = OperatorConstraint(name: string)

  /** An input or output port: `OperatorInput` or `OperatorOutput`, owned by one operator. */
  class OperatorPort {
    const owner: Operator
    const isInput: bool
    const name: string
    const dataType: TypeDescription
    /** The grouping instruction; always `None` on an output port. */
    const group: Option<Group>

    constructor Input(owner: Operator, name: string, dataType: TypeDescription, group: Option<Group>)
      ensures this.owner == owner && isInput && this.name == name
      ensures this.dataType == dataType && this.group == group
    {
      this.owner := owner;
      this.isInput := true;
      this.name := name;
      this.dataType := dataType;
      this.group := group;
    }

    constructor Output(owner: Operator, name: string, dataType: TypeDescription)
      ensures this.owner == owner && !isInput && this.name == name
      ensures this.dataType == dataType && group == None
    {
      this.owner := owner;
      this.isInput := false;
      this.name := name;
      this.dataType := dataType;
      this.group := None;
    }
  }

  /** One entry of an operator's property list. */
  datatype Property = PortProperty(port: OperatorPort) | ArgumentProperty(argName: string, value: ValueDescription)
  {
    function Kind(): PropertyKind
    {
      if ArgumentProperty? then Argument else if port.isInput then Input else Output
    }

    function Name(): string
    {
      if ArgumentProperty? then argName else port.name
    }
  }

  /** A connection from an upstream output port to a downstream input port. */
  datatype Edge = Edge(upstream: OperatorPort, downstream: OperatorPort)

  /** Whether `e` touches one of `ports`. */
  predicate Touches(e: Edge, ports: seq<OperatorPort>)
  {
    e.upstream in ports || e.downstream in ports
  }

  /** `edges` without those that touch one of `ports`, order kept. */
  function Detach(edges: seq<Edge>, ports: seq<OperatorPort>): (r: seq<Edge>)
    ensures forall i | 0 <= i < |r| :: !Touches(r[i], ports)
  {
    if edges == [] then []
    else if Touches(edges[|edges| - 1], ports) then Detach(edges[..|edges| - 1], ports)
    else Detach(edges[..|edges| - 1], ports) + [edges[|edges| - 1]]
  }

  /** Detaching keeps exactly the edges that touch none of the ports. */
  lemma {:induction false} DetachMembers(edges: seq<Edge>, ports: seq<OperatorPort>)
    ensures forall e :: e in Detach(edges, ports) <==> e in edges && !Touches(e, ports)
    decreases |edges|
  {
    if edges != [] {
      var init := edges[..|edges| - 1];
      DetachMembers(init, ports);
      assert edges == init + [edges[|edges| - 1]];
    }
  }

  /** Detaching port by port is detaching all of them at once. */
  lemma {:induction false} DetachTwice(edges: seq<Edge>, ports: seq<OperatorPort>, p: OperatorPort)
    ensures Detach(Detach(edges, ports), [p]) == Detach(edges, ports + [p])
    decreases |edges|
  {
    if edges != [] {
      DetachTwice(edges[..|edges| - 1], ports, p);
    }
  }

  /** The connections between ports (the back-references the ports hold). */
  class Wiring {
    var edges: seq<Edge>

    constructor ()
      ensures edges == []
    {
      edges := [];
    }

    /** `OperatorPort.disconnectAll`: removes every edge touching `port`. */
    method DisconnectPort(port: OperatorPort)
      modifies this
      ensures edges == Detach(old(edges), [port])
    {
      edges := Detach(edges, [port]);
    }

    /** `OperatorInput.connect`: one edge per call, in call order. */
    method Connect(downstream: OperatorPort, upstream: OperatorPort)
      modifies this
      ensures edges == old(edges) + [Edge(upstream, downstream)]
    {
      edges := edges + [Edge(upstream, downstream)];
    }
  }

  /** The edges `input(...)` creates for a new port, one per upstream, in order. */
  function Connections(upstreams: seq<OperatorPort>, port: OperatorPort): (r: seq<Edge>)
    ensures |r| == |upstreams|
    ensures forall i | 0 <= i < |r| :: r[i] == Edge(upstreams[i], port)
  {
    if upstreams == [] then [] else Connections(upstreams[..|upstreams| - 1], port) + [Edge(upstreams[|upstreams| - 1], port)]
  }

  /** The properties of kind `k`, in list order. */
  function OfKind(properties: seq<Property>, k: PropertyKind): (r: seq<Property>)
  {
    if properties == [] then []
    else if properties[|properties| - 1].Kind() == k then OfKind(properties[..|properties| - 1], k) + [properties[|properties| - 1]]
    else OfKind(properties[..|properties| - 1], k)
  }

  /** The ports of a property list, in list order. */
  function Ports(properties: seq<Property>): (r: seq<OperatorPort>)
  {
    if properties == [] then []
    else
      var init := properties[..|properties| - 1];
      var last := properties[|properties| - 1];
      if last.PortProperty? then Ports(init) + [last.port] else Ports(init)
  }

  /** The ports of a list whose ports all belong to `owner` all belong to `owner`. */
  lemma {:induction false} PortsOwned(properties: seq<Property>, owner: Operator)
    requires forall i | 0 <= i < |properties| :: properties[i].PortProperty? ==> properties[i].port.owner == owner
    ensures forall i | 0 <= i < |Ports(properties)| :: Ports(properties)[i].owner == owner
  {
    if properties != [] {
      var init := properties[..|properties| - 1];
      PortsOwned(init, owner);
    }
  }

  /** Whether a property is the one `findProperty(kind, name)` looks for. */
  predicate Matches(p: Property, k: PropertyKind, name: string)
  {
    p.Name() == name && p.Kind() == k
  }

  /** `q` is the copy that `copyAttributesTo` makes of `p` for the operator `owner`. */
  predicate IsCopyOf(q: Property, p: Property, owner: Operator)
  {
    && q.Kind() == p.Kind()
    && q.Name() == p.Name()
    && (p.PortProperty? ==>
          && q.PortProperty?
          && q.port.owner == owner
          && q.port.dataType == p.port.dataType
          && (p.port.isInput ==> q.port.group == p.port.group))
    && (p.ArgumentProperty? ==> q == p)
  }

  /** An operator vertex (`Operator`; the concrete variants are left out). */
  class Operator {
    const kind: OperatorKind
    var properties: seq<Property>
    var constraints: set<OperatorConstraint>

    /** Every port in the property list is owned by this operator: the invariant the
        constructor establishes and every builder method and `copyAttributesTo` keep. */
    ghost predicate Valid()
      reads this
    {
      forall i | 0 <= i < |properties| :: properties[i].PortProperty? ==> properties[i].port.owner == this
    }

    constructor (kind: OperatorKind)
      ensures this.kind == kind && properties == [] && constraints == {} && Valid()
    {
      this.kind := kind;
      properties := [];
      constraints := {};
    }

    /** `copyAttributesTo`: appends to `copy` a fresh, unconnected copy of every
        property, in order, and adds this operator's constraints to `copy`'s. */
    method CopyAttributesTo(copy: Operator) returns (r: Operator)
      requires copy != this
      modifies copy
      ensures r == copy
      ensures |copy.properties| == |old(copy.properties)| + |properties|
      ensures copy.properties[..|old(copy.properties)|] == old(copy.properties)
      ensures forall i | 0 <= i < |properties| :: IsCopyOf(copy.properties[|old(copy.properties)| + i], properties[i], copy)
      ensures forall i | 0 <= i < |properties| :: properties[i].PortProperty? ==>
        copy.properties[|old(copy.properties)| + i].PortProperty? && fresh(copy.properties[|old(copy.properties)| + i].port)
      ensures copy.constraints == old(copy.constraints) + constraints
      ensures old(copy.Valid()) ==> copy.Valid()
    {
      var n := |copy.properties|;
      for i := 0 to |properties|
        invariant |copy.properties| == n + i
        invariant copy.properties[..n] == old(copy.properties)
        invariant forall k | 0 <= k < i :: IsCopyOf(copy.properties[n + k], properties[k], copy)
        invariant forall k | 0 <= k < i :: properties[k].PortProperty? ==> copy.properties[n + k].PortProperty? && fresh(copy.properties[n + k].port)
        invariant copy.constraints == old(copy.constraints)
        invariant old(copy.Valid()) ==> copy.Valid()
      {
        var property := properties[i];
        var q: Property;
        if property.Kind() == Input {
          var p := property.port;
          var port := new OperatorPort.Input(copy, p.name, p.dataType, p.group);
          q := PortProperty(port);
        } else if property.Kind() == Output {
          var p := property.port;
          var port := new OperatorPort.Output(copy, p.name, p.dataType);
          q := PortProperty(port);
        } else {
          q := ArgumentProperty(property.argName, property.value);
        }
        assert IsCopyOf(q, property, copy);
        copy.properties := copy.properties + [q];
      }
      copy.constraints := copy.constraints + constraints;
      r := copy;
    }

    /** `disconnectAll`: removes every edge touching one of this operator's ports;
        the properties and constraints stay as they are. */
    method DisconnectAll(wiring: Wiring) returns (r: Operator)
      modifies wiring
      ensures r == this
      ensures wiring.edges == Detach(old(wiring.edges), Ports(properties))
      ensures forall i | 0 <= i < |wiring.edges| :: !Touches(wiring.edges[i], Ports(properties))
      ensures unchanged(this)
    {
      var ports := GetPorts();
      DetachNothing(wiring.edges);
      for i := 0 to |ports|
        invariant wiring.edges == Detach(old(wiring.edges), ports[..i])
      {
        DetachTwice(old(wiring.edges), ports[..i], ports[i]);
        assert ports[..i] + [ports[i]] == ports[..i + 1];
        wiring.DisconnectPort(ports[i]);
      }
      assert ports[..|ports|] == ports;
      r := this;
    }

    /** `getProperties(OperatorPort.class)`: the ports, in list order. */
    method GetPorts() returns (r: seq<OperatorPort>)
      ensures r == Ports(properties)
      ensures Valid() ==> forall i | 0 <= i < |r| :: r[i].owner == this
    {
      if Valid() {
        PortsOwned(properties, this);
      }
      r := [];
      for i := 0 to |properties|
        invariant r == Ports(properties[..i])
      {
        assert properties[..i + 1][..i] == properties[..i];
        if properties[i].PortProperty? {
          r := r + [properties[i].port];
        }
      }
      assert properties[..|properties|] == properties;
    }

    /** `getProperties(type)`: the properties of kind `k`, in list order. */
    method GetProperties(k: PropertyKind) returns (r: seq<Property>)
      ensures r == OfKind(properties, k)
    {
      r := [];
      for i := 0 to |properties|
        invariant r == OfKind(properties[..i], k)
      {
        assert properties[..i + 1][..i] == properties[..i];
        if properties[i].Kind() == k {
          r := r + [properties[i]];
        }
      }
      assert properties[..|properties|] == properties;
    }

    /** `getInputs`. */
    method GetInputs() returns (r: seq<Property>)
      ensures r == OfKind(properties, Input)
    {
      r := GetProperties(Input);
    }

    /** `getOutputs`. */
    method GetOutputs() returns (r: seq<Property>)
      ensures r == OfKind(properties, Output)
    {
      r := GetProperties(Output);
    }

    /** `getArguments`. */
    method GetArguments() returns (r: seq<Property>)
      ensures r == OfKind(properties, Argument)
    {
      r := GetProperties(Argument);
    }

    /** `findProperty`: the first property in list order with this name and kind. */
    method FindProperty(k: PropertyKind, name: string) returns (r: Option<Property>)
      ensures r.None? <==> forall i | 0 <= i < |properties| :: !Matches(properties[i], k, name)
      ensures r.Some? ==> exists i | 0 <= i < |properties| ::
        && properties[i] == r.value
        && Matches(properties[i], k, name)
        && forall j | 0 <= j < i :: !Matches(properties[j], k, name)
    {
      for i := 0 to |properties|
        invariant forall j | 0 <= j < i :: !Matches(properties[j], k, name)
      {
        if properties[i].Name() == name && properties[i].Kind() == k {
          return Some(properties[i]);
        }
      }
      return None;
    }

    /** `findInput`. */
    method FindInput(name: string) returns (r: Option<Property>)
      ensures r.None? <==> forall i | 0 <= i < |properties| :: !Matches(properties[i], Input, name)
      ensures r.Some? ==> exists i | 0 <= i < |properties| ::
        && properties[i] == r.value
        && Matches(properties[i], Input, name)
        && forall j | 0 <= j < i :: !Matches(properties[j], Input, name)
    {
      r := FindProperty(Input, name);
    }

    /** `findOutput`. */
    method FindOutput(name: string) returns (r: Option<Property>)
      ensures r.None? <==> forall i | 0 <= i < |properties| :: !Matches(properties[i], Output, name)
      ensures r.Some? ==> exists i | 0 <= i < |properties| ::
        && properties[i] == r.value
        && Matches(properties[i], Output, name)
        && forall j | 0 <= j < i :: !Matches(properties[j], Output, name)
    {
      r := FindProperty(Output, name);
    }

    /** `findArgument`. */
    method FindArgument(name: string) returns (r: Option<Property>)
      ensures r.None? <==> forall i | 0 <= i < |properties| :: !Matches(properties[i], Argument, name)
      ensures r.Some? ==> exists i | 0 <= i < |properties| ::
        && properties[i] == r.value
        && Matches(properties[i], Argument, name)
        && forall j | 0 <= j < i :: !Matches(properties[j], Argument, name)
    {
      r := FindProperty(Argument, name);
    }
  }

  lemma DetachNothing(edges: seq<Edge>)
    ensures Detach(edges, []) == edges
  {
    if edges != [] {
      DetachNothing(edges[..|edges| - 1]);
      assert edges[..|edges| - 1] + [edges[|edges| - 1]] == edges;
    }
  }

  /** `AbstractBuilder`: appends properties and constraints to `owner`. */
  class Builder {
    const owner: Operator

    constructor (owner: Operator)
      ensures this.owner == owner
    {
      this.owner := owner;
    }

    /** `build`. */
    method Build() returns (r: Operator)
      ensures r == owner
    {
      r := owner;
    }

    /** `input(name, dataType, group, upstreams...)`: appends a new input port owned by
        `owner` and connects each upstream to it, in order. */
    method Input(name: string, dataType: TypeDescription, group: Option<Group>, upstreams: seq<OperatorPort>, wiring: Wiring)
      requires forall i | 0 <= i < |upstreams| :: !upstreams[i].isInput
      modifies owner, wiring
      ensures |owner.properties| == |old(owner.properties)| + 1
      ensures owner.properties[..|old(owner.properties)|] == old(owner.properties)
      ensures var p := owner.properties[|old(owner.properties)|];
        && p.PortProperty? && fresh(p.port) && p.port.owner == owner && p.port.isInput
        && p.port.name == name && p.port.dataType == dataType && p.port.group == group
        && wiring.edges == old(wiring.edges) + Connections(upstreams, p.port)
      ensures owner.constraints == old(owner.constraints)
      ensures old(owner.Valid()) ==> owner.Valid()
    {
      var port := new OperatorPort.Input(owner, name, dataType, group);
      owner.properties := owner.properties + [PortProperty(port)];
      for i := 0 to |upstreams|
        modifies wiring
        invariant wiring.edges == old(wiring.edges) + Connections(upstreams[..i], port)
      {
        assert upstreams[..i + 1][..i] == upstreams[..i];
        wiring.Connect(port, upstreams[i]);
      }
      assert upstreams[..|upstreams|] == upstreams;
    }

    /** `input(name, dataType, upstreams...)`: an input port without grouping. */
    method InputWithType(name: string, dataType: TypeDescription, upstreams: seq<OperatorPort>, wiring: Wiring)
      requires forall i | 0 <= i < |upstreams| :: !upstreams[i].isInput
      modifies owner, wiring
      ensures |owner.properties| == |old(owner.properties)| + 1
      ensures owner.properties[..|old(owner.properties)|] == old(owner.properties)
      ensures var p := owner.properties[|old(owner.properties)|];
        && p.PortProperty? && fresh(p.port) && p.port.owner == owner && p.port.isInput
        && p.port.name == name && p.port.dataType == dataType && p.port.group == None
        && wiring.edges == old(wiring.edges) + Connections(upstreams, p.port)
      ensures owner.constraints == old(owner.constraints)
      ensures old(owner.Valid()) ==> owner.Valid()
    {
      Input(name, dataType, None, upstreams, wiring);
    }

    /** `input(name, group, upstream, upstreams...)`: the data type is taken from
        `upstream`, which is connected first, then each of `upstreams` in order. */
    method InputFrom(name: string, group: Option<Group>, upstream: OperatorPort, upstreams: seq<OperatorPort>, wiring: Wiring)
      requires !upstream.isInput
      requires forall i | 0 <= i < |upstreams| :: !upstreams[i].isInput
      modifies owner, wiring
      ensures |owner.properties| == |old(owner.properties)| + 1
      ensures owner.properties[..|old(owner.properties)|] == old(owner.properties)
      ensures var p := owner.properties[|old(owner.properties)|];
        && p.PortProperty? && fresh(p.port) && p.port.owner == owner && p.port.isInput
        && p.port.name == name && p.port.dataType == upstream.dataType && p.port.group == group
        && wiring.edges == old(wiring.edges) + [Edge(upstream, p.port)] + Connections(upstreams, p.port)
      ensures owner.constraints == old(owner.constraints)
      ensures old(owner.Valid()) ==> owner.Valid()
    {
      var joint := [upstream] + upstreams;
      Input(name, upstream.dataType, group, joint, wiring);
      ghost var p := owner.properties[|old(owner.properties)|].port;
      assert Connections(joint, p) == [Edge(upstream, p)] + Connections(upstreams, p);
    }

    /** `output(name, dataType)`: appends a new output port owned by `owner`. */
    method Output(name: string, dataType: TypeDescription)
      modifies owner
      ensures |owner.properties| == |old(owner.properties)| + 1
      ensures owner.properties[..|old(owner.properties)|] == old(owner.properties)
      ensures var p := owner.properties[|old(owner.properties)|];
        && p.PortProperty? && fresh(p.port) && p.port.owner == owner && !p.port.isInput
        && p.port.name == name && p.port.dataType == dataType && p.port.group == None
      ensures owner.constraints == old(owner.constraints)
      ensures old(owner.Valid()) ==> owner.Valid()
    {
      var port := new OperatorPort.Output(owner, name, dataType);
      owner.properties := owner.properties + [PortProperty(port)];
    }

    /** `argument(name, value)`: appends an argument. */
    method Argument(name: string, value: ValueDescription)
      modifies owner
      ensures owner.properties == old(owner.properties) + [ArgumentProperty(name, value)]
      ensures owner.constraints == old(owner.constraints)
      ensures old(owner.Valid()) ==> owner.Valid()
    {
      owner.properties := owner.properties + [ArgumentProperty(name, value)];
    }

    /** `constraint(...)`: adds the given constraints (either overload). */
    method Constraint(constraints: seq<OperatorConstraint>)
      modifies owner
      ensures owner.constraints == old(owner.constraints) + set c | c in constraints
      ensures owner.properties == old(owner.properties)
    {
      owner.constraints := owner.constraints + set c | c in constraints;
    }
  }

  // ---------------------------------------------------------------------------
  // Laws of the filtered views

  /** Filtering distributes over concatenation, so it keeps list order. */
  lemma {:induction false} OfKindConcat(ps: seq<Property>, qs: seq<Property>, k: PropertyKind)
    ensures OfKind(ps + qs, k) == OfKind(ps, k) + OfKind(qs, k)
    decreases |qs|
  {
    if qs == [] {
      assert ps + qs == ps;
    } else {
      var qs' := qs[..|qs| - 1];
      assert (ps + qs)[..|ps + qs| - 1] == ps + qs';
      OfKindConcat(ps, qs', k);
    }
  }

  /** The view of kind `k` holds exactly the properties of kind `k`. */
  lemma {:induction false} OfKindMembers(ps: seq<Property>, k: PropertyKind)
    ensures forall p :: p in OfKind(ps, k) <==> p in ps && p.Kind() == k
    decreases |ps|
  {
    if ps != [] {
      var init := ps[..|ps| - 1];
      OfKindMembers(init, k);
      assert ps == init + [ps[|ps| - 1]];
    }
  }

  /** The three views partition the property list. */
  lemma {:induction false} OfKindPartition(ps: seq<Property>)
    ensures |OfKind(ps, Input)| + |OfKind(ps, Output)| + |OfKind(ps, Argument)| == |ps|
    ensures multiset(OfKind(ps, Input)) + multiset(OfKind(ps, Output)) + multiset(OfKind(ps, Argument)) == multiset(ps)
    decreases |ps|
  {
    if ps != [] {
      var init := ps[..|ps| - 1];
      var last := ps[|ps| - 1];
      OfKindPartition(init);
      assert ps == init + [last];
      AppendExtendsView(init, last, Input);
      AppendExtendsView(init, last, Output);
      AppendExtendsView(init, last, Argument);
      assert multiset(ps) == multiset(init) + multiset{last};
    }
  }

  /** Appending a property extends exactly the view of its kind. */
  lemma AppendExtendsView(ps: seq<Property>, p: Property, k: PropertyKind)
    ensures OfKind(ps + [p], k) == if p.Kind() == k then OfKind(ps, k) + [p] else OfKind(ps, k)
  {
    assert (ps + [p])[..|ps|] == ps;
  }

  /** A copy's view of each kind lines up with the source's, element by element. */
  lemma {:induction false} CopyViewsAlign(copied: seq<Property>, source: seq<Property>, owner: Operator, k: PropertyKind)
    requires |copied| == |source|
    requires forall i | 0 <= i < |source| :: IsCopyOf(copied[i], source[i], owner)
    ensures |OfKind(copied, k)| == |OfKind(source, k)|
    ensures forall i | 0 <= i < |OfKind(source, k)| :: IsCopyOf(OfKind(copied, k)[i], OfKind(source, k)[i], owner)
    decreases |source|
  {
    if source != [] {
      var n := |source| - 1;
      CopyViewsAlign(copied[..n], source[..n], owner, k);
    }
  }

  // ---------------------------------------------------------------------------
  // Isolation of copies

  /** A port that did not exist before is not connected by any edge that did. */
  twostate lemma FreshPortUnconnected(wiring: Wiring, new port: OperatorPort)
    requires fresh(port)
    requires unchanged(wiring)
    ensures forall e | e in wiring.edges :: e.upstream != port && e.downstream != port
  {
    forall e | e in wiring.edges ensures e.upstream != port && e.downstream != port {
      assert e in old(wiring.edges);
      assert old(allocated(e.upstream)) && old(allocated(e.downstream));
    }
  }
}
