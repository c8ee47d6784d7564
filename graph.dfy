/** The host application's dependency graph, reduced to what the core consults:
    the kind of every plug (a leaf, a compound with child plugs, or an array with
    element plugs), the incoming connection of every connected plug, and the
    values written into plugs. */
module Graph {
  import opened Errors

  type Plug = nat

  datatype PlugKind =
    | Leaf
    | Compound(children: seq<Plug>)
    | ArrayPlug(elements: seq<Plug>)

  /** Every plug has a kind; the node graph's shape does not change in this model. */
  type Kinds = Plug -> PlugKind

  /** A value read from or written into a plug: a number or a tuple of values. */
  datatype Val = Num(n: int) | Many(items: seq<Val>)

  /** `attrDimensions`: an array plug counts its elements, a compound its children,
      anything else is one-dimensional. */
  function AttrDimensions(k: PlugKind): (n: nat)
    ensures k.ArrayPlug? ==> n == |k.elements|
    ensures k.Compound? ==> n == |k.children|
    ensures k.Leaf? ==> n == 1
  {
    match k
    case ArrayPlug(els) => |els|
    case Compound(ch) => |ch|
    case Leaf => 1
  }

  /** The plugs fed by `p`: its outgoing connections. */
  function OutputsOf(inputs: map<Plug, Plug>, p: Plug): (outs: set<Plug>)
    ensures forall q :: q in outs <==> q in inputs && inputs[q] == p
  {
    set q | q in inputs && inputs[q] == p
  }

  /** Connecting `src` into `dst`. Without `force` the host refuses a destination
      that already has a different incoming connection; with it the old one is replaced. */
  function ConnectEdge(inputs: map<Plug, Plug>, src: Plug, dst: Plug, force: bool): (r: Result<map<Plug, Plug>>)
    ensures r.Err? <==> !force && dst in inputs && inputs[dst] != src
    ensures r.Err? ==> r.error == RuntimeError
    ensures r.Ok? ==> dst in r.value && r.value[dst] == src
    ensures r.Ok? ==> forall q :: q != dst ==> (q in r.value <==> q in inputs) && (q in inputs ==> r.value[q] == inputs[q])
  {
    if !force && dst in inputs && inputs[dst] != src then Err(RuntimeError)
    else Ok(inputs[dst := src])
  }

  /** Breaking the connection `src -> dst`; nothing happens when it does not exist. */
  function DisconnectEdge(inputs: map<Plug, Plug>, src: Plug, dst: Plug): (r: map<Plug, Plug>)
    ensures dst !in r || r[dst] != src
    ensures forall q :: q != dst ==> (q in r <==> q in inputs) && (q in inputs ==> r[q] == inputs[q])
    ensures dst in inputs && inputs[dst] != src ==> dst in r && r[dst] == inputs[dst]
  {
    if dst in inputs && inputs[dst] == src then inputs - {dst} else inputs
  }

  /** Writing a value into a plug (`Attribute.set`). The host refuses to write a plug
      that has an incoming connection, raising `RuntimeError`; any other plug takes
      the value and no other written value changes. */
  function WriteValue(inputs: map<Plug, Plug>, values: map<Plug, Val>, p: Plug, v: Val): (r: Result<map<Plug, Val>>)
    ensures r.Err? <==> p in inputs
    ensures r.Err? ==> r.error == RuntimeError
    ensures r.Ok? ==> p in r.value && r.value[p] == v
    ensures r.Ok? ==> forall q :: q != p ==> (q in r.value <==> q in values) && (q in values ==> r.value[q] == values[q])
  {
    if p in inputs then Err(RuntimeError) else Ok(values[p := v])
  }

  /** The graph store: the host application's plugs, edges and written values. */
  class Store {
    const kinds: Kinds
    var inputs: map<Plug, Plug>
    var values: map<Plug, Val>

    constructor (kinds: Kinds, inputs: map<Plug, Plug>, values: map<Plug, Val>)
      ensures this.kinds == kinds && this.inputs == inputs && this.values == values
    {
      this.kinds := kinds;
      this.inputs := inputs;
      this.values := values;
    }

    function Outputs(p: Plug): (outs: set<Plug>)
      reads this
      ensures outs == OutputsOf(inputs, p)
    {
      OutputsOf(inputs, p)
    }

    method Connect(src: Plug, dst: Plug, force: bool) returns (o: Outcome)
      modifies this`inputs
      ensures var r := ConnectEdge(old(inputs), src, dst, force);
              (r.Ok? ==> o == Done && inputs == r.value) &&
              (r.Err? ==> o == Failed(r.error) && inputs == old(inputs))
    {
      var r := ConnectEdge(inputs, src, dst, force);
      if r.Ok? {
        inputs := r.value;
        o := Done;
      } else {
        o := Failed(r.error);
      }
    }

    method Disconnect(src: Plug, dst: Plug)
      modifies this`inputs
      ensures inputs == DisconnectEdge(old(inputs), src, dst)
    {
      inputs := DisconnectEdge(inputs, src, dst);
    }

    method SetValue(p: Plug, v: Val) returns (o: Outcome)
      modifies this`values
      ensures var r := WriteValue(inputs, old(values), p, v);
              (r.Ok? ==> o == Done && values == r.value) &&
              (r.Err? ==> o == Failed(r.error) && values == old(values))
    {
      var r := WriteValue(inputs, values, p, v);
      if r.Ok? {
        values := r.value;
        o := Done;
      } else {
        o := Failed(r.error);
      }
    }
  }
}
