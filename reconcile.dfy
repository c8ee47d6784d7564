/** `Nodex.connect`, the connection reconciler: wiring a source reference into a
    destination reference whose dimension may differ. The wrappers the reconciler
    builds on the way (subscripts, element attributes) are represented by the
    references they hold, and their class lookups go through the resolver cache. */
module Reconcile {
  import opened Errors
  import opened Graph
  import opened Refs
  import opened Registry

  /** The mutable world `connect` touches: the graph's connections and written
      values, and the resolver cache. */
  datatype State = State(inputs: map<Plug, Plug>, values: map<Plug, Val>, cache: seq<DataType>)

  /** Nothing `connect` does removes or replaces a connection, forgets a written
      plug, or refills a cache that is already filled. */
  ghost predicate Extends(members: seq<Member>, st: State, st': State) {
    (st'.cache == st.cache || (|st.cache| == 0 && st'.cache == SortedSubclasses(members))) &&
    (forall q :: q in st.inputs ==> q in st'.inputs && st'.inputs[q] == st.inputs[q]) &&
    st.values.Keys <= st'.values.Keys
  }

  /** `Nodex(x[item])`: subscript the reference and wrap what comes out. An element
      taken from a tuple by an integer index is either a plug, which gets a new
      wrapper, or a Nodex already, which `Nodex(...)` hands back as it is: its class
      is not looked up again (`None` here) and the cache is left alone. */
  function WrapItem(kinds: Kinds, members: seq<Member>, cache: seq<DataType>, r: Ref, item: Item)
    : (res: (Result<(Option<DataType>, Ref)>, seq<DataType>))
    ensures res.1 == cache || (|cache| == 0 && res.1 == SortedSubclasses(members))
    ensures res.0.Ok? ==> ItemData(kinds, r, item).Ok?
    ensures res.0.Ok? && res.0.value.0.None? ==>
              HeldElement(r, item, res.0.value.1) && ItemData(kinds, r, item).value == res.0.value.1
    ensures res.0.Ok? && res.0.value.0.Some? ==>
              var (dt, d) := (res.0.value.0.value, ItemData(kinds, r, item).value);
              !HeldElement(r, item, d) && dt.isValid(d) && res.0.value.1 == dt.convert(d)
  {
    match ItemData(kinds, r, item)
    case Err(e) => (Err(e), cache)
    case Ok(d) =>
      if HeldElement(r, item, d) then (Ok((None, d)), cache)
      else
        var (w, c) := WrapSpec(members, cache, d);
        (if w.Ok? then Ok((Some(w.value.0), w.value.1)) else Err(w.error), c)
  }

  /** Subscripting never resolves a class for an element that is a Nodex already:
      the element comes back unchanged, whatever the registry holds. */
  lemma HeldElementKept(kinds: Kinds, members: seq<Member>, cache: seq<DataType>, es: seq<Ref>, i: int)
    requires -|es| <= i < |es| && !es[if i < 0 then i + |es| else i].Attr?
    ensures WrapItem(kinds, members, cache, Tup(es), Index(i)) ==
            (Ok((None, es[if i < 0 then i + |es| else i])), cache)
  {
    var k := if i < 0 then i + |es| else i;
    assert PyIndex(|es|, i) == Some(k);
  }

  /** Writing a number into one plug; a connected plug refuses it and nothing changes. */
  function SetPlug(st: State, p: Plug, v: int): (res: (Outcome, State))
    ensures res.1.inputs == st.inputs && res.1.cache == st.cache
    ensures res.0.Done? <==> p !in st.inputs
    ensures res.0.Done? ==> p in res.1.values && res.1.values[p] == Num(v) && res.1.values.Keys == st.values.Keys + {p}
    ensures res.0.Failed? ==> res.0.error == RuntimeError && res.1 == st
  {
    var w := WriteValue(st.inputs, st.values, p, Num(v));
    if w.Ok? then (Done, st.(values := w.value)) else (Failed(w.error), st)
  }

  /** An unforced plug-to-plug connection, as pymel's `Attribute.connect` makes it. */
  function PlugConnect(st: State, src: Plug, dst: Plug): (res: (Outcome, State))
    ensures Extends([], st, res.1) && res.1.cache == st.cache
    ensures res.0.Done? ==> dst in res.1.inputs && res.1.inputs[dst] == src
  {
    var e := ConnectEdge(st.inputs, src, dst, false);
    if e.Ok? then (Done, st.(inputs := e.value)) else (Failed(e.error), st)
  }

  /** `connect(self -> other)`. The policy is tried in order: equal dimensions, then
      broadcasting a one-dimensional source when growing is allowed, then truncating
      the source, then truncating the destination and clearing the rest. Every
      recursive call uses the default flags. `fuel` bounds the recursion depth. */
  function Connect(kinds: Kinds, members: seq<Member>, st: State, src: Ref, dst: Ref,
                   allowGrow: bool, clearLarger: bool, fuel: nat): (res: (Result<nat>, State))
    ensures fuel == 0 ==> res.0 == Err(RecursionLimit)
    ensures fuel > 0 && !IsAttribute(dst) ==> res == (Err(ValueError), st)
    ensures res.0.Ok? && Dimensions(kinds, src) == Dimensions(kinds, dst) ==> res.0.value == Dimensions(kinds, src)
    ensures res.0.Ok? && Dimensions(kinds, src) != Dimensions(kinds, dst) &&
            ((Dimensions(kinds, src) == 1 && allowGrow) || Dimensions(kinds, dst) < Dimensions(kinds, src)) ==>
              res.0.value == Dimensions(kinds, dst)
    ensures Extends(members, st, res.1)
    decreases fuel, 0, 0
  {
    if fuel == 0 then (Err(RecursionLimit), st)
    else
      var dim := Dimensions(kinds, src);
      var otherDim := Dimensions(kinds, dst);
      if !IsAttribute(dst) then (Err(ValueError), st)
      else if dim == otherDim then
        var (o, st1) := ConnectEqual(kinds, members, st, src, dst, fuel - 1);
        (if o.Done? then Ok(dim) else Err(o.error), st1)
      else if dim == 1 && allowGrow then
        var (o, st1) := Broadcast(kinds, members, st, src, dst, 0, otherDim, fuel - 1);
        (if o.Done? then Ok(otherDim) else Err(o.error), st1)
      else if otherDim < dim then TruncateSource(kinds, members, st, src, dst, otherDim, fuel - 1)
      else TruncateDestination(kinds, members, st, src, dst, dim, clearLarger, fuel - 1)
  }

  /** `self[:otherDim].connect(other)`; the answer is `otherDim` whatever that call returns. */
  function TruncateSource(kinds: Kinds, members: seq<Member>, st: State, src: Ref, dst: Ref, otherDim: nat, fuel: nat)
    : (res: (Result<nat>, State))
    ensures res.0.Ok? ==> res.0.value == otherDim
    ensures Extends(members, st, res.1)
    decreases fuel, 4, 0
  {
    var (head, c) := WrapItem(kinds, members, st.cache, src, Slice(None, Some(otherDim)));
    if head.Err? then (Err(head.error), st.(cache := c))
    else
      var (r, st1) := Connect(kinds, members, st.(cache := c), head.value.1, dst, false, true, fuel);
      (if r.Ok? then Ok(otherDim) else r, st1)
  }

  /** `self.connect(other[:dim])`, then, with `clearLarger`, `other[dim+1:].clearValue()`;
      the answer is the inner call's. */
  function TruncateDestination(kinds: Kinds, members: seq<Member>, st: State, src: Ref, dst: Ref, dim: nat,
                               clearLarger: bool, fuel: nat)
    : (res: (Result<nat>, State))
    ensures Extends(members, st, res.1)
    decreases fuel, 4, 0
  {
    var (head, c) := WrapItem(kinds, members, st.cache, dst, Slice(None, Some(dim)));
    if head.Err? then (Err(head.error), st.(cache := c))
    else
      var (r, st1) := Connect(kinds, members, st.(cache := c), src, head.value.1, false, true, fuel);
      if r.Err? || !clearLarger then (r, st1)
      else
        var (o, c2) := ClearRest(kinds, members, st1.cache, dst, dim);
        (if o.Done? then r else Err(o.error), st1.(cache := c2))
  }

  /** `other[dim+1:].clearValue()`: wrap the tail (skipping index `dim`) and reset that
      fresh wrapper's reference. Only the wrapper changes; no plug is written. */
  function ClearRest(kinds: Kinds, members: seq<Member>, cache: seq<DataType>, dst: Ref, dim: nat)
    : (res: (Outcome, seq<DataType>))
    ensures res.1 == cache || (|cache| == 0 && res.1 == SortedSubclasses(members))
    ensures var tail := ItemData(kinds, dst, Slice(Some(dim + 1), None));
      (tail.Err? ==> res == (Failed(tail.error), cache)) &&
      (res.0.Done? ==> tail.Ok? && WrapSpec(members, cache, tail.value).0.Ok? &&
                       Cleared(WrapSpec(members, cache, tail.value).0.value.0).Ok?)
  {
    match ItemData(kinds, dst, Slice(Some(dim + 1), None))
    case Err(e) => (Failed(e), cache)
    case Ok(d) =>
      var (rest, c) := WrapSpec(members, cache, d);
      if rest.Err? then (Failed(rest.error), c)
      else
        var cleared := Cleared(rest.value.0);
        (if cleared.Ok? then Done else Failed(cleared.error), c)
  }

  /** The equal-dimension branch. A single plug is connected to the destination; a
      tuple (which `isAttribute` always accepts) connects element by element; a number
      is written into the destination plug, or into the first element of a one-element
      destination tuple, which refuses it when it is connected. A number has dimension
      one, so the source's loop over a longer destination tuple is never reached. */
  function ConnectEqual(kinds: Kinds, members: seq<Member>, st: State, src: Ref, dst: Ref, fuel: nat)
    : (res: (Outcome, State))
    requires IsAttribute(dst)
    ensures Extends(members, st, res.1)
    decreases fuel, 3, 0
  {
    match src
    case Attr(p) =>
      if dst.Attr? then PlugConnect(st, p, dst.plug) else (Failed(TypeError), st)
    case Tup(es) => Elementwise(kinds, members, st, es, dst, 0, fuel)
    case Scalar(v) =>
      if dst.Attr? then SetPlug(st, dst.plug, v)
      else
        var (first, c) := WrapItem(kinds, members, st.cache, dst, Index(0));
        if first.Err? then (Failed(first.error), st.(cache := c))
        else
          var target := AttrOf(first.value.1);
          if target.Some? && target.value.Attr? then SetPlug(st.(cache := c), target.value.plug, v)
          else (Failed(AttributeError), st.(cache := c))
  }

  /** `for i, x in enumerate(self._data): x.connect(other[i].attr())`. */
  function Elementwise(kinds: Kinds, members: seq<Member>, st: State, es: seq<Ref>, dst: Ref, i: nat, fuel: nat)
    : (res: (Outcome, State))
    requires i <= |es|
    ensures Extends(members, st, res.1)
    decreases fuel, 2, |es| - i
  {
    if i == |es| then (Done, st)
    else
      var (other, c) := WrapItem(kinds, members, st.cache, dst, Index(i));
      if other.Err? then (Failed(other.error), st.(cache := c))
      else
        var (o, st1) := ConnectElement(kinds, members, st.(cache := c), es[i], AttrOf(other.value.1), fuel);
        if o.Failed? then (o, st1) else Elementwise(kinds, members, st1, es, dst, i + 1, fuel)
  }

  /** `x.connect(target)` for one element `x` of a source tuple. A plug element is a
      pymel attribute and connects plug to plug; any other element is a Nodex, whose
      `connect` first wraps the target. */
  function ConnectElement(kinds: Kinds, members: seq<Member>, st: State, x: Ref, target: Option<Ref>, fuel: nat)
    : (res: (Outcome, State))
    ensures Extends(members, st, res.1)
    decreases fuel, 1, 0
  {
    if x.Attr? then
      if target.Some? && target.value.Attr? then PlugConnect(st, x.plug, target.value.plug)
      else (Failed(TypeError), st)
    else if target.None? then (Failed(TypeError), st)
    else
      var (w, c) := WrapSpec(members, st.cache, target.value);
      if w.Err? then (Failed(w.error), st.(cache := c))
      else
        var (r, st1) := Connect(kinds, members, st.(cache := c), x, w.value.1, false, true, fuel);
        (if r.Ok? then Done else Failed(r.error), st1)
  }

  /** `for i in range(otherDim): self.connect(other[i])`. */
  function Broadcast(kinds: Kinds, members: seq<Member>, st: State, src: Ref, dst: Ref, i: nat, n: nat, fuel: nat)
    : (res: (Outcome, State))
    ensures Extends(members, st, res.1)
    decreases fuel, 1, n - i
  {
    if i >= n then (Done, st)
    else
      var (other, c) := WrapItem(kinds, members, st.cache, dst, Index(i));
      if other.Err? then (Failed(other.error), st.(cache := c))
      else
        var (r, st1) := Connect(kinds, members, st.(cache := c), src, other.value.1, false, true, fuel);
        if r.Err? then (Failed(r.error), st1) else Broadcast(kinds, members, st1, src, dst, i + 1, n, fuel)
  }
  /** With `allowGrow`, a one-dimensional source and a destination of another
      dimension, `connect` is the broadcast over every element of the destination,
      answering the destination's dimension when it succeeds. */
  lemma GrowIsBroadcast(kinds: Kinds, members: seq<Member>, st: State, src: Ref, dst: Ref, clearLarger: bool,
                        fuel: nat)
    requires fuel > 0 && IsAttribute(dst) && Dimensions(kinds, src) == 1 != Dimensions(kinds, dst)
    ensures var (o, st1) := Broadcast(kinds, members, st, src, dst, 0, Dimensions(kinds, dst), fuel - 1);
            Connect(kinds, members, st, src, dst, true, clearLarger, fuel) ==
            (if o.Done? then Ok(Dimensions(kinds, dst)) else Err(o.error), st1)
  {
  }
}

/** The reconciler as the source runs it: statements that connect and write plugs of
    the store one at a time, proved to do what the functions of `Reconcile` say. */
module ReconcileSteps {
  import opened Errors
  import opened Graph
  import opened Refs
  import opened Registry
  import opened Reconcile

  ghost function StateOf(g: Store, res: Resolver): State
    reads g, res
  {
    State(g.inputs, g.values, res.cache)
  }

  /** `Nodex(x[item])`, through the resolver. */
  method WrapItemOf(g: Store, res: Resolver, r: Ref, item: Item) returns (w: Result<(Option<DataType>, Ref)>)
    modifies res`cache
    ensures (w, res.cache) == WrapItem(g.kinds, res.members, old(res.cache), r, item)
  {
    var d := ItemData(g.kinds, r, item);
    if d.Err? {
      w := Err(d.error);
    } else if HeldElement(r, item, d.value) {
      w := Ok((None, d.value));
    } else {
      var n := res.Wrap(d.value);
      w := if n.Ok? then Ok((Some(n.value.0), n.value.1)) else Err(n.error);
    }
  }

  /** `connect(self -> other)`, dispatching on the two dimensions to one method per
      branch of the policy. */
  method ConnectRefs(g: Store, res: Resolver, src: Ref, dst: Ref, allowGrow: bool, clearLarger: bool, fuel: nat)
    returns (r: Result<nat>)
    modifies g`inputs, g`values, res`cache
    ensures (r, StateOf(g, res)) == Connect(g.kinds, res.members, old(StateOf(g, res)), src, dst, allowGrow, clearLarger, fuel)
    decreases fuel, 1, 0
  {
    if fuel == 0 {
      return Err(RecursionLimit);
    }
    var dim := Dimensions(g.kinds, src);
    var otherDim := Dimensions(g.kinds, dst);
    if !IsAttribute(dst) {
      return Err(ValueError);
    }
    if dim == otherDim {
      r := EqualBranch(g, res, src, dst, allowGrow, clearLarger, fuel);
    } else if dim == 1 && allowGrow {
      r := GrowBranch(g, res, src, dst, allowGrow, clearLarger, fuel);
    } else if otherDim < dim {
      r := TruncateSourceBranch(g, res, src, dst, allowGrow, clearLarger, fuel);
    } else {
      r := TruncateDestinationBranch(g, res, src, dst, allowGrow, clearLarger, fuel);
    }
  }

  /** Equal dimensions: connect directly; the answer is the common dimension. */
  method EqualBranch(g: Store, res: Resolver, src: Ref, dst: Ref, allowGrow: bool, clearLarger: bool, fuel: nat)
    returns (r: Result<nat>)
    requires fuel > 0 && IsAttribute(dst) && Dimensions(g.kinds, src) == Dimensions(g.kinds, dst)
    modifies g`inputs, g`values, res`cache
    ensures (r, StateOf(g, res)) == Connect(g.kinds, res.members, old(StateOf(g, res)), src, dst, allowGrow, clearLarger, fuel)
    decreases fuel, 0, 0
  {
    var o := ConnectEqualRefs(g, res, src, dst, fuel - 1);
    r := if o.Done? then Ok(Dimensions(g.kinds, src)) else Err(o.error);
  }

  /** A one-dimensional source allowed to grow: connect it to every element. */
  method GrowBranch(g: Store, res: Resolver, src: Ref, dst: Ref, allowGrow: bool, clearLarger: bool, fuel: nat)
    returns (r: Result<nat>)
    requires fuel > 0 && IsAttribute(dst) && Dimensions(g.kinds, src) != Dimensions(g.kinds, dst)
    requires Dimensions(g.kinds, src) == 1 && allowGrow
    modifies g`inputs, g`values, res`cache
    ensures (r, StateOf(g, res)) == Connect(g.kinds, res.members, old(StateOf(g, res)), src, dst, allowGrow, clearLarger, fuel)
    decreases fuel, 0, 0
  {
    ghost var st := StateOf(g, res);
    GrowIsBroadcast(g.kinds, res.members, st, src, dst, clearLarger, fuel);
    var otherDim := Dimensions(g.kinds, dst);
    var o := BroadcastRefs(g, res, src, dst, otherDim, fuel - 1);
    assert (o, StateOf(g, res)) == Broadcast(g.kinds, res.members, st, src, dst, 0, otherDim, fuel - 1);
    r := if o.Done? then Ok(otherDim) else Err(o.error);
  }

  /** A larger source: connect its head. */
  method TruncateSourceBranch(g: Store, res: Resolver, src: Ref, dst: Ref, allowGrow: bool, clearLarger: bool, fuel: nat)
    returns (r: Result<nat>)
    requires fuel > 0 && IsAttribute(dst) && Dimensions(g.kinds, src) != Dimensions(g.kinds, dst)
    requires !(Dimensions(g.kinds, src) == 1 && allowGrow) && Dimensions(g.kinds, dst) < Dimensions(g.kinds, src)
    modifies g`inputs, g`values, res`cache
    ensures (r, StateOf(g, res)) == Connect(g.kinds, res.members, old(StateOf(g, res)), src, dst, allowGrow, clearLarger, fuel)
    decreases fuel, 0, 0
  {
    r := TruncateSourceRefs(g, res, src, dst, Dimensions(g.kinds, dst), fuel - 1);
  }

  /** A larger destination: connect into its head, then clear the rest on request. */
  method TruncateDestinationBranch(g: Store, res: Resolver, src: Ref, dst: Ref, allowGrow: bool, clearLarger: bool, fuel: nat)
    returns (r: Result<nat>)
    requires fuel > 0 && IsAttribute(dst) && Dimensions(g.kinds, src) != Dimensions(g.kinds, dst)
    requires !(Dimensions(g.kinds, src) == 1 && allowGrow) && Dimensions(g.kinds, src) < Dimensions(g.kinds, dst)
    modifies g`inputs, g`values, res`cache
    ensures (r, StateOf(g, res)) == Connect(g.kinds, res.members, old(StateOf(g, res)), src, dst, allowGrow, clearLarger, fuel)
    decreases fuel, 0, 0
  {
    r := TruncateDestinationRefs(g, res, src, dst, Dimensions(g.kinds, src), clearLarger, fuel - 1);
  }

  method TruncateSourceRefs(g: Store, res: Resolver, src: Ref, dst: Ref, otherDim: nat, fuel: nat) returns (r: Result<nat>)
    modifies g`inputs, g`values, res`cache
    ensures (r, StateOf(g, res)) == TruncateSource(g.kinds, res.members, old(StateOf(g, res)), src, dst, otherDim, fuel)
    decreases fuel, 5, 0
  {
    var head := WrapItemOf(g, res, src, Slice(None, Some(otherDim)));
    if head.Err? {
      return Err(head.error);
    }
    r := ConnectRefs(g, res, head.value.1, dst, false, true, fuel);
    if r.Ok? {
      r := Ok(otherDim);
    }
  }

  method TruncateDestinationRefs(g: Store, res: Resolver, src: Ref, dst: Ref, dim: nat, clearLarger: bool, fuel: nat)
    returns (r: Result<nat>)
    modifies g`inputs, g`values, res`cache
    ensures (r, StateOf(g, res)) == TruncateDestination(g.kinds, res.members, old(StateOf(g, res)), src, dst, dim, clearLarger, fuel)
    decreases fuel, 5, 0
  {
    var head := WrapItemOf(g, res, dst, Slice(None, Some(dim)));
    if head.Err? {
      return Err(head.error);
    }
    r := ConnectRefs(g, res, src, head.value.1, false, true, fuel);
    if r.Ok? && clearLarger {
      var o := ClearRestOf(g, res, dst, dim);
      if o.Failed? {
        r := Err(o.error);
      }
    }
  }

  /** `other[dim+1:].clearValue()`: subscript, wrap, reset the wrapper. */
  method ClearRestOf(g: Store, res: Resolver, dst: Ref, dim: nat) returns (o: Outcome)
    modifies res`cache
    ensures (o, res.cache) == ClearRest(g.kinds, res.members, old(res.cache), dst, dim)
  {
    var tail := ItemData(g.kinds, dst, Slice(Some(dim + 1), None));
    if tail.Err? {
      return Failed(tail.error);
    }
    var rest := res.Wrap(tail.value);
    if rest.Err? {
      return Failed(rest.error);
    }
    var cleared := Cleared(rest.value.0);
    o := if cleared.Ok? then Done else Failed(cleared.error);
  }

  method ConnectEqualRefs(g: Store, res: Resolver, src: Ref, dst: Ref, fuel: nat) returns (o: Outcome)
    requires IsAttribute(dst)
    modifies g`inputs, g`values, res`cache
    ensures (o, StateOf(g, res)) == ConnectEqual(g.kinds, res.members, old(StateOf(g, res)), src, dst, fuel)
    decreases fuel, 4, 0
  {
    match src
    case Attr(p) =>
      if dst.Attr? {
        o := g.Connect(p, dst.plug, false);
      } else {
        o := Failed(TypeError);
      }
    case Tup(es) =>
      o := ElementwiseRefs(g, res, es, dst, fuel);
    case Scalar(v) =>
      if dst.Attr? {
        o := g.SetValue(dst.plug, Num(v));
      } else {
        var first := WrapItemOf(g, res, dst, Index(0));
        if first.Err? {
          return Failed(first.error);
        }
        var target := AttrOf(first.value.1);
        if target.Some? && target.value.Attr? {
          o := g.SetValue(target.value.plug, Num(v));
        } else {
          o := Failed(AttributeError);
        }
      }
  }

  method ElementwiseRefs(g: Store, res: Resolver, es: seq<Ref>, dst: Ref, fuel: nat) returns (o: Outcome)
    modifies g`inputs, g`values, res`cache
    ensures (o, StateOf(g, res)) == Elementwise(g.kinds, res.members, old(StateOf(g, res)), es, dst, 0, fuel)
    decreases fuel, 3, 0
  {
    for i := 0 to |es|
      invariant res.members == old(res.members)
      invariant Elementwise(g.kinds, res.members, StateOf(g, res), es, dst, i, fuel) ==
                Elementwise(g.kinds, res.members, old(StateOf(g, res)), es, dst, 0, fuel)
    {
      var other := WrapItemOf(g, res, dst, Index(i));
      if other.Err? {
        return Failed(other.error);
      }
      o := ConnectElementRefs(g, res, es[i], AttrOf(other.value.1), fuel);
      if o.Failed? {
        return;
      }
    }
    o := Done;
  }

  method ConnectElementRefs(g: Store, res: Resolver, x: Ref, target: Option<Ref>, fuel: nat) returns (o: Outcome)
    modifies g`inputs, g`values, res`cache
    ensures (o, StateOf(g, res)) == ConnectElement(g.kinds, res.members, old(StateOf(g, res)), x, target, fuel)
    decreases fuel, 2, 0
  {
    if x.Attr? {
      if target.Some? && target.value.Attr? {
        o := g.Connect(x.plug, target.value.plug, false);
      } else {
        o := Failed(TypeError);
      }
    } else if target.None? {
      o := Failed(TypeError);
    } else {
      var w := res.Wrap(target.value);
      if w.Err? {
        return Failed(w.error);
      }
      var r := ConnectRefs(g, res, x, w.value.1, false, true, fuel);
      o := if r.Ok? then Done else Failed(r.error);
    }
  }

  method BroadcastRefs(g: Store, res: Resolver, src: Ref, dst: Ref, n: nat, fuel: nat) returns (o: Outcome)
    modifies g`inputs, g`values, res`cache
    ensures (o, StateOf(g, res)) == Broadcast(g.kinds, res.members, old(StateOf(g, res)), src, dst, 0, n, fuel)
    decreases fuel, 2, 0
  {
    for i := 0 to n
      invariant res.members == old(res.members)
      invariant Broadcast(g.kinds, res.members, StateOf(g, res), src, dst, i, n, fuel) ==
                Broadcast(g.kinds, res.members, old(StateOf(g, res)), src, dst, 0, n, fuel)
    {
      var other := WrapItemOf(g, res, dst, Index(i));
      if other.Err? {
        return Failed(other.error);
      }
      var r := ConnectRefs(g, res, src, other.value.1, false, true, fuel);
      if r.Err? {
        return Failed(r.error);
      }
    }
    o := Done;
  }
}
