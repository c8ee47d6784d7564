/** The `Nodex` wrapper of `nodex/core.py`: an object holding a reference (a plug, a
    number or a tuple) under the datatype class chosen for it, with a cached
    dimension. Construction picks the class, `setReference` and `clearValue` replace
    the reference, `dimensions` computes and caches, `__getitem__` wraps a subscript
    and `connect` hands the two references to the reconciler. */
module Core {
  import opened Errors
  import opened Graph
  import opened Refs
  import opened Registry
  import Reconcile
  import opened ReconcileSteps

  /** The first positional argument of `Nodex(...)`. */
  datatype Data = NoneData | Existing(n: Nodex) | Plain(r: Ref)

  /** The positional arguments: none at all, or one. */
  datatype Args = NoArgs | Given(d: Data)

  /** What `Nodex.__new__` hands back: the very object it was given, or a new object
      of class `dt` holding `data`. */
  datatype Built = Same(n: Nodex) | Made(dt: DataType, data: Ref)

  /** What `__getitem__` hands back: a new wrapper, or a tuple element that is a Nodex
      already, returned as it is (`Nodex(x)` of a Nodex is `x`). Such an element is
      represented by the reference it holds. */
  datatype Subscript = Wrapper(n: Nodex) | Kept(data: Ref)

  /** `Nodex.__new__` for class `cls`, with the resolver cache passed in and out. */
  function ConstructSpec(members: seq<Member>, cache: seq<DataType>, cls: ClassArg, args: Args, pref: Option<Pref>)
    : (res: (Result<Built>, seq<DataType>))
    ensures res.1 == cache || (|cache| == 0 && res.1 == SortedSubclasses(members))
    ensures cls.Sub? ==> res.1 == cache
    ensures res.0.Ok? && res.0.value.Made? ==> exists x :: res.0.value.dt.isValid(x) && res.0.value.data == res.0.value.dt.convert(x)
  {
    var d := if args.Given? then args.d
             else if cls.Sub? && cls.dt.default.Some? then Plain(cls.dt.default.value)
             else NoneData;
    match d
    case NoneData => (Err(TypeError), cache)
    case Existing(n) => (Ok(Same(n)), cache)
    case Plain(r) =>
      if cls.Sub? then
        if cls.dt.isValid(r) then (Ok(Made(cls.dt, cls.dt.convert(r))), cache) else (Err(TypeError), cache)
      else
        var (found, c) := Resolve(members, cache, r, pref);
        if found.Err? then (Err(found.error), c)
        else if found.value.None? then (Err(UndefinedNodex), c)
        else (Ok(Made(found.value.value, found.value.value.convert(r))), c)
  }

  /** The constructor's promises. The base class has no default, so `Nodex()` is a type
      error, and so is `Nodex(None)`; a Nodex passed in comes back as it is, whatever
      class is asked for; a subclass asked for explicitly is checked against the data
      and never consults the registry or the preferred type; the base class resolves
      through the registry and fails with `UndefinedNodexError` exactly when no class
      of it accepts the data. A new object holds the converted data of a class that
      accepted the data; the converted data itself is not checked again. */
  lemma ConstructContract(members: seq<Member>, cache: seq<DataType>, cls: ClassArg, args: Args, pref: Option<Pref>)
    ensures var (b, c) := ConstructSpec(members, cache, cls, args, pref);
      (|cache| != 0 ==> c == cache) &&
      (cls.Base? && args.NoArgs? ==> b == Err(TypeError) && c == cache) &&
      (args == Given(NoneData) ==> b == Err(TypeError) && c == cache) &&
      (forall n :: args == Given(Existing(n)) ==> b == Ok(Same(n)) && c == cache) &&
      (args.NoArgs? && b.Ok? ==>
         cls.Sub? && cls.dt.default.Some? && cls.dt.isValid(cls.dt.default.value) &&
         b.value == Made(cls.dt, cls.dt.convert(cls.dt.default.value))) &&
      (forall x :: args == Given(Plain(x)) && b.Ok? ==>
         b.value.Made? && b.value.dt.isValid(x) && b.value.data == b.value.dt.convert(x)) &&
      (forall x :: cls.Sub? && args == Given(Plain(x)) ==>
         c == cache && (b.Ok? <==> cls.dt.isValid(x)) && (b.Ok? ==> b.value.dt == cls.dt)) &&
      (forall x :: cls.Base? && args == Given(Plain(x)) && pref.None? ==>
         (b == Err(UndefinedNodex) <==> forall j :: 0 <= j < |c| ==> !c[j].isValid(x)))
  {
    var (b, c) := ConstructSpec(members, cache, cls, args, pref);
    if args.Given? && args.d.Plain? && cls.Base? {
      ResolveContract(members, cache, args.d.r, pref);
    }
  }

  /** `Nodex(r)` as the reconciler calls it on subscripts and element attributes is the
      resolver's wrap: the base class with no preferred type. */
  lemma WrapIsConstruct(members: seq<Member>, cache: seq<DataType>, r: Ref)
    ensures var (w, c) := WrapSpec(members, cache, r);
            var (b, c') := ConstructSpec(members, cache, Base, Given(Plain(r)), None);
            c == c' && (w.Ok? <==> b.Ok?) && (w.Err? ==> w.error == b.error) &&
            (w.Ok? ==> b.value == Made(w.value.0, w.value.1))
  {
  }

  /** A Nodex instance. `dims` is the cached dimension (`_dimensions`). */
  class Nodex {
    const cls: DataType
    var data: Ref
    var dims: Option<nat>

    /** A cached dimension is only ever the dimension of a single plug, which the
        graph never changes. */
    ghost predicate Valid(kinds: Kinds)
      reads this
    {
      dims.Some? ==> data.Attr? && dims.value == AttrDimensions(kinds(data.plug))
    }

    /** `super().__new__(newcls)` followed by `setReference(d, validate=False)`. */
    constructor (dt: DataType, d: Ref)
      ensures cls == dt && data == dt.convert(d) && dims == None
    {
      cls := dt;
      data := d;
      dims := None;
      new;
      var _ := SetReference(d, false);
    }

    /** `Nodex.__new__`: the class comes from the explicit subclass or from the
        registry, and the new object's reference is set without validation. */
    static method New(res: Resolver, cls: ClassArg, args: Args, pref: Option<Pref>) returns (r: Result<Nodex>)
      modifies res`cache
      ensures var (b, c) := ConstructSpec(res.members, old(res.cache), cls, args, pref);
        res.cache == c &&
        (b.Err? ==> r == Err(b.error)) &&
        (b.Ok? && b.value.Same? ==> r == Ok(b.value.n)) &&
        (b.Ok? && b.value.Made? ==> r.Ok? && fresh(r.value) && r.value.cls == b.value.dt &&
                                    r.value.data == b.value.data && r.value.dims == None)
    {
      var d := NoneData;
      if args.Given? {
        d := args.d;
      } else if cls.Sub? && cls.dt.default.Some? {
        d := Plain(cls.dt.default.value);
      }
      if d.NoneData? {
        return Err(TypeError);
      }
      if d.Existing? {
        return Ok(d.n);
      }
      var newcls: Option<DataType>;
      if cls.Sub? {
        if !cls.dt.isValid(d.r) {
          return Err(TypeError);
        }
        newcls := Some(cls.dt);
      } else {
        var found := res.GetDataType(d.r, pref);
        if found.Err? {
          return Err(found.error);
        }
        newcls := found.value;
      }
      if newcls.None? {
        return Err(UndefinedNodex);
      }
      var n := new Nodex(newcls.value, d.r);
      r := Ok(n);
    }

    /** `setReference`: the cached dimension is dropped first, even when validation
        then refuses the data, in which case the reference is kept. */
    method SetReference(d: Ref, validate: bool) returns (o: Outcome)
      modifies this`data, this`dims
      ensures dims == None
      ensures validate && !cls.isValid(d) ==> o == Failed(TypeError) && data == old(data)
      ensures !validate || cls.isValid(d) ==> o == Done && data == cls.convert(d)
    {
      dims := None;
      if validate && !cls.isValid(d) {
        return Failed(TypeError);
      }
      data := cls.convert(d);
      o := Done;
    }

    /** `clearValue`: reset to the class default, validated. A class without a default
        raises before anything changes; otherwise the cached dimension is dropped, even
        when the default is then refused. */
    method ClearValue() returns (o: Outcome)
      modifies this`data, this`dims
      ensures var c := Cleared(cls);
        (c.Ok? ==> o == Done && data == c.value && dims == None) &&
        (c.Err? ==> o == Failed(c.error) && data == old(data)) &&
        (cls.default.None? ==> dims == old(dims)) &&
        (cls.default.Some? ==> dims == None)
    {
      if cls.default.None? {
        return Failed(RuntimeError);
      }
      o := SetReference(cls.default.value, true);
    }

    /** `dimensions`: a cached value is returned as it is; otherwise the dimension is
        computed, and cached only for a single plug. */
    method Dimensions(kinds: Kinds) returns (n: nat)
      requires Valid(kinds)
      modifies this`dims
      ensures Valid(kinds)
      ensures n == Refs.Dimensions(kinds, data)
      ensures dims == if data.Attr? then Some(n) else old(dims)
    {
      if dims.Some? {
        return dims.value;
      }
      if IsSingleAttribute(data) {
        n := AttrDimensions(kinds(data.plug));
        dims := Some(n);
      } else if IsAttribute(data) {
        n := |data.elems|;
      } else {
        // A reference that is neither a plug nor a tuple is a number, and a single
        // numeric value has dimension one; no other kind of data is modelled.
        n := 1;
      }
    }

    /** `__getitem__`: subscript the reference and pass the result to `Nodex(...)`,
        which wraps plain data and hands back an element that is a Nodex already. */
    method GetItem(item: Item, g: Store, res: Resolver) returns (r: Result<Subscript>)
      modifies res`cache
      ensures var (w, c) := Reconcile.WrapItem(g.kinds, res.members, old(res.cache), data, item);
        res.cache == c &&
        (w.Err? ==> r == Err(w.error)) &&
        (w.Ok? && w.value.0.None? ==> r == Ok(Kept(w.value.1))) &&
        (w.Ok? && w.value.0.Some? ==>
           r.Ok? && r.value.Wrapper? && fresh(r.value.n) && r.value.n.cls == w.value.0.value &&
           r.value.n.data == w.value.1 && r.value.n.dims == None)
    {
      var d := ItemData(g.kinds, data, item);
      if d.Err? {
        return Err(d.error);
      }
      if HeldElement(data, item, d.value) {
        return Ok(Kept(d.value));
      }
      WrapIsConstruct(res.members, res.cache, d.value);
      var n := New(res, Base, Given(Plain(d.value)), None);
      r := if n.Ok? then Ok(Wrapper(n.value)) else Err(n.error);
    }

    /** `connect(self -> other)`: both dimensions are computed (and cached), then the
        reconciler runs on the two references. */
    method Connect(other: Nodex, allowGrow: bool, clearLarger: bool, g: Store, res: Resolver, fuel: nat)
      returns (r: Result<nat>)
      requires Valid(g.kinds) && other.Valid(g.kinds)
      modifies this`dims, other`dims, g`inputs, g`values, res`cache
      ensures (r, StateOf(g, res)) ==
              Reconcile.Connect(g.kinds, res.members, old(StateOf(g, res)), data, other.data, allowGrow, clearLarger, fuel)
      ensures Valid(g.kinds) && other.Valid(g.kinds)
      ensures data.Attr? ==> dims == Some(Refs.Dimensions(g.kinds, data))
      ensures other.data.Attr? ==> other.dims == Some(Refs.Dimensions(g.kinds, other.data))
    {
      var dim := Dimensions(g.kinds);
      var otherDim := other.Dimensions(g.kinds);
      r := ConnectRefs(g, res, data, other.data, allowGrow, clearLarger, fuel);
    }
  }
}
