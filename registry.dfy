/** The datatype registry of `nodex/core.py`: the Nodex subclasses found in the
    datatypes module, sorted by priority, cached on first use, and the resolver that
    picks the class whose `isValidData` accepts some data. */
module Registry {
  import opened Errors
  import opened Refs

  /** One Nodex subclass, reduced to what the core asks of it: its priority, its
      `isValidData` test, its `convertData` conversion and its `default()` value
      (`None` when the class declares none). */
  datatype DataType = DataType(
    name: string,
    priority: int,
    isValid: Ref -> bool,
    convert: Ref -> Ref,
    default: Option<Ref>)

  /** A class argument: the base `Nodex` itself or one of its subclasses. */
  datatype ClassArg = Base | Sub(dt: DataType)

  /** The `type=` keyword of the constructor: something that is not a Nodex class, or one. */
  datatype Pref = Foreign | NodexClass(cls: ClassArg)

  /** A member of the datatypes module as `inspect.getmembers` lists it. */
  datatype Member = NotAClass | NodexBase | OtherClass | NodexSubclass(dt: DataType)

  /** `find_subclasses`: the members that are classes deriving from Nodex, other than
      Nodex itself, in the order the module lists them. */
  function FindSubclasses(members: seq<Member>): (classes: seq<DataType>)
    ensures |classes| <= |members|
    ensures forall i :: 0 <= i < |classes| ==> NodexSubclass(classes[i]) in members
    ensures forall i :: 0 <= i < |members| && members[i].NodexSubclass? ==> members[i].dt in classes
  {
    if |members| == 0 then []
    else
      var rest := FindSubclasses(members[1..]);
      assert forall i :: 1 <= i < |members| ==> members[i] == members[1..][i - 1];
      if members[0].NodexSubclass? then [members[0].dt] + rest else rest
  }

  ghost predicate Sorted(s: seq<DataType>) {
    forall i :: 0 < i < |s| ==> s[i - 1].priority <= s[i].priority
  }

  /** Places `x` before the first class whose priority is not lower, so that classes
      of equal priority keep their order. */
  function Insert(x: DataType, s: seq<DataType>): (r: seq<DataType>)
    requires Sorted(s)
    ensures Sorted(r)
    ensures multiset(r) == multiset(s) + multiset{x}
    ensures |r| == |s| + 1 && (r[0] == x || (|s| > 0 && r[0] == s[0]))
  {
    if |s| == 0 then [x]
    else if x.priority <= s[0].priority then [x] + s
    else
      assert s == [s[0]] + s[1..];
      [s[0]] + Insert(x, s[1..])
  }

  /** `find_nodex_subclasses_sorted`'s sort: ascending priority, a permutation of its input. */
  function SortByPriority(s: seq<DataType>): (r: seq<DataType>)
    ensures Sorted(r)
    ensures multiset(r) == multiset(s)
  {
    if |s| == 0 then []
    else
      assert s == [s[0]] + s[1..];
      Insert(s[0], SortByPriority(s[1..]))
  }

  /** `find_nodex_subclasses_sorted`: the registry as the first resolution caches it. */
  function SortedSubclasses(members: seq<Member>): seq<DataType> {
    SortByPriority(FindSubclasses(members))
  }

  /** The registry is in ascending priority and holds exactly the module's Nodex subclasses. */
  lemma SortedSubclassesContract(members: seq<Member>)
    ensures Sorted(SortedSubclasses(members))
    ensures forall d :: d in SortedSubclasses(members) <==> NodexSubclass(d) in members
  {
    var found := FindSubclasses(members);
    forall d ensures d in SortedSubclasses(members) <==> d in found {
      assert d in SortedSubclasses(members) <==> d in multiset(SortedSubclasses(members));
      assert d in found <==> d in multiset(found);
    }
    forall d | NodexSubclass(d) in members ensures d in found {
      var i :| 0 <= i < |members| && members[i] == NodexSubclass(d);
    }
  }

  /** The position of the first class that accepts `r`, scanning from `from`. */
  function FirstValidFrom(classes: seq<DataType>, r: Ref, from: nat): (k: Option<nat>)
    requires from <= |classes|
    ensures k.Some? ==> from <= k.value < |classes| && classes[k.value].isValid(r) &&
                        forall j :: from <= j < k.value ==> !classes[j].isValid(r)
    ensures k.None? ==> forall j :: from <= j < |classes| ==> !classes[j].isValid(r)
    decreases |classes| - from
  {
    if from == |classes| then None
    else if classes[from].isValid(r) then Some(from)
    else FirstValidFrom(classes, r, from + 1)
  }

  /** What the resolution loop returns, given the class list it scans. */
  function FirstValid(classes: seq<DataType>, r: Ref): Option<DataType> {
    match FirstValidFrom(classes, r, 0)
    case None => None
    case Some(k) => Some(classes[k])
  }

  /** `_getDataTypeFromData`, with the cache passed in and passed back out.
      A preferred type that is not a Nodex class is a type error; one that accepts
      the data wins at once, before the cache is touched; otherwise the cache is
      filled if it is empty and the first class in it accepting the data is returned. */
  function Resolve(members: seq<Member>, cache: seq<DataType>, r: Ref, pref: Option<Pref>)
    : (res: (Result<Option<DataType>>, seq<DataType>))
    ensures res.1 == cache || (|cache| == 0 && res.1 == SortedSubclasses(members))
    ensures res.0.Ok? && res.0.value.Some? ==> res.0.value.value.isValid(r)
  {
    if pref.Some? && pref.value.Foreign? then (Err(TypeError), cache)
    else if pref.Some? && pref.value.cls.Sub? && pref.value.cls.dt.isValid(r) then (Ok(Some(pref.value.cls.dt)), cache)
    else
      var classes := if |cache| == 0 then SortedSubclasses(members) else cache;
      (Ok(FirstValid(classes, r)), classes)
  }

  /** The resolver's promises: a foreign preferred type is refused and a valid one is
      returned untouched, without consulting the registry; otherwise the answer is the
      first class, in ascending priority, that accepts the data, or nothing when none
      does; and the cache is left as it was unless it was empty. */
  lemma ResolveContract(members: seq<Member>, cache: seq<DataType>, r: Ref, pref: Option<Pref>)
    ensures var (res, c) := Resolve(members, cache, r, pref);
      (pref.Some? && pref.value.Foreign? ==> res == Err(TypeError) && c == cache) &&
      (pref.Some? && pref.value.NodexClass? && pref.value.cls.Sub? && pref.value.cls.dt.isValid(r) ==>
         res == Ok(Some(pref.value.cls.dt)) && c == cache) &&
      (|cache| != 0 ==> c == cache) &&
      (|cache| == 0 && res.Ok? && !(pref.Some? && pref.value.cls.Sub? && pref.value.cls.dt.isValid(r)) ==>
         c == SortedSubclasses(members)) &&
      (res.Ok? && !(pref.Some? && pref.value.cls.Sub? && pref.value.cls.dt.isValid(r)) ==>
         (res.value.None? <==> forall j :: 0 <= j < |c| ==> !c[j].isValid(r)) &&
         (res.value.Some? ==> exists k :: 0 <= k < |c| && res.value.value == c[k] && c[k].isValid(r) &&
                                          forall j :: 0 <= j < k ==> !c[j].isValid(r)))
  {
    var (res, c) := Resolve(members, cache, r, pref);
    if res.Ok? && !(pref.Some? && pref.value.cls.Sub? && pref.value.cls.dt.isValid(r)) {
      var k := FirstValidFrom(c, r, 0);
      if k.Some? {
        assert res.value.value == c[k.value];
      }
    }
  }

  /** The cache is filled only while it is empty: once it holds a class, classes added
      to the datatypes module later are never seen by the resolver. */
  lemma LateRegistrationUnseen(members: seq<Member>, later: Member, cache: seq<DataType>, r: Ref, pref: Option<Pref>)
    requires |cache| != 0
    ensures Resolve(members + [later], cache, r, pref) == Resolve(members, cache, r, pref)
  {
  }

  /** The loop of `_getDataTypeFromData`: the first class of the list, in order, whose
      `isValidData` accepts the data. */
  method Scan(classes: seq<DataType>, r: Ref) returns (found: Option<DataType>)
    ensures found == FirstValid(classes, r)
  {
    var i := 0;
    while i < |classes|
      invariant i <= |classes|
      invariant FirstValidFrom(classes, r, i) == FirstValidFrom(classes, r, 0)
    {
      if classes[i].isValid(r) {
        return Some(classes[i]);
      }
      i := i + 1;
    }
    found := None;
  }

  /** `clearValue` on a wrapper of class `dt`: the new reference, or the error raised.
      A class without a default cannot be cleared; the default is validated, as
      `setReference` does by default, then converted. */
  function Cleared(dt: DataType): (r: Result<Ref>)
    ensures dt.default.None? ==> r == Err(RuntimeError)
    ensures r.Ok? ==> dt.default.Some? && dt.isValid(dt.default.value) && r.value == dt.convert(dt.default.value)
    ensures dt.default.Some? && !dt.isValid(dt.default.value) ==> r == Err(TypeError)
  {
    match dt.default
    case None => Err(RuntimeError)
    case Some(v) => if dt.isValid(v) then Ok(dt.convert(v)) else Err(TypeError)
  }

  /** The resolver's state: the datatypes module's members and the cached sorted list
      (the mutable default argument of `_getDataTypeFromData`). */
  class Resolver {
    var members: seq<Member>
    var cache: seq<DataType>

    constructor (members: seq<Member>)
      ensures this.members == members && cache == []
    {
      this.members := members;
      cache := [];
    }

    /** `_getDataTypeFromData`: the preferred-type checks, the one-time fill of the
        cache (`cache[:] = ...`) and the scan of the cache. */
    method GetDataType(r: Ref, pref: Option<Pref>) returns (res: Result<Option<DataType>>)
      modifies this`cache
      ensures (res, cache) == Resolve(members, old(cache), r, pref)
    {
      if pref.Some? {
        if pref.value.Foreign? {
          return Err(TypeError);
        }
        if pref.value.cls.Sub? && pref.value.cls.dt.isValid(r) {
          return Ok(Some(pref.value.cls.dt));
        }
      }
      if |cache| == 0 {
        cache := SortedSubclasses(members);
      }
      var found := Scan(cache, r);
      res := Ok(found);
    }

    /** `Nodex(data)` for a reference, as the core calls it on subscripts and attributes:
        resolve without a preferred type, then convert with the class found. */
    method Wrap(r: Ref) returns (res: Result<(DataType, Ref)>)
      modifies this`cache
      ensures (res, cache) == WrapSpec(members, old(cache), r)
    {
      var found := GetDataType(r, None);
      if found.Ok? && found.value.Some? {
        var dt := found.value.value;
        res := Ok((dt, dt.convert(r)));
      } else {
        res := Err(UndefinedNodex);
      }
    }
  }

  /** What `Nodex(r)` produces for plain data: the resolved class and the converted
      reference, or `UndefinedNodexError` when no class accepts the data. */
  function WrapSpec(members: seq<Member>, cache: seq<DataType>, r: Ref): (res: (Result<(DataType, Ref)>, seq<DataType>))
    ensures res.1 == cache || (|cache| == 0 && res.1 == SortedSubclasses(members))
    ensures res.0.Ok? ==> res.0.value.0.isValid(r) && res.0.value.1 == res.0.value.0.convert(r)
    ensures res.0.Err? ==> res.0.error == UndefinedNodex
  {
    var (found, c) := Resolve(members, cache, r, None);
    if found.Ok? && found.value.Some? then (Ok((found.value.value, found.value.value.convert(r))), c)
    else (Err(UndefinedNodex), c)
  }

  /** Wrapping keeps a filled cache, and succeeds exactly when some class of the
      (possibly just filled) registry accepts the data. */
  lemma WrapContract(members: seq<Member>, cache: seq<DataType>, r: Ref)
    ensures var (res, c) := WrapSpec(members, cache, r);
      (|cache| != 0 ==> c == cache) &&
      (|cache| == 0 ==> c == SortedSubclasses(members)) &&
      (res.Ok? <==> exists k :: 0 <= k < |c| && c[k].isValid(r)) &&
      (res.Ok? ==> res.value.0.isValid(r) && res.value.1 == res.value.0.convert(r))
  {
    var (res, c) := WrapSpec(members, cache, r);
    var k := FirstValidFrom(c, r, 0);
    if k.None? {
      assert forall j :: 0 <= j < |c| ==> !c[j].isValid(r);
    }
  }
}
