/** What a Nodex references (`Nodex._data`): a plug of the graph, a number, or a
    tuple of element references; and the pure queries `nodex/core.py` asks of it. */
module Refs {
  import opened Errors
  import opened Graph

  datatype Ref =
    | Attr(plug: Plug)
    | Scalar(n: int)
    | Tup(elems: seq<Ref>)

  /** `isSingleAttribute`: the reference is one plug. */
  predicate IsSingleAttribute(r: Ref) {
    r.Attr?
  }

  /** `isAttribute` as written. The closing parenthesis of `all(...)` comes right after
      the element test, so the `for` clause makes a generator expression of the whole
      conjunction: the value tested is that generator object, which is always true.
      Every tuple counts as an attribute whatever its elements are. */
  predicate IsAttribute(r: Ref) {
    r.Tup? || IsSingleAttribute(r)
  }

  /** The reading the comment of `isAttribute` asks for: a single plug, or a tuple
      whose elements are all attribute references. */
  predicate AllAttributes(r: Ref)
    decreases r
  {
    match r
    case Attr(_) => true
    case Scalar(_) => false
    case Tup(es) => forall i :: 0 <= i < |es| ==> AllAttributes(es[i])
  }

  /** Every reference the intended test accepts is accepted as written, but a tuple of
      numbers is accepted too: `isAttribute` does not look at the elements. */
  lemma IsAttributeIgnoresElements(r: Ref)
    ensures AllAttributes(r) ==> IsAttribute(r)
    ensures IsAttribute(Tup([Scalar(0)])) && !AllAttributes(Tup([Scalar(0)]))
    ensures IsAttribute(r) <==> !r.Scalar?
  {
    assert Tup([Scalar(0)]).elems[0] == Scalar(0);
  }

  /** `attr()`: the reference itself when it counts as an attribute, else nothing. */
  function AttrOf(r: Ref): (a: Option<Ref>)
    ensures a.Some? <==> IsAttribute(r)
    ensures a.Some? ==> a.value == r
  {
    if IsAttribute(r) then Some(r) else None
  }

  /** The dimension `Nodex.dimensions` computes for a reference. */
  function Dimensions(kinds: Kinds, r: Ref): (n: nat)
    ensures !r.Tup? ==> (n == 1 <==> IsSingleNumeric(kinds, r))
  {
    match r
    case Attr(p) => AttrDimensions(kinds(p))
    case Tup(es) => |es|
    case Scalar(_) => 1
  }

  /** A number is one-dimensional, a tuple has its length, a plug has `attrDimensions`
      of its kind: 3 for a compound of three children, the element count for an array. */
  lemma DimensionsByKind(kinds: Kinds, r: Ref)
    ensures r.Scalar? ==> Dimensions(kinds, r) == 1
    ensures r.Tup? ==> Dimensions(kinds, r) == |r.elems|
    ensures r.Attr? && kinds(r.plug).Compound? ==> Dimensions(kinds, r) == |kinds(r.plug).children|
    ensures r.Attr? && kinds(r.plug).ArrayPlug? ==> Dimensions(kinds, r) == |kinds(r.plug).elements|
    ensures r.Attr? && kinds(r.plug).Leaf? ==> Dimensions(kinds, r) == 1
  {
  }

  /** `isSingleNumeric`: a one-dimensional plug, or a number. */
  predicate IsSingleNumeric(kinds: Kinds, r: Ref) {
    if IsSingleAttribute(r) then AttrDimensions(kinds(r.plug)) == 1 else r.Scalar?
  }

  /** A single numeric reference is one-dimensional; the converse fails only for
      one-element tuples. */
  lemma SingleNumericIsOneDimensional(kinds: Kinds, r: Ref)
    ensures IsSingleNumeric(kinds, r) ==> Dimensions(kinds, r) == 1
    ensures Dimensions(kinds, r) == 1 && !r.Tup? ==> IsSingleNumeric(kinds, r)
  {
  }

  /** A subscript: an integer (possibly negative) or a slice without a step. */
  datatype Item = Index(i: int) | Slice(start: Option<int>, stop: Option<int>)

  /** Python's reading of an index into a sequence of length `len`. */
  function PyIndex(len: nat, i: int): (k: Option<nat>)
    ensures k.Some? <==> -(len as int) <= i < len
    ensures k.Some? ==> k.value < len && (k.value == i || k.value == len + i)
  {
    if 0 <= i < len then Some(i)
    else if -(len as int) <= i < 0 then Some(len + i)
    else None
  }

  /** Python's clamping of one slice bound: a missing bound takes the default, a
      negative one counts from the end, and the result is clamped into `0..len`. */
  function SliceBound(len: nat, b: Option<int>, default: nat): (k: nat)
    requires default <= len
    ensures k <= len
    ensures b.None? ==> k == default
    ensures b.Some? && 0 <= b.value <= len ==> k == b.value
    ensures b.Some? && b.value > len ==> k == len
    ensures b.Some? && -(len as int) <= b.value < 0 ==> k == len + b.value
    ensures b.Some? && b.value < -(len as int) ==> k == 0
  {
    match b
    case None => default
    case Some(x) => if x < 0 then (if len + x < 0 then 0 else len + x) else if x > len then len else x
  }

  /** Python's `s[start:stop]`: the elements from the clamped start up to the clamped
      stop, in order, and nothing when the stop does not come after the start. */
  function PySlice<T>(s: seq<T>, start: Option<int>, stop: Option<int>): (r: seq<T>)
    ensures |r| <= |s|
    ensures var a, b := SliceBound(|s|, start, 0), SliceBound(|s|, stop, |s|);
            |r| == (if a < b then b - a else 0) && forall j :: 0 <= j < |r| ==> r[j] == s[a + j]
  {
    var a, b := SliceBound(|s|, start, 0), SliceBound(|s|, stop, |s|);
    if a < b then s[a..b] else []
  }

  /** `s[:n]` keeps the first `n` elements (all of them when `n` is larger). */
  lemma PySlicePrefix<T>(s: seq<T>, n: nat)
    ensures PySlice(s, None, Some(n)) == if n <= |s| then s[..n] else s
  {
  }

  /** `s[n:]` drops the first `n` elements (all of them when `n` is larger). */
  lemma PySliceSuffix<T>(s: seq<T>, n: nat)
    ensures PySlice(s, Some(n), None) == if n <= |s| then s[n..] else []
  {
  }

  /** A tuple element that is not a plug is a Nodex already; subscripting a tuple by
      an integer hands such an element back instead of a new wrapper. */
  predicate HeldElement(r: Ref, item: Item, d: Ref) {
    r.Tup? && item.Index? && !d.Attr?
  }

  /** What `Nodex.__getitem__` hands to `Nodex(...)`: the subscripted part of the
      reference. An array plug resolves integers through `elementByPhysicalIndex`;
      its slices pass `None` to `xrange`, which raises. A compound plug subscripts its
      list of children. Anything else subscripts the reference itself: a tuple as a
      Python tuple; a number or a leaf plug cannot be subscripted. */
  function ItemData(kinds: Kinds, r: Ref, item: Item): (d: Result<Ref>)
    ensures d.Ok? && item.Slice? ==> d.value.Tup? && |d.value.elems| <= Dimensions(kinds, r)
    ensures d.Ok? && item.Index? && r.Attr? ==> d.value.Attr?
    ensures r.Scalar? ==> d == Err(TypeError)
  {
    match r
    case Attr(p) =>
      (match kinds(p)
       case ArrayPlug(els) =>
         (match item
          case Index(i) => if 0 <= i < |els| then Ok(Attr(els[i])) else Err(IndexError)
          case Slice(_, _) => Err(TypeError))
       case Compound(ch) =>
         (match item
          case Index(i) =>
            var k := PyIndex(|ch|, i);
            if k.Some? then Ok(Attr(ch[k.value])) else Err(IndexError)
          case Slice(a, b) => Ok(Tup(AttrsOf(PySlice(ch, a, b)))))
       case Leaf => Err(TypeError))
    case Tup(es) =>
      (match item
       case Index(i) =>
         var k := PyIndex(|es|, i);
         if k.Some? then Ok(es[k.value]) else Err(IndexError)
       case Slice(a, b) => Ok(Tup(PySlice(es, a, b))))
    case Scalar(_) => Err(TypeError)
  }

  /** The list of attribute references to the given plugs. */
  function AttrsOf(ps: seq<Plug>): (rs: seq<Ref>)
    ensures |rs| == |ps| && forall i :: 0 <= i < |ps| ==> rs[i] == Attr(ps[i])
  {
    seq(|ps|, i requires 0 <= i < |ps| => Attr(ps[i]))
  }

  /** What subscripting yields, by case: elements of arrays, children of compounds
      and of tuples when in range (negative indices counting from the end), an index
      error out of range, the right count of children or elements for slices, and a
      type error for every slice of an array plug. */
  lemma ItemDataCases(kinds: Kinds, r: Ref, item: Item)
    ensures r.Attr? && kinds(r.plug).ArrayPlug? && item.Slice? ==> ItemData(kinds, r, item) == Err(TypeError)
    ensures r.Attr? && kinds(r.plug).ArrayPlug? && item.Index? && 0 <= item.i < |kinds(r.plug).elements| ==>
              ItemData(kinds, r, item) == Ok(Attr(kinds(r.plug).elements[item.i]))
    ensures r.Attr? && kinds(r.plug).ArrayPlug? && item.Index? && !(0 <= item.i < |kinds(r.plug).elements|) ==>
              ItemData(kinds, r, item) == Err(IndexError)
    ensures r.Attr? && kinds(r.plug).Compound? && item.Index? && 0 <= item.i < |kinds(r.plug).children| ==>
              ItemData(kinds, r, item) == Ok(Attr(kinds(r.plug).children[item.i]))
    ensures r.Attr? && kinds(r.plug).Compound? && item.Index? && -|kinds(r.plug).children| <= item.i < 0 ==>
              ItemData(kinds, r, item) == Ok(Attr(kinds(r.plug).children[|kinds(r.plug).children| + item.i]))
    ensures r.Attr? && kinds(r.plug).Compound? && item.Index? &&
            !(-|kinds(r.plug).children| <= item.i < |kinds(r.plug).children|) ==>
              ItemData(kinds, r, item) == Err(IndexError)
    ensures r.Tup? && item.Index? && 0 <= item.i < |r.elems| ==> ItemData(kinds, r, item) == Ok(r.elems[item.i])
    ensures r.Tup? && item.Index? && -|r.elems| <= item.i < 0 ==>
              ItemData(kinds, r, item) == Ok(r.elems[|r.elems| + item.i])
    ensures r.Tup? && item.Index? && !(-|r.elems| <= item.i < |r.elems|) ==> ItemData(kinds, r, item) == Err(IndexError)
    ensures r.Tup? && item.Slice? && item.start.Some? && item.stop.None? && 0 <= item.start.value <= |r.elems| ==>
              ItemData(kinds, r, item) == Ok(Tup(r.elems[item.start.value..]))
    ensures r.Attr? && kinds(r.plug).Compound? && item.Slice? && item.start.None? && item.stop.Some? &&
            0 <= item.stop.value <= |kinds(r.plug).children| ==>
              ItemData(kinds, r, item).Ok? && ItemData(kinds, r, item).value.Tup? &&
              Dimensions(kinds, ItemData(kinds, r, item).value) == item.stop.value
    ensures r.Tup? && item.Slice? && item.start.None? && item.stop.Some? && 0 <= item.stop.value <= |r.elems| ==>
              ItemData(kinds, r, item) == Ok(Tup(r.elems[..item.stop.value]))
    ensures r.Scalar? || (r.Attr? && kinds(r.plug).Leaf?) ==> ItemData(kinds, r, item) == Err(TypeError)
  {
    if r.Tup? && item.Slice? && item.start.None? && item.stop.Some? && 0 <= item.stop.value <= |r.elems| {
      PySlicePrefix(r.elems, item.stop.value);
    }
    if r.Tup? && item.Slice? && item.start.Some? && item.stop.None? && 0 <= item.start.value <= |r.elems| {
      PySliceSuffix(r.elems, item.start.value);
    }
    if r.Attr? && kinds(r.plug).Compound? && item.Slice? && item.start.None? && item.stop.Some? &&
       0 <= item.stop.value <= |kinds(r.plug).children| {
      PySlicePrefix(kinds(r.plug).children, item.stop.value);
    }
  }

  /** The second `value` of `nodex/core.py`: a plug is read from the graph, a tuple
      reads each element (plugs directly, other elements by their own value), and a
      number is itself. Reading a plug is the host's business and comes in as `read`. */
  function Value(read: Plug -> Val, r: Ref): (v: Val)
    ensures r.Tup? ==> v.Many? && |v.items| == |r.elems|
    decreases r
  {
    match r
    case Attr(p) => read(p)
    case Scalar(x) => Num(x)
    case Tup(es) => Many(seq(|es|, i requires 0 <= i < |es| => if es[i].Attr? then read(es[i].plug) else Value(read, es[i])))
  }

  /** A tuple's value has one entry per element, and a tuple of numbers reads back as
      those numbers: the value has as many components as the reference has dimensions. */
  lemma {:induction false} ValueShape(read: Plug -> Val, kinds: Kinds, r: Ref)
    ensures r.Tup? ==> Value(read, r).Many? && |Value(read, r).items| == Dimensions(kinds, r)
    ensures r.Tup? ==> forall i :: 0 <= i < |r.elems| && r.elems[i].Scalar? ==>
              Value(read, r).items[i] == Num(r.elems[i].n)
    ensures r.Scalar? ==> Value(read, r) == Num(r.n)
  {
    if r.Tup? {
      forall i | 0 <= i < |r.elems| && r.elems[i].Scalar?
        ensures Value(read, r).items[i] == Num(r.elems[i].n)
      {
        assert Value(read, r.elems[i]) == Num(r.elems[i].n);
      }
    }
  }
}
