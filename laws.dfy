/** What `Nodex.connect` does in the cases its docstring and callers rely on: the
    destination check, the plug-to-plug and value-writing cases, the grow and
    truncation laws, and what the `clearLarger` step does and does not do. */
module ReconcileLaws {
  import opened Errors
  import opened Graph
  import opened Refs
  import opened Registry
  import opened Reconcile

  /** The plugs a compound or array plug is made of. */
  function Parts(k: PlugKind): seq<Plug> {
    match k
    case Compound(ch) => ch
    case ArrayPlug(els) => els
    case Leaf => []
  }

  /** The registry wraps `r` as itself: the first class accepting `r` converts it to
      `r`. The laws below assume this of the references `connect` wraps on the way
      (the destination's parts, the slices it takes), and of nothing else. */
  ghost predicate Keeps(cache: seq<DataType>, r: Ref) {
    FirstValid(cache, r).Some? && FirstValid(cache, r).value.convert(r) == r
  }

  /** `m` with each plug of `ps` in turn mapped to `x`. */
  function Fed<V>(m: map<Plug, V>, ps: seq<Plug>, x: V): map<Plug, V>
    decreases |ps|
  {
    if |ps| == 0 then m else Fed(m[ps[0] := x], ps[1..], x)
  }

  /** `Fed` maps every plug of `ps` to `x`, keeps every other entry of `m`, and adds
      nothing else. */
  lemma {:induction false} FedMaps<V>(m: map<Plug, V>, ps: seq<Plug>, x: V)
    ensures forall y :: y in Fed(m, ps, x) <==> y in m || y in ps
    ensures forall y :: y in ps ==> Fed(m, ps, x)[y] == x
    ensures forall y :: y !in ps && y in m ==> Fed(m, ps, x)[y] == m[y]
    decreases |ps|
  {
    if |ps| > 0 {
      FedMaps(m[ps[0] := x], ps[1..], x);
      assert forall y :: y in ps <==> y == ps[0] || y in ps[1..];
    }
  }

  /** Part `p` of a destination can take element `e` of a source: `p` has no incoming
      connection, the registry wraps it as itself, and `e` is a plug, or a number
      going into a one-dimensional part with recursion depth to spare. */
  ghost predicate CanTake(kinds: Kinds, st: State, p: Plug, e: Ref, fuel: nat) {
    p !in st.inputs && Keeps(st.cache, Attr(p)) &&
    (e.Attr? || (e.Scalar? && AttrDimensions(kinds(p)) == 1 && fuel >= 1))
  }

  /** The state once part `p` has taken the plug or number `e`. */
  function Take(st: State, p: Plug, e: Ref): State {
    match e
    case Attr(x) => st.(inputs := st.inputs[p := x])
    case Scalar(v) => st.(values := st.values[p := Num(v)])
    case Tup(_) => st
  }

  /** Part `p` has taken `e`: the plug `e` feeds it, or the number `e` is written
      into it and nothing feeds it. */
  ghost predicate Took(st1: State, p: Plug, e: Ref) {
    (e.Attr? ==> p in st1.inputs && st1.inputs[p] == e.plug) &&
    (e.Scalar? ==> p !in st1.inputs && p in st1.values && st1.values[p] == Num(e.n))
  }

  /** Plug `x` has the same connection and the same written value in both states. */
  ghost predicate Untouched(st: State, st1: State, x: Plug) {
    (x in st1.inputs <==> x in st.inputs) && (x in st.inputs ==> st1.inputs[x] == st.inputs[x]) &&
    (x in st1.values <==> x in st.values) && (x in st.values ==> st1.values[x] == st.values[x])
  }

  /** Going from `st` to `st1`, part `j` of `ps` has taken element `j` of `es`, for
      every part, and every other plug is untouched. */
  ghost predicate TookInOrder(st: State, st1: State, ps: seq<Plug>, es: seq<Ref>) {
    |ps| <= |es| &&
    (forall j :: 0 <= j < |ps| ==> Took(st1, ps[j], es[j])) &&
    (forall x :: x !in ps ==> Untouched(st, st1, x))
  }

  /** A destination that is not an attribute (a number) is refused before anything
      is connected or written. */
  lemma DestinationMustBeAttribute(kinds: Kinds, members: seq<Member>, st: State, src: Ref, v: int,
                                   allowGrow: bool, clearLarger: bool, fuel: nat)
    requires fuel > 0
    ensures Connect(kinds, members, st, src, Scalar(v), allowGrow, clearLarger, fuel) == (Err(ValueError), st)
  {
  }

  /** Equal dimensions, plug to plug: an unforced connection. It succeeds when the
      destination is unfed or already fed by the source, and the host refuses it when
      another plug feeds the destination. */
  lemma PlugIntoPlug(kinds: Kinds, members: seq<Member>, st: State, p: Plug, q: Plug,
                     allowGrow: bool, clearLarger: bool, fuel: nat)
    requires fuel > 0 && AttrDimensions(kinds(p)) == AttrDimensions(kinds(q))
    ensures var res := Connect(kinds, members, st, Attr(p), Attr(q), allowGrow, clearLarger, fuel);
      (q !in st.inputs || st.inputs[q] == p ==>
         res == (Ok(AttrDimensions(kinds(p))), st.(inputs := st.inputs[q := p]))) &&
      (q in st.inputs && st.inputs[q] != p ==> res == (Err(RuntimeError), st))
  {
  }

  /** Equal dimensions, number into a one-dimensional plug: the number is written there
      and nothing is connected; reading the plug's written value gives the number back.
      A plug with an incoming connection refuses the write and nothing changes. */
  lemma ScalarIntoPlug(kinds: Kinds, members: seq<Member>, st: State, v: int, q: Plug,
                       allowGrow: bool, clearLarger: bool, fuel: nat)
    requires fuel > 0 && AttrDimensions(kinds(q)) == 1
    ensures var res := Connect(kinds, members, st, Scalar(v), Attr(q), allowGrow, clearLarger, fuel);
      (q !in st.inputs ==> res == (Ok(1), st.(values := st.values[q := Num(v)])) &&
                           q in res.1.values && res.1.values[q] == Num(v)) &&
      (q in st.inputs ==> res == (Err(RuntimeError), st))
  {
  }

  /** Subscripting an array plug with a slice always raises, so a destination array
      larger than the source, or a source array larger than the destination, cannot
      be reconciled: the call fails before anything is connected. */
  lemma ArrayPlugsCannotBeTruncated(kinds: Kinds, members: seq<Member>, st: State, src: Ref, dst: Ref,
                                    allowGrow: bool, clearLarger: bool, fuel: nat)
    requires fuel > 0 && IsAttribute(dst)
    requires !(Dimensions(kinds, src) == 1 && allowGrow)
    ensures dst.Attr? && kinds(dst.plug).ArrayPlug? && Dimensions(kinds, src) < Dimensions(kinds, dst) ==>
              Connect(kinds, members, st, src, dst, allowGrow, clearLarger, fuel) == (Err(TypeError), st)
    ensures src.Attr? && kinds(src.plug).ArrayPlug? && Dimensions(kinds, dst) < Dimensions(kinds, src) ==>
              Connect(kinds, members, st, src, dst, allowGrow, clearLarger, fuel) == (Err(TypeError), st)
  {
  }

  /** `clearLarger` never changes the graph: the call with it and the call without it
      leave the same connections and the same written values, and agree on success. */
  lemma ClearLargerNeverWrites(kinds: Kinds, members: seq<Member>, st: State, src: Ref, dst: Ref,
                               allowGrow: bool, fuel: nat)
    ensures var withClear := Connect(kinds, members, st, src, dst, allowGrow, true, fuel);
            var without := Connect(kinds, members, st, src, dst, allowGrow, false, fuel);
      withClear.1.inputs == without.1.inputs && withClear.1.values == without.1.values &&
      (withClear.0.Ok? ==> withClear.0 == without.0)
  {
    if fuel > 0 && IsAttribute(dst) && Dimensions(kinds, src) < Dimensions(kinds, dst) &&
       !(Dimensions(kinds, src) == 1 && allowGrow) {
      ClearOnlyInTruncation(kinds, members, st, src, dst, allowGrow, fuel);
    } else {
      ClearUnused(kinds, members, st, src, dst, allowGrow, fuel);
    }
  }

  lemma ClearOnlyInTruncation(kinds: Kinds, members: seq<Member>, st: State, src: Ref, dst: Ref,
                              allowGrow: bool, fuel: nat)
    requires fuel > 0 && IsAttribute(dst) && Dimensions(kinds, src) < Dimensions(kinds, dst)
    requires !(Dimensions(kinds, src) == 1 && allowGrow)
    ensures var withClear := Connect(kinds, members, st, src, dst, allowGrow, true, fuel);
            var without := Connect(kinds, members, st, src, dst, allowGrow, false, fuel);
      withClear.1.inputs == without.1.inputs && withClear.1.values == without.1.values &&
      (withClear.0.Ok? ==> withClear.0 == without.0)
  {
    ConnectIntoLarger(kinds, members, st, src, dst, allowGrow, true, fuel);
    ConnectIntoLarger(kinds, members, st, src, dst, allowGrow, false, fuel);
    ClearStepNeverWrites(kinds, members, st, src, dst, Dimensions(kinds, src), fuel - 1);
  }

  /** Into a larger destination, without growing, `connect` truncates the destination. */
  lemma ConnectIntoLarger(kinds: Kinds, members: seq<Member>, st: State, src: Ref, dst: Ref,
                          allowGrow: bool, clearLarger: bool, fuel: nat)
    requires fuel > 0 && IsAttribute(dst) && Dimensions(kinds, src) < Dimensions(kinds, dst)
    requires !(Dimensions(kinds, src) == 1 && allowGrow)
    ensures Connect(kinds, members, st, src, dst, allowGrow, clearLarger, fuel) ==
            TruncateDestination(kinds, members, st, src, dst, Dimensions(kinds, src), clearLarger, fuel - 1)
  {
  }

  /** Outside the truncate-destination branch the flag is not consulted at all. */
  lemma ClearUnused(kinds: Kinds, members: seq<Member>, st: State, src: Ref, dst: Ref, allowGrow: bool, fuel: nat)
    requires !(fuel > 0 && IsAttribute(dst) && Dimensions(kinds, src) < Dimensions(kinds, dst) &&
               !(Dimensions(kinds, src) == 1 && allowGrow))
    ensures Connect(kinds, members, st, src, dst, allowGrow, true, fuel) ==
            Connect(kinds, members, st, src, dst, allowGrow, false, fuel)
  {
  }

  lemma ClearStepNeverWrites(kinds: Kinds, members: seq<Member>, st: State, src: Ref, dst: Ref, dim: nat, fuel: nat)
    ensures var withClear := TruncateDestination(kinds, members, st, src, dst, dim, true, fuel);
            var without := TruncateDestination(kinds, members, st, src, dst, dim, false, fuel);
      withClear.1.inputs == without.1.inputs && withClear.1.values == without.1.values &&
      (withClear.0.Ok? ==> withClear.0 == without.0)
  {
  }

  /** Under a registry that keeps `r`, wrapping `r` succeeds with `r` itself, and a
      filled cache stays as it is. */
  lemma WrapKeeps(members: seq<Member>, cache: seq<DataType>, r: Ref)
    requires |cache| != 0 && Keeps(cache, r)
    ensures WrapSpec(members, cache, r) == (Ok((FirstValid(cache, r).value, r)), cache)
  {
  }

  /** `q[i]` of a compound or array plug, under a registry that keeps that part, is a
      new wrapper of the part itself, and the cache stays as it is. */
  lemma PartItem(kinds: Kinds, members: seq<Member>, cache: seq<DataType>, q: Plug, i: nat)
    requires |cache| != 0 && i < |Parts(kinds(q))| && Keeps(cache, Attr(Parts(kinds(q))[i]))
    ensures var x := Parts(kinds(q))[i];
            WrapItem(kinds, members, cache, Attr(q), Index(i)) == (Ok((Some(FirstValid(cache, Attr(x)).value), Attr(x))), cache)
  {
    var x := Parts(kinds(q))[i];
    assert ItemData(kinds, Attr(q), Index(i)) == Ok(Attr(x));
    WrapKeeps(members, cache, Attr(x));
  }

  /** Every part of `q` can be fed by `p`. */
  ghost predicate CanFeedAll(kinds: Kinds, st: State, q: Plug, p: Plug) {
    forall j :: 0 <= j < |Parts(kinds(q))| ==> CanFeed(kinds, st, Parts(kinds(q))[j], p)
  }

  /** Part `x` can be fed by the one-dimensional plug `p`: it is one-dimensional too,
      the registry wraps it as itself, and no other plug feeds it. */
  ghost predicate CanFeed(kinds: Kinds, st: State, x: Plug, p: Plug) {
    kinds(x).Leaf? && Keeps(st.cache, Attr(x)) && (x !in st.inputs || st.inputs[x] == p)
  }

  lemma {:induction false} BroadcastFeedsParts(kinds: Kinds, members: seq<Member>, st: State, p: Plug, q: Plug,
                                               i: nat, fuel: nat)
    requires |st.cache| != 0 && kinds(p).Leaf? && fuel >= 1
    requires i <= |Parts(kinds(q))|
    requires forall j :: i <= j < |Parts(kinds(q))| ==> CanFeed(kinds, st, Parts(kinds(q))[j], p)
    ensures Broadcast(kinds, members, st, Attr(p), Attr(q), i, |Parts(kinds(q))|, fuel) ==
            (Done, st.(inputs := Fed(st.inputs, Parts(kinds(q))[i..], p)))
    decreases |Parts(kinds(q))| - i
  {
    var ps := Parts(kinds(q));
    if i < |ps| {
      var st1 := st.(inputs := st.inputs[ps[i] := p]);
      BroadcastStep(kinds, members, st, p, q, i, fuel);
      BroadcastFeedsParts(kinds, members, st1, p, q, i + 1, fuel);
      assert ps[i..][1..] == ps[i + 1..];
    }
  }

  lemma BroadcastStep(kinds: Kinds, members: seq<Member>, st: State, p: Plug, q: Plug, i: nat, fuel: nat)
    requires |st.cache| != 0 && kinds(p).Leaf? && fuel >= 1
    requires i < |Parts(kinds(q))| && CanFeed(kinds, st, Parts(kinds(q))[i], p)
    ensures Broadcast(kinds, members, st, Attr(p), Attr(q), i, |Parts(kinds(q))|, fuel) ==
            Broadcast(kinds, members, st.(inputs := st.inputs[Parts(kinds(q))[i] := p]), Attr(p), Attr(q), i + 1,
                      |Parts(kinds(q))|, fuel)
  {
    var x := Parts(kinds(q))[i];
    PartItem(kinds, members, st.cache, q, i);
    PlugIntoPlug(kinds, members, st, p, x, false, true, fuel);
  }

  /** Grow law: a one-dimensional plug connected with `allowGrow` into a compound or
      array plug of another dimension feeds every one of its parts and reports the
      destination's dimension. */
  lemma GrowLaw(kinds: Kinds, members: seq<Member>, st: State, p: Plug, q: Plug, clearLarger: bool, fuel: nat)
    requires |st.cache| != 0 && kinds(p).Leaf? && fuel >= 2
    requires !kinds(q).Leaf? && |Parts(kinds(q))| != 1
    requires CanFeedAll(kinds, st, q, p)
    ensures Connect(kinds, members, st, Attr(p), Attr(q), true, clearLarger, fuel) ==
            (Ok(|Parts(kinds(q))| as nat), st.(inputs := Fed(st.inputs, Parts(kinds(q)), p)))
  {
    BroadcastFeedsAll(kinds, members, st, p, q, fuel - 1);
    GrowPlug(kinds, members, st, p, q, clearLarger, fuel, st.(inputs := Fed(st.inputs, Parts(kinds(q)), p)));
  }

  /** A leaf plug grown into a compound or array plug of another dimension answers the
      number of parts once the grow loop gets through them all. */
  lemma GrowPlug(kinds: Kinds, members: seq<Member>, st: State, p: Plug, q: Plug, clearLarger: bool, fuel: nat,
                 st1: State)
    requires fuel >= 1 && kinds(p).Leaf? && !kinds(q).Leaf? && |Parts(kinds(q))| != 1
    requires Broadcast(kinds, members, st, Attr(p), Attr(q), 0, |Parts(kinds(q))|, fuel - 1) == (Done, st1)
    ensures Connect(kinds, members, st, Attr(p), Attr(q), true, clearLarger, fuel) == (Ok(|Parts(kinds(q))| as nat), st1)
  {
    PartsCount(kinds, q);
    LeafCount(kinds, p);
    GrowDone(kinds, members, st, Attr(p), Attr(q), clearLarger, fuel, |Parts(kinds(q))|, st1);
  }

  /** A grow loop that gets through every part makes `connect` answer the destination's
      dimension, with the state the loop left. */
  lemma GrowDone(kinds: Kinds, members: seq<Member>, st: State, src: Ref, dst: Ref, clearLarger: bool, fuel: nat,
                 n: nat, st1: State)
    requires fuel > 0 && IsAttribute(dst) && Dimensions(kinds, src) == 1 != n == Dimensions(kinds, dst)
    requires Broadcast(kinds, members, st, src, dst, 0, n, fuel - 1) == (Done, st1)
    ensures Connect(kinds, members, st, src, dst, true, clearLarger, fuel) == (Ok(n), st1)
  {
    GrowIsBroadcast(kinds, members, st, src, dst, clearLarger, fuel);
  }

  /** A leaf plug is one-dimensional. */
  lemma LeafCount(kinds: Kinds, p: Plug)
    requires kinds(p).Leaf?
    ensures Dimensions(kinds, Attr(p)) == 1
  {
    DimensionsByKind(kinds, Attr(p));
  }

  /** A compound or array plug has one dimension per part. */
  lemma PartsCount(kinds: Kinds, q: Plug)
    requires !kinds(q).Leaf?
    ensures Dimensions(kinds, Attr(q)) == |Parts(kinds(q))|
  {
    DimensionsByKind(kinds, Attr(q));
  }

  /** Broadcasting a plug over all the parts of `q` feeds each of them. */
  lemma BroadcastFeedsAll(kinds: Kinds, members: seq<Member>, st: State, p: Plug, q: Plug, fuel: nat)
    requires |st.cache| != 0 && kinds(p).Leaf? && fuel >= 1
    requires CanFeedAll(kinds, st, q, p)
    ensures Broadcast(kinds, members, st, Attr(p), Attr(q), 0, |Parts(kinds(q))|, fuel) ==
            (Done, st.(inputs := Fed(st.inputs, Parts(kinds(q)), p)))
  {
    BroadcastFeedsParts(kinds, members, st, p, q, 0, fuel);
    assert Parts(kinds(q))[0..] == Parts(kinds(q));
  }

  lemma {:induction false} BroadcastWritesParts(kinds: Kinds, members: seq<Member>, st: State, v: int, q: Plug,
                                                i: nat, fuel: nat)
    requires |st.cache| != 0 && i <= |Parts(kinds(q))|
    requires forall j :: i <= j < |Parts(kinds(q))| ==> CanTake(kinds, st, Parts(kinds(q))[j], Scalar(v), fuel)
    ensures Broadcast(kinds, members, st, Scalar(v), Attr(q), i, |Parts(kinds(q))|, fuel) ==
            (Done, st.(values := Fed(st.values, Parts(kinds(q))[i..], Num(v))))
    decreases |Parts(kinds(q))| - i
  {
    var ps := Parts(kinds(q));
    if i < |ps| {
      var st1 := st.(values := st.values[ps[i] := Num(v)]);
      BroadcastWriteStep(kinds, members, st, v, q, i, fuel);
      BroadcastWritesParts(kinds, members, st1, v, q, i + 1, fuel);
      assert ps[i..][1..] == ps[i + 1..];
    }
  }

  lemma BroadcastWriteStep(kinds: Kinds, members: seq<Member>, st: State, v: int, q: Plug, i: nat, fuel: nat)
    requires |st.cache| != 0 && i < |Parts(kinds(q))| && CanTake(kinds, st, Parts(kinds(q))[i], Scalar(v), fuel)
    ensures Broadcast(kinds, members, st, Scalar(v), Attr(q), i, |Parts(kinds(q))|, fuel) ==
            Broadcast(kinds, members, st.(values := st.values[Parts(kinds(q))[i] := Num(v)]), Scalar(v), Attr(q),
                      i + 1, |Parts(kinds(q))|, fuel)
  {
    var x := Parts(kinds(q))[i];
    PartItem(kinds, members, st.cache, q, i);
    ScalarIntoPlug(kinds, members, st, v, x, false, true, fuel);
  }

  /** Grow law for a number: a number connected with `allowGrow` into a compound or
      array plug of another dimension is written into every part, nothing gets
      connected, and the call reports the destination's dimension. */
  lemma ScalarGrowLaw(kinds: Kinds, members: seq<Member>, st: State, v: int, q: Plug, clearLarger: bool, fuel: nat)
    requires |st.cache| != 0 && fuel >= 2
    requires !kinds(q).Leaf? && |Parts(kinds(q))| != 1
    requires forall j {:trigger CanTake(kinds, st, Parts(kinds(q))[j], Scalar(v), fuel - 1)} ::
              0 <= j < |Parts(kinds(q))| ==> CanTake(kinds, st, Parts(kinds(q))[j], Scalar(v), fuel - 1)
    ensures Connect(kinds, members, st, Scalar(v), Attr(q), true, clearLarger, fuel) ==
            (Ok(|Parts(kinds(q))| as nat), st.(values := Fed(st.values, Parts(kinds(q)), Num(v))))
  {
    PartsCount(kinds, q);
    GrowIsBroadcast(kinds, members, st, Scalar(v), Attr(q), clearLarger, fuel);
    BroadcastWritesParts(kinds, members, st, v, q, 0, fuel - 1);
    assert Parts(kinds(q))[0..] == Parts(kinds(q));
  }

  ghost predicate Distinct(ps: seq<Plug>) {
    forall j, k :: 0 <= j < k < |ps| ==> ps[j] != ps[k]
  }

  lemma {:induction false} ElementwiseWiresParts(kinds: Kinds, members: seq<Member>, st: State, es: seq<Ref>,
                                                 q: Plug, i: nat, fuel: nat)
    requires |st.cache| != 0 && |es| == |Parts(kinds(q))| && i <= |es|
    requires Distinct(Parts(kinds(q)))
    requires forall j :: i <= j < |es| ==> CanTake(kinds, st, Parts(kinds(q))[j], es[j], fuel)
    ensures var (o, st1) := Elementwise(kinds, members, st, es, Attr(q), i, fuel);
      o == Done && st1.cache == st.cache &&
      (forall j :: i <= j < |es| ==> Took(st1, Parts(kinds(q))[j], es[j])) &&
      (forall x :: x !in Parts(kinds(q))[i..] ==> Untouched(st, st1, x))
    decreases |es| - i
  {
    var ps := Parts(kinds(q));
    if i < |es| {
      var st1 := Take(st, ps[i], es[i]);
      ElementwiseStep(kinds, members, st, es, q, i, fuel);
      TakeOne(kinds, st, ps, es, i, fuel);
      ElementwiseWiresParts(kinds, members, st1, es, q, i + 1, fuel);
      TookCompose(st, st1, Elementwise(kinds, members, st1, es, Attr(q), i + 1, fuel).1, ps, es, i);
    }
  }

  /** Taking one element changes only that part, leaves the cache alone, and leaves
      the later parts able to take theirs. */
  lemma TakeOne(kinds: Kinds, st: State, ps: seq<Plug>, es: seq<Ref>, i: nat, fuel: nat)
    requires i < |ps| == |es| && Distinct(ps)
    requires forall j :: i <= j < |es| ==> CanTake(kinds, st, ps[j], es[j], fuel)
    ensures var st1 := Take(st, ps[i], es[i]);
      st1.cache == st.cache && Took(st1, ps[i], es[i]) &&
      (forall x :: x != ps[i] ==> Untouched(st, st1, x)) &&
      (forall j :: i + 1 <= j < |es| ==> CanTake(kinds, st1, ps[j], es[j], fuel))
  {
    assert CanTake(kinds, st, ps[i], es[i], fuel);
  }

  /** Part `i` taken first and the later parts taken after it add up to all the parts
      from `i` on taken, with every plug outside them untouched. */
  lemma TookCompose(st: State, st1: State, st2: State, ps: seq<Plug>, es: seq<Ref>, i: nat)
    requires i < |ps| <= |es| && Distinct(ps)
    requires Took(st1, ps[i], es[i]) && forall x :: x != ps[i] ==> Untouched(st, st1, x)
    requires forall j :: i + 1 <= j < |ps| ==> Took(st2, ps[j], es[j])
    requires forall x :: x !in ps[i + 1..] ==> Untouched(st1, st2, x)
    ensures forall j :: i <= j < |ps| ==> Took(st2, ps[j], es[j])
    ensures forall x :: x !in ps[i..] ==> Untouched(st, st2, x)
  {
    SuffixMembers(ps, i);
    assert ps[i] !in ps[i + 1..];
    assert Untouched(st1, st2, ps[i]);
    forall x | x !in ps[i..]
      ensures Untouched(st, st2, x)
    {
      assert Untouched(st, st1, x) && Untouched(st1, st2, x);
    }
  }

  /** A plug is in the suffix from `i` exactly when it is element `i` or in the suffix
      from `i + 1`. */
  lemma SuffixMembers(ps: seq<Plug>, i: nat)
    requires i < |ps|
    ensures forall y :: y in ps[i..] <==> y == ps[i] || y in ps[i + 1..]
  {
    assert ps[i..] == [ps[i]] + ps[i + 1..];
  }

  lemma ElementwiseStep(kinds: Kinds, members: seq<Member>, st: State, es: seq<Ref>, q: Plug, i: nat, fuel: nat)
    requires |st.cache| != 0 && |es| == |Parts(kinds(q))| && i < |es|
    requires CanTake(kinds, st, Parts(kinds(q))[i], es[i], fuel)
    ensures Elementwise(kinds, members, st, es, Attr(q), i, fuel) ==
            Elementwise(kinds, members, Take(st, Parts(kinds(q))[i], es[i]), es, Attr(q), i + 1, fuel)
  {
    var x := Parts(kinds(q))[i];
    PartItem(kinds, members, st.cache, q, i);
    if es[i].Scalar? {
      WrapKeeps(members, st.cache, Attr(x));
      ScalarIntoPlug(kinds, members, st, es[i].n, x, false, true, fuel);
    }
  }

  /** Equal-length law: a tuple connected into a compound or array plug with as many
      parts hands element `j` to part `j` (a plug element feeds it, a number is
      written into it), reports the common dimension, and touches nothing else. */
  lemma TupleLaw(kinds: Kinds, members: seq<Member>, st: State, es: seq<Ref>, q: Plug,
                 allowGrow: bool, clearLarger: bool, fuel: nat)
    requires |st.cache| != 0 && fuel >= 1
    requires !kinds(q).Leaf? && |es| == |Parts(kinds(q))|
    requires Distinct(Parts(kinds(q)))
    requires forall j :: 0 <= j < |es| ==> CanTake(kinds, st, Parts(kinds(q))[j], es[j], fuel - 1)
    ensures var (r, st1) := Connect(kinds, members, st, Tup(es), Attr(q), allowGrow, clearLarger, fuel);
      r == Ok(|es|) && st1.cache == st.cache && TookInOrder(st, st1, Parts(kinds(q)), es)
  {
    EqualTupleIsElementwise(kinds, members, st, es, q, allowGrow, clearLarger, fuel);
    assert es[..|es|] == es;
    HeadWiresParts(kinds, members, st, es, q, fuel - 1);
  }

  /** Truncation law: a tuple connected into a compound or array plug with fewer parts
      is cut to the destination's length; part `j` of the destination takes element
      `j` of the source (a plug element feeds it, a number is written into it), the
      call reports the destination's dimension, and nothing else changes, so the
      source's surplus elements feed and write nothing. */
  lemma TruncationLaw(kinds: Kinds, members: seq<Member>, st: State, es: seq<Ref>, q: Plug,
                      allowGrow: bool, clearLarger: bool, fuel: nat)
    requires |st.cache| != 0 && fuel >= 2
    requires 1 <= |Parts(kinds(q))| < |es|
    requires Keeps(st.cache, Tup(es[..|Parts(kinds(q))|]))
    requires Distinct(Parts(kinds(q)))
    requires forall j :: 0 <= j < |Parts(kinds(q))| ==> CanTake(kinds, st, Parts(kinds(q))[j], es[j], fuel - 2)
    ensures var (r, st1) := Connect(kinds, members, st, Tup(es), Attr(q), allowGrow, clearLarger, fuel);
      r == Ok(|Parts(kinds(q))|) && st1.cache == st.cache && TookInOrder(st, st1, Parts(kinds(q)), es)
  {
    TruncatedTupleIsElementwise(kinds, members, st, es, q, allowGrow, clearLarger, fuel);
    HeadWiresParts(kinds, members, st, es, q, fuel - 2);
  }

  /** The first `dimensions` elements of a tuple, handed over element by element, go
      to the destination's parts in order and touch nothing else. */
  lemma HeadWiresParts(kinds: Kinds, members: seq<Member>, st: State, es: seq<Ref>, q: Plug, fuel: nat)
    requires |st.cache| != 0 && |Parts(kinds(q))| <= |es|
    requires Distinct(Parts(kinds(q)))
    requires forall j :: 0 <= j < |Parts(kinds(q))| ==> CanTake(kinds, st, Parts(kinds(q))[j], es[j], fuel)
    ensures var (o, st1) := Elementwise(kinds, members, st, es[..|Parts(kinds(q))|], Attr(q), 0, fuel);
      o == Done && st1.cache == st.cache && TookInOrder(st, st1, Parts(kinds(q)), es)
  {
    var ps := Parts(kinds(q));
    ElementwiseWiresParts(kinds, members, st, es[..|ps|], q, 0, fuel);
    assert ps[0..] == ps;
  }

  lemma TruncatedTupleIsElementwise(kinds: Kinds, members: seq<Member>, st: State, es: seq<Ref>, q: Plug,
                                    allowGrow: bool, clearLarger: bool, fuel: nat)
    requires |st.cache| != 0 && fuel >= 2
    requires 1 <= |Parts(kinds(q))| < |es| && Keeps(st.cache, Tup(es[..|Parts(kinds(q))|]))
    ensures var m := |Parts(kinds(q))|;
            var e := Elementwise(kinds, members, st, es[..m], Attr(q), 0, fuel - 2);
            Connect(kinds, members, st, Tup(es), Attr(q), allowGrow, clearLarger, fuel) ==
            (if e.0.Done? then Ok(m as nat) else Err(e.0.error), e.1)
  {
    var m := |Parts(kinds(q))|;
    TupleIntoSmallerPlug(kinds, members, st, es, q, allowGrow, clearLarger, fuel);
    EqualTupleIsElementwise(kinds, members, st, es[..m], q, false, true, fuel - 1);
  }

  /** A tuple longer than its destination is connected by connecting its first
      `dimensions` elements; the answer is the destination's dimension. */
  lemma TupleIntoSmallerPlug(kinds: Kinds, members: seq<Member>, st: State, es: seq<Ref>, q: Plug,
                             allowGrow: bool, clearLarger: bool, fuel: nat)
    requires |st.cache| != 0 && fuel >= 1
    requires 1 <= |Parts(kinds(q))| < |es| && Keeps(st.cache, Tup(es[..|Parts(kinds(q))|]))
    ensures var m := |Parts(kinds(q))|;
            var inner := Connect(kinds, members, st, Tup(es[..m]), Attr(q), false, true, fuel - 1);
            Connect(kinds, members, st, Tup(es), Attr(q), allowGrow, clearLarger, fuel) ==
            (if inner.0.Ok? then Ok(m as nat) else inner.0, inner.1)
  {
    var m := |Parts(kinds(q))|;
    PySlicePrefix(es, m);
    assert ItemData(kinds, Tup(es), Slice(None, Some(m))) == Ok(Tup(es[..m]));
    WrapKeeps(members, st.cache, Tup(es[..m]));
    assert Connect(kinds, members, st, Tup(es), Attr(q), allowGrow, clearLarger, fuel) ==
           TruncateSource(kinds, members, st, Tup(es), Attr(q), m, fuel - 1);
  }

  /** A tuple as long as its destination is connected element by element, whatever
      the flags. */
  lemma EqualTupleIsElementwise(kinds: Kinds, members: seq<Member>, st: State, es: seq<Ref>, q: Plug,
                                allowGrow: bool, clearLarger: bool, fuel: nat)
    requires fuel >= 1 && !kinds(q).Leaf? && |es| == |Parts(kinds(q))|
    ensures var (o, st1) := Elementwise(kinds, members, st, es, Attr(q), 0, fuel - 1);
            Connect(kinds, members, st, Tup(es), Attr(q), allowGrow, clearLarger, fuel) ==
            (if o.Done? then Ok(|es| as nat) else Err(o.error), st1)
  {
  }

  /** Clear-remainder as written: a number connected without growing into a compound
      plug of two or more children is written into the first child only; with
      `clearLarger` the call then builds a wrapper over the children from index 2 on
      and resets that wrapper alone, so children 1 and up are never written and no
      connection changes. A first child with an incoming connection refuses the
      write, and the call fails with nothing changed. */
  lemma ScalarIntoLargerCompound(kinds: Kinds, members: seq<Member>, st: State, v: int, q: Plug,
                                 clearLarger: bool, fuel: nat)
    requires |st.cache| != 0 && fuel >= 2
    requires kinds(q).Compound? && |kinds(q).children| >= 2
    requires Keeps(st.cache, Tup([Attr(kinds(q).children[0])])) && Keeps(st.cache, Attr(kinds(q).children[0]))
    ensures var (r, st1) := Connect(kinds, members, st, Scalar(v), Attr(q), false, clearLarger, fuel);
      var first := kinds(q).children[0];
      (first !in st.inputs ==>
         st1.inputs == st.inputs && st1.values == st.values[first := Num(v)] &&
         (r.Ok? ==> r.value == 1) && (!clearLarger ==> r == Ok(1))) &&
      (first in st.inputs ==> r == Err(RuntimeError) && st1 == st)
  {
    var ch := kinds(q).children;
    HeadOfCompound(kinds, members, st.cache, q);
    ScalarIntoOneTuple(kinds, members, st, v, ch[0], fuel - 1);
    assert Connect(kinds, members, st, Scalar(v), Attr(q), false, clearLarger, fuel) ==
           TruncateDestination(kinds, members, st, Scalar(v), Attr(q), 1, clearLarger, fuel - 1);
    if ch[0] !in st.inputs {
      var st1 := st.(values := st.values[ch[0] := Num(v)]);
      var (o, c2) := ClearRest(kinds, members, st1.cache, Attr(q), 1);
      assert c2 == st.cache;
    }
  }

  /** `dst[:1]` of a compound plug wraps, under a registry that keeps that slice, to a
      one-element tuple holding the first child. */
  lemma HeadOfCompound(kinds: Kinds, members: seq<Member>, cache: seq<DataType>, q: Plug)
    requires |cache| != 0 && kinds(q).Compound? && |kinds(q).children| >= 1
    requires Keeps(cache, Tup([Attr(kinds(q).children[0])]))
    ensures var w := WrapItem(kinds, members, cache, Attr(q), Slice(None, Some(1)));
            w.0.Ok? && w.0.value.1 == Tup([Attr(kinds(q).children[0])]) && w.1 == cache
  {
    var ch := kinds(q).children;
    PySlicePrefix(ch, 1);
    assert ch[..1] == [ch[0]];
    assert AttrsOf([ch[0]]) == [Attr(ch[0])];
    assert ItemData(kinds, Attr(q), Slice(None, Some(1))) == Ok(Tup([Attr(ch[0])]));
    WrapKeeps(members, cache, Tup([Attr(ch[0])]));
  }

  /** A number connected into a one-element tuple of a plug is written into that plug,
      unless that plug has an incoming connection, which refuses the write. */
  lemma ScalarIntoOneTuple(kinds: Kinds, members: seq<Member>, st: State, v: int, x: Plug, fuel: nat)
    requires |st.cache| != 0 && Keeps(st.cache, Attr(x)) && fuel >= 1
    ensures var res := Connect(kinds, members, st, Scalar(v), Tup([Attr(x)]), false, true, fuel);
      (x !in st.inputs ==> res == (Ok(1), st.(values := st.values[x := Num(v)]))) &&
      (x in st.inputs ==> res == (Err(RuntimeError), st))
  {
    assert ItemData(kinds, Tup([Attr(x)]), Index(0)) == Ok(Attr(x));
    WrapKeeps(members, st.cache, Attr(x));
  }

  /** A single plug connected without growing into a larger compound plug fails: the
      destination is cut to a one-element tuple, and a plug connected to a tuple is
      taken to raise a type error. */
  lemma PlugIntoLargerCompoundFails(kinds: Kinds, members: seq<Member>, st: State, p: Plug, q: Plug,
                                    clearLarger: bool, fuel: nat)
    requires |st.cache| != 0 && fuel >= 2 && kinds(p).Leaf?
    requires kinds(q).Compound? && |kinds(q).children| >= 2
    requires Keeps(st.cache, Tup([Attr(kinds(q).children[0])]))
    ensures Connect(kinds, members, st, Attr(p), Attr(q), false, clearLarger, fuel) == (Err(TypeError), st)
  {
    HeadOfCompound(kinds, members, st.cache, q);
    assert Connect(kinds, members, st, Attr(p), Attr(q), false, clearLarger, fuel) ==
           TruncateDestination(kinds, members, st, Attr(p), Attr(q), 1, clearLarger, fuel - 1);
    assert Connect(kinds, members, st, Attr(p), Tup([Attr(kinds(q).children[0])]), false, true, fuel - 1) ==
           (Err(TypeError), st);
  }
}
