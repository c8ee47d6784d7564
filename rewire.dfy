/** The connection-rewiring helpers of `nodex/utils.py`: moving the outgoing
    connections of one plug to another, moving the incoming connection of a plug,
    and inserting a pass-through between a plug and its readers. */
module Rewire {
  import opened Errors
  import opened Graph

  /** The connection table after every plug fed by `from` has been re-fed by `to`. */
  function Rerouted(inputs: map<Plug, Plug>, from: Plug, to: Plug): (r: map<Plug, Plug>)
    ensures r.Keys == inputs.Keys
    ensures from != to ==> forall q :: q in r ==> r[q] != from
  {
    map q | q in inputs :: if inputs[q] == from then to else inputs[q]
  }

  /** The table part-way through the rerouting: only the plugs in `done` are re-fed. */
  ghost function ReroutedSome(inputs: map<Plug, Plug>, to: Plug, done: set<Plug>): map<Plug, Plug>
  {
    map q | q in inputs :: if q in done then to else inputs[q]
  }

  /** After rerouting, `from` feeds nothing (unless it is `to` itself), every former
      reader of `from` is fed by `to`, and every other connection is as it was. */
  lemma ReroutedMovesOutputs(inputs: map<Plug, Plug>, from: Plug, to: Plug)
    ensures inputs.Keys == Rerouted(inputs, from, to).Keys
    ensures from != to ==> OutputsOf(Rerouted(inputs, from, to), from) == {}
    ensures OutputsOf(Rerouted(inputs, from, to), to) == OutputsOf(inputs, from) + OutputsOf(inputs, to)
    ensures forall q :: q in inputs && inputs[q] != from ==> Rerouted(inputs, from, to)[q] == inputs[q]
  {
    var r := Rerouted(inputs, from, to);
    assert forall q :: q in OutputsOf(r, to) <==> q in OutputsOf(inputs, from) + OutputsOf(inputs, to);
  }

  /** `attrReplaceOutputs`: every connection leaving `oldAttr` is broken and
      remade from `newAttr`, one reader at a time. */
  method AttrReplaceOutputs(g: Store, oldAttr: Plug, newAttr: Plug)
    modifies g`inputs
    ensures g.inputs == Rerouted(old(g.inputs), oldAttr, newAttr)
  {
    ghost var start := g.inputs;
    ghost var all := OutputsOf(start, oldAttr);
    var outs := g.Outputs(oldAttr);
    while outs != {}
      invariant outs <= all
      invariant g.inputs == ReroutedSome(start, newAttr, all - outs)
      decreases outs
    {
      var out :| out in outs;
      g.Disconnect(oldAttr, out);
      var o := g.Connect(newAttr, out, false);
      outs := outs - {out};
    }
    assert g.inputs == Rerouted(start, oldAttr, newAttr);
  }

  /** `attrPassThrough`: `oldAttr` is force-connected into `passInAttr`, then all of
      `oldAttr`'s outputs, listed only after that connection, move to `passOutAttr`. */
  method AttrPassThrough(g: Store, oldAttr: Plug, passInAttr: Plug, passOutAttr: Plug)
    modifies g`inputs
    ensures g.inputs == Rerouted(old(g.inputs)[passInAttr := oldAttr], oldAttr, passOutAttr)
  {
    var o := g.Connect(oldAttr, passInAttr, true);
    AttrReplaceOutputs(g, oldAttr, passOutAttr);
  }

  /** Because the outputs are listed after the forced connection, the pass-in plug is
      itself one of them: it ends up fed by the pass-out plug, not by `oldAttr`. */
  lemma PassThroughReroutesPassIn(inputs: map<Plug, Plug>, oldAttr: Plug, passInAttr: Plug, passOutAttr: Plug)
    ensures var r := Rerouted(inputs[passInAttr := oldAttr], oldAttr, passOutAttr);
            passInAttr in r && r[passInAttr] == passOutAttr &&
            (oldAttr != passOutAttr ==> OutputsOf(r, oldAttr) == {})
  {
    ReroutedMovesOutputs(inputs[passInAttr := oldAttr], oldAttr, passOutAttr);
  }

  /** What `attrReplaceInput` leaves behind: the incoming connection of `oldAttr`, if
      any, is broken, then its source is connected (unforced) into `newAttr`; a refused
      connection is reported without restoring the broken one. */
  function ReplacedInput(inputs: map<Plug, Plug>, oldAttr: Plug, newAttr: Plug): (res: (Outcome, map<Plug, Plug>))
    ensures oldAttr != newAttr ==> oldAttr !in res.1
    ensures res.0.Failed? ==> res.0.error == RuntimeError && oldAttr in inputs
  {
    if oldAttr !in inputs then (Done, inputs)
    else
      var src := inputs[oldAttr];
      var cut := DisconnectEdge(inputs, src, oldAttr);
      var joined := ConnectEdge(cut, src, newAttr, false);
      if joined.Ok? then (Done, joined.value) else (Failed(joined.error), cut)
  }

  /** `attrReplaceInput`: loops over the (at most one) incoming connection of `oldAttr`. */
  method AttrReplaceInput(g: Store, oldAttr: Plug, newAttr: Plug) returns (o: Outcome)
    modifies g`inputs
    ensures (o, g.inputs) == ReplacedInput(old(g.inputs), oldAttr, newAttr)
  {
    var sources := if oldAttr in g.inputs then [g.inputs[oldAttr]] else [];
    o := Done;
    for i := 0 to |sources|
      invariant i == 0 ==> g.inputs == old(g.inputs) && o == Done
      invariant i == 1 ==> (o, g.inputs) == ReplacedInput(old(g.inputs), oldAttr, newAttr)
    {
      g.Disconnect(sources[i], oldAttr);
      o := g.Connect(sources[i], newAttr, false);
    }
  }

  /** The input moves: when `newAttr` has no incoming connection of its own, the source
      that fed `oldAttr` now feeds `newAttr` and `oldAttr` is left unfed. When `newAttr`
      is already fed by another plug the host refuses and `oldAttr` is left unfed anyway. */
  lemma ReplaceInputMovesSource(inputs: map<Plug, Plug>, oldAttr: Plug, newAttr: Plug)
    requires oldAttr in inputs && oldAttr != newAttr
    ensures var (o, r) := ReplacedInput(inputs, oldAttr, newAttr);
            oldAttr !in r &&
            (newAttr !in inputs ==> o == Done && newAttr in r && r[newAttr] == inputs[oldAttr]) &&
            (newAttr in inputs && inputs[newAttr] != inputs[oldAttr] ==>
               o == Failed(RuntimeError) && r == inputs - {oldAttr})
  {
  }
}
