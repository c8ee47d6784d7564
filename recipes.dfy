/** The node recipes of `nodex/utils.py` (`plusMinusAverage`, `condition`,
    `multiplyDivide`) and the `Math` table of `nodex/core.py` that names them.
    A recipe is a plan: the node type and name to create, the steps taken on the new
    node's attributes in order, the attribute wrapped as the result and an optional
    onward connection of that result. `Execute` carries a plan out on the plug store,
    with the new node's attributes given by a naming function. */
module Recipes {
  import opened Errors
  import opened Graph
  import opened Refs
  import opened Registry
  import opened Reconcile
  import opened ReconcileSteps

  /** The attributes of the created nodes the recipes touch. `InputND(d, i)` is
      `input{d}D[{i}]` and `OutputND(d)` is `output{d}D` of a plusMinusAverage node. */
  datatype PlugName =
    | Operation
    | InputND(dim: nat, index: nat)
    | OutputND(dim: nat)
    | Input1 | Input2 | Output
    | FirstTerm | SecondTerm | ColorIfTrue | ColorIfFalse
    | OutColorR | OutColorG | OutColor

  /** `attr.set(v)` on an attribute of the node, or `Nodex(src).connect(attr)`. */
  datatype Step = Set(attr: PlugName, v: Val) | Wire(src: Ref, attr: PlugName)

  /** The attribute, or the pair of attributes, wrapped as the recipe's result. */
  datatype Target = Single(attr: PlugName) | Pair(first: PlugName, second: PlugName)

  datatype Plan = Plan(nodeType: string, name: string, steps: seq<Step>, result: Target, onward: Option<Ref>)

  /** A recipe either raises, after creating the node or not and after the steps it
      took, or yields its plan. */
  datatype Planned = Refused(error: Error, created: bool, done: seq<Step>) | Planned(plan: Plan)

  /** `max(x.dimensions() for x in rs)`. */
  function MaxDimensions(kinds: Kinds, rs: seq<Ref>): (m: nat)
    requires |rs| > 0
    ensures forall i :: 0 <= i < |rs| ==> Dimensions(kinds, rs[i]) <= m
    ensures exists i :: 0 <= i < |rs| && Dimensions(kinds, rs[i]) == m
  {
    if |rs| == 1 then Dimensions(kinds, rs[0])
    else
      var m := MaxDimensions(kinds, rs[1..]);
      assert forall i :: 1 <= i < |rs| ==> rs[i] == rs[1..][i - 1];
      var h := Dimensions(kinds, rs[0]);
      if h >= m then h else m
  }

  /** The terms that are not None, in order. */
  function Present(xs: seq<Option<Ref>>): (rs: seq<Ref>)
    ensures |rs| <= |xs|
    ensures forall r :: r in rs <==> Some(r) in xs
  {
    if |xs| == 0 then []
    else
      var rest := Present(xs[1..]);
      assert forall x :: x in xs <==> x == xs[0] || x in xs[1..];
      if xs[0].Some? then [xs[0].value] + rest else rest
  }

  /** No term is present exactly when every term is absent. */
  lemma {:induction false} PresentEmpty(xs: seq<Option<Ref>>)
    ensures Present(xs) == [] <==> forall j :: 0 <= j < |xs| ==> xs[j].None?
  {
    if |xs| > 0 {
      PresentEmpty(xs[1..]);
      assert forall j :: 0 < j < |xs| ==> xs[j] == xs[1..][j - 1];
    }
  }

  /** The working dimension: the one given, else the largest among `rs`. */
  function WorkingDimension(kinds: Kinds, rs: seq<Ref>, dimensions: Option<int>): int
    requires dimensions.Some? || |rs| > 0
  {
    if dimensions.Some? then dimensions.value else MaxDimensions(kinds, rs)
  }

  /** `Nodex(a).connect(attr)` for each present `a`, nothing for an absent one. */
  function WireIfPresent(a: Option<Ref>, attr: PlugName): seq<Step> {
    if a.Some? then [Wire(a.value, attr)] else []
  }

  /** `plusMinusAverage(*args, dimensions=, operation=, name=, output3D=)`. */
  function PlusMinusAverage(kinds: Kinds, args: seq<Ref>, dimensions: Option<int>, operation: int, name: string,
                            output3D: Option<Ref>): (p: Planned)
    ensures p.Refused? ==> !p.created && p.done == []
    ensures p.Planned? ==> |p.plan.steps| == |args| + 1
  {
    if dimensions.None? && |args| == 0 then Refused(ValueError, false, [])
    else
      var d := WorkingDimension(kinds, args, dimensions);
      if d > 3 then Refused(RuntimeError, false, [])
      else if d < 1 then Refused(KeyError, false, [])
      else
        var wires := seq(|args|, i requires 0 <= i < |args| => Wire(args[i], InputND(d, i)));
        Planned(Plan("plusMinusAverage", name, [Set(Operation, Num(operation))] + wires, Single(OutputND(d)), output3D))
  }

  /** The errors of `plusMinusAverage`, all raised before the node is created: an
      empty call without an explicit dimension is a `ValueError`; a dimension above 3,
      given or the largest among the arguments, is a `RuntimeError`; a dimension below
      1 has no output attribute (`KeyError`). */
  lemma PlusMinusAverageErrors(kinds: Kinds, args: seq<Ref>, dimensions: Option<int>, operation: int,
                               name: string, output3D: Option<Ref>)
    ensures var p := PlusMinusAverage(kinds, args, dimensions, operation, name, output3D);
      (dimensions.None? && |args| == 0 ==> p == Refused(ValueError, false, [])) &&
      (p.Refused? ==> !p.created && p.done == []) &&
      (dimensions.Some? && dimensions.value > 3 ==> p == Refused(RuntimeError, false, [])) &&
      (dimensions.Some? && dimensions.value < 1 ==> p == Refused(KeyError, false, [])) &&
      (dimensions.None? && (exists i :: 0 <= i < |args| && Dimensions(kinds, args[i]) > 3) ==>
         p == Refused(RuntimeError, false, []))
  {
    if dimensions.None? && |args| > 0 {
      var m := MaxDimensions(kinds, args);
      if exists i :: 0 <= i < |args| && Dimensions(kinds, args[i]) > 3 {
        assert m > 3;
      }
    }
  }

  /** The node `plusMinusAverage` builds. Without an explicit dimension it works in the
      largest dimension among its arguments. The operation code is set first, argument
      `i` is connected to `input{d}D[i]` in argument order, the result is `output{d}D`,
      and it is connected onward only to a given `output3D`. */
  lemma PlusMinusAveragePlan(kinds: Kinds, args: seq<Ref>, dimensions: Option<int>, operation: int,
                             name: string, output3D: Option<Ref>)
    ensures var p := PlusMinusAverage(kinds, args, dimensions, operation, name, output3D);
      p.Planned? ==>
        var d := p.plan.result.attr.dim;
        p.plan.result.Single? && p.plan.result.attr.OutputND? && 1 <= d <= 3 &&
        (dimensions.Some? ==> d == dimensions.value) &&
        (dimensions.None? ==> (forall i :: 0 <= i < |args| ==> Dimensions(kinds, args[i]) <= d) &&
                              (exists i :: 0 <= i < |args| && Dimensions(kinds, args[i]) == d)) &&
        p.plan.nodeType == "plusMinusAverage" && p.plan.name == name && p.plan.onward == output3D &&
        |p.plan.steps| == |args| + 1 && p.plan.steps[0] == Set(Operation, Num(operation)) &&
        (forall i :: 0 <= i < |args| ==> p.plan.steps[i + 1] == Wire(args[i], InputND(d, i)))
  {
    var p := PlusMinusAverage(kinds, args, dimensions, operation, name, output3D);
    if p.Planned? {
      var d := WorkingDimension(kinds, args, dimensions);
      assert p.plan.result == Single(OutputND(d));
      forall i | 0 <= i < |args| ensures p.plan.steps[i + 1] == Wire(args[i], InputND(d, i)) {
      }
    }
  }


  /** `condition(firstTerm, secondTerm, ifTrue, ifFalse, output, operation=, name=,
      dimensions=)`. The `output` argument is accepted and never used: the call
      rebinds it from the keyword arguments, which cannot hold it, so it is always
      None and the onward connection is never made. */
  function Condition(kinds: Kinds, firstTerm: Option<Ref>, secondTerm: Option<Ref>, ifTrue: Option<Ref>,
                     ifFalse: Option<Ref>, output: Option<Ref>, operation: int, name: string,
                     dimensions: Option<int>): (p: Planned)
    ensures p.Planned? ==> p.plan.onward.None? && |p.plan.steps| > 0 && p.plan.steps[0] == Set(Operation, Num(operation))
    ensures p.Refused? && p.created ==> p.error == KeyError
  {
    var terms := Present([firstTerm, secondTerm, ifTrue, ifFalse]);
    if dimensions.None? && |terms| == 0 then Refused(ValueError, false, [])
    else ConditionIn(WorkingDimension(kinds, terms, dimensions), firstTerm, secondTerm, ifTrue, ifFalse, operation, name)
  }

  /** `condition` once its working dimension `d` is known. */
  function ConditionIn(d: int, firstTerm: Option<Ref>, secondTerm: Option<Ref>, ifTrue: Option<Ref>,
                       ifFalse: Option<Ref>, operation: int, name: string): (p: Planned)
    ensures p.Planned? ==> p.plan.onward.None? && |p.plan.steps| > 0 && p.plan.steps[0] == Set(Operation, Num(operation))
  {
    if d > 3 then Refused(RuntimeError, false, [])
    else if d < 1 then Refused(KeyError, true, [Set(Operation, Num(operation))])
    else
      var target := if d == 1 then Single(OutColorR) else if d == 2 then Pair(OutColorR, OutColorG)
                    else Single(OutColor);
      Planned(Plan("condition", name, ConditionSteps(firstTerm, secondTerm, ifTrue, ifFalse, operation), target, None))
  }

  /** The steps of `condition` once the node exists. */
  function ConditionSteps(firstTerm: Option<Ref>, secondTerm: Option<Ref>, ifTrue: Option<Ref>,
                          ifFalse: Option<Ref>, operation: int): (s: seq<Step>)
    ensures 3 <= |s| <= 5 && s[0] == Set(Operation, Num(operation))
  {
    [Set(Operation, Num(operation))] + WireIfPresent(firstTerm, FirstTerm) + WireIfPresent(secondTerm, SecondTerm) +
    WireOrSet(ifTrue, ColorIfTrue, 1) + WireOrSet(ifFalse, ColorIfFalse, 0)
  }

  /** Connect a present term to `attr`, or set all three channels of `attr` to `c`. */
  function WireOrSet(a: Option<Ref>, attr: PlugName, c: int): seq<Step> {
    if a.Some? then [Wire(a.value, attr)] else [Set(attr, Many([Num(c), Num(c), Num(c)]))]
  }

  lemma WireIfPresentMember(a: Option<Ref>, attr: PlugName, s: Step)
    ensures s in WireIfPresent(a, attr) <==> a.Some? && s == Wire(a.value, attr)
  {
  }

  lemma WireOrSetMember(a: Option<Ref>, attr: PlugName, c: int, s: Step)
    ensures s in WireOrSet(a, attr, c) <==>
      (a.Some? && s == Wire(a.value, attr)) || (a.None? && s == Set(attr, Many([Num(c), Num(c), Num(c)])))
  {
  }

  /** The errors of `condition`: no term and no dimension is a `ValueError`; a
      dimension above 3 is a `RuntimeError` raised before the node exists; one below
      1 has no output attribute, a `KeyError` raised after the node is created and
      its operation set. */
  lemma ConditionErrors(kinds: Kinds, firstTerm: Option<Ref>, secondTerm: Option<Ref>, ifTrue: Option<Ref>,
                        ifFalse: Option<Ref>, output: Option<Ref>, operation: int, name: string,
                        dimensions: Option<int>)
    ensures var p := Condition(kinds, firstTerm, secondTerm, ifTrue, ifFalse, output, operation, name, dimensions);
      (dimensions.None? && firstTerm.None? && secondTerm.None? && ifTrue.None? && ifFalse.None? ==>
         p == Refused(ValueError, false, [])) &&
      (dimensions.Some? && dimensions.value > 3 ==> p == Refused(RuntimeError, false, [])) &&
      (dimensions.Some? && dimensions.value < 1 ==> p == Refused(KeyError, true, [Set(Operation, Num(operation))])) &&
      (p.Refused? && p.created ==> p.error == KeyError && p.done == [Set(Operation, Num(operation))])
  {
    var all := [firstTerm, secondTerm, ifTrue, ifFalse];
    if firstTerm.None? && secondTerm.None? && ifTrue.None? && ifFalse.None? {
      PresentEmpty(all);
    }
  }

  /** The dimension of `condition` without an explicit one is the largest among the
      terms present: the result is `outColorR` exactly when every present term is at
      most one-dimensional, and `outColor` exactly when some present term is
      three-dimensional and none is larger; two dimensions give the pair
      `[outColorR, outColorG]`. */
  lemma ConditionDimension(kinds: Kinds, firstTerm: Option<Ref>, secondTerm: Option<Ref>, ifTrue: Option<Ref>,
                           ifFalse: Option<Ref>, output: Option<Ref>, operation: int, name: string)
    ensures var p := Condition(kinds, firstTerm, secondTerm, ifTrue, ifFalse, output, operation, name, None);
      var all := [firstTerm, secondTerm, ifTrue, ifFalse];
      (p.Planned? ==>
         (p.plan.result == Single(OutColorR) <==>
            forall j :: 0 <= j < 4 && all[j].Some? ==> Dimensions(kinds, all[j].value) <= 1) &&
         (p.plan.result == Pair(OutColorR, OutColorG) <==>
            (exists j :: 0 <= j < 4 && all[j].Some? && Dimensions(kinds, all[j].value) == 2) &&
            forall j :: 0 <= j < 4 && all[j].Some? ==> Dimensions(kinds, all[j].value) <= 2) &&
         (p.plan.result == Single(OutColor) <==>
            exists j :: 0 <= j < 4 && all[j].Some? && Dimensions(kinds, all[j].value) == 3)) &&
      ((exists j :: 0 <= j < 4 && all[j].Some? && Dimensions(kinds, all[j].value) > 3) ==>
         p == Refused(RuntimeError, false, []))
  {
    var all := [firstTerm, secondTerm, ifTrue, ifFalse];
    var terms := Present(all);
    if |terms| > 0 {
      var m := MaxDimensions(kinds, terms);
      MaxOfPresent(kinds, all);
      var p := Condition(kinds, firstTerm, secondTerm, ifTrue, ifFalse, output, operation, name, None);
      assert p == ConditionIn(m, firstTerm, secondTerm, ifTrue, ifFalse, operation, name);
      ConditionTarget(m, firstTerm, secondTerm, ifTrue, ifFalse, operation, name);
      var k :| 0 <= k < 4 && all[k].Some? && Dimensions(kinds, all[k].value) == m;
      assert (forall j :: 0 <= j < 4 && all[j].Some? ==> Dimensions(kinds, all[j].value) <= 1) <==> m <= 1;
      assert (forall j :: 0 <= j < 4 && all[j].Some? ==> Dimensions(kinds, all[j].value) <= 2) <==> m <= 2;
      if m <= 2 {
        assert (exists j :: 0 <= j < 4 && all[j].Some? && Dimensions(kinds, all[j].value) == 2) <==> m == 2;
      }
      assert (exists j :: 0 <= j < 4 && all[j].Some? && Dimensions(kinds, all[j].value) > 3) <==> m > 3;
      if m <= 3 {
        assert (exists j :: 0 <= j < 4 && all[j].Some? && Dimensions(kinds, all[j].value) == 3) <==> m == 3;
      }
    } else {
      PresentEmpty(all);
    }
  }

  /** The output of `condition` for a working dimension `d`. */
  lemma ConditionTarget(d: int, firstTerm: Option<Ref>, secondTerm: Option<Ref>, ifTrue: Option<Ref>,
                        ifFalse: Option<Ref>, operation: int, name: string)
    ensures var p := ConditionIn(d, firstTerm, secondTerm, ifTrue, ifFalse, operation, name);
      (p.Planned? <==> 1 <= d <= 3) &&
      (p.Planned? ==> (p.plan.result == Single(OutColorR) <==> d == 1) &&
                      (p.plan.result == Pair(OutColorR, OutColorG) <==> d == 2) &&
                      (p.plan.result == Single(OutColor) <==> d == 3)) &&
      (d > 3 ==> p == Refused(RuntimeError, false, []))
  {
  }

  /** The largest dimension among the present terms bounds every present term and is
      reached by one of them. */
  lemma MaxOfPresent(kinds: Kinds, all: seq<Option<Ref>>)
    requires |Present(all)| > 0
    ensures forall j :: 0 <= j < |all| && all[j].Some? ==>
              Dimensions(kinds, all[j].value) <= MaxDimensions(kinds, Present(all))
    ensures exists j :: 0 <= j < |all| && all[j].Some? &&
              Dimensions(kinds, all[j].value) == MaxDimensions(kinds, Present(all))
  {
    var terms := Present(all);
    var m := MaxDimensions(kinds, terms);
    forall j | 0 <= j < |all| && all[j].Some? ensures Dimensions(kinds, all[j].value) <= m {
      assert all[j].value in terms;
    }
    var k :| 0 <= k < |terms| && Dimensions(kinds, terms[k]) == m;
    assert Some(terms[k]) in all;
    var j :| 0 <= j < |all| && all[j] == Some(terms[k]);
    assert all[j].Some? && Dimensions(kinds, all[j].value) == m;
  }

  /** The wiring of `condition`: the operation is set first; each present term is
      connected to its own attribute and to no other; an absent `ifTrue` sets
      `colorIfTrue` to (1, 1, 1) and an absent `ifFalse` sets `colorIfFalse` to
      (0, 0, 0); the plan makes no onward connection. */
  lemma ConditionWiring(kinds: Kinds, firstTerm: Option<Ref>, secondTerm: Option<Ref>, ifTrue: Option<Ref>,
                        ifFalse: Option<Ref>, output: Option<Ref>, operation: int, name: string,
                        dimensions: Option<int>)
    ensures var p := Condition(kinds, firstTerm, secondTerm, ifTrue, ifFalse, output, operation, name, dimensions);
      p.Planned? ==>
        var steps := p.plan.steps;
        p.plan.nodeType == "condition" && p.plan.name == name && p.plan.onward.None? &&
        steps[0] == Set(Operation, Num(operation)) &&
        (forall x :: Wire(x, FirstTerm) in steps <==> firstTerm == Some(x)) &&
        (forall x :: Wire(x, SecondTerm) in steps <==> secondTerm == Some(x)) &&
        (forall x :: Wire(x, ColorIfTrue) in steps <==> ifTrue == Some(x)) &&
        (forall x :: Wire(x, ColorIfFalse) in steps <==> ifFalse == Some(x)) &&
        (ifTrue.None? <==> Set(ColorIfTrue, Many([Num(1), Num(1), Num(1)])) in steps) &&
        (ifFalse.None? <==> Set(ColorIfFalse, Many([Num(0), Num(0), Num(0)])) in steps)
  {
    var p := Condition(kinds, firstTerm, secondTerm, ifTrue, ifFalse, output, operation, name, dimensions);
    if p.Planned? {
      assert p.plan.steps == ConditionSteps(firstTerm, secondTerm, ifTrue, ifFalse, operation);
      ConditionStepsWiring(firstTerm, secondTerm, ifTrue, ifFalse, operation);
    }
  }

  lemma ConditionStepsWiring(firstTerm: Option<Ref>, secondTerm: Option<Ref>, ifTrue: Option<Ref>,
                             ifFalse: Option<Ref>, operation: int)
    ensures var steps := ConditionSteps(firstTerm, secondTerm, ifTrue, ifFalse, operation);
      steps[0] == Set(Operation, Num(operation)) &&
      (forall x :: Wire(x, FirstTerm) in steps <==> firstTerm == Some(x)) &&
      (forall x :: Wire(x, SecondTerm) in steps <==> secondTerm == Some(x)) &&
      (forall x :: Wire(x, ColorIfTrue) in steps <==> ifTrue == Some(x)) &&
      (forall x :: Wire(x, ColorIfFalse) in steps <==> ifFalse == Some(x)) &&
      (ifTrue.None? <==> Set(ColorIfTrue, Many([Num(1), Num(1), Num(1)])) in steps) &&
      (ifFalse.None? <==> Set(ColorIfFalse, Many([Num(0), Num(0), Num(0)])) in steps)
  {
    forall x ensures Wire(x, FirstTerm) in ConditionSteps(firstTerm, secondTerm, ifTrue, ifFalse, operation) <==>
                     firstTerm == Some(x) {
      ConditionStepMember(firstTerm, secondTerm, ifTrue, ifFalse, operation, Wire(x, FirstTerm));
    }
    forall x ensures Wire(x, SecondTerm) in ConditionSteps(firstTerm, secondTerm, ifTrue, ifFalse, operation) <==>
                     secondTerm == Some(x) {
      ConditionStepMember(firstTerm, secondTerm, ifTrue, ifFalse, operation, Wire(x, SecondTerm));
    }
    forall x ensures Wire(x, ColorIfTrue) in ConditionSteps(firstTerm, secondTerm, ifTrue, ifFalse, operation) <==>
                     ifTrue == Some(x) {
      ConditionStepMember(firstTerm, secondTerm, ifTrue, ifFalse, operation, Wire(x, ColorIfTrue));
    }
    forall x ensures Wire(x, ColorIfFalse) in ConditionSteps(firstTerm, secondTerm, ifTrue, ifFalse, operation) <==>
                     ifFalse == Some(x) {
      ConditionStepMember(firstTerm, secondTerm, ifTrue, ifFalse, operation, Wire(x, ColorIfFalse));
    }
    ConditionStepMember(firstTerm, secondTerm, ifTrue, ifFalse, operation,
                        Set(ColorIfTrue, Many([Num(1), Num(1), Num(1)])));
    ConditionStepMember(firstTerm, secondTerm, ifTrue, ifFalse, operation,
                        Set(ColorIfFalse, Many([Num(0), Num(0), Num(0)])));
  }

  /** Which steps `condition` takes, one candidate step at a time. */
  lemma ConditionStepMember(firstTerm: Option<Ref>, secondTerm: Option<Ref>, ifTrue: Option<Ref>,
                            ifFalse: Option<Ref>, operation: int, s: Step)
    ensures ConditionSteps(firstTerm, secondTerm, ifTrue, ifFalse, operation)[0] == Set(Operation, Num(operation))
    ensures s in ConditionSteps(firstTerm, secondTerm, ifTrue, ifFalse, operation) <==>
      s == Set(Operation, Num(operation)) ||
      (firstTerm.Some? && s == Wire(firstTerm.value, FirstTerm)) ||
      (secondTerm.Some? && s == Wire(secondTerm.value, SecondTerm)) ||
      (ifTrue.Some? && s == Wire(ifTrue.value, ColorIfTrue)) ||
      (ifTrue.None? && s == Set(ColorIfTrue, Many([Num(1), Num(1), Num(1)]))) ||
      (ifFalse.Some? && s == Wire(ifFalse.value, ColorIfFalse)) ||
      (ifFalse.None? && s == Set(ColorIfFalse, Many([Num(0), Num(0), Num(0)])))
  {
    WireIfPresentMember(firstTerm, FirstTerm, s);
    WireIfPresentMember(secondTerm, SecondTerm, s);
    WireOrSetMember(ifTrue, ColorIfTrue, 1, s);
    WireOrSetMember(ifFalse, ColorIfFalse, 0, s);
  }

  /** The `output` argument of `condition` is discarded: any two values of it give
      the same plan. */
  lemma ConditionDiscardsOutput(kinds: Kinds, firstTerm: Option<Ref>, secondTerm: Option<Ref>, ifTrue: Option<Ref>,
                                ifFalse: Option<Ref>, output: Option<Ref>, operation: int, name: string,
                                dimensions: Option<int>)
    ensures Condition(kinds, firstTerm, secondTerm, ifTrue, ifFalse, output, operation, name, dimensions) ==
            Condition(kinds, firstTerm, secondTerm, ifTrue, ifFalse, None, operation, name, dimensions)
  {
  }

  /** `multiplyDivide(input1, input2, output, operation=, name=)`. */
  function MultiplyDivide(input1: Option<Ref>, input2: Option<Ref>, output: Option<Ref>, operation: int,
                          name: string): (p: Plan)
    ensures 1 <= |p.steps| <= 4 && p.steps[0] == Set(Operation, Num(operation))
  {
    Plan("multiplyDivide", name,
         [Set(Operation, Num(operation))] + WireIfPresent(input1, Input1) + WireIfPresent(input2, Input2) +
         WireIfPresent(output, Output),
         Single(Output), None)
  }

  /** What `multiplyDivide` does: it sets the operation code, connects only the inputs
      that are given, in order, wires a given `output` as a source into the node's own
      `output` attribute, last, and always answers the node's `output`. */
  lemma MultiplyDivideContract(input1: Option<Ref>, input2: Option<Ref>, output: Option<Ref>, operation: int,
                               name: string)
    ensures var p := MultiplyDivide(input1, input2, output, operation, name);
      p.nodeType == "multiplyDivide" && p.name == name && p.result == Single(Output) && p.onward.None? &&
      p.steps[0] == Set(Operation, Num(operation)) &&
      (forall x :: Wire(x, Input1) in p.steps <==> input1 == Some(x)) &&
      (forall x :: Wire(x, Input2) in p.steps <==> input2 == Some(x)) &&
      (forall x :: Wire(x, Output) in p.steps <==> output == Some(x)) &&
      (output.Some? ==> p.steps[|p.steps| - 1] == Wire(output.value, Output)) &&
      (input1.Some? ==> p.steps[1] == Wire(input1.value, Input1)) &&
      (input1.None? && input2.Some? ==> p.steps[1] == Wire(input2.value, Input2)) &&
      (input1.Some? && input2.Some? ==> p.steps[2] == Wire(input2.value, Input2))
  {
    var steps := MultiplyDivide(input1, input2, output, operation, name).steps;
    forall x ensures Wire(x, Input1) in steps <==> input1 == Some(x) {
      MultiplyDivideStepMember(input1, input2, output, operation, name, Wire(x, Input1));
    }
    forall x ensures Wire(x, Input2) in steps <==> input2 == Some(x) {
      MultiplyDivideStepMember(input1, input2, output, operation, name, Wire(x, Input2));
    }
    forall x ensures Wire(x, Output) in steps <==> output == Some(x) {
      MultiplyDivideStepMember(input1, input2, output, operation, name, Wire(x, Output));
    }
  }

  lemma MultiplyDivideStepMember(input1: Option<Ref>, input2: Option<Ref>, output: Option<Ref>, operation: int,
                                 name: string, s: Step)
    ensures s in MultiplyDivide(input1, input2, output, operation, name).steps <==>
      s == Set(Operation, Num(operation)) ||
      (input1.Some? && s == Wire(input1.value, Input1)) ||
      (input2.Some? && s == Wire(input2.value, Input2)) ||
      (output.Some? && s == Wire(output.value, Output))
  {
    WireIfPresentMember(input1, Input1, s);
    WireIfPresentMember(input2, Input2, s);
    WireIfPresentMember(output, Output, s);
  }

  /** The reference a result target names, before `Nodex(...)` wraps it. */
  function TargetRef(node: PlugName -> Plug, t: Target): Ref {
    match t
    case Single(a) => Attr(node(a))
    case Pair(a, b) => Tup([Attr(node(a)), Attr(node(b))])
  }

  /** Steps `i..` of a plan on the new node `node`; the first exception stops the run.
      Setting a plug that has an incoming connection raises, as any write does. */
  function RunSteps(kinds: Kinds, members: seq<Member>, st: State, node: PlugName -> Plug, steps: seq<Step>,
                    i: nat, fuel: nat): (res: (Outcome, State))
    requires i <= |steps|
    ensures Extends(members, st, res.1)
    ensures res.0.Done? ==> forall j :: i <= j < |steps| && steps[j].Set? ==> node(steps[j].attr) in res.1.values
    ensures i < |steps| && steps[i].Set? && node(steps[i].attr) in st.inputs ==> res == (Failed(RuntimeError), st)
    decreases |steps| - i
  {
    if i == |steps| then (Done, st)
    else match steps[i]
      case Set(a, v) =>
        var w := WriteValue(st.inputs, st.values, node(a), v);
        if w.Err? then (Failed(w.error), st)
        else RunSteps(kinds, members, st.(values := w.value), node, steps, i + 1, fuel)
      case Wire(src, a) =>
        var (w, c) := WrapSpec(members, st.cache, Attr(node(a)));
        if w.Err? then (Failed(w.error), st.(cache := c))
        else
          var (r, st1) := Connect(kinds, members, st.(cache := c), src, w.value.1, false, true, fuel);
          if r.Err? then (Failed(r.error), st1) else RunSteps(kinds, members, st1, node, steps, i + 1, fuel)
  }

  /** Running steps `i..k` and then, unless that failed, steps `k..` is running steps
      `i..`: the steps of a plan run in order and the first failure stops the run. */
  lemma {:induction false} RunStepsSplit(kinds: Kinds, members: seq<Member>, st: State, node: PlugName -> Plug,
                                         steps: seq<Step>, i: nat, k: nat, fuel: nat)
    requires i <= k <= |steps|
    ensures var (o, st1) := RunSteps(kinds, members, st, node, steps[..k], i, fuel);
      RunSteps(kinds, members, st, node, steps, i, fuel) ==
      (if o.Failed? then (o, st1) else RunSteps(kinds, members, st1, node, steps, k, fuel))
    decreases k - i
  {
    if i < k {
      assert steps[..k][i] == steps[i];
      match steps[i]
      case Set(a, v) =>
        var w := WriteValue(st.inputs, st.values, node(a), v);
        if w.Ok? {
          RunStepsSplit(kinds, members, st.(values := w.value), node, steps, i + 1, k, fuel);
        }
      case Wire(src, a) =>
        var (w, c) := WrapSpec(members, st.cache, Attr(node(a)));
        if w.Ok? {
          var (r, st1) := Connect(kinds, members, st.(cache := c), src, w.value.1, false, true, fuel);
          if r.Ok? {
            RunStepsSplit(kinds, members, st1, node, steps, i + 1, k, fuel);
          }
        }
    }
  }

  /** A run that gets through every step got through each one: in the state the
      earlier steps leave, every `Set` step's plug is unconnected and every `Wire`
      step's destination wraps and its `connect` answers a dimension. */
  lemma EveryStepSucceeded(kinds: Kinds, members: seq<Member>, st: State, node: PlugName -> Plug,
                           steps: seq<Step>, j: nat, fuel: nat)
    requires j < |steps| && RunSteps(kinds, members, st, node, steps, 0, fuel).0.Done?
    ensures var (o, stj) := RunSteps(kinds, members, st, node, steps[..j], 0, fuel);
      o.Done? &&
      (steps[j].Set? ==> node(steps[j].attr) !in stj.inputs) &&
      (steps[j].Wire? ==>
         var (w, c) := WrapSpec(members, stj.cache, Attr(node(steps[j].attr)));
         w.Ok? && Connect(kinds, members, stj.(cache := c), steps[j].src, w.value.1, false, true, fuel).0.Ok?)
  {
    RunStepsSplit(kinds, members, st, node, steps, 0, j, fuel);
  }

  /** Step `j` sets a plug and every later step sets some other plug. */
  ghost predicate LastWrite(node: PlugName -> Plug, steps: seq<Step>, j: nat) {
    j < |steps| && steps[j].Set? &&
    forall k :: j < k < |steps| ==> steps[k].Set? && node(steps[k].attr) != node(steps[j].attr)
  }

  /** A run that gets through every step leaves each last write in place: the plug
      holds the value set, and nothing feeds it. */
  lemma {:induction false} LastWriteHolds(kinds: Kinds, members: seq<Member>, st: State, node: PlugName -> Plug,
                                          steps: seq<Step>, i: nat, fuel: nat)
    requires i <= |steps|
    ensures var (o, st1) := RunSteps(kinds, members, st, node, steps, i, fuel);
      o.Done? ==> forall j :: i <= j < |steps| && LastWrite(node, steps, j) ==>
        node(steps[j].attr) !in st1.inputs && node(steps[j].attr) in st1.values &&
        st1.values[node(steps[j].attr)] == steps[j].v
    decreases |steps| - i
  {
    if i < |steps| {
      match steps[i]
      case Set(a, v) =>
        var w := WriteValue(st.inputs, st.values, node(a), v);
        if w.Ok? {
          var st1 := st.(values := w.value);
          LastWriteHolds(kinds, members, st1, node, steps, i + 1, fuel);
          if LastWrite(node, steps, i) {
            SetsKeep(kinds, members, st1, node, steps, i + 1, node(a), fuel);
          }
        }
      case Wire(src, a) =>
        var (w, c) := WrapSpec(members, st.cache, Attr(node(a)));
        if w.Ok? {
          var (r, st1) := Connect(kinds, members, st.(cache := c), src, w.value.1, false, true, fuel);
          if r.Ok? {
            LastWriteHolds(kinds, members, st1, node, steps, i + 1, fuel);
          }
        }
    }
  }

  /** Steps that only set plugs other than `p` change no connection and leave `p`'s
      written value alone. */
  lemma {:induction false} SetsKeep(kinds: Kinds, members: seq<Member>, st: State, node: PlugName -> Plug,
                                    steps: seq<Step>, i: nat, p: Plug, fuel: nat)
    requires i <= |steps|
    requires forall k :: i <= k < |steps| ==> steps[k].Set? && node(steps[k].attr) != p
    ensures var st1 := RunSteps(kinds, members, st, node, steps, i, fuel).1;
      st1.inputs == st.inputs && (p in st1.values <==> p in st.values) &&
      (p in st.values ==> st1.values[p] == st.values[p])
    decreases |steps| - i
  {
    if i < |steps| {
      var w := WriteValue(st.inputs, st.values, node(steps[i].attr), steps[i].v);
      if w.Ok? {
        SetsKeep(kinds, members, st.(values := w.value), node, steps, i + 1, p, fuel);
      }
    }
  }

  /** A whole plan: the steps, then `Nodex(result)`, then `result.connect(onward)`. The
      answer is the result wrapper's reference. */
  function Run(kinds: Kinds, members: seq<Member>, st: State, node: PlugName -> Plug, plan: Plan, fuel: nat)
    : (res: (Result<Ref>, State))
    ensures Extends(members, st, res.1)
    ensures res.0.Ok? ==> RunSteps(kinds, members, st, node, plan.steps, 0, fuel).0.Done?
    ensures res.0.Ok? ==> forall j :: 0 <= j < |plan.steps| && plan.steps[j].Set? ==>
                            node(plan.steps[j].attr) in res.1.values
    ensures res.0.Ok? ==> exists dt: DataType :: res.0.value == dt.convert(TargetRef(node, plan.result)) &&
                                       dt.isValid(TargetRef(node, plan.result))
  {
    var (o, st1) := RunSteps(kinds, members, st, node, plan.steps, 0, fuel);
    if o.Failed? then (Err(o.error), st1)
    else
      var (w, c) := WrapSpec(members, st1.cache, TargetRef(node, plan.result));
      if w.Err? then (Err(w.error), st1.(cache := c))
      else if plan.onward.None? then (Ok(w.value.1), st1.(cache := c))
      else
        var (r, st2) := Connect(kinds, members, st1.(cache := c), w.value.1, plan.onward.value, false, true, fuel);
        if r.Err? then (Err(r.error), st2) else (Ok(w.value.1), st2)
  }

  /** Carries a plan out on the store, step by step. */
  method Execute(g: Store, res: Resolver, node: PlugName -> Plug, plan: Plan, fuel: nat) returns (r: Result<Ref>)
    modifies g`inputs, g`values, res`cache
    ensures (r, StateOf(g, res)) == Run(g.kinds, res.members, old(StateOf(g, res)), node, plan, fuel)
  {
    var o := ExecuteSteps(g, res, node, plan.steps, fuel);
    if o.Failed? {
      return Err(o.error);
    }
    var w := res.Wrap(TargetRef(node, plan.result));
    if w.Err? {
      return Err(w.error);
    }
    if plan.onward.Some? {
      var c := ConnectRefs(g, res, w.value.1, plan.onward.value, false, true, fuel);
      if c.Err? {
        return Err(c.error);
      }
    }
    r := Ok(w.value.1);
  }

  /** The loop over a plan's steps. */
  method ExecuteSteps(g: Store, res: Resolver, node: PlugName -> Plug, steps: seq<Step>, fuel: nat)
    returns (o: Outcome)
    modifies g`inputs, g`values, res`cache
    ensures (o, StateOf(g, res)) == RunSteps(g.kinds, res.members, old(StateOf(g, res)), node, steps, 0, fuel)
  {
    for i := 0 to |steps|
      invariant res.members == old(res.members)
      invariant RunSteps(g.kinds, res.members, StateOf(g, res), node, steps, i, fuel) ==
                RunSteps(g.kinds, res.members, old(StateOf(g, res)), node, steps, 0, fuel)
    {
      match steps[i]
      case Set(a, v) =>
        var written := g.SetValue(node(a), v);
        if written.Failed? {
          return written;
        }
      case Wire(src, a) =>
        var w := res.Wrap(Attr(node(a)));
        if w.Err? {
          return Failed(w.error);
        }
        var c := ConnectRefs(g, res, src, w.value.1, false, true, fuel);
        if c.Err? {
          return Failed(c.error);
        }
    }
    o := Done;
  }

  /** The builders the `Math` table binds. */
  datatype Builder =
    | PlusMinusAverageOf(dimensions: Option<int>)
    | MultiplyDivideOf
    | ConditionOf
    | DoubleLinearOf(nodeType: string)
    | ClampOf

  /** One `partial` of the `Math` class: its attribute name, builder and bound
      operation code (none for `clamp` and the double-linear builders). */
  datatype Recipe = Recipe(attr: string, builder: Builder, operation: Option<int>, name: string)

  /** The `Math` class body, in order; `sum` is bound twice. */
  function MathTable(): seq<Recipe> {
    [ Recipe("sum", PlusMinusAverageOf(None), Some(1), "sum"),
      Recipe("multiply", MultiplyDivideOf, Some(1), "multiply"),
      Recipe("multDouble", DoubleLinearOf("multDoubleLinear"), None, "multDouble"),
      Recipe("divide", MultiplyDivideOf, Some(2), "divide"),
      Recipe("power", MultiplyDivideOf, Some(3), "power"),
      Recipe("add", DoubleLinearOf("addDoubleLinear"), None, "add"),
      Recipe("sum", PlusMinusAverageOf(None), Some(1), "sum"),
      Recipe("sum1D", PlusMinusAverageOf(Some(1)), Some(1), "sum1D"),
      Recipe("sum2D", PlusMinusAverageOf(Some(2)), Some(1), "sum2D"),
      Recipe("sum3D", PlusMinusAverageOf(Some(3)), Some(1), "sum3D"),
      Recipe("subtract", PlusMinusAverageOf(None), Some(2), "subtract"),
      Recipe("subtract1D", PlusMinusAverageOf(Some(1)), Some(2), "subtract1D"),
      Recipe("subtract2D", PlusMinusAverageOf(Some(2)), Some(2), "subtract2D"),
      Recipe("subtract3D", PlusMinusAverageOf(Some(3)), Some(2), "subtract3D"),
      Recipe("average1D", PlusMinusAverageOf(Some(1)), Some(3), "average1D"),
      Recipe("average2D", PlusMinusAverageOf(Some(2)), Some(3), "average2D"),
      Recipe("average3D", PlusMinusAverageOf(Some(3)), Some(3), "average3D"),
      Recipe("clamp", ClampOf, None, "clamp"),
      Recipe("equal", ConditionOf, Some(0), "equal"),
      Recipe("notEqual", ConditionOf, Some(1), "notEqual"),
      Recipe("greaterThan", ConditionOf, Some(2), "greaterThan"),
      Recipe("greaterOrEqual", ConditionOf, Some(3), "greaterOrEqual"),
      Recipe("lessThan", ConditionOf, Some(4), "lessThan"),
      Recipe("lessOrEqual", ConditionOf, Some(5), "lessOrEqual") ]
  }

  /** `Math.<attr>`: the last binding of that name in the class body, if any. */
  function MathRecipe(attr: string): (r: Option<Recipe>)
    ensures r.Some? ==> r.value in MathTable() && r.value.attr == attr
    ensures r.None? ==> forall j :: 0 <= j < |MathTable()| ==> MathTable()[j].attr != attr
  {
    LastBinding(MathTable(), attr, |MathTable()|)
  }

  function LastBinding(table: seq<Recipe>, attr: string, n: nat): (r: Option<Recipe>)
    requires n <= |table|
    ensures r.Some? ==> exists j :: 0 <= j < n && table[j] == r.value && r.value.attr == attr &&
                                    forall k :: j < k < n ==> table[k].attr != attr
    ensures r.None? ==> forall j :: 0 <= j < n ==> table[j].attr != attr
  {
    if n == 0 then None
    else if table[n - 1].attr == attr then Some(table[n - 1])
    else LastBinding(table, attr, n - 1)
  }

  /** Every entry of the `Math` table names its node after its own attribute and binds
      codes its builder accepts: plusMinusAverage operations 1 to 3 (sum, subtract,
      average) with a dimension of 1 to 3 or none, multiplyDivide operations 1 to 3
      (multiply, divide, power) and condition operations 0 to 5; `clamp` and the
      double-linear builders bind no code. */
  lemma MathTableContract()
    ensures forall j :: 0 <= j < |MathTable()| ==>
      var e := MathTable()[j];
      e.name == e.attr &&
      (e.builder.PlusMinusAverageOf? ==>
         e.operation.Some? && 1 <= e.operation.value <= 3 &&
         (e.builder.dimensions.None? || 1 <= e.builder.dimensions.value <= 3)) &&
      (e.builder.MultiplyDivideOf? ==> e.operation.Some? && 1 <= e.operation.value <= 3) &&
      (e.builder.ConditionOf? ==> e.operation.Some? && 0 <= e.operation.value <= 5) &&
      (e.builder.ClampOf? || e.builder.DoubleLinearOf? <==> e.operation.None?)
  {
  }

  /** `sum` is bound twice, both times to the plain sum, so `Math.sum` is the plain
      sum whichever binding wins. */
  lemma MathSumIsPlain()
    ensures MathRecipe("sum") == Some(Recipe("sum", PlusMinusAverageOf(None), Some(1), "sum"))
  {
    assert MathTable()[6].attr == "sum";
  }
}
