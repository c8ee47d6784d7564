# nodex in Dafny

nodex wraps attributes and values of Maya's node graph in `Nodex` objects. These
objects can be connected to each other whatever their dimensions are, and
fed into small utility-node networks. This project models the package's own logic
on an abstract plug store instead of the host application:

- **the `Nodex` wrapper** (`Core`): construction through `__new__`, which picks a
  datatype class; `setReference`, `clearValue`, the cached `dimensions`,
  `__getitem__` and `connect`;
- **the datatype registry** (`Registry`): the Nodex subclasses of the datatypes
  module, sorted by priority and cached on first use, and the resolver
  `_getDataTypeFromData`. The concrete datatype classes are parameters: each is a
  record of priority, `isValidData`, `convertData` and `default()`;
- **references** (`Refs`): what a wrapper holds, which is a plug, a number or a
  tuple of references. Also the queries on it: `isSingleAttribute`, `isAttribute`,
  `attr`, `dimensions`, `isSingleNumeric`, the subscripting of `__getitem__` and
  the (second) `value`;
- **the connection reconciler** (`Reconcile`, `ReconcileSteps`, `ReconcileLaws`):
  `connect` as a function over the graph state, plus statement-by-statement
  methods proved equal to it. `ReconcileLaws` proves the laws of its four
  branches: equal, grow, truncate source, truncate destination;
- **the rewiring helpers** (`Rewire`): `attrReplaceOutputs`, `attrReplaceInput` and
  `attrPassThrough` as loops over the store's connection table;
- **the recipes** (`Recipes`): `plusMinusAverage`, `condition` and
  `multiplyDivide` as plans (node type, name, steps, result, onward connection),
  an executor that carries a plan out on the store, and the `Math` table of
  partials;
- **the graph** (`Graph`): plug kinds, the incoming connection of each plug,
  written values, and `attrDimensions`.

The host graph is reduced to three things:
- a kind for every plug: a leaf, a compound with child plugs, or an array with
  element plugs;
- a map from each connected plug to the plug that feeds it;
- a map of written values.

Values are integers or tuples of values.

Connections made by `connect` go through pymel's `Attribute.connect` without
`force`. A destination already fed by a different plug is therefore refused
(`RuntimeError`) and not overwritten. Only `attrPassThrough` forces its first
connection. Writing a value into a plug that has an incoming connection is refused
by the host (`RuntimeError`), and the model refuses it in the same way.

Behaviour that looks unintended is modelled as the code has it, and stated as
lemmas:
- In `isAttribute` the `for` clause lies outside the parentheses of `all(...)`, so
  the second operand of `and` is a generator expression. A generator object is
  always true, so every tuple counts as an attribute (`Refs.IsAttributeIgnoresElements`; `AllAttributes`
  is the reading its docstring asks for).
- The `clearLarger` step wraps `other[dim+1:]`, skipping index `dim`, and only
  replaces that fresh wrapper's reference. No plug is ever written by it
  (`ReconcileLaws.ClearLargerNeverWrites`).
- `condition` rebinds `output` from its keyword arguments, so the argument is
  always discarded and the branch at `nodex/utils.py:186-187` never runs
  (`Recipes.ConditionDiscardsOutput`).
- `attrPassThrough` lists `oldAttr`'s outputs after its forced connection into
  `passInAttr`, so the pass-in plug is rerouted too and ends up fed by the
  pass-out plug (`Rewire.PassThroughReroutesPassIn`).
- `multiplyDivide` connects a given `output` *into* the node's own `output`
  attribute (`Recipes.MultiplyDivideContract`).
- In the equal-dimension branch of `connect`, a number is one-dimensional. The
  loop that assigns a number element by element into a longer destination
  (`nodex/core.py:250-253`) is therefore never reached, and the model has no
  such branch.

The recursion of `connect` is bounded by a `fuel` parameter. Running out of fuel is
the error `RecursionLimit`, which stands for Python's recursion limit. The
wrappers `connect` builds on the way (subscripts, element attributes) are
represented by the references they hold. Their class lookups go through the
resolver cache, which is threaded through the state.

## Model

| member | source | states |
|---|---|---|
| Graph.AttrDimensions | nodex/utils.py:34-40 | an array plug has as many dimensions as elements, a compound as many as children, anything else one |
| Graph.OutputsOf | nodex/utils.py:22 | the outputs of a plug are exactly the plugs whose incoming connection is that plug |
| Graph.ConnectEdge | nodex/core.py:239 | an unforced connection fails with `RuntimeError` exactly when the destination is already fed by another plug; otherwise the destination is fed by the source and nothing else changes |
| Graph.DisconnectEdge | nodex/utils.py:23 | after disconnecting, the destination is not fed by that source; other connections, and a different incoming connection of the destination, stay |
| Graph.WriteValue | nodex/core.py:244-246 | a write fails with `RuntimeError` exactly when the plug has an incoming connection; otherwise the plug holds the value and every other plug keeps its written value or its lack of one |
| Graph.Store.Outputs | nodex/utils.py:22 | the outputs of a plug in the store's current table |
| Graph.Store.Connect | nodex/utils.py:13 | the store's table becomes the connected table, or is unchanged with the error reported |
| Graph.Store.Disconnect | nodex/utils.py:23 | the store's table loses that one connection |
| Graph.Store.SetValue | nodex/core.py:244-246 | a plug with an incoming connection refuses the write (`RuntimeError`) and nothing changes; otherwise the plug holds the value and the other written values stay |
| Rewire.ReroutedMovesOutputs | nodex/utils.py:20-24 | after moving outputs, the old plug feeds nothing, the new plug feeds its old readers plus the old plug's, and every other connection is kept |
| Rewire.Rerouted | nodex/utils.py:20-24 | moving the outputs keeps the set of fed plugs, and afterwards nothing reads the old plug |
| Rewire.AttrReplaceOutputs | nodex/utils.py:20-24 | the loop over the outputs leaves every former reader of the old plug fed by the new plug, and the rest of the table unchanged |
| Rewire.AttrPassThrough | nodex/utils.py:8-17 | a forced connection into the pass-in plug, then all outputs of the old plug, including the pass-in plug, move to the pass-out plug |
| Rewire.PassThroughReroutesPassIn | nodex/utils.py:13-17 | the pass-in plug ends up fed by the pass-out plug, and the old plug feeds nothing |
| Rewire.AttrReplaceInput | nodex/utils.py:27-31 | the incoming connection of the old plug is broken and its source connected, unforced, into the new plug |
| Rewire.ReplacedInput | nodex/utils.py:27-31 | the old plug ends up unfed; the only failure is the `RuntimeError` of the unforced connection, and only when the old plug had an input |
| Rewire.ReplaceInputMovesSource | nodex/utils.py:27-31 | the old plug is left unfed; the new plug takes over its source when it had no input, and the connection is refused when the new plug is fed by another plug |
| Refs.IsAttributeIgnoresElements | nodex/core.py:188-196 | `isAttribute` accepts everything but a number: every tuple, even a tuple of numbers, which the intended test would refuse |
| Refs.AttrOf | nodex/core.py:173-182 | `attr()` is the reference itself exactly when it counts as an attribute, else None |
| Refs.Dimensions | nodex/core.py:150-169 | a reference that is not a tuple is one-dimensional exactly when it is single numeric |
| Refs.DimensionsByKind | nodex/core.py:150-163 | a number has dimension one, a tuple its length, a plug the dimension of its kind |
| Refs.SingleNumericIsOneDimensional | nodex/core.py:165-169 | a single numeric reference is one-dimensional; a one-dimensional reference that is not a tuple is single numeric |
| Refs.PyIndex | nodex/core.py:291-296 | an integer subscript is valid exactly in `-len..len-1` and picks `i` or `len+i` |
| Refs.SliceBound | nodex/core.py:293-294 | a missing bound takes its default; a bound from 0 to the length is kept and a larger one becomes the length; a negative bound counts from the end, and one below minus the length becomes 0 |
| Refs.PySlice | nodex/core.py:293-294 | with the clamped bounds `a` and `b`, the slice has `b - a` elements (none when `b <= a`) and its element `j` is element `a + j` of the sequence |
| Refs.PySlicePrefix | nodex/core.py:268 | `s[:n]` is the first `n` elements, or all of them when `n` is larger |
| Refs.PySliceSuffix | nodex/core.py:271 | `s[n:]` is the elements from `n` on, or none when `n` is past the end |
| Refs.ItemDataCases | nodex/core.py:282-296 | array plugs subscript to element `i` for `0 <= i < len`, raise `IndexError` otherwise (the host's error, assumed) and refuse every slice (`TypeError`); compounds and tuples take Python indices, negative ones counting from the end and out-of-range ones raising `IndexError`, and slice to the right parts, `s[n:]` included; numbers and leaf plugs cannot be subscripted (`TypeError`, assumed for a leaf plug) |
| Refs.ItemData | nodex/core.py:282-296 | a slice yields a tuple no longer than the subscripted reference's dimension; an integer subscript of a plug yields a plug; a number cannot be subscripted (`TypeError`) |
| Refs.ValueShape | nodex/core.py:139-146 | a tuple's value has one entry per element, a number in a tuple reads back as itself, and a number's value is itself |
| Refs.Value | nodex/core.py:139-146 | a tuple's value has one entry per element |
| Registry.FindSubclasses | nodex/core.py:355-359 | the classes found are exactly the module's Nodex subclasses |
| Registry.Insert | nodex/core.py:365 | inserting into a priority-sorted list keeps it sorted and adds exactly that class |
| Registry.SortByPriority | nodex/core.py:365 | the sort is in ascending priority and a permutation of its input |
| Registry.SortedSubclassesContract | nodex/core.py:362-365 | the registry is sorted by ascending priority and holds exactly the module's Nodex subclasses |
| Registry.FirstValidFrom | nodex/core.py:383-389 | the position found accepts the data and no earlier one does; no position found means none accepts |
| Registry.Scan | nodex/core.py:383-389 | the loop returns the first class of the list accepting the data, or None |
| Registry.ResolveContract | nodex/core.py:368-389 | a foreign preferred type is a `TypeError`; a valid preferred Nodex class wins without touching the cache; otherwise the first class by priority that accepts, None iff none does; a filled cache is never changed |
| Registry.Resolve | nodex/core.py:368-389 | the cache stays as it is, or an empty one is filled with the sorted registry; a class found accepts the data |
| Registry.LateRegistrationUnseen | nodex/core.py:380-381 | once the cache is filled, classes defined later do not change any resolution |
| Registry.Cleared | nodex/core.py:208-213 | a class without a default cannot be cleared (`RuntimeError`); a default its class refuses is a `TypeError`; otherwise the converted default |
| Registry.Resolver.GetDataType | nodex/core.py:368-389 | the resolver method answers as the resolution function and leaves the cache it describes |
| Registry.Resolver.Wrap | nodex/core.py:81-88 | wrapping plain data resolves without a preferred type and converts with the class found |
| Registry.WrapContract | nodex/core.py:81-88 | wrapping succeeds exactly when some registry class accepts the data, with that class's conversion; a filled cache is kept |
| Registry.WrapSpec | nodex/core.py:81-88 | the cache stays or an empty one is filled; on success the class found accepts the data and the wrapper holds that class's conversion of it; the only failure is `UndefinedNodexError` |
| Reconcile.WrapItem | nodex/core.py:282-296 | `x[item]` of a tuple at an element that is not a plug is that element, kept as it is with no class looked up; any other part is wrapped by a class that accepts it and holds that class's conversion; the cache stays or an empty one is filled with the sorted registry |
| Reconcile.HeldElementKept | nodex/core.py:294-296 | subscripting a tuple at an element that is not a plug, negative indices included, returns that element itself, whatever the registry holds |
| Reconcile.SetPlug | nodex/core.py:244-246 | setting a plug succeeds exactly when nothing feeds it, and then the plug holds the number and is the only plug added; otherwise `RuntimeError` with nothing changed; connections and cache never change |
| Reconcile.PlugConnect | nodex/core.py:239 | a plug-to-plug connection removes no connection and, when it succeeds, feeds the destination from the source |
| Reconcile.Connect | nodex/core.py:215-273 | a non-attribute destination is a `ValueError` with nothing changed; equal dimensions answer that dimension; growing and truncating the source answer the destination's dimension; no connection is ever removed or replaced |
| Reconcile.TruncateSource | nodex/core.py:262-266 | connecting the source's head answers the destination's dimension when it succeeds |
| Reconcile.TruncateDestination | nodex/core.py:267-273 | connecting into the destination's head keeps every existing connection and written plug |
| Reconcile.ClearRest | nodex/core.py:270-271 | the clear subscripts `other[dim+1:]`, skipping index `dim`: a failing subscript is its failure with the cache untouched, and it succeeds only when that tail is wrapped and its class default is accepted; it only consults (and may fill) the resolver cache |
| Reconcile.ConnectEqual | nodex/core.py:237-254 | the equal-dimension branch keeps every existing connection and written plug |
| Reconcile.Elementwise | nodex/core.py:242-243 | the element loop keeps every existing connection and written plug |
| Reconcile.ConnectElement | nodex/core.py:243 | connecting one element keeps every existing connection and written plug |
| Reconcile.Broadcast | nodex/core.py:256-257 | the grow loop keeps every existing connection and written plug |
| Reconcile.GrowIsBroadcast | nodex/core.py:255-261 | a one-dimensional source allowed to grow is connected to every element of the destination and answers its dimension |
| ReconcileSteps.WrapItemOf | nodex/core.py:282-296 | the subscript-and-wrap method produces the wrapper and cache of the function |
| ReconcileSteps.ConnectRefs | nodex/core.py:230-273 | the connecting statements leave the graph and cache exactly as the reconciler function says and answer the same |
| ReconcileSteps.EqualBranch | nodex/core.py:237-254 | the equal-dimension statements agree with the reconciler function |
| ReconcileSteps.GrowBranch | nodex/core.py:255-261 | the grow loop agrees with the reconciler function |
| ReconcileSteps.TruncateSourceBranch | nodex/core.py:262-266 | the truncate-source statements agree with the reconciler function |
| ReconcileSteps.TruncateDestinationBranch | nodex/core.py:267-273 | the truncate-destination statements agree with the reconciler function |
| ReconcileSteps.TruncateSourceRefs | nodex/core.py:263-266 | `self[:otherDim].connect(other)` agrees with its function |
| ReconcileSteps.TruncateDestinationRefs | nodex/core.py:268-273 | `self.connect(other[:dim])` and the clear agree with their function |
| ReconcileSteps.ClearRestOf | nodex/core.py:270-271 | the clearing statements leave the cache and answer exactly as the clear-remainder function says |
| ReconcileSteps.ConnectEqualRefs | nodex/core.py:237-254 | plug, tuple and number sources agree with the equal-dimension function |
| ReconcileSteps.ElementwiseRefs | nodex/core.py:242-243 | the element loop agrees with its function |
| ReconcileSteps.ConnectElementRefs | nodex/core.py:243 | one element's connection agrees with its function |
| ReconcileSteps.BroadcastRefs | nodex/core.py:256-257 | the grow loop agrees with its function |
| ReconcileLaws.DestinationMustBeAttribute | nodex/core.py:233-235 | a number as destination raises `ValueError` before anything changes |
| ReconcileLaws.PlugIntoPlug | nodex/core.py:237-239 | plugs of equal dimension are connected and the common dimension returned, or refused when the destination has another input |
| ReconcileLaws.ScalarIntoPlug | nodex/core.py:244-246 | a number into an unconnected one-dimensional plug is written there and 1 is returned; a plug with an incoming connection refuses it (`RuntimeError`) and nothing changes |
| ReconcileLaws.ArrayPlugsCannotBeTruncated | nodex/core.py:285-289 | truncating an array plug, as source or destination, slices it and raises `TypeError` with nothing changed |
| ReconcileLaws.ClearLargerNeverWrites | nodex/core.py:267-273 | with and without `clearLarger` the graph ends the same, and a successful answer is the same |
| ReconcileLaws.ClearOnlyInTruncation | nodex/core.py:267-273 | in the truncate-destination branch the flag changes neither connections nor written values |
| ReconcileLaws.ConnectIntoLarger | nodex/core.py:267-268 | into a larger destination without growing, `connect` is the truncate-destination step |
| ReconcileLaws.ClearUnused | nodex/core.py:270-271 | outside the truncate-destination branch the flag is not consulted at all |
| ReconcileLaws.ClearStepNeverWrites | nodex/core.py:270-271 | the clear step itself changes neither connections nor written values |
| ReconcileLaws.BroadcastFeedsParts | nodex/core.py:256-257 | broadcasting a plug from element `i` on feeds every later part of the destination from it, when each of those parts is a leaf the registry wraps as itself and no other plug feeds it |
| ReconcileLaws.GrowLaw | nodex/core.py:255-261 | a leaf plug grown into a compound or array plug of another dimension feeds every part, leaves every other connection and every written value as it was (the state `Fed`, whose entries `FedMaps` states), and returns the number of parts, when each part is a leaf the registry wraps as itself and no other plug feeds it |
| ReconcileLaws.BroadcastFeedsAll | nodex/core.py:256-257 | the full grow loop feeds every part from the source, under the same conditions on the parts |
| ReconcileLaws.BroadcastWritesParts | nodex/core.py:256-257 | broadcasting a number from part `i` on writes it into every later part, when each of those parts is unfed, one-dimensional and wrapped as itself by the registry |
| ReconcileLaws.ScalarGrowLaw | nodex/core.py:255-261 | a number grown into a compound or array plug of another dimension is written into every part, leaves every other written value as it was, connects nothing and returns the number of parts, when each part is unfed, one-dimensional and wrapped as itself by the registry |
| ReconcileLaws.PartItem | nodex/core.py:290-291 | `q[i]` of a compound or array plug is a wrapper of the part itself, when the registry wraps that part as itself, and the cache stays |
| ReconcileLaws.ElementwiseWiresParts | nodex/core.py:242-243 | a tuple connected element by element hands element `j` to part `j` (a plug element feeds it, a number is written into it) and touches no other plug, when each part is unfed and wrapped as itself by the registry |
| ReconcileLaws.TupleLaw | nodex/core.py:240-243 | a tuple as long as a compound or array destination hands element `j` to part `j`, returns that length, keeps the cache and touches no other plug, when each part is unfed and wrapped as itself by the registry |
| ReconcileLaws.TruncationLaw | nodex/core.py:262-266 | a tuple longer than its compound or array destination hands its first elements to the parts in order, returns the number of parts and touches no other plug, so the surplus elements feed and write nothing; this holds when the registry wraps the head slice and each part as themselves and each part is unfed |
| ReconcileLaws.HeadWiresParts | nodex/core.py:263 | handing over the head of the tuple element by element gives part `j` element `j`, under the same conditions on the parts |
| ReconcileLaws.TruncatedTupleIsElementwise | nodex/core.py:262-266 | truncating a tuple source is the element loop over its head, when the registry wraps the head slice as itself |
| ReconcileLaws.TupleIntoSmallerPlug | nodex/core.py:262-266 | a longer tuple connects its head with the default flags and answers the destination's dimension, when the registry wraps the head slice as itself |
| ReconcileLaws.EqualTupleIsElementwise | nodex/core.py:240-243 | a tuple of equal dimension is connected element by element, whatever the flags |
| ReconcileLaws.ScalarIntoLargerCompound | nodex/core.py:267-271 | a number into a larger compound without growing writes only the first child when nothing feeds it, makes no connection and answers 1 when it succeeds; a connected first child refuses the write and nothing changes; the registry is taken to wrap the first child and its one-tuple as themselves |
| ReconcileLaws.HeadOfCompound | nodex/core.py:290-291 | the head slice of a compound is the one-tuple of its first child, when the registry wraps that one-tuple as itself |
| ReconcileLaws.ScalarIntoOneTuple | nodex/core.py:248-249 | a number into a one-element tuple is written into the element's plug and 1 is returned, when the registry wraps that plug as itself; a connected plug refuses the write and nothing changes |
| ReconcileLaws.PlugIntoLargerCompoundFails | nodex/core.py:267-268 | a leaf plug into a larger compound without growing is cut to a one-tuple destination, when the registry wraps that one-tuple as itself; a plug connected to a tuple is taken to raise `TypeError`, so the call fails with nothing changed |
| Recipes.MaxDimensions | nodex/utils.py:55 | the largest dimension bounds every argument and is reached by one |
| Recipes.Present | nodex/utils.py:148 | the terms kept are exactly the present ones |
| Recipes.PresentEmpty | nodex/utils.py:148 | no term is kept exactly when every term is None |
| Recipes.PlusMinusAverageErrors | nodex/utils.py:53-62 | no argument and no dimension is a `ValueError`; a dimension above 3, given or the largest argument's, is a `RuntimeError`; below 1 a `KeyError`; each before the node is created |
| Recipes.PlusMinusAveragePlan | nodex/utils.py:46-74 | the working dimension is the given one or the largest among the arguments; the operation is set first, argument `i` goes to `input{d}D[i]` in order, the result is `output{d}D`, and the onward connection is `output3D` |
| Recipes.PlusMinusAverage | nodex/utils.py:46-74 | a refusal comes before the node is created and before any step; a plan sets the operation and makes one connection per argument |
| Recipes.ConditionErrors | nodex/utils.py:146-161 | no term and no dimension is a `ValueError`; above 3 a `RuntimeError` before creating the node; below 1 a `KeyError` after the node is created and its operation set |
| Recipes.Condition | nodex/utils.py:139-187 | a plan starts by setting the operation and makes no onward connection; a refusal after the node exists is a `KeyError` |
| Recipes.ConditionDimension | nodex/utils.py:147-166 | without a dimension the result is `outColorR` iff every present term is at most one-dimensional, `outColor` iff some present term is three-dimensional and none is larger; a term above 3 is a `RuntimeError` |
| Recipes.ConditionTarget | nodex/utils.py:150-166 | the output table has entries for 1 to 3 only: `outColorR` for 1, `outColor` for 3 |
| Recipes.MaxOfPresent | nodex/utils.py:148 | the largest dimension among present terms bounds each of them and is reached |
| Recipes.ConditionWiring | nodex/utils.py:155-184 | the operation is set first; each present term is connected to its own attribute only; absent `ifTrue`/`ifFalse` set (1,1,1)/(0,0,0); no onward connection |
| Recipes.ConditionStepsWiring | nodex/utils.py:170-184 | the condition steps connect each present term to its own attribute and set a colour for each absent branch |
| Recipes.ConditionStepMember | nodex/utils.py:170-184 | the condition steps are exactly the operation, the present terms' connections and the absent branches' colours |
| Recipes.ConditionDiscardsOutput | nodex/utils.py:139-144 | any `output` gives the same plan as no `output` |
| Recipes.MultiplyDivideContract | nodex/utils.py:77-97 | operation set first; only given inputs wired, each to its own attribute, `input1` before `input2` right after the operation; a given output is wired last, into the node's `output`; the result is the node's `output` |
| Recipes.MultiplyDivide | nodex/utils.py:77-97 | the plan sets the operation first and makes at most three connections after it |
| Recipes.MultiplyDivideStepMember | nodex/utils.py:85-91 | the steps are exactly the operation and the given inputs' and output's connections |
| Recipes.RunSteps | nodex/utils.py:64-68 | running steps removes no connection; after a successful run every attribute set by a step holds a value; a `Set` step on a plug with an incoming connection stops the run with `RuntimeError` and nothing changed |
| Recipes.RunStepsSplit | nodex/utils.py:64-68 | steps run in order: running the first `k` steps and then, unless they failed, the rest is running them all |
| Recipes.EveryStepSucceeded | nodex/utils.py:64-68 | after a successful run, each `Set` step found its plug unconnected and each `Wire` step's wrapping and `connect` succeeded, in the state the earlier steps left |
| Recipes.LastWriteHolds | nodex/utils.py:64-68 | after a successful run, a `Set` step followed only by `Set` steps on other plugs leaves its value in its plug, which nothing feeds |
| Recipes.SetsKeep | nodex/utils.py:64-68 | `Set` steps on other plugs change no connection and leave a plug's written value as it was |
| Recipes.Run | nodex/utils.py:64-74 | a plan run removes no connection and, when it succeeds, got through every step, has written every attribute it sets, and answers the result target as converted by a class that accepts it |
| Recipes.Execute | nodex/utils.py:64-74 | carrying a plan out on the store agrees with the plan-run function |
| Recipes.ExecuteSteps | nodex/utils.py:66-68 | the step loop agrees with the step-run function |
| Recipes.MathRecipe | nodex/core.py:316-339 | `Math.<name>` is an entry of the table bound to that name, None iff the name is not bound |
| Recipes.LastBinding | nodex/core.py:316-322 | the binding found is the last of that name in the class body |
| Recipes.MathTableContract | nodex/core.py:316-339 | each entry is named after its attribute and binds operation codes its builder accepts: 1-3 for plusMinusAverage and multiplyDivide, 0-5 for condition, none for clamp and the double-linear builders |
| Recipes.MathSumIsPlain | nodex/core.py:316-322 | `Math.sum`, bound twice, is the plain sum with operation 1 and no fixed dimension |
| Core.ConstructContract | nodex/core.py:40-88 | None data or a base class without data is a `TypeError`; an existing Nodex comes back unchanged; an explicit subclass is checked against the data; the base class raises `UndefinedNodexError` iff no registry class accepts; the new object holds the converted data |
| Core.ConstructSpec | nodex/core.py:40-88 | an explicit class leaves the cache alone, and the base class keeps it or fills an empty one; a new object holds data as converted by its own class |
| Core.WrapIsConstruct | nodex/core.py:81-88 | wrapping a reference is `Nodex(r)` on the base class without a preferred type |
| Core.Nodex.New | nodex/core.py:40-88 | the constructor method answers as the construction function: the same object, an error, or a fresh object of the chosen class with no cached dimension |
| Core.Nodex.SetReference | nodex/core.py:99-104 | the cached dimension is always dropped; refused data is a `TypeError` and keeps the reference; otherwise the converted data is stored |
| Core.Nodex.ClearValue | nodex/core.py:208-213 | no default is a `RuntimeError` with nothing changed; otherwise the default is set with validation, and the cached dimension is dropped whenever a default exists, even when validation then refuses it |
| Core.Nodex.Dimensions | nodex/core.py:150-163 | the answer is the reference's dimension; only a single plug's dimension is cached |
| Core.Nodex.GetItem | nodex/core.py:282-296 | subscripting a tuple at an element that is not a plug returns that element as it is; any other part comes back in a fresh wrapper of the class found for it, holding that class's conversion, with no cached dimension; errors of subscripting or wrapping pass through |
| Core.Nodex.Connect | nodex/core.py:215-273 | both dimensions are computed and cached for plugs, then the graph and cache change exactly as the reconciler says |

## Left out

- Core.Nodex.Connect: takes `other` as a Nodex. The conversion `Nodex(other)` of raw data (`nodex/core.py:227-228`) is done by the caller.
- The two-argument form of `Nodex(node, attr)` (`nodex/core.py:56-59`) is left out: it is pymel's own parsing of names.
- The `dt()` branch of `__new__` (`nodex/core.py:52-53`) is left out. Every class reaching `__new__` is a Nodex class, so that branch is never taken.
- Plug names given as strings, and any parsing of them, are left out: plugs are abstract numbers. The condition result `"<node>.outColorR"` is the plug it names.
- The first, shadowed `value` definition (`nodex/core.py:122-128`), `__str__`/`__repr__`, `node()`, `asAttribute` and `Math.bimath` are left out.
- Logging and the `VERBOSE` debug messages are left out.
- Node creation is left out. A recipe's node and its attributes come in as a naming function from attribute names to plugs; node names and their uniqueness are the host's business.
- Recipes.MultiplyDivide: inputs and output are references. The `Nodex(...)` conversion it applies to raw inputs is not applied to them.
- Recipes.Condition: terms are references. The `Nodex(...)` conversion it applies to raw terms is not applied to them.
- `clamp` and `doubleLinear` (`nodex/utils.py:100-136`) are left out: they call helpers that are not defined anywhere, so they have no behaviour to state. They appear only as entries of the `Math` table.
- `nodex/datatypes.py` is not part of this model. The registry is generic over datatype classes.
- Numbers are integers. Floating-point values, booleans, matrices and the numeric results the host nodes compute are left out.
- Refs.ItemData: the element lists of array plugs are fixed. Negative subscripts of an array plug count as out of range, and elements created on demand by the host are not modelled. The error classes for an array subscript out of range (`IndexError`) and for subscripting a leaf plug (`TypeError`) are raised by the host's attribute lookup, not by nodex; they are assumed. Only the `TypeError` of an array slice follows from nodex's own code (`nodex/core.py:288-289`).
- Slices with a step are not modelled.
- Reconcile.Connect: the recursion depth is bounded by `fuel`. Running out is `RecursionLimit`, which stands in for Python's recursion limit.
- Registry.SortByPriority: the order among classes of equal priority is not stated.
- Rewire.AttrReplaceOutputs: the order in which readers are moved is left open. The host's `outputs()` order is not modelled.
- Reconcile.ConnectEqual: connecting a single plug to a tuple destination is taken to raise `TypeError` with nothing changed. pymel's `Attribute.connect` is given a tuple there, and its reaction is not part of this model. The same goes for Reconcile.ConnectElement when a plug element meets a target that is a tuple or missing, and for ReconcileLaws.PlugIntoLargerCompoundFails, which rests on it.
- Graph.ConnectEdge: re-making a connection that already exists succeeds and changes nothing. The host is taken to accept it.
- Refs.ItemData: a slice of a compound plug is a Python list of its children. It is treated as a tuple of plugs.
- Reconcile.ConnectElement: a plug element of a tuple is taken to be a raw host attribute, so it is connected plug to plug. An element that is a Nodex object wrapping a plug (`nodex/core.py:144`, `186-187`) is not modelled: its own `connect` with dimension reconciliation (`nodex/core.py:241-242`) is not run for it. In the same way, Reconcile.WrapItem and Core.Nodex.GetItem give a fresh registry wrapper for a plug element, where the source hands back the Nodex object the tuple holds (`nodex/core.py:72-73`, `294-296`); that object's identity is not modelled.
- Core.Nodex.GetItem: an element of a tuple that is not a plug is returned as the reference it holds. Its own class and any state of that Nodex object are not tracked.
