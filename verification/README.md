# Verification of NilAway's inference, flow and assertion-tree core

NilAway reports Go programs in which nil may reach a place that cannot take it. It works in two layers, and this
project models the algorithmic core of both.

**Inference across packages** (`OrderedMap`, `LiveMap`, `Annotation`, `InferredMap`, `Constraints`, `Explanation`,
`Progress`, `Effects`, `Verdict`, `Engine`, `Batches`, `Export`, `Incremental`, `Modular`, `Forgetting`, `Minimality`,
`Closure`, `Accumulation`, `Continuation`, `Packages`, `Runs`, `AlwaysSafe`, `Diagnostic`, `Reporting`). Annotation
sites are nilable, nonnil or open; full triggers relate a producer to a consumer. The engine keeps an implication graph
of open sites, determines sites as soon as they are forced, throws away implications that touch determined sites, wakes
controlled triggers in the middle of a propagation, and at the end exports a part of its map to later packages. The
central question is what all this bookkeeping means. `Constraints` gives the reference meaning, in which no engine
occurs: a labelling of sites, facts that it satisfies or not, and the labels that a set of facts forces. The engine
carries a ghost history of everything observed, and the main theorems say, for every run of every sequence of
observations and every order of activations:

- conflicts are reported exactly if what was observed has no solution, and without a conflict the labels are exactly
  those that are forced (`Verdict.VerdictIsExact`, `Accumulation.OrderIndependent`); that dropping implications at
  determined sites loses nothing is part of it;
- for batches of triggers, verdict and labels depend on nothing but the inputs: `Batches` says with facts alone which
  triggers of a batch take effect, the engine computes that (`Accumulation.AnalyzePackage`), and
  `Batches.OversleptExactly` says exactly when it is what all triggers together mean;
- importing an export in place of the whole map changes neither the verdict nor a visible label, controlled triggers
  included, exactly if nothing is forgotten, which without a conflict is always so (`Continuation.ModularAgrees`; on the
  engines `Continuation.ContinueOrImport`, end to end `Continuation.TwoPackages`), and so for any number of packages
  (`Packages.AllPackages`);
- a conflict does not stop the analysis: for each trigger that was built, before or after it, woken or not, there is the
  label or the edge that it asks for, or a label that makes the edge needless, or a conflict that cites the trigger or
  crosses an edge between its two sites (`Effects.WhatWasBuilt`);
- every conflict is reported as one contiguous path from a source to a sink whose constraints were observed or imported,
  at the place of the last one (`Reporting.ReportsAreAccounted`, `Reporting.ReportedAtTheSink`), and there is a conflict
  exactly if what was observed or imported, and is awake, leads from a source to a sink (`Reporting.ConflictIsLeak`).

**Analysis within a function** (`RichCheckFlow`, `RichCheckEffects`, `PostOrder`, `TriggerSlices`, `AssertionTree`,
`AssertionPaths`, `RootAssertionNode`, `ParallelAssignment`). The propagation of rich check effects ("this error was
checked, so that value is safe") over a control flow graph is proved to reach the least fixed listing in at most as
many rounds as there are blocks, and it is characterised exactly: which blocks an effect ends up at. The assertion tree,
a tree of access paths with the consumers that wait at them, is given a meaning, the consumers and guards at each path;
merging is a join in that meaning, the fixed-point comparison decides equality of meanings, an assignment of many
expressions is one simultaneous substitution, and productions move every consumer into a full trigger.

## Reading the model

- Code that updates state step by step is a class or a method with loops (`Engine`, `InferredMap`, `LiveMap`,
  `OrderedMap`, `SiteChooser`, `PostOrder`, `RootAssertionNode`, the effect loops); what these compute is specified by
  functions and predicates on values, about which the lemmas are. `LiveMap` is the inferred map with its edge lists as
  objects in memory. Iteration over a Go map is iteration in an arbitrary order.
- A site is a value; `Site.Exported` is its flag. `ref` in a trigger stands for pointer identity, `repr` and `position`
  for what messages show.
- `Determined`, `Undetermined`, `Labelled`, `Flows`, `FlowsBack` read the inferred map. `Quiescent` is the graph
  invariant between observations; inside an observation `Consistent(m, todo)` also allows for the implications that are
  still to be propagated on the call stack.
- `Fact` is an observed constraint: a label, an implication, or an assertion guarded by its controller.
  `Dormant` triggers are those controlled ones that were never built.
- Shallow equality of tree nodes, and equality of annotations together with the expression consumed, are equivalence
  relations; `id`, `key` and `producer` stand for the classes. `Says(t, p, k)` is what tree `t` says about consumer `k`
  at path `p`: nothing, or its guards and whether they were matched.

## Where the code and its documentation differ

- `inference/inferred_map.go:31-32` calls the undetermined sites closed under implicants and implicates. They are not:
  if x implies y, and then y is annotated nilable, x stays undetermined and keeps its edge to y (`Runs.ClosureIsLost`).
  The observation of a label keeps them closed exactly if every edge is dragged along as a whole or not at all
  (`Closure.ClosedAfterLabel`, on the engine `Closure.ObserveOneLabel`), and that of an edge between open sites always
  does (`Closure.ClosedAfterImplication`). `Quiescent` is what the code keeps in any case.
- `inference/engine.go:302-331` replaces the controller table with each batch and activates triggers only when a site is
  determined. So a trigger whose controller was nilable before its batch never fires
  (`Runs.ControllerNilableBeforeBatch`), and neither does one whose controller turns nilable in a later batch
  (`Runs.ControllerNilableAfterBatch`): both are runs with no conflict although nothing satisfies what was observed. A
  controlled trigger fires exactly if its controller turns nilable during its own batch (`Batches.FiresInItsBatch`,
  `Batches.NeverFiresLater`), and `Batches.OversleptExactly` says exactly when this does not matter.
- `rich_check_effect.go:675-682` promises an effect to a block if every path to it leaves the effect valid. That is met
  exactly where no cycle lies between (`RichCheckFlow.DocumentedUnlessCycle`); a loop header never gets an effect from
  before the loop (`RichCheckFlow.LoopMissesOut`), because its predecessor inside the loop would have to have it first.
- `inference/inferred_map.go:170-174` calls the exported set minimal, with no site that could be forgotten. It is the
  least convex set that has every exported site (`Export.KeptIsLeastConvex`). But the entry of any one hidden site could
  be dropped, because its edges are recorded at their other ends as well (`Minimality.OneEntryIsSpare`); and a hidden
  site could be forgotten altogether exactly if there is a way around it wherever the map leads from one exported site
  to another (`Minimality.ForgettableExactly`).
- After a conflict, importing an export need not say what the whole map says: an edge known upstream can be lost from
  the map and is not lost from the import. `Runs.ActivationLosesAnEdge` is such a run. An edge is lost exactly if its
  source is nilable and its target nonnil (`Forgetting.ForgottenEdge`), and import and map agree for every later package
  exactly if no route of imported edges between exported sites is forgotten (`Forgetting.ModularExactly`). Without a
  conflict nothing is lost, which is part of the engine's invariant, and without upstream facts the theorem holds
  whatever conflicts there were (`Modular.ModularIsWholeFromScratch`).
- `inference/engine.go:215-219` looks up the position of a trigger in the slice that is being compacted. A repeated
  trigger is lost if its first copy moved to where a dropped one was (`AlwaysSafePaths.RepetitionIsLost`); the filter is
  right exactly if there is no such repetition (`AlwaysSafePaths.FilterInPlace`). Triggers are compared by the pointers
  to their producer and consumer, and a duplicated trigger gets a new one of them
  (`assertion/function/analyzer.go:371-384`), so no way is known in which a repetition reaches the filter.
- `ProcessEntry` (`root_assertion_node.go:1048-1055`) loops until no child is left. It ends exactly if every child's
  built expression is parsed back to that child (`RootAssertionNodes.RootAssertionNode.ProcessEntry`).

## Model

| member | source | states |
|---|---|---|
| InferenceEngine.Engine.ObserveSiteExplanation | inference/engine.go:397-456 | keeps the graph invariant whatever re-enters; an open site is labelled with exactly this reason, a known one is left alone or contradicted by exactly one conflict of both reasons; a site made or contradicted as nilable wakes everyone who waits for it; no new conflict means the new constraints are the old ones and the label, a new conflict that the label contradicts them; terminates |
| InferenceEngine.Engine.StoreDeterminedAndActivate | inference/engine.go:461-464 | fewer open sites than before, the label is stored, and exactly the propagations still owed remain |
| InferenceEngine.Engine.ReportOverconstraint | inference/engine.go:420-434 | exactly the conflict of the known reason with the new one, and then every trigger that waits for the site is built and leaves its mark on the labels, edges or conflicts all the same |
| InferenceEngine.Engine.ActivateControlledTriggers | inference/engine.go:469-475 | every trigger waiting on a site that turned nilable, or was contradicted as such, is built and leaves its mark, none out of turn, and nothing known is lost |
| InferenceEngine.Engine.PropagateNilable | inference/engine.go:440-447 | every implicate is observed nilable although the recursion may determine some of them first |
| InferenceEngine.Engine.PropagateNonnil | inference/engine.go:448-455 | the same backwards, for implicants and nonnil |
| InferenceEngine.Engine.BuildFromSingleFullTrigger | inference/engine.go:333-379 | building a trigger observes exactly "if the producer yields nil, the consumer accepts it", for all kinds of producer and consumer: a conflict of its own, a label or a conflict with its reason, or an edge, after earlier conflicts as well |
| InferenceEngine.Engine.ObserveImplication | inference/engine.go:495-544 | at an undetermined pair the edge is stored at both ends; at a determined site the implication is a label or says nothing new; no other edge appears but those of woken triggers |
| InferenceEngine.Engine.ObserveAnnotations | inference/engine.go:133-142 | the history gains exactly the annotations; each is stored as a label or is a reason of a conflict, and wakes who waits for it, whatever conflicts there were |
| InferenceEngine.Engine.ObserveUpstream | inference/engine.go:83-129 | the history gains exactly the facts of the imported maps, each label is stored or is a reason of a conflict and each edge is held, says nothing more or is crossed by a conflict, and the snapshot equals the map |
| InferenceEngine.Engine.GroupByController | inference/engine.go:303-320 | the table holds, for each controller, exactly its triggers |
| InferenceEngine.Engine.BuildPkgInferenceMap | inference/engine.go:302-331 | the history gains exactly the batch; every uncontrolled trigger is built and leaves its mark, before and after conflicts, a controlled one with a nilable controller is built exactly if the controller was not nilable at the start, and nothing outside the batch is |
| InferenceEngine.Engine.StartBatch | inference/engine.go:303-320 | replacing the controller table keeps the invariant and leaves the new controlled triggers dormant |
| Effects.ActedThen | inference/engine.go:333-544 | what a step does to labels, edges, waiting triggers and conflicts it does within longer runs, through any re-entrant activation |
| Effects.StillAllMet | inference/engine.go:302-544 | over a whole run every trigger that was ever built keeps the mark that it left |
| Effects.WhatWasBuilt | inference/engine.go:333-379 | conflicts or not, a built trigger with an always-nil producer and an always-nonnil consumer is a conflict, one with a single site has labelled it or is a reason of a conflict, and one from a nilable to a nonnil site is an edge that the reason of a conflict crosses |
| Verdict.FaithfulStep | inference/engine.go:333-544 | each finished observation keeps the correspondence between state and history |
| Verdict.VerdictIsExact | inference/engine.go:333-456 | a conflict is reported iff what was observed, dormant triggers apart, is unsatisfiable; otherwise the labels are exactly the forced ones |
| Verdict.WholeVerdictIsExact | inference/engine.go:302-331 | with no nilable controller of a dormant trigger, the verdict is that of all clauses and the nilable sites are their least solution |
| Batches.BatchVerdict | inference/engine.go:302-331 | a batch is free of conflicts iff what was in effect and what comes in time has a solution |
| Batches.BatchNilables | inference/engine.go:302-331 | the nilable sites after a batch are those that the same facts force |
| Batches.BatchSays | inference/engine.go:302-331 | what a batch adds to the meaning of the map is exactly what takes effect |
| Batches.FiresInItsBatch | inference/engine.go:320-331 | a controlled trigger is built iff its controller turns nilable during its batch |
| Batches.FiresOnlyInItsBatch | inference/engine.go:303-331 | over a whole run, a controlled trigger of one batch is built in the end iff its controller turned nilable during that batch |
| Batches.OversleptExactly | inference/engine.go:302-331 | a conflict is always real; without one the nilable sites are the least solution of all that was given iff each overslept trigger holds all the same |
| Accumulation.OrderIndependent | inference/engine.go:302-544 | two runs with the same history have the same verdict, and without a conflict the same triggers awake and the same labels, nilable and nonnil, whatever their orders |
| Accumulation.BatchesInAnyOrder | inference/engine.go:302-331 | the same inputs with each batch in whatever order: the same verdict and the same labels, no condition attached |
| Accumulation.FreshBatchIsExact | inference/engine.go:302-331 | a batch none of whose controllers is nilable at its start oversleeps nothing of its own |
| Runs.ControllerNilableBeforeBatch | inference/engine.go:320-331 | a run in which the argument of a call is nilable before the batch: no conflict although nothing satisfies the history |
| Runs.ControllerNilableAfterBatch | inference/engine.go:303-331 | a run of two batches in which a controller turns nilable one batch too late, with the same outcome |
| Runs.ActivationLosesAnEdge | inference/engine.go:437-475 | a run in which a duplicated trigger, woken behind one edge, makes the target of the next edge nonnil: the upstream edge disappears, and the import has no solution although the map has one |
| Runs.ClosureIsLost | inference/inferred_map.go:28-32 | a run after which an open site implies a determined one |
| Closure.ClosedAfterLabel | inference/inferred_map.go:28-32 | a label that contradicts nothing and wakes nobody keeps the open sites closed iff no edge is dragged along by one end only, for nilable and nonnil labels |
| Closure.ObserveOneLabel | inference/engine.go:397-456 | the engine's observation of a label is such a step |
| Closure.ClosedAfterImplication | inference/inferred_map.go:71-84 | an edge between open sites keeps them closed |
| Closure.LabelsAfter | inference/engine.go:440-455 | the labels afterwards: the old ones, the new one, and those of the sites on walks from it, or to it |
| Accumulation.ObserveBatches | accumulation/analyzer.go:129-137 | batch after batch, the state is what the facts in effect mean |
| Accumulation.SnapshotSaysUpstream | inference/engine.go:83-129 | without a conflict the snapshot means exactly what the upstream facts say |
| Accumulation.AnalyzePackage | accumulation/analyzer.go:104-143 | upstream, annotations, two batches, reports and export in sequence: verdict and labels are those of the facts in effect, every input is heard and every uncontrolled trigger is built whatever conflicts there are, every conflict is reported with a path of observed or imported constraints, and the export is of what was inferred |
| Continuation.ContinueOrImport | accumulation/analyzer.go:104-143 | a later package, controlled triggers and all, after conflicts or not: an engine that continues is exact, and one that imports the export agrees with it on conflicts and on all labels of visible sites if nothing was forgotten |
| Continuation.TwoPackages | accumulation/analyzer.go:104-143 | upstream facts, a package, its export, and a second package that imports both: the second verdict and its visible labels are those of the first map and the second package if nothing was forgotten, and of all facts together if the first had no conflict |
| Continuation.ImportInto | accumulation/analyzer.go:104-115 | the second package, whatever conflicts the first one had |
| InferenceEngine.Engine.HandOver | inference/engine.go:83-129 | the map of one package alone is what the next finds |
| Continuation.ModularAgrees | inference/inferred_map.go:99-128 | no later package can tell the import from the map iff nothing is forgotten, conflicts or not |
| Packages.AllPackages | accumulation/analyzer.go:104-143 | any number of packages, siblings included: all exports together have the same verdict and the same visible labels as everything that the packages say |
| Packages.AnalyzedExports | accumulation/analyzer.go:104-143 | what an analyzed package exports stands for what it adds |
| Continuation.AgreesAfter | inference/engine.go:302-331 | fact sets that agree on visible facts agree on every later batch and on what takes effect in it |
| Constraints.QuiescentModels | inference/inferred_map.go:28-32 | a quiescent map is satisfied by making every open site nonnil, and by making every open site nilable |
| Constraints.LabelsAreExact | inference/inferred_map.go:28-32 | a site is labelled exactly if all models of the map agree on it |
| Constraints.LabelTheory | inference/inferred_map.go:65-68 | storing a label, with the propagation it owes, adds exactly that label to what the map means |
| Constraints.ImplicationTheory | inference/inferred_map.go:71-84 | storing an edge adds exactly that implication |
| InferredMaps.LabelConsistent | inference/engine.go:440-455 | a stored label leaves the graph consistent up to what it owes |
| InferredMaps.ImplicationConsistent | inference/inferred_map.go:71-84 | a stored edge leaves the graph consistent |
| InferredMaps.InferredMap.StoreDetermined | inference/inferred_map.go:65-68 | the label goes to its key, in place or at the end |
| InferredMaps.InferredMap.StoreImplication | inference/inferred_map.go:71-84 | the edge is recorded at both ends and nothing else changes, new keys and edges go last; the type assertions hold for undetermined or absent sites |
| InferredMaps.InferredMap.SnapshotUpstream | inference/engine.go:124-128 | the snapshot has the value of the map |
| OrderedMaps.CopyMap | inference/inferred_value.go:76-90 | a new map of new cells with the same contents in the same order |
| OrderedMaps.ViewIsUnique | util/orderedmap/orderedmap.go:37-45 | cells that are not written to keep what the map holds |
| LiveMaps.StoreBeside | util/orderedmap/orderedmap.go:77-91 | storing into one edge list in place changes no list that shares no cell with it |
| LiveMaps.WrittenAt | inference/inferred_map.go:82-83 | a write to one list shows at one site of the live map, in one direction, and nowhere in the snapshot |
| LiveMaps.LiveMap.StoreDetermined | inference/inferred_map.go:65-68 | in memory as on values, and the snapshot stays as it is |
| LiveMaps.LiveMap.StoreImplication | inference/inferred_map.go:71-84 | both edge lists are written in place: the live map gains exactly the edge as on values, and the snapshot stays as it is |
| LiveMaps.LiveMap.SnapshotAt | inference/inferred_value.go:52-90 | the copied value means the same, and no edge list or cell gets a second owner |
| LiveMaps.LiveMap.Snapshot | inference/engine.go:124-128 | a deep copy: the snapshot equals the map and shares nothing with it |
| Progress.LabelStep | inference/engine.go:461-464 | the state step of storing a label: sound, growing, exact, and nothing sleeps except at the site |
| Progress.ImplicationStep | inference/engine.go:495-544 | the state step of storing an implication |
| Progress.ConflictStep | inference/engine.go:420-434 | the state step of reporting a conflict: it is substantiated and the label contradicts what is known |
| Progress.PropagationStep | inference/engine.go:440-455 | propagating across one owed implication settles it |
| Progress.FirstInLineVia | inference/engine.go:437-475 | what comes first when a site turns nilable: the trigger waiting there, or whatever comes first behind its first edge, and before its other edges are followed |
| Progress.ConnectedThen | inference/engine.go:397-544 | edges come from what was observed and from triggers that were woken, over any number of steps |
| Progress.ExactThen | inference/engine.go:397-475 | steps compose, also when the second was implied by the first |
| Explanation.LabelExplained | inference/explained_bool.go:125-183 | every label keeps having a finite reason in observed constraints |
| Explanation.SubstantiatedMonotone | inference/engine.go:420-434 | a reported conflict stays backed by observed constraints |
| Export.SiteChooser.MarkReachableFromExported | inference/inferred_map.go:180-194 | marks hidden sites reachable from exported ones, whatever the other walk did before, and closes under edges |
| Export.SiteChooser.MarkReachesExported | inference/inferred_map.go:196-210 | the same backwards |
| Export.SiteChooser.MarkRoot | inference/inferred_map.go:212-231 | an exported site is kept and its edges start both walks |
| Export.ChooseSitesToExport | inference/inferred_map.go:170-232 | exactly the mapped exported sites and the open sites between exported open ones, independent of any order |
| Export.KeptIsConvex | inference/inferred_map.go:170-174 | an open site on a walk between kept sites is kept |
| Export.KeptIsLeastConvex | inference/inferred_map.go:170-174 | every convex set with all exported sites contains what is kept |
| Minimality.PartExactly | inference/inferred_map.go:166-174 | a part of the map serves every later package iff it still leads wherever the map leads from one exported site to another |
| Minimality.OneEntryIsSpare | inference/inferred_map.go:170-174 | the entry of any one hidden site could be dropped from the export |
| Minimality.ForgettableExactly | inference/inferred_map.go:170-174 | a hidden site could be forgotten altogether iff there is a way around it |
| Incremental.InferredValDiff | inference/inferred_value.go:110-153 | nothing, the label, or exactly the new edges in their order; the flag is true iff there is a label where there was none or an edge that the old value lacks, and then the diff holds something |
| Incremental.DiffIsLossless | inference/inferred_value.go:110-153 | old edges and diff are disjoint and make up the new edges |
| Incremental.GrowthSupersedes | inference/inferred_value.go:110-153 | a map that only grew never reaches the does-not-supersede panic |
| Incremental.ExportMap | inference/inferred_map.go:105-128 | exports exactly the kept sites that say more than upstream does, each with what upstream does not say, in the order of the map |
| Incremental.ExportedExactly | inference/inferred_map.go:105-128 | an entry for a site known upstream holds a label or at least one edge, and there is one exactly if there is something new |
| Modular.ModularIsWhole | inference/inferred_map.go:99-128 | upstream facts and the export in place of the whole map: same satisfiability and same forced labels of visible sites, for all visible constraints |
| Modular.ModularIsWholeFromScratch | inference/inferred_map.go:99-128 | the same for the export alone when there are no upstream facts, conflicts or not |
| Modular.ExtendedModels | inference/inferred_map.go:170-174 | a labelling of the kept part extends to the whole map with the same visible labels |
| Forgetting.NothingLostExactly | inference/inferred_map.go:99-128 | the map still says what upstream said iff every upstream edge is there or settled by a label |
| Forgetting.ModularExactly | inference/inferred_map.go:99-128 | import and map agree for every later package iff no route of imported edges between exported sites is forgotten |
| Forgetting.NothingForgottenSuffices | inference/inferred_map.go:99-128 | and then they force the same visible labels, after conflicts too |
| Forgetting.ForgottenSeparates | inference/inferred_map.go:99-128 | a forgotten route gives a later package on which the two differ |
| Forgetting.ForgottenEdge | inference/engine.go:440-455 | an exported upstream edge is forgotten iff its source is nilable and its target nonnil; then the import alone has no solution |
| Forgetting.NothingLostIsEnough | inference/inferred_map.go:99-128 | without a conflict nothing is forgotten |
| OrderedMaps.OrderedMap.Load | util/orderedmap/orderedmap.go:54-75 | agrees with the pairs, with or without the index |
| OrderedMaps.OrderedMap.Store | util/orderedmap/orderedmap.go:77-91 | a map update that keeps the position of known keys; panics exactly if the index is lost and there are no pairs |
| OrderedMaps.OrderedMap.Rehydrate | util/orderedmap/orderedmap.go:93-102 | rebuilds the index without changing the contents |
| OrderedMaps.Transmit | inference/inferred_map.go:133-161 | encoding and decoding: new cells, the same contents in the same order, no index; what is decoded loads and stores like the original |
| OrderedMaps.IndexSize | util/orderedmap/orderedmap.go:93-102 | a complete index has as many entries as pairs, so the size tells a complete index from a lost one |
| OrderedMaps.IndexUnique | util/orderedmap/orderedmap.go:93-102 | a rebuilt index is the lost one |
| AlwaysSafePaths.MarkDeleted | inference/engine.go:147-213 | marks exactly the placeholders and the guard-missing triggers at functions all of whose returns are safe |
| AlwaysSafePaths.FilterInPlace | inference/engine.go:215-219 | for all inputs, repetitions included: what survives, in order; nothing lost or gained but repetitions; and exactly what should remain iff no repetition is confused with a dropped trigger |
| AlwaysSafePaths.SurvivorsExactly | inference/engine.go:215-219 | the exact condition, on the input alone |
| AlwaysSafePaths.RepetitionIsLost | inference/engine.go:215-219 | an input on which a trigger that should stay is thrown away |
| Diagnostic.NilFlow.AddNilPathNode | diagnostic/nilflow.go:31-39 | prepends |
| Diagnostic.NilFlow.AddNonNilPathNode | diagnostic/nilflow.go:42-45 | appends |
| Diagnostic.DiagnosticEngine.AddSingleAssertionConflict | diagnostic/engine.go:134-147 | a flow of one node, at the consumer |
| Diagnostic.DiagnosticEngine.AddOverconstraintConflict | diagnostic/engine.go:149-199 | the reversed chain of nil reasons, then the chain of nonnil reasons; `ReportedFlowIsContiguous` says what they show and where that is reported |
| Diagnostic.ReportedFlowIsContiguous | diagnostic/engine.go:149-199 | the reported nodes show one contiguous path of constraints from a nil source to a nonnil sink through the conflict site, and the position is that of its last constraint |
| Reporting.Diagnose | diagnostic/engine.go:134-199 | each conflict of the engine becomes one report, in order |
| Reporting.ConflictHasPath | diagnostic/engine.go:134-199 | every conflict, single or overconstrained, is reported as a complete path, at the place of its last constraint |
| Reporting.ReportsAreAccounted | inference/engine.go:420-434 | every constraint on a reported path was imported, comes from a trigger that was built, or is an observed annotation, and the report is at the last one |
| Reporting.ReportedAtTheSink | diagnostic/engine.go:165-193 | every report is at a consumer of a built trigger that always refuses nil, whose two representations are shown last, at an observed nonnil annotation, or at an imported sink |
| Reporting.ConflictIsLeak | inference/engine.go:333-456 | there is a conflict iff what was observed or imported, and is awake, leads from a source to a sink |
| Reporting.UnsatisfiableIsLeak | inference/engine.go:333-456 | any constraints that nothing guards contradict each other iff they lead from a source to a sink |
| Diagnostic.ChainIsUniform | inference/explained_bool.go:125-183 | a chain has one truth value and ends at its only reason that is not deep |
| RichCheckFlow.RunIsLeast | assertion/function/assertiontree/rich_check_effect.go:683-788 | every round stays below every fixed listing above the start |
| RichCheckFlow.GrowthIsEarly | assertion/function/assertiontree/rich_check_effect.go:700-780 | a round that adds anything comes before round n on n blocks |
| RichCheckFlow.FixedIsExact | assertion/function/assertiontree/rich_check_effect.go:675-788 | an effect ends up exactly at its block and at the blocks that it reaches and all of whose routes neither invalidate it nor pass a block twice |
| RichCheckFlow.AcyclicIsExact | assertion/function/assertiontree/rich_check_effect.go:675-788 | without cycles, exactly where it can be reached and no route invalidates it |
| RichCheckFlow.DocumentedUnlessCycle | assertion/function/assertiontree/rich_check_effect.go:675-682 | the all-paths criterion: always necessary, sufficient exactly where no cycle lies between |
| RichCheckFlow.LoopMissesOut | assertion/function/assertiontree/rich_check_effect.go:675-682 | a graph with a loop that meets the criterion and gets nothing: its one-listing run is fixed, and no other run helps |
| RichCheckFlow.DeadStays | assertion/function/assertiontree/rich_check_effect.go:630-640 | effects of dead blocks stay there |
| RichCheckEffects.GenInitialRichCheckEffects | assertion/function/assertiontree/rich_check_effect.go:584-615 | a block starts with exactly the effects created there and not invalidated before its end; this is what propagation expects |
| RichCheckEffects.StripNoops | assertion/function/assertiontree/rich_check_effect.go:618-628 | drops the placeholders and nothing else |
| RichCheckEffects.GenPreds | assertion/function/assertiontree/rich_check_effect.go:630-640 | for each block exactly the live blocks that lead to it |
| RichCheckEffects.WeakPropagateRichChecks | assertion/function/assertiontree/rich_check_effect.go:647-673 | an effect is marked at a block exactly if a path leads there from its own block; terminates |
| RichCheckEffects.MergeSlices | assertion/function/assertiontree/rich_check_effect.go:790-819 | one effect for each class of both sides and no other; keeps a duplicate-free left side as a prefix |
| RichCheckEffects.PredEffects | assertion/function/assertiontree/rich_check_effect.go:713-748 | what some predecessor lists and every predecessor that it reaches lists |
| RichCheckEffects.OneRound | assertion/function/assertiontree/rich_check_effect.go:704-773 | is one round of the reference iteration, and the last one exactly if it changes nothing |
| RichCheckEffects.PropagateRichChecks | assertion/function/assertiontree/rich_check_effect.go:683-788 | ends after at most one round a block at a fixed listing, with one effect for each class; the bound on rounds is exceeded only on an empty graph |
| PostOrders.PostOrder.Visit | assertion/function/assertiontree/backprop.go:949-958 | keeps finished and stacked blocks apart, the stack on which each was visited, and every finished edge backwards or to a block on that stack |
| PostOrders.ComputePostOrder | assertion/function/assertiontree/backprop.go:942-965 | lists every reachable block once; an edge leads to an earlier block iff that block was not on the stack when its source was visited, and what was on the stack comes later |
| PostOrders.AcyclicIsReverseTopological | assertion/function/assertiontree/backprop.go:942-965 | without cycles, reverse topological order |
| TriggerSlices.MergeConsumeTriggerSlices | annotation/consume_trigger.go:2067-2102 | each key once, guards intersected and the matched flag conjoined, for all slices |
| TriggerSlices.JoinLaws | annotation/consume_trigger.go:2083-2090 | merging guards is commutative, associative and idempotent |
| TriggerSlices.ConsumeTriggerSliceAsGuarded | annotation/consume_trigger.go:2106-2117 | every consumer gains exactly the guards |
| TriggerSlices.GuardingDistributes | annotation/consume_trigger.go:2083-2117 | guarding what was merged is merging what was guarded |
| TriggerSlices.ConsumeTriggerSlicesEq | annotation/consume_trigger.go:2119-2135 | equal length and every left element on the right |
| TriggerSlices.SlicesEqIsSetEq | annotation/consume_trigger.go:2119-2135 | on slices without duplicates this is equality of the sets |
| TriggerSlices.DuplicatesMislead | annotation/consume_trigger.go:2119-2135 | with duplicates it is not |
| TriggerSlices.SlicesEqIsSameMeaning | annotation/consume_trigger.go:2119-2135 | on merged slices it decides whether both mean the same |
| TriggerSlices.FullTriggerSlicesEq | annotation/full_trigger.go:120-154 | the greedy matcher decides equality as multisets, up to what equals compares |
| TriggerSlices.MergeFullTriggers | annotation/full_trigger.go:156-192 | no trigger is lost or moved, a matched flag can only be lowered, and the pairs and unmatched pairs are exactly those of both sides |
| AssertionTrees.MergeInto | assertion/function/assertiontree/root_assertion_node.go:1447-1476 | a join: paths of both, consumers of both with guards intersected, siblings stay distinct |
| AssertionTrees.EqNodesIsSame | assertion/function/assertiontree/root_assertion_node.go:1167-1194 | the fixed-point comparison decides whether two trees say the same at every path |
| AssertionTrees.MergeCommutes | assertion/function/assertiontree/root_assertion_node.go:1447-1476 | commutative up to that comparison |
| AssertionTrees.MergeAssociates | assertion/function/assertiontree/root_assertion_node.go:1447-1476 | associative |
| AssertionTrees.MergeIdempotent | assertion/function/assertiontree/root_assertion_node.go:1447-1476 | idempotent |
| RootAssertionNodes.RootAssertionNode.MergeRoot | assertion/function/assertiontree/root_assertion_node.go:1447-1476 | merging roots joins the trees and merges the triggers |
| RootAssertionNodes.RootAssertionNode.EqRoot | assertion/function/assertiontree/root_assertion_node.go:1167-1194 | two roots are equal exactly if they say the same and have the same triggers, as multisets |
| AssertionPaths.WithoutKeeps | assertion/function/assertiontree/root_assertion_node.go:1007-1016 | cutting a subtree out removes what is below its path and nothing else |
| AssertionPaths.LinkedAt | assertion/function/assertiontree/root_assertion_node.go:250-262 | a linear tree holds what its last node holds, at the end of the path |
| AssertionPaths.CutIs | assertion/function/assertiontree/root_assertion_node.go:1030-1039 | the growth cut drops exactly a child that looks like its new parent without children |
| RootAssertionNodes.RootAssertionNode.LookupPath | assertion/function/assertiontree/root_assertion_node.go:310-339 | the node at the path, or nothing |
| RootAssertionNodes.RootAssertionNode.LiftFromPath | assertion/function/assertiontree/root_assertion_node.go:1007-1016 | takes the subtree out, whole |
| RootAssertionNodes.RootAssertionNode.LandAtPath | assertion/function/assertiontree/root_assertion_node.go:1025-1043 | a join with the subtree at its new path, apart from the growth cut |
| RootAssertionNodes.RootAssertionNode.TriggerProductions | assertion/function/assertiontree/root_assertion_node.go:362-419 | the triggers gain exactly what the subtree owes, index children with the deeper producer, and nothing is left to consume |
| RootAssertionNodes.RootAssertionNode.AddProduction | assertion/function/assertiontree/root_assertion_node.go:341-360 | a tracked subtree moves out of the tree into the triggers; an untracked one changes nothing |
| RootAssertionNodes.OwesIsAtSomePath | assertion/function/assertiontree/root_assertion_node.go:362-419 | what a subtree owes is exactly what its paths say |
| RootAssertionNodes.ProductionConserves | assertion/function/assertiontree/root_assertion_node.go:341-419 | every consumer of the subtree is in the triggers, with the producer of its node, and nothing else is new |
| RootAssertionNodes.RootAssertionNode.ProcessEntry | assertion/function/assertiontree/root_assertion_node.go:1048-1072 | ends iff every child is parsed back to itself; then no child is left and the triggers gain exactly what the children owe, otherwise a state comes that no further round changes |
| ParallelAssignment.BuildShadowMask | assertion/function/assertiontree/backprop.go:657-673 | shadowed exactly by a strict prefix to the left or a prefix to the right |
| ParallelAssignment.ActsExactly | assertion/function/assertiontree/backprop.go:640-656 | a trackable target counts exactly if whichever other one is a prefix of it is the same one further left |
| ParallelAssignment.ActiveTargetsAreAntichain | assertion/function/assertiontree/backprop.go:657-673 | no unshadowed trackable target is a prefix of another |
| ParallelAssignment.ActivePrefix | assertion/function/assertiontree/backprop.go:657-673 | every trackable target has an unshadowed prefix |
| ParallelAssignment.NextIsThere | assertion/function/assertiontree/backprop.go:690-730 | lifts commute: each subtree is lifted as it was at first |
| ParallelAssignment.AssignOneToOne | assertion/function/assertiontree/backprop.go:657-799 | the assignment is one simultaneous substitution on the tree, of consumers and of paths, and the triggers gain exactly the pairs of a consumer below an untracked target with the producer it meets there |
| ParallelAssignment.ValueIsMet | assertion/function/assertiontree/backprop.go:763-787 | the consumers at a target meet the producer of its value, those at an index of it the producer of the elements, the others what their node produces |
| ParallelAssignment.NeverIsMet | assertion/function/assertiontree/backprop.go:757-762 | the consumers at a target whose value is never nil meet the producer that never is |
| ParallelAssignment.ConsumersArrive | assertion/function/assertiontree/backprop.go:692-799 | a consumer below an active target is found below its source, growth cut apart |
| ParallelAssignment.ConsumersComeFrom | assertion/function/assertiontree/backprop.go:692-799 | no consumer is invented: it stayed, or was below an active target whose source leads to where it is |
| ParallelAssignment.OthersStayPut | assertion/function/assertiontree/backprop.go:692-799 | where nothing lands, what no target overwrites stays and the rest is gone |
| ParallelAssignment.SwapSwaps | assertion/function/assertiontree/backprop.go:640-656 | swapping two variables swaps their subtrees |

## Left out

- The repository's parsing of Go code into paths, producers and triggers, its hooks, affiliations, anonymous functions
  and struct initialisation: they need type-checker data, and parsed paths are the input here. Both struct-init flags
  are off.
- Steps 3 and 4 of `ObservePackage` and the error-return filter at the end of `ProcessEntry`: the heuristics are a
  parameter, the second batch of `Accumulation.AnalyzePackage`.
- The sorting of upstream facts by package path, and the gob and s2 encoding of facts: decoding is modelled as losing
  the index of an ordered map.
- Position repair in the primitivizer: sites are compared as they are.
- `LiveMap` keeps the two edge lists of every site in memory, as ordered maps of cells; the outer map from sites to
  values is one of values there, and the engine uses the value-level `InferredMap` that `LiveMap` refines.
- Assertion tree nodes are values, not linked objects: parent pointers, sharing of nodes and of consumer triggers
  between trees, and the in-place update of a shared consumer's guards are not modelled. The order of triggers and of
  children is modelled.
- Assignment entries that are added to consumers for messages, and phase two of the assignment, which adds
  consumptions for the right sides.
- The guard check on full triggers at the end of `ProcessEntry`, and the guard sets' own operations: set union and
  intersection stand for the loops over maps of nonces, which would only add easy members.
- `BackpropAcrossFunc`: it stops on a tuned number of stable rounds.
- Messages, grouping, configuration, `nolint` handling and concurrency between analyzers.
- RichCheckEffects.PropagateRichChecks: effects and what invalidates them are given; how nodes create effects is
  an input of `RichCheckEffects.GenInitialRichCheckEffects`.
- Continuation.ContinueOrImport: the engine that continues starts the later package with no trigger waiting and an empty
  list of conflicts; in the source, too, no trigger of an earlier package is woken by a later one, and conflicts are
  handed to the diagnostic engine as they arise.
- Packages.AllPackages: assumes that a package mentions hidden sites of no earlier one, and that packages which do not
  import each other export none of each other's hidden sites; a controlled trigger counts as it took effect in the
  package where it was analyzed.
- TriggerSlices.MergeFullTriggers: on values, so a consumer pointer that two roots share is not modelled.
- InferenceEngine.Engine.BuildPkgInferenceMap: assumes that no controlled trigger's consumer site is a controller, which
  is how controlled triggers are built (`assertion/function/analyzer.go:371-387`); without it the re-entrant activation
  need not end.
