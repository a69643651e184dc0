# PigPen combiner protocol in Dafny

This project models the combiner protocol of PigPen's Cascading back end (`PigPenAggregateBy`). A grouped aggregation is split into two small per-group state machines, one on each side of the shuffle:

- The **Partial** functor runs on the map side. The host hands it the current group's context with every raw value. The context is absent at group start, and the Partial then seeds it. The Partial folds each real value into the accumulator with the user's `prepare` and `reduce`. An instance flag `allSentinel` records whether a real value was seen. When the group closes, the Partial ships either the Sentinel marker or the encoded accumulator.
- The **Final** aggregator runs on the merge side. Its task context holds the resolved function handle, an accumulator and a flag. At every group start it resets them to the seed and a raised flag. It merges each non-Sentinel partial with `combine(decoded partial, acc)`. At group end it adds exactly one encoded accumulator to the output collector, or nothing when every partial was Sentinel.
- `getFields` names the result field `"agg_result" + argField` on both sides. `buildAssembly` builds one independent (Partial, Final) pair per requested aggregate.

Layout, one module per component:

| file | module | contents |
|---|---|---|
| combiner.dfy | `Combiner` | `Wire` (Sentinel or payload bytes), the user `Handle`, the `Codec`, the resolution `Registry`, and the reference folds `Payloads`, `Reduced`, `Combined` |
| fields.dfy | `Fields` | `getFields` |
| partial.dfy | `PartialSide` | the `Partial` class, its step function `PartialStep`, group runs and their lemmas |
| final.dfy | `FinalSide` | the `Final` and `Context` classes, the output `Collector`, their step function `FinalStep`, group runs and their lemmas |
| assembly.dfy | `Assemblies` | `PigPenAggregateBy` and `BuildAssembly` |
| pipeline.dfy | `Pipeline` | both sides together: Sentinel propagation, partial/full equivalence, and four sum scenarios driven through the classes |
| interleaving.dfy | `Interleaving` | the finding below: the instance-level flag under interleaved groups, and a per-group alternative |

Everything the source mutates is a class with `modifies` clauses. Each class method's `ensures` ties its new state to a pure step function (`PartialStep`, `FinalStep`, `FinalReset`, `FinalEmit`). Lemmas over those step functions prove what a whole group, a whole task and the two sides together do, against independent reference definitions: `PartialGroup` and `FinalGroup` are defined from the group's payloads alone, not from the step functions.

The source works on untyped objects. Here every value has one generic type `T`: the raw input value, the prepared elements and the accumulator. One `Codec<T>` serializes all of them, as the source's single serialize/deserialize pair does.

A few details of the code differ from how the protocol is usually described, and the model follows the code:

- Handle resolution happens inside Partial's `aggregate`, on the first call, not in a separate group-start step.
- Final's `complete` adds to an output collector rather than returning an optional value.
- Final reads its input from the field `"agg_result" + argField`, and Partial reads from `argField` itself.
- Partial's `allSentinel` is a field of the functor instance, not of the per-group context. See "## Findings".

## Model

| member | source | states |
|---|---|---|
| Fields.OutField | pigpen-cascading/src/main/java/pigpen/cascading/PigPenAggregateBy.java:139-141 | the result field is the prefix "agg_result" followed by the argument field name |
| Fields.OutFieldInjective | pigpen-cascading/src/main/java/pigpen/cascading/PigPenAggregateBy.java:139-141 | two argument fields share a result field if and only if they are equal |
| PartialSide.PartialStep | pigpen-cascading/src/main/java/pigpen/cascading/PigPenAggregateBy.java:47-64 | every aggregate call leaves a context, so the one the host keeps is never absent |
| PartialSide.PartialComplete | pigpen-cascading/src/main/java/pigpen/cascading/PigPenAggregateBy.java:67-73 | complete ships Sentinel exactly when the flag is raised, and otherwise the encoding of the context |
| PartialSide.PartialGroup | pigpen-cascading/src/main/java/pigpen/cascading/PigPenAggregateBy.java:47-73 | reference for one map-side group: it is Sentinel exactly when every value of the group is Sentinel |
| PartialSide.PartialRunOpen | pigpen-cascading/src/main/java/pigpen/cascading/PigPenAggregateBy.java:56-63 | inside an open group the context is the fold of the group's payloads in order, and the flag stays raised only while no payload has arrived |
| PartialSide.PartialRunFromStart | pigpen-cascading/src/main/java/pigpen/cascading/PigPenAggregateBy.java:52-63 | from an absent context the run starts from the seed with the flag raised, whatever flag the previous group left |
| PartialSide.PartialGroupCorrect | pigpen-cascading/src/main/java/pigpen/cascading/PigPenAggregateBy.java:47-73 | a whole map-side group, from absent context to complete, ships exactly its reference value |
| PartialSide.PartialSentinelNoOp | pigpen-cascading/src/main/java/pigpen/cascading/PigPenAggregateBy.java:56-58 | a Sentinel inserted anywhere in an open group changes neither the context nor the flag |
| PartialSide.PartialFlagSticky | pigpen-cascading/src/main/java/pigpen/cascading/PigPenAggregateBy.java:59-63 | once lowered inside a group the flag stays lowered whatever arrives next |
| PartialSide.PartialTaskCorrect | pigpen-cascading/src/main/java/pigpen/cascading/PigPenAggregateBy.java:31-31 | with contiguous groups on one instance, the i-th group ships its own reference value despite the shared flag |
| PartialSide.Partial.constructor | pigpen-cascading/src/main/java/pigpen/cascading/PigPenAggregateBy.java:35-39 | stores init, func and argField; the handle is not yet resolved |
| PartialSide.Partial.DeclaredField | pigpen-cascading/src/main/java/pigpen/cascading/PigPenAggregateBy.java:42-44 | the declared output field is "agg_result" + argField |
| PartialSide.Partial.Aggregate | pigpen-cascading/src/main/java/pigpen/cascading/PigPenAggregateBy.java:47-64 | resolves the handle only when none is cached, and the resolution count grows by exactly one then and by none otherwise; an absent context seeds the group and raises the flag; a Sentinel returns the context unchanged and leaves the flag alone; a payload lowers the flag and returns reduce(prepare(decode(val)), acc) |
| PartialSide.Partial.Complete | pigpen-cascading/src/main/java/pigpen/cascading/PigPenAggregateBy.java:67-73 | ships `PartialComplete` of the instance flag and the given context: Sentinel exactly when the flag is raised, and otherwise the encoded context |
| FinalSide.FinalReset | pigpen-cascading/src/main/java/pigpen/cascading/PigPenAggregateBy.java:99-102 | reset installs the seed as accumulator and raises the flag, independent of the previous state |
| FinalSide.FinalStep | pigpen-cascading/src/main/java/pigpen/cascading/PigPenAggregateBy.java:119-128 | one aggregate call: a Sentinel leaves the state unchanged; a payload sets the accumulator to combine(decode(payload), old acc); the flag stays raised exactly when it was raised and the value is Sentinel |
| FinalSide.FinalEmit | pigpen-cascading/src/main/java/pigpen/cascading/PigPenAggregateBy.java:131-136 | complete adds at most one tuple; it adds none exactly when the flag is raised; the tuple is the encoded accumulator |
| FinalSide.FinalGroup | pigpen-cascading/src/main/java/pigpen/cascading/PigPenAggregateBy.java:113-136 | reference for one merge-side group: at most one output, and none exactly when every partial is Sentinel |
| FinalSide.FinalRunOpen | pigpen-cascading/src/main/java/pigpen/cascading/PigPenAggregateBy.java:119-128 | the accumulator is the merge of the payloads in arrival order, each combined in as first argument; the flag falls at the first payload |
| FinalSide.FinalGroupCorrect | pigpen-cascading/src/main/java/pigpen/cascading/PigPenAggregateBy.java:99-136 | a whole merge-side group, from reset to complete, emits exactly its reference output |
| FinalSide.FinalSentinelNoOp | pigpen-cascading/src/main/java/pigpen/cascading/PigPenAggregateBy.java:123-127 | a Sentinel inserted anywhere in a group changes neither the accumulator nor the flag |
| FinalSide.FinalFlagSticky | pigpen-cascading/src/main/java/pigpen/cascading/PigPenAggregateBy.java:123-127 | once lowered the flag stays lowered until the next reset |
| FinalSide.FinalTaskCorrect | pigpen-cascading/src/main/java/pigpen/cascading/PigPenAggregateBy.java:99-136 | a task's output is the concatenation, in group order, of each group's own reference output; seed isolation itself holds because every group starts from `FinalReset`, which is `Context.Reset`'s ensures |
| FinalSide.Context.constructor | pigpen-cascading/src/main/java/pigpen/cascading/PigPenAggregateBy.java:95-97 | holds the handle; no accumulator yet and the flag lowered |
| FinalSide.Context.Reset | pigpen-cascading/src/main/java/pigpen/cascading/PigPenAggregateBy.java:99-102 | the accumulator becomes the seed and the flag is raised, whatever was there before |
| FinalSide.Final.constructor | pigpen-cascading/src/main/java/pigpen/cascading/PigPenAggregateBy.java:83-88 | stores init, func and argField |
| FinalSide.Final.DeclaredField | pigpen-cascading/src/main/java/pigpen/cascading/PigPenAggregateBy.java:84-84 | the declared output field is "agg_result" + argField, the same as the Partial's |
| FinalSide.Final.Prepare | pigpen-cascading/src/main/java/pigpen/cascading/PigPenAggregateBy.java:106-111 | resolves (init, func) once and creates a fresh context holding that handle |
| FinalSide.Final.Start | pigpen-cascading/src/main/java/pigpen/cascading/PigPenAggregateBy.java:114-116 | after start the context state is the seed with the flag raised |
| FinalSide.Final.Aggregate | pigpen-cascading/src/main/java/pigpen/cascading/PigPenAggregateBy.java:119-128 | reads the field "agg_result" + argField; a Sentinel changes nothing; a payload sets acc to combine(decode(val), old acc) and lowers the flag |
| FinalSide.Final.Complete | pigpen-cascading/src/main/java/pigpen/cascading/PigPenAggregateBy.java:131-136 | adds nothing when the flag is raised, and otherwise exactly one tuple, the encoded accumulator; the context is not modified |
| Assemblies.PigPenAggregateBy.constructor | pigpen-cascading/src/main/java/pigpen/cascading/PigPenAggregateBy.java:143-145 | builds a fresh Partial and a fresh Final from the same init, func and field; both declare the same result field |
| Assemblies.BuildAssembly | pigpen-cascading/src/main/java/pigpen/cascading/PigPenAggregateBy.java:147-153 | builds funcs.size() sub-assemblies; the i-th uses the i-th output field, init and func; each pair is freshly allocated and distinct from every other pair, with its Partial unresolved, its resolution count zero and its flag lowered; a shorter output-field or init list fails at the first missing index |
| Pipeline.PartialOutputs | pigpen-cascading/src/main/java/pigpen/cascading/PigPenAggregateBy.java:67-73 | the i-th shipped value is the reference value of the i-th partition |
| Pipeline.SentinelPropagates | pigpen-cascading/src/main/java/pigpen/cascading/PigPenAggregateBy.java:131-136 | if no partition of a group held a real value, the merge side emits nothing for the group |
| Pipeline.CombineReduced | pigpen-cascading/src/main/java/pigpen/cascading/PigPenAggregateBy.java:124-124 | when combine commutes with absorbing one raw value, merging a folded partial equals folding its raw payloads into the running value |
| Pipeline.PartialOutputsEmpty | pigpen-cascading/src/main/java/pigpen/cascading/PigPenAggregateBy.java:133-133 | the merge side sees a payload exactly when some partition held a real value |
| Pipeline.MergeOnePartial | pigpen-cascading/src/main/java/pigpen/cascading/PigPenAggregateBy.java:123-127 | merging one more partition's partial folds that partition's raw payloads into the running result |
| Pipeline.MergedPartials | pigpen-cascading/src/main/java/pigpen/cascading/PigPenAggregateBy.java:119-128 | the merge of all partials equals the map-side fold of all the group's raw payloads |
| Pipeline.PartialFullEquivalence | pigpen-cascading/src/main/java/pigpen/cascading/PigPenAggregateBy.java:47-136 | pre-aggregating per partition and merging gives what one map-side pass over the whole group ships, or nothing when that is Sentinel, given the three stated laws |
| Pipeline.SumLawsHold | pigpen-cascading/src/main/java/pigpen/cascading/PigPenAggregateBy.java:119-128 | the three laws that the partial/full equivalence requires hold for a sum aggregate with a sign-and-length integer codec, so they can be met |
| Pipeline.SumPartialFullEquivalence | pigpen-cascading/src/main/java/pigpen/cascading/PigPenAggregateBy.java:47-136 | for the sum aggregate, pre-aggregating per partition and merging gives what one map-side pass over the whole group ships, with no assumption left |
| Pipeline.ScenarioSumOneGroup | pigpen-cascading/src/main/java/pigpen/cascading/PigPenAggregateBy.java:47-136 | sum of 1, 2, 3: the Partial ships the encoding of 6 and the Final emits exactly that |
| Pipeline.ScenarioEmptyGroup | pigpen-cascading/src/main/java/pigpen/cascading/PigPenAggregateBy.java:56-58 | a group of Sentinels: the Partial ships Sentinel and the Final emits nothing |
| Pipeline.ScenarioTwoPartials | pigpen-cascading/src/main/java/pigpen/cascading/PigPenAggregateBy.java:114-136 | partials 3 and 4 after an earlier group of 100: the Final emits the encoding of 7 |
| Pipeline.ScenarioSentinelAndPayload | pigpen-cascading/src/main/java/pigpen/cascading/PigPenAggregateBy.java:119-128 | a Sentinel partial and a partial 5: the Final emits the encoding of 5 |
| Interleaving.InterleavedGroups | pigpen-cascading/src/main/java/pigpen/cascading/PigPenAggregateBy.java:52-53 | as written: a group holding a payload ships Sentinel once another group starts before it completes |
| Interleaving.InterleavedGroupsSpurious | pigpen-cascading/src/main/java/pigpen/cascading/PigPenAggregateBy.java:52-53 | as written, the other way round: a group holding only a Sentinel ships the encoded seed once another group with a payload starts before it completes, although alone it ships Sentinel |
| Interleaving.GroupStep | pigpen-cascading/src/main/java/pigpen/cascading/PigPenAggregateBy.java:47-64 | corrected aggregate step: a Sentinel into an open group leaves its context unchanged; a payload absorbs reduce(prepare(decode(val)), acc) from the group's own accumulator (the seed when absent); the group's flag stays raised exactly when it was raised (or the group is new) and the value is Sentinel |
| Interleaving.GroupComplete | pigpen-cascading/src/main/java/pigpen/cascading/PigPenAggregateBy.java:67-73 | corrected complete: Sentinel exactly when the group's own flag is raised, else the encoded accumulator |
| Interleaving.HostRunOpen | pigpen-cascading/src/main/java/pigpen/cascading/PigPenAggregateBy.java:47-64 | corrected: under any interleaving each open group's context is the fold of its own values only |
| Interleaving.HostRunCorrect | pigpen-cascading/src/main/java/pigpen/cascading/PigPenAggregateBy.java:47-73 | corrected: under any interleaving each group ships exactly its reference value |
| Interleaving.GroupedPartial.constructor | pigpen-cascading/src/main/java/pigpen/cascading/PigPenAggregateBy.java:35-39 | corrected functor: stores init, func and argField, unresolved |
| Interleaving.GroupedPartial.Aggregate | pigpen-cascading/src/main/java/pigpen/cascading/PigPenAggregateBy.java:47-64 | corrected aggregate: resolves once, and the flag travels in the group's context |
| Interleaving.GroupedPartial.Complete | pigpen-cascading/src/main/java/pigpen/cascading/PigPenAggregateBy.java:67-73 | corrected complete: ships `GroupComplete` of the group's own context, so the flag it reads is that group's |
| Interleaving.InterleavedGroupsPerGroup | pigpen-cascading/src/main/java/pigpen/cascading/PigPenAggregateBy.java:52-53 | corrected: the same interleaving ships the group's reference payload |

## Left out

- Function resolution (`RT.var`, `Var.invoke`, `OperationUtil.init`, `OperationUtil.getFn`) is foreign code. It becomes a `Registry` parameter from (init, func) to a handle. The Partial's lazy caching is modelled by the `fn` field and a ghost resolution count. Module initialisation side effects and resolution failures are not modelled.
- `OperationUtil.serialize`, `OperationUtil.deserialize` and `SENTINEL_VALUE` are not part of this model. The codec is a pair of total function parameters. The Sentinel is a constructor of `Wire`, so a payload equal to the sentinel object cannot be expressed. Codec round-trip is not assumed anywhere except in the requires of the partial/full equivalence lemmas and the scenarios.
- The seed is a fixed value of the handle. The source calls `get-seed-value` again at every group start. The model assumes that call is deterministic.
- The Clojure `aggregate-by-reducef` returns a whole tuple. The model returns the accumulator that the tuple holds.
- Exceptions are not modelled: a failing user function, a corrupt payload, or a missing argument field in the tuple entry. The user functions and codec are total. The argument field's presence is a requires, as the host's schema guarantees it.
- Cascading framework types are reduced to what the protocol uses. `FlowProcess` is dropped. A `TupleEntry` is a map from field names to wire values, and a one-field tuple is its value. The output collector is a `Collector` holding the added tuples. The `Pipe[]` argument of `buildAssembly` and the `AggregateBy` superclass wiring are not modelled; `AggregateBy` keeps only the name, key fields and sub-assemblies.
- FinalSide.Final.Aggregate: requires a context that some `start` has reset. Before the first reset the source's accumulator is null, and the host always calls `start` first.
- FinalSide.Final.Complete: requires a context that some `start` has reset, for the same reason.
- Partial `complete` with a null context is not modelled. The host only completes groups it has opened.
- Pipeline.PartialFullEquivalence: is proved under three laws the source assumes but never checks: codec round-trip, `combine(seed, b) == b`, and `combine(absorb(a, v), b) == absorb(combine(a, b), v)`. Without them the equivalence is not guaranteed. `Pipeline.SumLawsHold` shows that a sum aggregate meets all three; the laws are sufficient, and the model does not show that they are necessary.
- The host's scheduling is not modelled: task placement and distribution. For the per-group functor, `Interleaving.HostRun` covers every order in which the host may deliver values of open groups. The Partial as written is shown only on the two fixed traces of `Interleaving.InterleavedGroups` and `Interleaving.InterleavedGroupsSpurious`.

## Findings

| source | as written | input that shows it | evidently intended | confidence | as-written member | corrected member |
|---|---|---|---|---|---|---|
| pigpen-cascading/src/main/java/pigpen/cascading/PigPenAggregateBy.java:31 | `allSentinel` is one field of the Partial instance. It is raised at every group start (null context) and read by `complete` for whichever context is passed in. | On one Partial: group A gets a payload with a null context, so the flag is lowered. Group B then starts with a Sentinel and a null context, so the flag is raised again. Completing A now ships Sentinel, and A's value is lost at the merge side. | The flag belongs to the group's context, as the accumulator does, so each group completes to its own value under any interleaving. | medium, not executed; it happens only when the host keeps several groups' contexts open at once on the map side | Interleaving.InterleavedGroups | Interleaving.HostRunCorrect |
| pigpen-cascading/src/main/java/pigpen/cascading/PigPenAggregateBy.java:52-53 | Every null context raises the instance flag, whichever group it belongs to. | On one Partial: group A gets a Sentinel with a null context, so the flag is raised. Group B then gets a payload with a null context, so the flag is lowered. Completing A now ships the encoded seed instead of Sentinel, and the merge side emits a result for a group that held no real value. | Each group's flag is raised at its own start and lowered only by its own payloads. | medium, not executed; same condition as the row above | Interleaving.InterleavedGroupsSpurious | Interleaving.HostRunCorrect |
