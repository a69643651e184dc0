/**
 * Assembly of the aggregation: one (Partial, Final) pair per requested
 * output aggregate, all under one group key.
 */
module Assemblies {
  import opened Combiner
  import PartialSide
  import FinalSide

  /** One aggregate's sub-assembly: PigPen's `PigPenAggregateBy` for one output field. */
  class PigPenAggregateBy<T> {
    const argumentField: string
    const partial: PartialSide.Partial<T>
    const final: FinalSide.Final<T>

    /** Both halves are built from the same init, func and field; the Partial starts unresolved. */
    constructor (outputField: string, init: string, func: string)
      ensures argumentField == outputField
      ensures fresh(partial) && fresh(final)
      ensures partial.init == init && partial.func == func && partial.argField == outputField
      ensures final.init == init && final.func == func && final.argField == outputField
      ensures partial.fn == None && partial.Valid() && !partial.allSentinel
      ensures partial.DeclaredField() == final.DeclaredField()
    {
      argumentField := outputField;
      partial := new PartialSide.Partial(init, func, outputField);
      final := new FinalSide.Final(init, func, outputField);
    }
  }

  /** The host's composite assembly: a name, the group key fields and the sub-assemblies. */
  datatype AggregateBy<T> = AggregateBy(name: string, keyFields: seq<string>, assemblies: array<PigPenAggregateBy?<T>>)

  /** Reading past the end of one of the parallel lists. */
  datatype BuildError = IndexOutOfBounds(index: nat)

  datatype Result<R> = Success(value: R) | Failure(error: BuildError)

  /**
   * Builds one sub-assembly per entry of `funcs`; the i-th uses the i-th
   * output field, init and func. A shorter `outputFields` or `inits` list
   * fails at the first index it lacks; longer ones are ignored.
   */
  method BuildAssembly<T>(name: string, keyFields: seq<string>, outputFields: seq<string>, inits: seq<string>, funcs: seq<string>)
    returns (r: Result<AggregateBy<T>>)
    ensures r.Failure? <==> |outputFields| < |funcs| || |inits| < |funcs|
    ensures r.Failure? ==> r.error == IndexOutOfBounds(if |outputFields| < |inits| then |outputFields| else |inits|)
    ensures r.Success? ==> r.value.name == name && r.value.keyFields == keyFields
    ensures r.Success? ==> fresh(r.value.assemblies) && r.value.assemblies.Length == |funcs|
    ensures r.Success? ==> forall i :: 0 <= i < |funcs| ==>
              var a := r.value.assemblies[i];
              a != null && a.argumentField == outputFields[i]
              && a.partial.argField == outputFields[i] && a.partial.init == inits[i] && a.partial.func == funcs[i]
              && a.final.argField == outputFields[i] && a.final.init == inits[i] && a.final.func == funcs[i]
              && a.partial.fn == None && a.partial.Valid() && !a.partial.allSentinel
    ensures r.Success? ==> forall i :: 0 <= i < |funcs| ==>
              r.value.assemblies[i] != null && fresh(r.value.assemblies[i])
              && fresh(r.value.assemblies[i].partial) && fresh(r.value.assemblies[i].final)
    ensures r.Success? ==> forall i, j :: 0 <= i < j < |funcs| ==>
              r.value.assemblies[i] != null && r.value.assemblies[j] != null
              && r.value.assemblies[i].partial != r.value.assemblies[j].partial
              && r.value.assemblies[i].final != r.value.assemblies[j].final
  {
    var built := new PigPenAggregateBy?<T>[|funcs|];
    var i := 0;
    while i < |funcs|
      invariant 0 <= i <= |funcs|
      invariant i <= |outputFields| && i <= |inits|
      invariant forall k :: 0 <= k < i ==>
                  built[k] != null && fresh(built[k]) && fresh(built[k].partial) && fresh(built[k].final)
                  && built[k].argumentField == outputFields[k]
                  && built[k].partial.argField == outputFields[k] && built[k].partial.init == inits[k]
                  && built[k].partial.func == funcs[k] && built[k].partial.fn == None
                  && built[k].partial.Valid() && !built[k].partial.allSentinel
                  && built[k].final.argField == outputFields[k] && built[k].final.init == inits[k]
                  && built[k].final.func == funcs[k]
      invariant forall k, l :: 0 <= k < l < i ==>
                  built[k].partial != built[l].partial && built[k].final != built[l].final
    {
      if i >= |outputFields| || i >= |inits| {
        return Failure(IndexOutOfBounds(i));
      }
      var a := new PigPenAggregateBy(outputFields[i], inits[i], funcs[i]);
      built[i] := a;
      i := i + 1;
    }
    r := Success(AggregateBy(name, keyFields, built));
  }
}
