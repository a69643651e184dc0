/**
 * The merge-side (post-shuffle) half of the combiner protocol: PigPen's
 * `Final` aggregator and its per-task `Context`. The host resets the context
 * at every group start, feeds it each partial of the group and asks it to
 * add the group's result to an output collector at group end.
 */
module FinalSide {
  import opened Combiner
  import Fields

  /** The accumulator and flag of the group being merged. */
  datatype FinalState<T> = FinalState(acc: T, allSentinel: bool)

  /** The state `reset` installs, whatever the previous group left. */
  function FinalReset<T>(h: Handle<T>): (r: FinalState<T>)
    ensures r.acc == h.seed && r.allSentinel
  {
    FinalState(h.seed, true)
  }

  /** One `aggregate` call: a Sentinel is ignored, a payload is combined in and lowers the flag. */
  function FinalStep<T>(h: Handle<T>, c: Codec<T>, st: FinalState<T>, val: Wire): (r: FinalState<T>)
    ensures r.allSentinel <==> st.allSentinel && val.Sentinel?
    ensures val.Sentinel? ==> r == st
    ensures val.Payload? ==> r.acc == h.combine(c.decode(val.bytes), st.acc)
  {
    match val
    case Sentinel => st
    case Payload(p) => FinalState(Merge(h, c, st.acc, p), false)
  }

  /** The state after one `aggregate` call per value of `vals`, in order. */
  function FinalRun<T>(h: Handle<T>, c: Codec<T>, st: FinalState<T>, vals: seq<Wire>): FinalState<T>
  {
    if vals == [] then st
    else FinalStep(h, c, FinalRun(h, c, st, vals[..|vals| - 1]), vals[|vals| - 1])
  }

  /** What `complete` adds to the output: nothing for an all-Sentinel group, else one encoded accumulator. */
  function FinalEmit<T>(c: Codec<T>, st: FinalState<T>): (out: seq<Wire>)
    ensures |out| <= 1
    ensures out == [] <==> st.allSentinel
    ensures forall i :: 0 <= i < |out| ==> out[i] == Payload(c.encode(st.acc))
  {
    if st.allSentinel then [] else [Payload(c.encode(st.acc))]
  }

  /**
   * Reference meaning of one merge-side group: no output when every partial
   * is Sentinel, otherwise one tuple, the encoded merge of the payloads over the seed.
   */
  function FinalGroup<T>(h: Handle<T>, c: Codec<T>, vals: seq<Wire>): (out: seq<Wire>)
    ensures |out| <= 1
    ensures out == [] <==> forall i :: 0 <= i < |vals| ==> vals[i].Sentinel?
  {
    var ps := Payloads(vals);
    if ps == [] then [] else [Payload(c.encode(Combined(h, c, h.seed, ps)))]
  }

  /** The accumulator is the merge of the payloads, and the flag falls at the first one. */
  lemma {:induction false} FinalRunOpen<T>(h: Handle<T>, c: Codec<T>, st: FinalState<T>, vals: seq<Wire>)
    ensures FinalRun(h, c, st, vals)
         == FinalState(Combined(h, c, st.acc, Payloads(vals)), st.allSentinel && Payloads(vals) == [])
    decreases |vals|
  {
    if vals != [] {
      FinalRunOpen(h, c, st, vals[..|vals| - 1]);
    }
  }

  /** A whole group, from `reset` to `complete`, emits exactly the reference output. */
  lemma FinalGroupCorrect<T>(h: Handle<T>, c: Codec<T>, vals: seq<Wire>)
    ensures FinalEmit(c, FinalRun(h, c, FinalReset(h), vals)) == FinalGroup(h, c, vals)
  {
    FinalRunOpen(h, c, FinalReset(h), vals);
  }

  /** A Sentinel anywhere in a group changes neither the accumulator nor the flag. */
  lemma FinalSentinelNoOp<T>(h: Handle<T>, c: Codec<T>, st: FinalState<T>, xs: seq<Wire>, ys: seq<Wire>)
    ensures FinalRun(h, c, st, xs + [Sentinel] + ys) == FinalRun(h, c, st, xs + ys)
  {
    FinalRunOpen(h, c, st, xs + [Sentinel] + ys);
    FinalRunOpen(h, c, st, xs + ys);
    PayloadsAppend(xs + [Sentinel], ys);
    PayloadsAppend(xs, [Sentinel]);
    PayloadsAppend(xs, ys);
    assert Payloads([Sentinel]) == [];
  }

  /** Once lowered inside a group the flag stays lowered until the next reset. */
  lemma FinalFlagSticky<T>(h: Handle<T>, c: Codec<T>, acc: T, vals: seq<Wire>)
    ensures !FinalRun(h, c, FinalState(acc, false), vals).allSentinel
  {
    FinalRunOpen(h, c, FinalState(acc, false), vals);
  }

  /**
   * One Final context driven through contiguous groups: every group is
   * reset, folded and completed; the output collects what each emits. The
   * state the previous group left is passed in and never read.
   */
  function FinalTask<T>(h: Handle<T>, c: Codec<T>, st: FinalState<T>, groups: seq<seq<Wire>>): (seq<Wire>, FinalState<T>)
  {
    if groups == [] then ([], st)
    else
      var (out, _) := FinalTask(h, c, st, groups[..|groups| - 1]);
      var done := FinalRun(h, c, FinalReset(h), groups[|groups| - 1]);
      (out + FinalEmit(c, done), done)
  }

  /** The per-group reference outputs, concatenated in group order. */
  function FinalGroups<T>(h: Handle<T>, c: Codec<T>, groups: seq<seq<Wire>>): seq<Wire>
  {
    if groups == [] then []
    else FinalGroups(h, c, groups[..|groups| - 1]) + FinalGroup(h, c, groups[|groups| - 1])
  }

  /**
   * The output of a task is the concatenation of the groups' own reference
   * outputs, in group order, whatever state the task started from.
   */
  lemma {:induction false} FinalTaskCorrect<T>(h: Handle<T>, c: Codec<T>, st: FinalState<T>, groups: seq<seq<Wire>>)
    ensures FinalTask(h, c, st, groups).0 == FinalGroups(h, c, groups)
    decreases |groups|
  {
    if groups != [] {
      FinalTaskCorrect(h, c, st, groups[..|groups| - 1]);
      FinalGroupCorrect(h, c, groups[|groups| - 1]);
    }
  }

  /** The host's output collector, seen only as the tuples added to it. */
  class Collector {
    var tuples: seq<Wire>

    constructor ()
      ensures tuples == []
    {
      tuples := [];
    }

    method Add(w: Wire)
      modifies this
      ensures tuples == old(tuples) + [w]
    {
      tuples := tuples + [w];
    }
  }

  /**
   * The per-task context of a Final: the resolved handle, and the group's
   * accumulator (absent until the first `reset`) and flag.
   */
  class Context<T> {
    const fn: Handle<T>
    var acc: Option<T>
    var allSentinel: bool

    constructor (fn: Handle<T>)
      ensures this.fn == fn && acc == None && !allSentinel
    {
      this.fn := fn;
      acc := None;
      allSentinel := false;
    }

    /** The group state, once some `reset` has installed an accumulator. */
    function State(): FinalState<T>
      reads this
      requires acc.Some?
    {
      FinalState(acc.value, allSentinel)
    }

    /** Installs a fresh seed and raises the flag, discarding whatever the previous group left. */
    method Reset()
      modifies this
      ensures acc == Some(fn.seed) && allSentinel
      ensures State() == FinalReset(fn)
    {
      acc := Some(fn.seed);
      allSentinel := true;
    }
  }

  /** PigPen's `Final` aggregator. */
  class Final<T> {
    const init: string
    const func: string
    const argField: string

    constructor (init: string, func: string, argField: string)
      ensures this.init == init && this.func == func && this.argField == argField
    {
      this.init := init;
      this.func := func;
      this.argField := argField;
    }

    /** The declared output field, the same one the Partial side declares and the one `Aggregate` reads. */
    function DeclaredField(): (f: string)
      ensures f == "agg_result" + argField
    {
      Fields.OutField(argField)
    }

    /** Resolves the handle once for the task and creates the task's context around it. */
    method Prepare(registry: Registry<T>) returns (ctx: Context<T>)
      ensures fresh(ctx)
      ensures ctx.fn == registry(init, func) && ctx.acc == None && !ctx.allSentinel
    {
      var fn := registry(init, func);
      ctx := new Context(fn);
    }

    /** Group start: the context is reset to the seed. */
    method Start(ctx: Context<T>)
      modifies ctx
      ensures ctx.acc.Some? && ctx.State() == FinalReset(ctx.fn)
    {
      ctx.Reset();
    }

    /** Merges the partial found under the declared field of `args` into the context. */
    method Aggregate(codec: Codec<T>, ctx: Context<T>, args: map<string, Wire>)
      requires ctx.acc.Some?
      requires DeclaredField() in args
      modifies ctx
      ensures ctx.acc.Some?
      ensures ctx.State() == FinalStep(ctx.fn, codec, old(ctx.State()), args[DeclaredField()])
      ensures args[DeclaredField()].Sentinel? ==> ctx.acc == old(ctx.acc) && ctx.allSentinel == old(ctx.allSentinel)
      ensures args[DeclaredField()].Payload? ==>
                ctx.acc == Some(ctx.fn.combine(codec.decode(args[DeclaredField()].bytes), old(ctx.acc.value)))
                && !ctx.allSentinel
    {
      var val := args[DeclaredField()];
      if !val.Sentinel? {
        var newAcc := ctx.fn.combine(codec.decode(val.bytes), ctx.acc.value);
        ctx.acc := Some(newAcc);
        ctx.allSentinel := false;
      }
    }

    /** Group end: adds the group's result to `out`, or nothing for an all-Sentinel group. */
    method Complete(codec: Codec<T>, ctx: Context<T>, out: Collector)
      requires ctx.acc.Some?
      modifies out
      ensures out.tuples == old(out.tuples) + FinalEmit(codec, ctx.State())
      ensures ctx.allSentinel ==> out.tuples == old(out.tuples)
      ensures !ctx.allSentinel ==> out.tuples == old(out.tuples) + [Payload(codec.encode(ctx.acc.value))]
    {
      if !ctx.allSentinel {
        out.Add(Payload(codec.encode(ctx.acc.value)));
      }
    }
  }
}
