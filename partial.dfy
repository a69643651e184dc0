/**
 * The map-side (pre-shuffle) half of the combiner protocol: PigPen's
 * `Partial` functor. The host hands it the current group's context (absent
 * at group start) with every raw value and keeps the context it returns;
 * when the group closes it asks for the wire value to ship.
 */
module PartialSide {
  import opened Combiner
  import Fields

  /** What one `aggregate` call sees and leaves: the group's context and the instance flag. */
  datatype PartialState<T> = PartialState(context: Option<T>, allSentinel: bool)

  /**
   * One `aggregate` call: an absent context starts the group from the seed
   * with the flag raised; a Sentinel passes the context through; a payload is
   * absorbed and lowers the flag.
   */
  function PartialStep<T>(h: Handle<T>, c: Codec<T>, st: PartialState<T>, val: Wire): (r: PartialState<T>)
    ensures r.context.Some?
  {
    var acc := if st.context.None? then h.seed else st.context.value;
    var flag := if st.context.None? then true else st.allSentinel;
    match val
    case Sentinel => PartialState(Some(acc), flag)
    case Payload(p) => PartialState(Some(Absorb(h, c, acc, p)), false)
  }

  /** The state after one `aggregate` call per value of `vals`, in order. */
  function PartialRun<T>(h: Handle<T>, c: Codec<T>, st: PartialState<T>, vals: seq<Wire>): PartialState<T>
  {
    if vals == [] then st
    else PartialStep(h, c, PartialRun(h, c, st, vals[..|vals| - 1]), vals[|vals| - 1])
  }

  /** What `complete` ships for a context under the current flag. */
  function PartialComplete<T>(c: Codec<T>, context: T, allSentinel: bool): (w: Wire)
    ensures w.Sentinel? <==> allSentinel
    ensures w.Payload? ==> w.bytes == c.encode(context)
  {
    if allSentinel then Sentinel else Payload(c.encode(context))
  }

  /**
   * Reference meaning of one map-side group: Sentinel when the group holds no
   * payload, otherwise the encoded fold of its payloads over the seed.
   */
  function PartialGroup<T>(h: Handle<T>, c: Codec<T>, vals: seq<Wire>): (w: Wire)
    ensures w.Sentinel? <==> forall i :: 0 <= i < |vals| ==> vals[i].Sentinel?
  {
    var ps := Payloads(vals);
    if ps == [] then Sentinel else Payload(c.encode(Reduced(h, c, h.seed, ps)))
  }

  /** Inside an open group: the context is the fold of the payloads, and the flag falls at the first one. */
  lemma {:induction false} PartialRunOpen<T>(h: Handle<T>, c: Codec<T>, acc: T, flag: bool, vals: seq<Wire>)
    ensures PartialRun(h, c, PartialState(Some(acc), flag), vals)
         == PartialState(Some(Reduced(h, c, acc, Payloads(vals))), flag && Payloads(vals) == [])
    decreases |vals|
  {
    if vals != [] {
      PartialRunOpen(h, c, acc, flag, vals[..|vals| - 1]);
    }
  }

  /** From group start, whatever flag the previous group left: the seed folded with the payloads. */
  lemma {:induction false} PartialRunFromStart<T>(h: Handle<T>, c: Codec<T>, flag: bool, vals: seq<Wire>)
    requires |vals| > 0
    ensures PartialRun(h, c, PartialState(None, flag), vals)
         == PartialState(Some(Reduced(h, c, h.seed, Payloads(vals))), Payloads(vals) == [])
    decreases |vals|
  {
    var init := vals[..|vals| - 1];
    if init == [] {
      assert vals == [vals[0]];
      assert Payloads(vals) == Payloads(init + [vals[0]]);
      PayloadsAppend(init, [vals[0]]);
      assert Payloads([vals[0]]) == Payloads([]) + (if vals[0].Sentinel? then [] else [vals[0].bytes]);
    } else {
      PartialRunFromStart(h, c, flag, init);
    }
  }

  /** A whole group, from the absent context to `complete`, ships exactly the reference value. */
  lemma PartialGroupCorrect<T>(h: Handle<T>, c: Codec<T>, flag: bool, vals: seq<Wire>)
    requires |vals| > 0
    ensures PartialRun(h, c, PartialState(None, flag), vals).context.Some?
    ensures var st := PartialRun(h, c, PartialState(None, flag), vals);
            PartialComplete(c, st.context.value, st.allSentinel) == PartialGroup(h, c, vals)
  {
    PartialRunFromStart(h, c, flag, vals);
  }

  /** A Sentinel anywhere inside an open group changes neither the context nor the flag. */
  lemma PartialSentinelNoOp<T>(h: Handle<T>, c: Codec<T>, acc: T, flag: bool, xs: seq<Wire>, ys: seq<Wire>)
    ensures PartialRun(h, c, PartialState(Some(acc), flag), xs + [Sentinel] + ys)
         == PartialRun(h, c, PartialState(Some(acc), flag), xs + ys)
  {
    PartialRunOpen(h, c, acc, flag, xs + [Sentinel] + ys);
    PartialRunOpen(h, c, acc, flag, xs + ys);
    PayloadsAppend(xs + [Sentinel], ys);
    PayloadsAppend(xs, [Sentinel]);
    PayloadsAppend(xs, ys);
    assert Payloads([Sentinel]) == [];
  }

  /** Once lowered inside a group the flag stays lowered, whatever arrives next. */
  lemma PartialFlagSticky<T>(h: Handle<T>, c: Codec<T>, acc: T, vals: seq<Wire>)
    ensures !PartialRun(h, c, PartialState(Some(acc), false), vals).allSentinel
  {
    PartialRunOpen(h, c, acc, false, vals);
  }

  /**
   * One Partial instance fed contiguous groups: each starts from an absent
   * context and inherits the instance flag the previous group left.
   * Returns what is shipped per group and the instance flag at the end.
   */
  function PartialTask<T>(h: Handle<T>, c: Codec<T>, flag: bool, groups: seq<seq<Wire>>): (seq<Wire>, bool)
    requires forall i :: 0 <= i < |groups| ==> |groups[i]| > 0
  {
    if groups == [] then ([], flag)
    else
      var (shipped, flag') := PartialTask(h, c, flag, groups[..|groups| - 1]);
      var st := PartialRun(h, c, PartialState(None, flag'), groups[|groups| - 1]);
      (shipped + [PartialComplete(c, st.context.value, st.allSentinel)], st.allSentinel)
  }

  /** With contiguous groups the shared flag is harmless: group i ships its own reference value. */
  lemma {:induction false} PartialTaskCorrect<T>(h: Handle<T>, c: Codec<T>, flag: bool, groups: seq<seq<Wire>>)
    requires forall i :: 0 <= i < |groups| ==> |groups[i]| > 0
    ensures |PartialTask(h, c, flag, groups).0| == |groups|
    ensures forall i :: 0 <= i < |groups| ==> PartialTask(h, c, flag, groups).0[i] == PartialGroup(h, c, groups[i])
    decreases |groups|
  {
    if groups != [] {
      var init := groups[..|groups| - 1];
      PartialTaskCorrect(h, c, flag, init);
      var flag' := PartialTask(h, c, flag, init).1;
      PartialGroupCorrect(h, c, flag', groups[|groups| - 1]);
    }
  }

  /**
   * PigPen's `Partial` functor. `fn` is the lazily resolved handle and
   * `allSentinel` the instance flag; both survive from call to call. The
   * ghost `resolutions` counts how often the function was resolved.
   */
  class Partial<T> {
    const init: string
    const func: string
    const argField: string
    var fn: Option<Handle<T>>
    var allSentinel: bool
    ghost var resolutions: nat

    /** Resolution happens at most once, and exactly once when a handle is cached. */
    ghost predicate Valid()
      reads this
    {
      resolutions == if fn.None? then 0 else 1
    }

    constructor (init: string, func: string, argField: string)
      ensures Valid()
      ensures this.init == init && this.func == func && this.argField == argField
      ensures fn == None && !allSentinel
    {
      this.init := init;
      this.func := func;
      this.argField := argField;
      fn := None;
      allSentinel := false;
      resolutions := 0;
    }

    /** The declared output field, the same one the Final side declares. */
    function DeclaredField(): (f: string)
      ensures f == "agg_result" + argField
    {
      Fields.OutField(argField)
    }

    /**
     * Folds the argument field of `args` into `context` and returns the new
     * context. The handle is resolved through `registry` on the first call only.
     */
    method Aggregate(registry: Registry<T>, codec: Codec<T>, args: map<string, Wire>, context: Option<T>)
      returns (r: T)
      requires Valid()
      requires argField in args
      modifies this
      ensures Valid()
      ensures fn == if old(fn).None? then Some(registry(init, func)) else old(fn)
      ensures resolutions == old(resolutions) + (if old(fn).None? then 1 else 0)
      ensures var st := PartialStep(fn.value, codec, PartialState(context, old(allSentinel)), args[argField]);
              st.context == Some(r) && allSentinel == st.allSentinel
      ensures args[argField].Sentinel? && context.Some? ==> r == context.value && allSentinel == old(allSentinel)
      ensures args[argField].Sentinel? && context.None? ==> r == fn.value.seed && allSentinel
      ensures args[argField].Payload? ==> !allSentinel
    {
      if fn.None? {
        fn := Some(registry(init, func));
        resolutions := resolutions + 1;
      }
      var h := fn.value;
      var ctx: T;
      if context.None? {
        allSentinel := true;
        ctx := h.seed;
      } else {
        ctx := context.value;
      }
      var val := args[argField];
      if val.Sentinel? {
        r := ctx;
      } else {
        allSentinel := false;
        var vals := h.prepare(codec.decode(val.bytes));
        r := h.reduce(vals, ctx);
      }
    }

    /** The wire value shipped when the host closes the group holding `context`. */
    method Complete(codec: Codec<T>, context: T) returns (w: Wire)
      ensures w == PartialComplete(codec, context, allSentinel)
    {
      if allSentinel {
        w := Sentinel;
      } else {
        w := Payload(codec.encode(context));
      }
    }
  }
}
