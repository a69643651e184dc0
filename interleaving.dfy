/**
 * The map-side `Partial` keeps `allSentinel` in an instance field, while the
 * accumulator lives in a context the host keeps per group. A host that holds
 * several groups' contexts at once and interleaves their calls lets one
 * group's start overwrite another group's flag. This module shows it on the
 * Partial as written and gives the per-group alternative: the flag travels
 * in the context, and every group completes to its own reference value
 * under any interleaving.
 */
module Interleaving {
  import opened Combiner
  import opened PartialSide

  /**
   * As written: group A receives a payload, then group B starts with a
   * Sentinel, then A is completed. A ships Sentinel although a single-group
   * run of A ships a payload, so A's value is lost.
   */
  method InterleavedGroups<T>(registry: Registry<T>, codec: Codec<T>, init: string, func: string, field: string, x: Bytes)
    returns (shippedA: Wire)
    ensures shippedA == Sentinel
    ensures PartialGroup(registry(init, func), codec, [Payload(x)]).Payload?
  {
    var p := new Partial<T>(init, func, field);
    var contextA := p.Aggregate(registry, codec, map[field := Payload(x)], None);
    var contextB := p.Aggregate(registry, codec, map[field := Sentinel], None);
    shippedA := p.Complete(codec, contextA);
    assert [Payload(x)][0].Payload?;
  }

  /**
   * As written, the other way round: group A receives only a Sentinel, then
   * group B starts with a payload, then A is completed. A ships the encoded
   * seed although a single-group run of A ships Sentinel, so the merge side
   * emits a result for a group with no real contribution.
   */
  method InterleavedGroupsSpurious<T>(registry: Registry<T>, codec: Codec<T>, init: string, func: string, field: string, x: Bytes)
    returns (shippedA: Wire)
    ensures shippedA == Payload(codec.encode(registry(init, func).seed))
    ensures PartialGroup(registry(init, func), codec, [Sentinel]) == Sentinel
  {
    var p := new Partial<T>(init, func, field);
    var contextA := p.Aggregate(registry, codec, map[field := Sentinel], None);
    var contextB := p.Aggregate(registry, codec, map[field := Payload(x)], None);
    shippedA := p.Complete(codec, contextA);
    assert [Sentinel][0].Sentinel?;
  }

  /** A map-side group context that carries its own flag. */
  datatype GroupContext<T> = GroupContext(acc: T, allSentinel: bool)

  /** One `aggregate` call on a per-group context: absent starts from the seed with the flag raised. */
  function GroupStep<T>(h: Handle<T>, c: Codec<T>, context: Option<GroupContext<T>>, val: Wire): (r: GroupContext<T>)
    ensures r.allSentinel <==> (context.None? || context.value.allSentinel) && val.Sentinel?
    ensures val.Sentinel? && context.Some? ==> r == context.value
    ensures val.Payload? ==> r.acc == Absorb(h, c, if context.None? then h.seed else context.value.acc, val.bytes)
  {
    var ctx := if context.None? then GroupContext(h.seed, true) else context.value;
    match val
    case Sentinel => ctx
    case Payload(p) => GroupContext(Absorb(h, c, ctx.acc, p), false)
  }

  /** What `complete` ships for a per-group context. */
  function GroupComplete<T>(c: Codec<T>, ctx: GroupContext<T>): (w: Wire)
    ensures w.Sentinel? <==> ctx.allSentinel
    ensures w.Payload? ==> w.bytes == c.encode(ctx.acc)
  {
    if ctx.allSentinel then Sentinel else Payload(c.encode(ctx.acc))
  }

  /** The values of group `k` in a host's interleaved trace of (group, value) events, in order. */
  function Project<K(==)>(trace: seq<(K, Wire)>, k: K): seq<Wire>
  {
    if trace == [] then []
    else
      var rest := Project(trace[..|trace| - 1], k);
      if trace[|trace| - 1].0 == k then rest + [trace[|trace| - 1].1] else rest
  }

  /** A host that keeps one open context per group and feeds the events of `trace` in order. */
  function HostRun<K(==), T>(h: Handle<T>, c: Codec<T>, trace: seq<(K, Wire)>): map<K, GroupContext<T>>
  {
    if trace == [] then map[]
    else
      var m := HostRun(h, c, trace[..|trace| - 1]);
      var (k, v) := trace[|trace| - 1];
      m[k := GroupStep(h, c, if k in m then Some(m[k]) else None, v)]
  }

  /** After any prefix of the trace, each open group's context is the fold of its own values only. */
  lemma {:induction false} HostRunOpen<K, T>(h: Handle<T>, c: Codec<T>, trace: seq<(K, Wire)>)
    ensures forall k :: k in HostRun(h, c, trace) <==> Project(trace, k) != []
    ensures forall k :: k in HostRun(h, c, trace) ==>
              var ps := Payloads(Project(trace, k));
              HostRun(h, c, trace)[k] == GroupContext(Reduced(h, c, h.seed, ps), ps == [])
    decreases |trace|
  {
    if trace != [] {
      var init := trace[..|trace| - 1];
      var (k0, v) := trace[|trace| - 1];
      HostRunOpen(h, c, init);
      var m := HostRun(h, c, init);
      var m' := HostRun(h, c, trace);
      assert m' == m[k0 := GroupStep(h, c, if k0 in m then Some(m[k0]) else None, v)];
      forall k
        ensures k in m' <==> Project(trace, k) != []
        ensures k in m' ==> m'[k] == GroupContext(Reduced(h, c, h.seed, Payloads(Project(trace, k))),
                                                  Payloads(Project(trace, k)) == [])
      {
        if k == k0 {
          var vals := Project(init, k0);
          assert Project(trace, k0) == vals + [v];
          assert (vals + [v])[..|vals + [v]| - 1] == vals;
          var ps := Payloads(vals);
          assert ps == [] ==> Reduced(h, c, h.seed, ps) == h.seed;
          match v
          case Sentinel =>
            assert Payloads(vals + [v]) == ps;
          case Payload(p) =>
            assert Payloads(vals + [v]) == ps + [p];
            assert (ps + [p])[..|ps + [p]| - 1] == ps;
        } else {
          assert Project(trace, k) == Project(init, k);
        }
      }
    }
  }

  /** Under any interleaving, each group ships exactly what it would ship alone. */
  lemma HostRunCorrect<K, T>(h: Handle<T>, c: Codec<T>, trace: seq<(K, Wire)>)
    ensures forall k :: k in HostRun(h, c, trace) ==>
              GroupComplete(c, HostRun(h, c, trace)[k]) == PartialGroup(h, c, Project(trace, k))
  {
    HostRunOpen(h, c, trace);
  }

  /** The map-side functor with the flag kept per group, in the context the host holds. */
  class GroupedPartial<T> {
    const init: string
    const func: string
    const argField: string
    var fn: Option<Handle<T>>

    constructor (init: string, func: string, argField: string)
      ensures this.init == init && this.func == func && this.argField == argField && fn == None
    {
      this.init := init;
      this.func := func;
      this.argField := argField;
      fn := None;
    }

    /** Folds the argument field of `args` into the group's own context; resolves on the first call only. */
    method Aggregate(registry: Registry<T>, codec: Codec<T>, args: map<string, Wire>, context: Option<GroupContext<T>>)
      returns (r: GroupContext<T>)
      requires argField in args
      modifies this
      ensures fn == if old(fn).None? then Some(registry(init, func)) else old(fn)
      ensures r == GroupStep(fn.value, codec, context, args[argField])
    {
      if fn.None? {
        fn := Some(registry(init, func));
      }
      var h := fn.value;
      var ctx := if context.None? then GroupContext(h.seed, true) else context.value;
      var val := args[argField];
      if val.Sentinel? {
        r := ctx;
      } else {
        var vals := h.prepare(codec.decode(val.bytes));
        r := GroupContext(h.reduce(vals, ctx.acc), false);
      }
    }

    /** The wire value shipped when the host closes the group holding `context`. */
    method Complete(codec: Codec<T>, context: GroupContext<T>) returns (w: Wire)
      ensures w == GroupComplete(codec, context)
    {
      if context.allSentinel {
        w := Sentinel;
      } else {
        w := Payload(codec.encode(context.acc));
      }
    }
  }

  /** The interleaving of `InterleavedGroups` on the per-group functor: A ships its own payload. */
  method InterleavedGroupsPerGroup<T>(registry: Registry<T>, codec: Codec<T>, init: string, func: string, field: string, x: Bytes)
    returns (shippedA: Wire)
    ensures shippedA == PartialGroup(registry(init, func), codec, [Payload(x)])
    ensures shippedA.Payload?
  {
    var p := new GroupedPartial<T>(init, func, field);
    var contextA := p.Aggregate(registry, codec, map[field := Payload(x)], None);
    var contextB := p.Aggregate(registry, codec, map[field := Sentinel], None);
    shippedA := p.Complete(codec, contextA);
    PartialGroupCorrect(registry(init, func), codec, true, [Payload(x)]);
  }
}
