/**
 * Both sides of the shuffle together: every map-side partition of a group
 * ships one wire value, and the merge side folds those into the group's result.
 */
module Pipeline {
  import opened Combiner
  import opened PartialSide
  import opened FinalSide

  /** What the map side ships for each partition of one group, in partition order. */
  function PartialOutputs<T>(h: Handle<T>, c: Codec<T>, parts: seq<seq<Wire>>): (out: seq<Wire>)
    ensures |out| == |parts|
    ensures forall i :: 0 <= i < |parts| ==> out[i] == PartialGroup(h, c, parts[i])
  {
    if parts == [] then []
    else PartialOutputs(h, c, parts[..|parts| - 1]) + [PartialGroup(h, c, parts[|parts| - 1])]
  }

  /** The group's raw values as one sequence, partitions in order. */
  function Flatten(parts: seq<seq<Wire>>): (vals: seq<Wire>)
  {
    if parts == [] then [] else Flatten(parts[..|parts| - 1]) + parts[|parts| - 1]
  }

  /** A group with no real value anywhere on the map side produces no result on the merge side. */
  lemma SentinelPropagates<T>(h: Handle<T>, c: Codec<T>, parts: seq<seq<Wire>>)
    requires forall i, j :: 0 <= i < |parts| && 0 <= j < |parts[i]| ==> parts[i][j].Sentinel?
    ensures FinalGroup(h, c, PartialOutputs(h, c, parts)) == []
  {
    var out := PartialOutputs(h, c, parts);
    forall i | 0 <= i < |out|
      ensures out[i].Sentinel?
    {
      assert forall j :: 0 <= j < |parts[i]| ==> parts[i][j].Sentinel?;
    }
  }

  /** Merging a folded partial into `b` is the same as folding its raw payloads into `b`. */
  lemma {:induction false} CombineReduced<T>(h: Handle<T>, c: Codec<T>, x: T, b: T, ps: seq<Bytes>)
    requires forall a, a', p :: h.combine(Absorb(h, c, a, p), a') == Absorb(h, c, h.combine(a, a'), p)
    ensures h.combine(Reduced(h, c, x, ps), b) == Reduced(h, c, h.combine(x, b), ps)
    decreases |ps|
  {
    if ps != [] {
      CombineReduced(h, c, x, b, ps[..|ps| - 1]);
    }
  }

  /** The merge side sees some payload exactly when some partition held one. */
  lemma {:induction false} PartialOutputsEmpty<T>(h: Handle<T>, c: Codec<T>, parts: seq<seq<Wire>>)
    ensures Payloads(PartialOutputs(h, c, parts)) == [] <==> Payloads(Flatten(parts)) == []
    decreases |parts|
  {
    if parts != [] {
      var init, g := parts[..|parts| - 1], parts[|parts| - 1];
      PartialOutputsEmpty(h, c, init);
      assert PartialOutputs(h, c, parts) == PartialOutputs(h, c, init) + [PartialGroup(h, c, g)];
      PayloadsAppend(PartialOutputs(h, c, init), [PartialGroup(h, c, g)]);
      PayloadsAppend(Flatten(init), g);
      assert Payloads([PartialGroup(h, c, g)]) == [] <==> PartialGroup(h, c, g).Sentinel?;
    }
  }

  /** Merging the partial of one more partition folds that partition's raw payloads into the running result. */
  lemma MergeOnePartial<T>(h: Handle<T>, c: Codec<T>, outs: seq<Wire>, g: seq<Wire>)
    requires forall a :: c.decode(c.encode(a)) == a
    requires forall b :: h.combine(h.seed, b) == b
    requires forall a, a', p :: h.combine(Absorb(h, c, a, p), a') == Absorb(h, c, h.combine(a, a'), p)
    requires Payloads(g) != []
    ensures Combined(h, c, h.seed, Payloads(outs + [PartialGroup(h, c, g)]))
         == Reduced(h, c, Combined(h, c, h.seed, Payloads(outs)), Payloads(g))
  {
    var e := c.encode(Reduced(h, c, h.seed, Payloads(g)));
    assert PartialGroup(h, c, g) == Payload(e);
    PayloadsAppend(outs, [Payload(e)]);
    assert Payloads([Payload(e)]) == [e];
    var ps := Payloads(outs) + [e];
    assert ps[..|ps| - 1] == Payloads(outs);
    var before := Combined(h, c, h.seed, Payloads(outs));
    assert c.decode(e) == Reduced(h, c, h.seed, Payloads(g));
    CombineReduced(h, c, h.seed, before, Payloads(g));
  }

  /** The merged partials equal the map-side fold of every raw payload of the group. */
  lemma {:induction false} MergedPartials<T>(h: Handle<T>, c: Codec<T>, parts: seq<seq<Wire>>)
    requires forall a :: c.decode(c.encode(a)) == a
    requires forall b :: h.combine(h.seed, b) == b
    requires forall a, a', p :: h.combine(Absorb(h, c, a, p), a') == Absorb(h, c, h.combine(a, a'), p)
    ensures Combined(h, c, h.seed, Payloads(PartialOutputs(h, c, parts)))
         == Reduced(h, c, h.seed, Payloads(Flatten(parts)))
    decreases |parts|
  {
    if parts != [] {
      var init, g := parts[..|parts| - 1], parts[|parts| - 1];
      MergedPartials(h, c, init);
      var outs := PartialOutputs(h, c, init);
      assert PartialOutputs(h, c, parts) == outs + [PartialGroup(h, c, g)];
      PayloadsAppend(Flatten(init), g);
      ReducedAppend(h, c, h.seed, Payloads(Flatten(init)), Payloads(g));
      if Payloads(g) == [] {
        PayloadsAppend(outs, [Sentinel]);
        assert Payloads([Sentinel]) == [];
        assert Payloads(Flatten(parts)) == Payloads(Flatten(init));
      } else {
        MergeOnePartial(h, c, outs, g);
      }
    }
  }

  /**
   * Partial/full equivalence: a group split into partitions, pre-aggregated
   * per partition and merged, gives what one map-side pass over the whole
   * group ships, or nothing when that is Sentinel. The three requires are
   * what the user functions and the codec must satisfy; the source assumes
   * them and does not check them.
   */
  lemma PartialFullEquivalence<T>(h: Handle<T>, c: Codec<T>, parts: seq<seq<Wire>>)
    requires forall a :: c.decode(c.encode(a)) == a
    requires forall b :: h.combine(h.seed, b) == b
    requires forall a, a', p :: h.combine(Absorb(h, c, a, p), a') == Absorb(h, c, h.combine(a, a'), p)
    ensures var direct := PartialGroup(h, c, Flatten(parts));
            FinalGroup(h, c, PartialOutputs(h, c, parts)) == if direct.Sentinel? then [] else [direct]
  {
    PartialOutputsEmpty(h, c, parts);
    MergedPartials(h, c, parts);
  }

  /** Sum over integers. */
  function Sum(xs: seq<int>): int
  {
    if xs == [] then 0 else Sum(xs[..|xs| - 1]) + xs[|xs| - 1]
  }

  /** A sum aggregate: seed 0, every raw value prepared as a one-element collection. */
  function SumHandle(): Handle<int>
  {
    Handle(0, v => [v], (xs, a) => a + Sum(xs), (p, a) => p + a)
  }

  /** The magnitude of an integer. */
  function Abs(n: int): nat
  {
    if n < 0 then -n else n
  }

  /** A sign-and-length codec for integers: the first byte marks the sign, the number of bytes after it the magnitude. */
  function UnaryCodec(): Codec<int>
  {
    Codec(n => [if n < 0 then 1 as byte else 0 as byte] + seq(Abs(n), _ => 0 as byte),
          b => if |b| == 0 then 0 else if b[0] == 1 then -(|b| - 1) else |b| - 1)
  }

  /** The sum handle with the sign-and-length codec satisfies the three laws, so they are not vacuous. */
  lemma SumLawsHold()
    ensures forall a :: UnaryCodec().decode(UnaryCodec().encode(a)) == a
    ensures forall b :: SumHandle().combine(SumHandle().seed, b) == b
    ensures forall a, a', p :: SumHandle().combine(Absorb(SumHandle(), UnaryCodec(), a, p), a')
                            == Absorb(SumHandle(), UnaryCodec(), SumHandle().combine(a, a'), p)
  {
    forall v ensures Sum([v]) == v {
      assert [v][..0] == [];
    }
    forall a ensures UnaryCodec().decode(UnaryCodec().encode(a)) == a {
      var e := UnaryCodec().encode(a);
      assert |e| == Abs(a) + 1;
      assert e[0] == if a < 0 then 1 as byte else 0 as byte;
    }
  }

  /** Partial/full equivalence for the sum aggregate under the sign-and-length codec, with no assumption left. */
  lemma SumPartialFullEquivalence(parts: seq<seq<Wire>>)
    ensures var direct := PartialGroup(SumHandle(), UnaryCodec(), Flatten(parts));
            FinalGroup(SumHandle(), UnaryCodec(), PartialOutputs(SumHandle(), UnaryCodec(), parts))
            == if direct.Sentinel? then [] else [direct]
  {
    SumLawsHold();
    PartialFullEquivalence(SumHandle(), UnaryCodec(), parts);
  }

  /** Values [1, 2, 3] in one group: the map side ships 6, and the merge side emits 6. */
  method ScenarioSumOneGroup(codec: Codec<int>) returns (shipped: Wire, out: seq<Wire>)
    requires forall n :: codec.decode(codec.encode(n)) == n
    ensures shipped == Payload(codec.encode(6))
    ensures out == [Payload(codec.encode(6))]
  {
    var registry := (init: string, func: string) => SumHandle();
    var p := new Partial<int>("sum-init", "sum", "value");
    assert forall v :: Sum([v]) == v by {
      forall v ensures Sum([v]) == v {
        assert [v][..0] == [];
      }
    }
    var ctx := p.Aggregate(registry, codec, map["value" := Payload(codec.encode(1))], None);
    assert ctx == 1;
    ctx := p.Aggregate(registry, codec, map["value" := Payload(codec.encode(2))], Some(ctx));
    assert ctx == 3;
    ctx := p.Aggregate(registry, codec, map["value" := Payload(codec.encode(3))], Some(ctx));
    assert ctx == 6;
    shipped := p.Complete(codec, ctx);
    var f := new Final<int>("sum-init", "sum", "value");
    var fctx := f.Prepare(registry);
    f.Start(fctx);
    f.Aggregate(codec, fctx, map[p.DeclaredField() := shipped]);
    var collector := new Collector();
    f.Complete(codec, fctx, collector);
    out := collector.tuples;
  }

  /** A group holding only Sentinel values: the map side ships Sentinel, and the merge side emits nothing. */
  method ScenarioEmptyGroup(codec: Codec<int>) returns (shipped: Wire, out: seq<Wire>)
    ensures shipped == Sentinel
    ensures out == []
  {
    var registry := (init: string, func: string) => SumHandle();
    var p := new Partial<int>("sum-init", "sum", "value");
    var ctx := p.Aggregate(registry, codec, map["value" := Sentinel], None);
    shipped := p.Complete(codec, ctx);
    var f := new Final<int>("sum-init", "sum", "value");
    var fctx := f.Prepare(registry);
    f.Start(fctx);
    f.Aggregate(codec, fctx, map[p.DeclaredField() := shipped]);
    var collector := new Collector();
    f.Complete(codec, fctx, collector);
    out := collector.tuples;
  }

  /** Two partials 3 and 4 of one group, after an earlier group: the merge side emits 7. */
  method ScenarioTwoPartials(codec: Codec<int>) returns (out: seq<Wire>)
    requires forall n :: codec.decode(codec.encode(n)) == n
    ensures out == [Payload(codec.encode(7))]
  {
    var registry := (init: string, func: string) => SumHandle();
    var f := new Final<int>("sum-init", "sum", "value");
    var field := f.DeclaredField();
    var fctx := f.Prepare(registry);
    // an earlier group leaves 100 in the context
    f.Start(fctx);
    f.Aggregate(codec, fctx, map[field := Payload(codec.encode(100))]);
    var earlier := new Collector();
    f.Complete(codec, fctx, earlier);
    // the group of interest
    f.Start(fctx);
    f.Aggregate(codec, fctx, map[field := Payload(codec.encode(3))]);
    f.Aggregate(codec, fctx, map[field := Payload(codec.encode(4))]);
    var collector := new Collector();
    f.Complete(codec, fctx, collector);
    out := collector.tuples;
  }

  /** A Sentinel partial and a partial 5: the Sentinel folds as a no-op and the merge side emits 5. */
  method ScenarioSentinelAndPayload(codec: Codec<int>) returns (out: seq<Wire>)
    requires forall n :: codec.decode(codec.encode(n)) == n
    ensures out == [Payload(codec.encode(5))]
  {
    var registry := (init: string, func: string) => SumHandle();
    var f := new Final<int>("sum-init", "sum", "value");
    var field := f.DeclaredField();
    var fctx := f.Prepare(registry);
    f.Start(fctx);
    f.Aggregate(codec, fctx, map[field := Sentinel]);
    f.Aggregate(codec, fctx, map[field := Payload(codec.encode(5))]);
    var collector := new Collector();
    f.Complete(codec, fctx, collector);
    out := collector.tuples;
  }
}
