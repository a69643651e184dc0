/** Naming of the aggregate's result field, shared by both sides of the shuffle. */
module Fields {

  const Prefix: string := "agg_result"

  /** The field a Partial emits into and a Final reads from, for argument field `name`. */
  function OutField(name: string): (f: string)
    ensures |f| == |Prefix| + |name|
    ensures f[..|Prefix|] == Prefix && f[|Prefix|..] == name
  {
    Prefix + name
  }

  /** Distinct argument fields never share a result field, and equal ones always do. */
  lemma OutFieldInjective(a: string, b: string)
    ensures OutField(a) == OutField(b) <==> a == b
  {
    if OutField(a) == OutField(b) {
      assert a == OutField(a)[|Prefix|..] == OutField(b)[|Prefix|..] == b;
    }
  }
}
