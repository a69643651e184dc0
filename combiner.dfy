/**
 * The values that cross the shuffle boundary of PigPen's combinable
 * aggregation, and the user-supplied collaborators the combiner protocol
 * consumes: the resolved aggregate function handle and the codec.
 *
 * The source works on untyped objects; here every value (raw input value,
 * prepared element, accumulator) has one generic type `T`, and the single
 * codec serializes any of them, as the source's one serialize/deserialize pair does.
 */
module Combiner {

  newtype byte = x: int | 0 <= x < 256

  type Bytes = seq<byte>

  datatype Option<T> = None | Some(value: T)

  /**
   * One field of a wire tuple: the Sentinel marker ("no real value has been
   * folded in yet") or an opaque serialized payload. The source compares
   * against a distinguished sentinel object; a tagged union keeps the two
   * cases apart by construction.
   */
  datatype Wire = Sentinel | Payload(bytes: Bytes)

  /**
   * A resolved user aggregate: the seed (identity) accumulator, `prepare`
   * turning one raw value into a collection, `reduce` folding a collection
   * into an accumulator, and `combine` merging a partial accumulator (first
   * argument) into a running one (second argument).
   */
  datatype Handle<!T> = Handle(
    seed: T,
    prepare: T -> seq<T>,
    reduce: (seq<T>, T) -> T,
    combine: (T, T) -> T)

  /** The external serializer: bytes on the wire, values in memory. */
  datatype Codec<!T> = Codec(encode: T -> Bytes, decode: Bytes -> T)

  /**
   * Function resolution: initialise the module named by the first string and
   * look up the symbol named by the second. It is foreign code, so the model
   * takes its answer as a parameter.
   */
  type Registry<!T> = (string, string) -> Handle<T>

  /** Map-side fold of one raw payload: decode, prepare, then reduce into `acc`. */
  function Absorb<T>(h: Handle<T>, c: Codec<T>, acc: T, p: Bytes): T
  {
    h.reduce(h.prepare(c.decode(p)), acc)
  }

  /** Merge-side fold of one partial payload: decode it and combine it, first, with `acc`. */
  function Merge<T>(h: Handle<T>, c: Codec<T>, acc: T, p: Bytes): T
  {
    h.combine(c.decode(p), acc)
  }

  /** The payloads among `vals`, in arrival order; every Sentinel is dropped. */
  function Payloads(vals: seq<Wire>): (ps: seq<Bytes>)
    ensures |ps| <= |vals|
    ensures ps == [] <==> forall i :: 0 <= i < |vals| ==> vals[i].Sentinel?
  {
    if vals == [] then []
    else
      var rest := Payloads(vals[..|vals| - 1]);
      assert forall i :: 0 <= i < |vals| - 1 ==> vals[..|vals| - 1][i] == vals[i];
      match vals[|vals| - 1]
      case Sentinel => rest
      case Payload(p) => rest + [p]
  }

  lemma {:induction false} PayloadsAppend(xs: seq<Wire>, ys: seq<Wire>)
    ensures Payloads(xs + ys) == Payloads(xs) + Payloads(ys)
    decreases |ys|
  {
    if ys == [] {
      assert xs + ys == xs;
    } else {
      var ys' := ys[..|ys| - 1];
      assert (xs + ys)[..|xs + ys| - 1] == xs + ys';
      PayloadsAppend(xs, ys');
    }
  }

  /** Every raw payload of `ps`, folded in order into `acc` on the map side. */
  function Reduced<T>(h: Handle<T>, c: Codec<T>, acc: T, ps: seq<Bytes>): T
  {
    if ps == [] then acc
    else Absorb(h, c, Reduced(h, c, acc, ps[..|ps| - 1]), ps[|ps| - 1])
  }

  lemma {:induction false} ReducedAppend<T>(h: Handle<T>, c: Codec<T>, acc: T, ps: seq<Bytes>, qs: seq<Bytes>)
    ensures Reduced(h, c, acc, ps + qs) == Reduced(h, c, Reduced(h, c, acc, ps), qs)
    decreases |qs|
  {
    if qs == [] {
      assert ps + qs == ps;
    } else {
      var qs' := qs[..|qs| - 1];
      assert (ps + qs)[..|ps + qs| - 1] == ps + qs';
      ReducedAppend(h, c, acc, ps, qs');
    }
  }

  /** Every partial payload of `ps`, merged in order into `acc` on the merge side. */
  function Combined<T>(h: Handle<T>, c: Codec<T>, acc: T, ps: seq<Bytes>): T
  {
    if ps == [] then acc
    else Merge(h, c, Combined(h, c, acc, ps[..|ps| - 1]), ps[|ps| - 1])
  }
}
