/** The memory cortex: a fixed store of 144 prime reference slots. */
module Cortex {
  import opened Errors

  const ReferenceCount: nat := 144

  /** Stands for the source's `f64`. The model never computes on such values; it only
      stores them and compares them, so no rounding behaviour is claimed. */
  type F64 = real

  /** One slot. The payload is the source's optional `f64`. */
  datatype PrimeReference = PrimeReference(primeIndex: nat, data: Option<F64>)

  datatype MemoryCortex = MemoryCortex(references: seq<PrimeReference>)

  /** A freshly built cortex: 144 slots, slot `i` has index `i` and no payload. */
  ghost predicate Pristine(c: MemoryCortex) {
    && |c.references| == ReferenceCount
    && forall i :: 0 <= i < |c.references| ==>
         c.references[i].primeIndex == i && c.references[i].data == None
  }

  /** `MemoryCortex::new_144`: the positional comprehension over `0..144`. */
  function New144(): (c: MemoryCortex)
    ensures Pristine(c)
  {
    MemoryCortex(seq(ReferenceCount, i requires 0 <= i => PrimeReference(i, None)))
  }

  /** `Default for MemoryCortex`: delegates to `new_144`. */
  function Default(): (c: MemoryCortex)
    ensures Pristine(c)
  {
    New144()
  }

  /** There is only one pristine cortex, so every construction yields the same store. */
  lemma PristineIsUnique(c: MemoryCortex)
    requires Pristine(c)
    ensures c == New144()
  {
    var d := New144();
    assert forall i :: 0 <= i < |c.references| ==> c.references[i] == d.references[i];
    assert c.references == d.references;
  }
}
