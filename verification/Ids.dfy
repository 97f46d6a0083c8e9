module Options {
  datatype Option<+T> = None | Some(value: T)
}

/** Entity identifiers (pkg/simulation/entity.go): an index and a generation, stored in
    the high and low halves of one 64-bit word. */
module Ids {

  const TWO32: nat := 0x1_0000_0000

  datatype EntityID = EntityID(index: nat, version: nat)

  function Index(e: EntityID): nat { e.index }

  function Version(e: EntityID): nat { e.version }

  /** The identifier 0, which the source uses for "none". */
  const NO_ENTITY := EntityID(0, 0)

  /** Both halves fit in 32 bits. */
  predicate Fits(e: EntityID) { e.index < TWO32 && e.version < TWO32 }

  function ToWord(e: EntityID): nat { e.index * TWO32 + e.version }

  function FromWord(w: nat): EntityID { EntityID(w / TWO32, w % TWO32) }

  /** The packed word and the pair of halves determine each other. */
  lemma WordRoundTrip(e: EntityID, w: nat)
    ensures Fits(e) ==> FromWord(ToWord(e)) == e && ToWord(e) < TWO32 * TWO32
    ensures ToWord(FromWord(w)) == w
    ensures w < TWO32 * TWO32 ==> Fits(FromWord(w))
  {}

  /** No two listed identifiers share an index. */
  predicate DistinctIndices(es: seq<EntityID>) {
    forall i, j :: 0 <= i < j < |es| ==> Index(es[i]) != Index(es[j])
  }
}
