/** What the drainer's batch order means for tiers and ages. */
module Batches {
  import opened Timestamps
  import opened Tables

  /** Lower tiers come first, and within a tier no row comes after one that was proposed a second later. */
  predicate ComesFirst(a: Row, b: Row) {
    a.spec.tier < b.spec.tier || (a.spec.tier == b.spec.tier && a.spec.proposedAt < b.spec.proposedAt + SECOND)
  }

  lemma DrainsFirst(a: Row, b: Row)
    requires DrainsBefore(a.spec, b.spec)
    ensures ComesFirst(a, b)
  {
  }

  predicate IsLeftOut(batch: seq<Picked>, id: nat) { forall i | 0 <= i < |batch| :: batch[i].id != id }

  /** A batch has at most 25 pending rows, each once, in that order; and what is pending and left out comes
      no earlier than anything in it, and only out of a full one. */
  lemma BatchIsFirst(rows: seq<Row>, batch: seq<Picked>)
    requires IsDrainable(rows, batch, BATCH_SIZE)
    ensures |batch| <= 25
    ensures forall i | 0 <= i < |batch| :: batch[i].id < |rows| && rows[batch[i].id].status.Pending?
    ensures forall i, j | 0 <= i < j < |batch| ::
              batch[i].id != batch[j].id && ComesFirst(rows[batch[i].id], rows[batch[j].id])
    ensures forall id: nat | id < |rows| && rows[id].status.Pending? && IsLeftOut(batch, id) ::
              |batch| == 25 && forall i | 0 <= i < |batch| :: ComesFirst(rows[batch[i].id], rows[id])
  {
    forall i, j | 0 <= i < j < |batch| ensures ComesFirst(rows[batch[i].id], rows[batch[j].id]) {
      DrainsFirst(rows[batch[i].id], rows[batch[j].id]);
    }
    forall id: nat | id < |rows| && rows[id].status.Pending? && IsLeftOut(batch, id)
      ensures |batch| == 25 && forall i | 0 <= i < |batch| :: ComesFirst(rows[batch[i].id], rows[id])
    {
      assert !InBatch(batch, id);
      assert AllBefore(batch, rows[id].spec);
      forall i | 0 <= i < |batch| ensures ComesFirst(rows[batch[i].id], rows[id]) {
        DrainsFirst(rows[batch[i].id], rows[id]);
      }
    }
  }
}
