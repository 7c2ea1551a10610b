/** The table of pending channel fundings, shared by the funding wallet (which fills it) and
    the channel launchers (which rely on it). */
module Reservations {
  import opened Types

  datatype PendingFunding = PendingFunding(
    temp: Slice32, fundingTxid: Slice32, prevOutpoints: seq<OutPoint>, psbt: Psbt)

  type Table = map<Slice32, PendingFunding>

  /** All outpoints already promised to some prospective channel. */
  function Reserved(table: Table): set<OutPoint> {
    set x, o | x in table && o in table[x].prevOutpoints :: o
  }

  /** Every entry sits under its own txid and no outpoint is promised twice. */
  ghost predicate WellFormed(table: Table) {
    && (forall x | x in table ::
          table[x].fundingTxid == x && table[x].psbt.txid == x &&
          table[x].psbt.inputs == table[x].prevOutpoints)
    && (forall x, y, o | x in table && y in table && x != y &&
                         o in table[x].prevOutpoints :: o !in table[y].prevOutpoints)
  }

  ghost predicate Unreserved(table: Table, inputs: seq<OutPoint>) {
    forall x, o | x in table && o in inputs :: o !in table[x].prevOutpoints
  }

  /** The txid commits to the spent outpoints: no entry with the id of `psbt` spends others. */
  ghost predicate CollisionFree(table: Table, psbt: Psbt) {
    psbt.txid in table ==> table[psbt.txid].prevOutpoints == psbt.inputs
  }

  function Reserve(table: Table, temp: Slice32, psbt: Psbt): Table {
    table[psbt.txid := PendingFunding(temp, psbt.txid, psbt.inputs, psbt)]
  }

  lemma ReserveKeepsWellFormed(table: Table, temp: Slice32, psbt: Psbt)
    requires WellFormed(table) && Unreserved(table, psbt.inputs)
    ensures WellFormed(Reserve(table, temp, psbt))
  {
  }

  /** Disjoint reservations give distinct funding transactions. */
  lemma FreshTxid(table: Table, psbt: Psbt)
    requires psbt.inputs != [] && Unreserved(table, psbt.inputs) && CollisionFree(table, psbt)
    ensures psbt.txid !in table
  {
    assert psbt.inputs[0] in psbt.inputs;
  }
}
