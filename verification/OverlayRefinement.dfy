/**
 The overlay's fast views agree with simply committing each delta, so interpreting a transaction
 inside a block is interpreting it against the store its predecessors leave behind.
 */
module OverlayRefinement {
  import opened Types
  import opened Ledger
  import opened TransitionCodec
  import opened Overlay

  // ----- Ownership: backwards scan against the committed owner index -----

  lemma {:induction false} FindFirst(tracked: seq<Tracked>, outpoint: OutPoint)
    ensures Find(tracked, outpoint).Some? <==> outpoint in Outpoints(tracked)
    ensures Find(tracked, outpoint).Some? ==>
      Find(tracked, outpoint).value in tracked && Find(tracked, outpoint).value.outpoint == outpoint
  {
    if tracked != [] {
      FindFirst(tracked[1..], outpoint);
      assert Outpoints(tracked) == [tracked[0].outpoint] + Outpoints(tracked[1..]);
    }
  }

  predicate OwnerAgrees(resolution: Resolution, rows: Rows, outpoint: OutPoint) {
    match resolution
    case Live(owner) => outpoint in rows.owners && rows.owners[outpoint] == owner
    case _ => outpoint !in rows.owners
  }

  predicate SameOwner(rows: Rows, other: Rows, outpoint: OutPoint) {
    && (outpoint in rows.owners <==> outpoint in other.owners)
    && (outpoint in rows.owners ==> rows.owners[outpoint] == other.owners[outpoint])
  }

  /** No leg spends an output of its own transaction. */
  predicate SpendsOlder(leg: Leg, txid: Txid) {
    forall o :: o in LegSpent(leg) ==> o.txid != txid
  }

  lemma UpdateOwners(rows: Rows, update: Update, txid: Txid, outputCount: nat)
    requires CommitLeg(rows, Updates(update), txid, outputCount).Ok?
    ensures
      var owners := CommitLeg(rows, Updates(update), txid, outputCount).value.owners;
      && (forall t :: t in update.created ==>
            t.outpoint in owners && owners[t.outpoint] == Owner(rows.contracts[update.id].core.id, t.role))
      && (forall o :: o !in Outpoints(update.created) ==>
            && (o in owners <==> o in rows.owners && o !in update.spent)
            && (o in owners ==> owners[o] == rows.owners[o]))
  {
    var before := rows.contracts[update.id];
    InsertEffect(RemoveContract(rows, before), Updated(before, update));
    assert forall o :: o in update.spent <==> o in ToSet(update.spent);
    assert forall o :: o in ToSet(Outpoints(before.core.outpoints)) <==> o in ToSet(update.spent);
  }

  lemma CreateOwner(rows: Rows, record: Record, txid: Txid, outputCount: nat, outpoint: OutPoint)
    requires CommitLeg(rows, Creates(record), txid, outputCount).Ok?
    ensures
      var after := CommitLeg(rows, Creates(record), txid, outputCount).value;
      var hit := LegHit(Creates(record), outpoint);
      if hit.Some? then OwnerAgrees(hit.value, after, outpoint) else SameOwner(rows, after, outpoint)
  {
    FindFirst(record.core.outpoints, outpoint);
    InsertEffect(rows, record);
  }

  lemma UpdateOwner(rows: Rows, update: Update, txid: Txid, outputCount: nat, outpoint: OutPoint)
    requires CommitLeg(rows, Updates(update), txid, outputCount).Ok?
    requires rows.contracts[update.id].core.id == update.id
    requires SpendsOlder(Updates(update), txid)
    ensures
      var after := CommitLeg(rows, Updates(update), txid, outputCount).value;
      var hit := LegHit(Updates(update), outpoint);
      if hit.Some? then OwnerAgrees(hit.value, after, outpoint) else SameOwner(rows, after, outpoint)
  {
    FindFirst(update.created, outpoint);
    UpdateOwners(rows, update, txid, outputCount);
    if outpoint in update.spent {
      OutpointMembers(update.created);
      assert outpoint !in Outpoints(update.created);
    }
  }

  lemma LegOwner(rows: Rows, leg: Leg, txid: Txid, outputCount: nat, outpoint: OutPoint)
    requires leg.Updates? && leg.update.id in rows.contracts ==> rows.contracts[leg.update.id].core.id == leg.update.id
    requires CommitLeg(rows, leg, txid, outputCount).Ok?
    requires SpendsOlder(leg, txid)
    ensures
      var after := CommitLeg(rows, leg, txid, outputCount).value;
      var hit := LegHit(leg, outpoint);
      if hit.Some? then OwnerAgrees(hit.value, after, outpoint) else SameOwner(rows, after, outpoint)
  {
    match leg
    case Creates(record) => CreateOwner(rows, record, txid, outputCount, outpoint);
    case Updates(update) => UpdateOwner(rows, update, txid, outputCount, outpoint);
  }

  lemma {:induction false} LegsOwner(rows: Rows, legs: seq<Leg>, txid: Txid, outputCount: nat, outpoint: OutPoint)
    requires Coherent(rows)
    requires CommitLegs(rows, legs, txid, outputCount).Ok?
    requires forall leg :: leg in legs ==> SpendsOlder(leg, txid)
    ensures LegScan(legs, outpoint).Some? ==>
      OwnerAgrees(LegScan(legs, outpoint).value, CommitLegs(rows, legs, txid, outputCount).value, outpoint)
    ensures LegScan(legs, outpoint).None? ==>
      SameOwner(rows, CommitLegs(rows, legs, txid, outputCount).value, outpoint)
  {
    if legs != [] {
      var k := |legs| - 1;
      LegsKeepCoherent(rows, legs[..k], txid, outputCount);
      LegsOwner(rows, legs[..k], txid, outputCount, outpoint);
      LegOwner(CommitLegs(rows, legs[..k], txid, outputCount).value, legs[k], txid, outputCount, outpoint);
    }
  }

  predicate DeltaSpendsOlder(delta: TxDelta) {
    forall leg :: leg in Legs(delta) ==> SpendsOlder(leg, delta.tx.txid)
  }

  lemma DeltaOwner(rows: Rows, delta: TxDelta, outpoint: OutPoint)
    requires Coherent(rows)
    requires CommitTx(rows, delta).Ok?
    requires DeltaSpendsOlder(delta)
    ensures LegScan(Legs(delta), outpoint).Some? ==>
      OwnerAgrees(LegScan(Legs(delta), outpoint).value, CommitTx(rows, delta).value, outpoint)
    ensures LegScan(Legs(delta), outpoint).None? ==> SameOwner(rows, CommitTx(rows, delta).value, outpoint)
  {
    CommitTxEffect(rows, delta);
    LegsOwner(rows, Legs(delta), delta.tx.txid, |delta.tx.outputs|, outpoint);
  }

  /** The backwards scan finds the owner row the commits would leave. */
  lemma {:induction false} OwnerScanIsCommitted(rows: Rows, deltas: seq<TxDelta>, outpoint: OutPoint)
    requires Coherent(rows)
    requires CommitAll(rows, deltas).Ok?
    requires forall d :: d in deltas ==> DeltaSpendsOlder(d)
    ensures OwnerAgrees(OwnerScan(rows, deltas, outpoint), CommitAll(rows, deltas).value, outpoint)
  {
    if deltas != [] {
      var k := |deltas| - 1;
      OwnerScanIsCommitted(rows, deltas[..k], outpoint);
      CommitKeepsCoherent(rows, deltas[..k]);
      DeltaOwner(CommitAll(rows, deltas[..k]).value, deltas[k], outpoint);
    }
  }

  // ----- Contract state: forwards replay against the committed record -----

  lemma LegContract(rows: Rows, leg: Leg, txid: Txid, outputCount: nat, id: OutPoint)
    requires CommitLeg(rows, leg, txid, outputCount).Ok?
    requires Coherent(rows)
    ensures LegId(leg) != id ==>
      StoredCore(CommitLeg(rows, leg, txid, outputCount).value, id) == StoredCore(rows, id)
    ensures LegId(leg) == id && leg.Creates? ==>
      && StoredCore(rows, id) == None
      && StoredCore(CommitLeg(rows, leg, txid, outputCount).value, id) == Some(leg.record.core)
    ensures LegId(leg) == id && leg.Updates? ==>
      Ok(StoredCore(CommitLeg(rows, leg, txid, outputCount).value, id))
      == ReplayUpdate(StoredCore(rows, id), leg.update)
  {
    match leg
    case Creates(record) => InsertEffect(rows, record);
    case Updates(update) =>
      var before := rows.contracts[update.id];
      InsertEffect(RemoveContract(rows, before), Updated(before, update));
  }

  lemma {:induction false} CreatesContract(
      rows: Rows, created: seq<Record>, txid: Txid, outputCount: nat, id: OutPoint)
    requires Coherent(rows)
    requires CommitLegs(rows, LegsOf(created, []), txid, outputCount).Ok?
    ensures ReplayCreated(StoredCore(rows, id), created, id)
         == Ok(StoredCore(CommitLegs(rows, LegsOf(created, []), txid, outputCount).value, id))
  {
    if created != [] {
      var k := |created| - 1;
      var legs := LegsOf(created, []);
      assert LegsOf(created[..k], []) == CreateLegs(created[..k]);
      assert legs[..k] == LegsOf(created[..k], []);
      LegsKeepCoherent(rows, legs[..k], txid, outputCount);
      CreatesContract(rows, created[..k], txid, outputCount, id);
      LegContract(CommitLegs(rows, legs[..k], txid, outputCount).value, legs[k], txid, outputCount, id);
      FindRecordAppend(created[..k], created[k], id);
      assert created == created[..k] + [created[k]];
    }
  }

  lemma {:induction false} FindRecordAppend(records: seq<Record>, last: Record, id: OutPoint)
    ensures FindRecord(records + [last], id)
         == if FindRecord(records, id).Some? then FindRecord(records, id)
            else if last.core.id == id then Some(last.core) else None
  {
    if records != [] {
      FindRecordAppend(records[1..], last, id);
      assert (records + [last])[1..] == records[1..] + [last];
    }
  }

  lemma UpdateContract(current: Rows, update: Update, txid: Txid, outputCount: nat, id: OutPoint)
    requires Coherent(current)
    requires CommitLeg(current, Updates(update), txid, outputCount).Ok?
    ensures (if update.id == id then ReplayUpdate(StoredCore(current, id), update) else Ok(StoredCore(current, id)))
         == Ok(StoredCore(CommitLeg(current, Updates(update), txid, outputCount).value, id))
  {
    LegContract(current, Updates(update), txid, outputCount, id);
  }

  lemma CommitLegsAppend(rows: Rows, created: seq<Record>, updates: seq<Update>, txid: Txid, outputCount: nat)
    requires updates != []
    ensures
      var k := |updates| - 1;
      var earlier := CommitLegs(rows, LegsOf(created, updates[..k]), txid, outputCount);
      CommitLegs(rows, LegsOf(created, updates), txid, outputCount)
      == if earlier.Err? then earlier else CommitLeg(earlier.value, Updates(updates[k]), txid, outputCount)
  {
    var legs := LegsOf(created, updates);
    assert legs[..|legs| - 1] == LegsOf(created, updates[..|updates| - 1]);
  }

  lemma {:induction false} LegsContract(
      rows: Rows, created: seq<Record>, updates: seq<Update>, txid: Txid, outputCount: nat, id: OutPoint)
    requires Coherent(rows)
    requires CommitLegs(rows, LegsOf(created, updates), txid, outputCount).Ok?
    ensures ReplayCreated(StoredCore(rows, id), created, id).Ok?
    ensures ReplayUpdates(ReplayCreated(StoredCore(rows, id), created, id).value, updates, id)
         == Ok(StoredCore(CommitLegs(rows, LegsOf(created, updates), txid, outputCount).value, id))
  {
    if updates == [] {
      CreatesContract(rows, created, txid, outputCount, id);
    } else {
      var k := |updates| - 1;
      CommitLegsAppend(rows, created, updates, txid, outputCount);
      LegsContract(rows, created, updates[..k], txid, outputCount, id);
      LegsKeepCoherent(rows, LegsOf(created, updates[..k]), txid, outputCount);
      var current := CommitLegs(rows, LegsOf(created, updates[..k]), txid, outputCount).value;
      UpdateContract(current, updates[k], txid, outputCount, id);
    }
  }

  /** The forwards replay succeeds and finds the record the commits would leave. */
  lemma {:induction false} ContractReplayIsCommitted(rows: Rows, deltas: seq<TxDelta>, id: OutPoint)
    requires Coherent(rows)
    requires CommitAll(rows, deltas).Ok?
    ensures ContractReplay(rows, deltas, id) == Ok(StoredCore(CommitAll(rows, deltas).value, id))
  {
    if deltas != [] {
      var k := |deltas| - 1;
      var base := CommitAll(rows, deltas[..k]).value;
      var tx := deltas[k].tx;
      CommitKeepsCoherent(rows, deltas[..k]);
      ContractReplayIsCommitted(rows, deltas[..k], id);
      CommitTxEffect(base, deltas[k]);
      LegsContract(base, deltas[k].created, deltas[k].updates, tx.txid, |tx.outputs|, id);
    }
  }

  // ----- Outputs: transaction-id search against the committed output rows -----

  predicate FreshTxids(rows: Rows, deltas: seq<TxDelta>) {
    && (forall i, j :: 0 <= i < j < |deltas| ==> deltas[i].tx.txid != deltas[j].tx.txid)
    && (forall o, d :: o in rows.outputs && d in deltas ==> o.txid != d.tx.txid)
  }

  lemma {:induction false} CommittedOutputTxids(rows: Rows, deltas: seq<TxDelta>, outpoint: OutPoint)
    requires CommitAll(rows, deltas).Ok?
    requires outpoint in CommitAll(rows, deltas).value.outputs
    ensures outpoint in rows.outputs || exists d :: d in deltas && d.tx.txid == outpoint.txid
  {
    if deltas != [] {
      var k := |deltas| - 1;
      var base := CommitAll(rows, deltas[..k]).value;
      CommitTxEffect(base, deltas[k]);
      if outpoint in base.outputs {
        CommittedOutputTxids(rows, deltas[..k], outpoint);
      } else {
        assert deltas[k] in deltas;
      }
    }
  }

  /** The transaction-id search finds the output row the commits would leave. */
  lemma {:induction false} OutputScanIsCommitted(rows: Rows, deltas: seq<TxDelta>, outpoint: OutPoint)
    requires CommitAll(rows, deltas).Ok?
    requires FreshTxids(rows, deltas)
    ensures OutputScan(rows, deltas, outpoint) == OutputScan(CommitAll(rows, deltas).value, [], outpoint)
  {
    if deltas != [] {
      var k := |deltas| - 1;
      var base := CommitAll(rows, deltas[..k]).value;
      CommitTxEffect(base, deltas[k]);
      OutputScanIsCommitted(rows, deltas[..k], outpoint);
      if deltas[k].tx.txid == outpoint.txid && outpoint in base.outputs {
        CommittedOutputTxids(rows, deltas[..k], outpoint);
      }
    }
  }

  // ----- Interpretation reads the store only through its view -----

  ghost predicate SameReads(view: View, other: View) {
    && (forall id :: view.contract(id) == other.contract(id))
    && (forall o :: view.output(o) == other.output(o))
  }

  lemma {:induction false} RetainCongruent(view: View, other: View, candidates: seq<Core>, anchor: Anchor)
    requires SameReads(view, other)
    ensures RetainAll(view, candidates, anchor) == RetainAll(other, candidates, anchor)
  {
    if candidates != [] {
      RetainCongruent(view, other, candidates[..|candidates| - 1], anchor);
    }
  }

  lemma {:induction false} TouchedCongruent(view: View, other: View, inputs: seq<OutPoint>, mode: Mode)
    requires forall o :: o in inputs ==> view.owner(o) == other.owner(o)
    ensures Touched(view, inputs, mode) == Touched(other, inputs, mode)
  {
    if inputs != [] {
      TouchedCongruent(view, other, inputs[..|inputs| - 1], mode);
    }
  }

  lemma {:induction false} MaterializeCongruent(view: View, other: View, tracked: seq<Tracked>, id: OutPoint)
    requires SameReads(view, other)
    ensures Materialize(view, tracked, id) == Materialize(other, tracked, id)
  {
    if tracked != [] {
      MaterializeCongruent(view, other, tracked[..|tracked| - 1], id);
    }
  }

  lemma {:induction false} InterpretTouchedCongruent(
      view: View, other: View, rules: Rules, ids: seq<OutPoint>, tx: Transaction)
    requires SameReads(view, other)
    ensures InterpretTouched(view, rules, ids, tx) == InterpretTouched(other, rules, ids, tx)
  {
    if ids != [] {
      InterpretTouchedCongruent(view, other, rules, ids[..|ids| - 1], tx);
      var known := view.contract(ids[|ids| - 1]);
      if known.Ok? && known.value.Some? {
        var core := known.value.value;
        MaterializeCongruent(view, other, core.outpoints, core.id);
      }
    }
  }

  lemma InterpretCongruent(view: View, other: View, rules: Rules, site: Site, tx: Transaction)
    requires SameReads(view, other)
    requires forall o :: o in Inputs(tx) ==> view.owner(o) == other.owner(o)
    ensures Interpret(view, rules, site, tx) == Interpret(other, rules, site, tx)
  {
    RetainCongruent(view, other, Candidates(rules, tx, site), site.anchor);
    TouchedCongruent(view, other, Inputs(tx), site.mode);
    var touched := Touched(view, Inputs(tx), site.mode);
    if touched.Ok? {
      InterpretTouchedCongruent(view, other, rules, touched.value, tx);
    }
  }

  lemma {:induction false} SpentInputStops(view: View, inputs: seq<OutPoint>, mode: Mode, spent: OutPoint)
    requires spent in inputs
    requires view.owner(spent).SpentEarlier?
    ensures Touched(view, inputs, mode).Err?
  {
    var k := |inputs| - 1;
    if inputs[k] != spent {
      SpentInputStops(view, inputs[..k], mode, spent);
    }
  }

  /**
   Overlay refines commit. If an input was already spent by an earlier delta of the block the
   interpretation fails; otherwise it is, value or error alike, the interpretation with no prior
   deltas against the rows those deltas commit to.
   */
  lemma OverlayRefinesCommit(rows: Rows, deltas: seq<TxDelta>, rules: Rules, site: Site, tx: Transaction)
    requires Coherent(rows)
    requires CommitAll(rows, deltas).Ok?
    requires FreshTxids(rows, deltas)
    requires forall d :: d in deltas ==> DeltaSpendsOlder(d)
    ensures
      var overlay := Interpret(OverlayView(rows, deltas), rules, site, tx);
      var direct := Interpret(OverlayView(CommitAll(rows, deltas).value, []), rules, site, tx);
      if exists o :: o in Inputs(tx) && OwnerScan(rows, deltas, o).SpentEarlier?
      then overlay.Err?
      else overlay == direct
  {
    var after := CommitAll(rows, deltas).value;
    var view := OverlayView(rows, deltas);
    var other := OverlayView(after, []);
    if o :| o in Inputs(tx) && OwnerScan(rows, deltas, o).SpentEarlier? {
      SpentInputStops(view, Inputs(tx), site.mode, o);
    } else {
      forall id
        ensures view.contract(id) == other.contract(id)
      {
        ContractReplayIsCommitted(rows, deltas, id);
      }
      forall o
        ensures view.output(o) == other.output(o)
      {
        OutputScanIsCommitted(rows, deltas, o);
      }
      forall o | o in Inputs(tx)
        ensures view.owner(o) == other.owner(o)
      {
        OwnerScanIsCommitted(rows, deltas, o);
      }
      InterpretCongruent(view, other, rules, site, tx);
    }
  }
}
