/**
 Materialized contract rows of the node store, as one atomic block commit sees them:
 the contract records, the outpoint-owner index and the outputs of relevant transactions.
 */
module Ledger {
  import opened Types

  datatype Tracked = Tracked(role: Byte, outpoint: OutPoint)

  datatype Owner = Owner(contract: OutPoint, role: Byte)

  datatype SyncState = CatchingUp(through: Anchor) | Ready(through: Anchor)

  /** Everything in a contract record but its synchronization state. */
  datatype Core = Core(
    id: OutPoint,
    params: Params,
    position: Position,
    scripts: seq<Script>,
    assets: seq<AssetId>,
    state: MarketState,
    outpoints: seq<Tracked>)

  datatype Record = Record(core: Core, sync: SyncState)

  datatype TransitionRecord = TransitionRecord(kind: nat, payload: seq<Byte>)

  datatype Update = Update(
    id: OutPoint,
    oldState: MarketState,
    newState: MarketState,
    spent: seq<OutPoint>,
    created: seq<Tracked>,
    transition: TransitionRecord)

  datatype TxDelta = TxDelta(
    position: Position,
    tx: Transaction,
    created: seq<Record>,
    updates: seq<Update>)

  datatype Rows = Rows(
    contracts: map<OutPoint, Record>,
    owners: map<OutPoint, Owner>,
    outputs: map<OutPoint, TxOut>)

  datatype StoreError =
    | InvalidContract
    | ContractAlreadyExists
    | ContractNotFound
    | StateMismatch
    | InvalidTransition
    | OutpointAlreadyOwned
    | UnaccountedTrackedInput

  /** One row change of a transaction: created contracts first, then state updates. */
  datatype Leg = Creates(record: Record) | Updates(update: Update)

  function LegId(leg: Leg): OutPoint {
    match leg
    case Creates(record) => record.core.id
    case Updates(update) => update.id
  }

  function LegOutpoints(leg: Leg): seq<Tracked> {
    match leg
    case Creates(record) => record.core.outpoints
    case Updates(update) => update.created
  }

  function LegSpent(leg: Leg): seq<OutPoint> {
    match leg
    case Creates(_) => []
    case Updates(update) => update.spent
  }

  function CreateLegs(created: seq<Record>): (legs: seq<Leg>)
    ensures |legs| == |created|
  {
    if created == [] then [] else CreateLegs(created[..|created| - 1]) + [Creates(created[|created| - 1])]
  }

  function LegsOf(created: seq<Record>, updates: seq<Update>): (legs: seq<Leg>)
    ensures |legs| == |created| + |updates|
  {
    if updates == [] then
      CreateLegs(created)
    else
      LegsOf(created, updates[..|updates| - 1]) + [Updates(updates[|updates| - 1])]
  }

  lemma {:induction false} CreateLegMembers(created: seq<Record>)
    ensures forall leg :: leg in CreateLegs(created) <==> leg.Creates? && leg.record in created
  {
    if created != [] {
      var k := |created| - 1;
      CreateLegMembers(created[..k]);
      assert created == created[..k] + [created[k]];
    }
  }

  /** The legs of a transaction are its created contracts and its updates, nothing else. */
  lemma {:induction false} LegMembers(created: seq<Record>, updates: seq<Update>)
    ensures forall leg :: leg in LegsOf(created, updates) <==>
      match leg { case Creates(record) => record in created case Updates(update) => update in updates }
  {
    if updates == [] {
      CreateLegMembers(created);
    } else {
      var k := |updates| - 1;
      LegMembers(created, updates[..k]);
      assert updates == updates[..k] + [updates[k]];
    }
  }

  function Legs(delta: TxDelta): seq<Leg> {
    LegsOf(delta.created, delta.updates)
  }

  function Outpoints(tracked: seq<Tracked>): (points: seq<OutPoint>)
    ensures |points| == |tracked|
    ensures forall i :: 0 <= i < |tracked| ==> points[i] == tracked[i].outpoint
  {
    seq(|tracked|, i requires 0 <= i < |tracked| => tracked[i].outpoint)
  }

  lemma OutpointMembers(tracked: seq<Tracked>)
    ensures forall t :: t in tracked ==> t.outpoint in Outpoints(tracked)
    ensures forall o :: o in Outpoints(tracked) ==> exists t :: t in tracked && t.outpoint == o
  {
    forall t | t in tracked
      ensures t.outpoint in Outpoints(tracked)
    {
      var i :| 0 <= i < |tracked| && tracked[i] == t;
      assert Outpoints(tracked)[i] == t.outpoint;
    }
    forall o | o in Outpoints(tracked)
      ensures exists t :: t in tracked && t.outpoint == o
    {
      var i :| 0 <= i < |tracked| && Outpoints(tracked)[i] == o;
      assert tracked[i] in tracked;
    }
  }

  /** Roles and outpoints are pairwise distinct. */
  predicate DistinctTracked(tracked: seq<Tracked>) {
    forall i, j :: 0 <= i < j < |tracked| ==>
      tracked[i].role != tracked[j].role && tracked[i].outpoint != tracked[j].outpoint
  }

  predicate NewOutpointsOk(tracked: seq<Tracked>, txid: Txid, outputCount: nat) {
    && DistinctTracked(tracked)
    && forall t :: t in tracked ==> t.outpoint.txid == txid && t.outpoint.vout < outputCount
  }

  /** Every live outpoint is spent exactly once and nothing else is. */
  predicate CompleteSpend(live: seq<Tracked>, spent: seq<OutPoint>) {
    && ToSet(Outpoints(live)) == ToSet(spent)
    && |ToSet(spent)| == |spent|
  }

  function OwnersOf(core: Core): (owned: map<OutPoint, Owner>)
    requires DistinctTracked(core.outpoints)
    ensures forall t :: t in core.outpoints ==> t.outpoint in owned && owned[t.outpoint] == Owner(core.id, t.role)
    ensures forall o :: o in owned ==> o in Outpoints(core.outpoints)
  {
    map t | t in core.outpoints :: t.outpoint := Owner(core.id, t.role)
  }

  function InsertContract(rows: Rows, record: Record): Result<Rows, StoreError> {
    if !DistinctTracked(record.core.outpoints) then
      Err(InvalidContract)
    else if record.core.id in rows.contracts then
      Err(ContractAlreadyExists)
    else if exists o :: o in Outpoints(record.core.outpoints) && o in rows.owners then
      Err(OutpointAlreadyOwned)
    else
      Ok(rows.(
        contracts := rows.contracts[record.core.id := record],
        owners := rows.owners + OwnersOf(record.core)))
  }

  function RemoveContract(rows: Rows, record: Record): Rows {
    rows.(
      contracts := rows.contracts - {record.core.id},
      owners := rows.owners - ToSet(Outpoints(record.core.outpoints)))
  }

  function Updated(before: Record, update: Update): Record {
    before.(core := before.core.(state := update.newState, outpoints := update.created))
  }

  function CommitLeg(rows: Rows, leg: Leg, txid: Txid, outputCount: nat): Result<Rows, StoreError> {
    match leg
    case Creates(record) =>
      if record.core.id in rows.contracts then
        Err(ContractAlreadyExists)
      else if !NewOutpointsOk(record.core.outpoints, txid, outputCount) then
        Err(InvalidTransition)
      else
        InsertContract(rows, record)
    case Updates(update) =>
      if update.id !in rows.contracts then
        Err(ContractNotFound)
      else
        var before := rows.contracts[update.id];
        if before.core.state != update.oldState then
          Err(StateMismatch)
        else if !CompleteSpend(before.core.outpoints, update.spent) then
          Err(InvalidTransition)
        else if !NewOutpointsOk(update.created, txid, outputCount) then
          Err(InvalidTransition)
        else
          InsertContract(RemoveContract(rows, before), Updated(before, update))
  }

  function CommitLegs(rows: Rows, legs: seq<Leg>, txid: Txid, outputCount: nat): Result<Rows, StoreError> {
    if legs == [] then
      Ok(rows)
    else
      var earlier :- CommitLegs(rows, legs[..|legs| - 1], txid, outputCount);
      CommitLeg(earlier, legs[|legs| - 1], txid, outputCount)
  }

  function Declared(updates: seq<Update>): (points: seq<OutPoint>) {
    if updates == [] then [] else Declared(updates[..|updates| - 1]) + updates[|updates| - 1].spent
  }

  function Inputs(tx: Transaction): (points: seq<OutPoint>)
    ensures |points| == |tx.inputs|
    ensures forall i :: 0 <= i < |points| ==> points[i] == tx.inputs[i].previous
  {
    seq(|tx.inputs|, i requires 0 <= i < |tx.inputs| => tx.inputs[i].previous)
  }

  predicate DeclaredBy(updates: seq<Update>, outpoint: OutPoint, contract: OutPoint) {
    exists u :: u in updates && outpoint in u.spent && u.id == contract
  }

  /** Declared spends are inputs, and the tracked inputs are exactly the declared ones, leg by owner. */
  function ValidateTrackedInputs(rows: Rows, delta: TxDelta): Result<(), StoreError> {
    if !NoDup(Declared(delta.updates)) then
      Err(InvalidTransition)
    else if exists o :: o in Declared(delta.updates) && o !in Inputs(delta.tx) then
      Err(InvalidTransition)
    else if exists o :: o in Inputs(delta.tx) && o in rows.owners && !DeclaredBy(delta.updates, o, rows.owners[o].contract) then
      Err(UnaccountedTrackedInput)
    else if exists o :: o in Inputs(delta.tx) && o !in rows.owners && o in Declared(delta.updates) then
      Err(InvalidTransition)
    else
      Ok(())
  }

  function TxOutputs(tx: Transaction): (outputs: map<OutPoint, TxOut>)
    ensures forall o :: o in outputs <==> o.txid == tx.txid && o.vout < |tx.outputs|
    ensures forall o :: o in outputs ==> outputs[o] == tx.outputs[o.vout]
  {
    map v | 0 <= v < |tx.outputs| :: OutPoint(tx.txid, v) := tx.outputs[v]
  }

  function CommitTx(rows: Rows, delta: TxDelta): Result<Rows, StoreError> {
    var _ :- ValidateTrackedInputs(rows, delta);
    var applied :- CommitLegs(rows, Legs(delta), delta.tx.txid, |delta.tx.outputs|);
    Ok(applied.(outputs := applied.outputs + TxOutputs(delta.tx)))
  }

  function CommitAll(rows: Rows, deltas: seq<TxDelta>): Result<Rows, StoreError> {
    if deltas == [] then
      Ok(rows)
    else
      var earlier :- CommitAll(rows, deltas[..|deltas| - 1]);
      CommitTx(earlier, deltas[|deltas| - 1])
  }

  // ----- The owner index is the exact inverse of the live-outpoint lists -----

  ghost predicate Coherent(rows: Rows) {
    Inverse(rows.contracts, rows.owners)
  }

  ghost predicate Inverse(contracts: map<OutPoint, Record>, owners: map<OutPoint, Owner>) {
    && (forall c :: c in contracts ==> contracts[c].core.id == c && DistinctTracked(contracts[c].core.outpoints))
    && (forall o :: o in owners ==>
          && owners[o].contract in contracts
          && Tracked(owners[o].role, o) in contracts[owners[o].contract].core.outpoints)
    && (forall c, t :: c in contracts && t in contracts[c].core.outpoints ==>
          t.outpoint in owners && owners[t.outpoint] == Owner(c, t.role))
  }

  lemma InsertKeepsCoherent(rows: Rows, record: Record)
    requires Coherent(rows)
    requires InsertContract(rows, record).Ok?
    ensures Coherent(InsertContract(rows, record).value)
  {
    var after := InsertContract(rows, record).value;
    OutpointMembers(record.core.outpoints);
    forall c, t | c in after.contracts && t in after.contracts[c].core.outpoints
      ensures t.outpoint in after.owners && after.owners[t.outpoint] == Owner(c, t.role)
    {
      if c != record.core.id {
        assert t.outpoint in rows.owners;
      }
    }
    forall o | o in after.owners
      ensures after.owners[o].contract in after.contracts
      ensures Tracked(after.owners[o].role, o) in after.contracts[after.owners[o].contract].core.outpoints
    {
    }
  }

  lemma RemoveKeepsCoherent(rows: Rows, id: OutPoint)
    requires Coherent(rows)
    requires id in rows.contracts
    ensures Coherent(RemoveContract(rows, rows.contracts[id]))
  {
    OwnedExactly(rows, id);
    var after := RemoveContract(rows, rows.contracts[id]);
    forall o
      ensures o in after.owners <==> o in rows.owners && rows.owners[o].contract != id
    {
    }
    RestrictInverse(rows.contracts, rows.owners, after.contracts, after.owners, id);
  }

  lemma RestrictInverse(
      contracts: map<OutPoint, Record>, owners: map<OutPoint, Owner>,
      fewer: map<OutPoint, Record>, remaining: map<OutPoint, Owner>, id: OutPoint)
    requires Inverse(contracts, owners)
    requires fewer == contracts - {id}
    requires forall o :: o in remaining <==> o in owners && owners[o].contract != id
    requires forall o :: o in remaining ==> remaining[o] == owners[o]
    ensures Inverse(fewer, remaining)
  {
  }

  lemma OwnedExactly(rows: Rows, id: OutPoint)
    requires Coherent(rows)
    requires id in rows.contracts
    ensures forall o :: o in Outpoints(rows.contracts[id].core.outpoints) <==>
      o in rows.owners && rows.owners[o].contract == id
  {
    var live := rows.contracts[id].core.outpoints;
    OutpointMembers(live);
    forall o | o in rows.owners && rows.owners[o].contract == id
      ensures o in Outpoints(live)
    {
      assert Tracked(rows.owners[o].role, o) in live;
    }
  }

  lemma LegKeepsCoherent(rows: Rows, leg: Leg, txid: Txid, outputCount: nat)
    requires Coherent(rows)
    requires CommitLeg(rows, leg, txid, outputCount).Ok?
    ensures Coherent(CommitLeg(rows, leg, txid, outputCount).value)
  {
    match leg
    case Creates(record) => InsertKeepsCoherent(rows, record);
    case Updates(update) =>
      var before := rows.contracts[update.id];
      RemoveKeepsCoherent(rows, update.id);
      InsertKeepsCoherent(RemoveContract(rows, before), Updated(before, update));
  }

  lemma {:induction false} LegsKeepCoherent(rows: Rows, legs: seq<Leg>, txid: Txid, outputCount: nat)
    requires Coherent(rows)
    requires CommitLegs(rows, legs, txid, outputCount).Ok?
    ensures Coherent(CommitLegs(rows, legs, txid, outputCount).value)
  {
    if legs != [] {
      var k := |legs| - 1;
      LegsKeepCoherent(rows, legs[..k], txid, outputCount);
      LegKeepsCoherent(CommitLegs(rows, legs[..k], txid, outputCount).value, legs[k], txid, outputCount);
    }
  }

  lemma TxKeepsCoherent(rows: Rows, delta: TxDelta)
    requires Coherent(rows)
    requires CommitTx(rows, delta).Ok?
    ensures Coherent(CommitTx(rows, delta).value)
  {
    CommitTxEffect(rows, delta);
    LegsKeepCoherent(rows, Legs(delta), delta.tx.txid, |delta.tx.outputs|);
  }

  /** Every committed block keeps the owner index the exact inverse of the live-outpoint lists. */
  lemma {:induction false} CommitKeepsCoherent(rows: Rows, deltas: seq<TxDelta>)
    requires Coherent(rows)
    requires CommitAll(rows, deltas).Ok?
    ensures Coherent(CommitAll(rows, deltas).value)
  {
    if deltas != [] {
      var k := |deltas| - 1;
      CommitKeepsCoherent(rows, deltas[..k]);
      TxKeepsCoherent(CommitAll(rows, deltas[..k]).value, deltas[k]);
    }
  }

  // ----- Undo rows written beside a block, and the rollback that replays them backwards -----

  datatype ContractUndo = ContractUndo(id: OutPoint, before: Option<Record>)

  datatype BlockUndo = BlockUndo(changes: seq<ContractUndo>, outputs: set<OutPoint>)

  function UndoOf(rows: Rows, leg: Leg): ContractUndo {
    match leg
    case Creates(record) => ContractUndo(record.core.id, None)
    case Updates(update) =>
      ContractUndo(update.id, if update.id in rows.contracts then Some(rows.contracts[update.id]) else None)
  }

  function LegsUndo(rows: Rows, legs: seq<Leg>, txid: Txid, outputCount: nat): (log: seq<ContractUndo>)
    requires CommitLegs(rows, legs, txid, outputCount).Ok?
  {
    if legs == [] then
      []
    else
      var k := |legs| - 1;
      LegsUndo(rows, legs[..k], txid, outputCount)
      + [UndoOf(CommitLegs(rows, legs[..k], txid, outputCount).value, legs[k])]
  }

  function UndoFor(rows: Rows, deltas: seq<TxDelta>): BlockUndo
    requires CommitAll(rows, deltas).Ok?
  {
    if deltas == [] then
      BlockUndo([], {})
    else
      var k := |deltas| - 1;
      var earlier := UndoFor(rows, deltas[..k]);
      var base := CommitAll(rows, deltas[..k]).value;
      var tx := deltas[k].tx;
      BlockUndo(
        earlier.changes + LegsUndo(base, Legs(deltas[k]), tx.txid, |tx.outputs|),
        earlier.outputs + TxOutputs(tx).Keys)
  }

  function RevertChange(rows: Rows, change: ContractUndo): Result<Rows, StoreError> {
    var cleared := if change.id in rows.contracts then RemoveContract(rows, rows.contracts[change.id]) else rows;
    match change.before
    case None => Ok(cleared)
    case Some(before) => InsertContract(cleared, before)
  }

  /** Replays a change log from its last entry to its first. */
  function RevertChanges(rows: Rows, changes: seq<ContractUndo>): Result<Rows, StoreError>
    decreases |changes|
  {
    if changes == [] then
      Ok(rows)
    else
      var reverted :- RevertChange(rows, changes[|changes| - 1]);
      RevertChanges(reverted, changes[..|changes| - 1])
  }

  function Rollback(rows: Rows, undo: BlockUndo): Result<Rows, StoreError> {
    var reverted :- RevertChanges(rows, undo.changes);
    Ok(reverted.(outputs := reverted.outputs - undo.outputs))
  }

  lemma OwnersRoundTrip(owners: map<OutPoint, Owner>, core: Core)
    requires DistinctTracked(core.outpoints)
    requires forall o :: o in Outpoints(core.outpoints) ==> o !in owners
    ensures (owners + OwnersOf(core)) - ToSet(Outpoints(core.outpoints)) == owners
  {
  }

  lemma OwnersRestored(owners: map<OutPoint, Owner>, core: Core)
    requires DistinctTracked(core.outpoints)
    requires forall t :: t in core.outpoints ==> t.outpoint in owners && owners[t.outpoint] == Owner(core.id, t.role)
    ensures (owners - ToSet(Outpoints(core.outpoints))) + OwnersOf(core) == owners
  {
    OutpointMembers(core.outpoints);
  }

  lemma InsertEffect(rows: Rows, record: Record)
    ensures InsertContract(rows, record).Ok? <==>
              && DistinctTracked(record.core.outpoints)
              && record.core.id !in rows.contracts
              && forall o :: o in Outpoints(record.core.outpoints) ==> o !in rows.owners
    ensures InsertContract(rows, record).Ok? ==>
              InsertContract(rows, record).value == rows.(
                contracts := rows.contracts[record.core.id := record],
                owners := rows.owners + OwnersOf(record.core))
  {
  }

  lemma RevertUndoesCreate(rows: Rows, record: Record, outputs: map<OutPoint, TxOut>)
    requires Coherent(rows)
    requires InsertContract(rows, record).Ok?
    ensures RevertChange(InsertContract(rows, record).value.(outputs := outputs), ContractUndo(record.core.id, None))
         == Ok(rows.(outputs := outputs))
  {
    InsertEffect(rows, record);
    OwnersRoundTrip(rows.owners, record.core);
    assert rows.contracts[record.core.id := record] - {record.core.id} == rows.contracts;
  }

  lemma RevertUndoesLeg(rows: Rows, leg: Leg, txid: Txid, outputCount: nat, outputs: map<OutPoint, TxOut>)
    requires Coherent(rows)
    requires CommitLeg(rows, leg, txid, outputCount).Ok?
    ensures RevertChange(CommitLeg(rows, leg, txid, outputCount).value.(outputs := outputs), UndoOf(rows, leg))
         == Ok(rows.(outputs := outputs))
  {
    match leg
    case Creates(record) => RevertUndoesCreate(rows, record, outputs);
    case Updates(update) =>
      var before := rows.contracts[update.id];
      var removed := RemoveContract(rows, before);
      RemoveKeepsCoherent(rows, update.id);
      RevertUndoesCreate(removed, Updated(before, update), outputs);
      OwnersRestored(rows.owners, before.core);
      InsertEffect(removed.(outputs := outputs), before);
      assert removed.contracts[update.id := before] == rows.contracts;
  }

  lemma {:induction false} RevertUndoesLegs(
      rows: Rows, legs: seq<Leg>, txid: Txid, outputCount: nat, outputs: map<OutPoint, TxOut>)
    requires Coherent(rows)
    requires CommitLegs(rows, legs, txid, outputCount).Ok?
    ensures RevertChanges(
              CommitLegs(rows, legs, txid, outputCount).value.(outputs := outputs),
              LegsUndo(rows, legs, txid, outputCount))
         == Ok(rows.(outputs := outputs))
  {
    if legs != [] {
      var k := |legs| - 1;
      var earlier := CommitLegs(rows, legs[..k], txid, outputCount).value;
      var log := LegsUndo(rows, legs, txid, outputCount);
      LegsKeepCoherent(rows, legs[..k], txid, outputCount);
      RevertUndoesLeg(earlier, legs[k], txid, outputCount, outputs);
      RevertUndoesLegs(rows, legs[..k], txid, outputCount, outputs);
      assert log[..|log| - 1] == LegsUndo(rows, legs[..k], txid, outputCount);
    }
  }

  lemma {:induction false} RevertConcat(rows: Rows, first: seq<ContractUndo>, second: seq<ContractUndo>)
    requires RevertChanges(rows, second).Ok?
    ensures RevertChanges(rows, first + second) == RevertChanges(RevertChanges(rows, second).value, first)
    decreases |second|
  {
    var all := first + second;
    if second == [] {
      assert all == first;
    } else {
      var k := |second| - 1;
      assert all[|all| - 1] == second[k];
      assert all[..|all| - 1] == first + second[..k];
      RevertConcat(RevertChange(rows, second[k]).value, first, second[..k]);
    }
  }

  lemma {:induction false} LegsKeepOutputs(rows: Rows, legs: seq<Leg>, txid: Txid, outputCount: nat)
    requires CommitLegs(rows, legs, txid, outputCount).Ok?
    ensures CommitLegs(rows, legs, txid, outputCount).value.outputs == rows.outputs
  {
    if legs != [] {
      LegsKeepOutputs(rows, legs[..|legs| - 1], txid, outputCount);
    }
  }

  lemma CommitTxEffect(rows: Rows, delta: TxDelta)
    requires CommitTx(rows, delta).Ok?
    ensures ValidateTrackedInputs(rows, delta).Ok?
    ensures CommitLegs(rows, Legs(delta), delta.tx.txid, |delta.tx.outputs|).Ok?
    ensures CommitTx(rows, delta).value
         == CommitLegs(rows, Legs(delta), delta.tx.txid, |delta.tx.outputs|).value.(
              outputs := rows.outputs + TxOutputs(delta.tx))
  {
    LegsKeepOutputs(rows, Legs(delta), delta.tx.txid, |delta.tx.outputs|);
  }

  lemma {:induction false} RevertUndoesCommits(rows: Rows, deltas: seq<TxDelta>, outputs: map<OutPoint, TxOut>)
    requires Coherent(rows)
    requires CommitAll(rows, deltas).Ok?
    ensures RevertChanges(CommitAll(rows, deltas).value.(outputs := outputs), UndoFor(rows, deltas).changes)
         == Ok(rows.(outputs := outputs))
  {
    if deltas != [] {
      var k := |deltas| - 1;
      var base := CommitAll(rows, deltas[..k]).value;
      var tx := deltas[k].tx;
      CommitKeepsCoherent(rows, deltas[..k]);
      CommitTxEffect(base, deltas[k]);
      RevertUndoesLegs(base, Legs(deltas[k]), tx.txid, |tx.outputs|, outputs);
      RevertConcat(
        CommitAll(rows, deltas).value.(outputs := outputs),
        UndoFor(rows, deltas[..k]).changes,
        LegsUndo(base, Legs(deltas[k]), tx.txid, |tx.outputs|));
      RevertUndoesCommits(rows, deltas[..k], outputs);
    }
  }

  lemma OverwriteOutside<K, V>(left: map<K, V>, right: map<K, V>, extra: map<K, V>, hidden: set<K>)
    requires left - hidden == right - hidden
    ensures (left + extra) - (hidden + extra.Keys) == right - (hidden + extra.Keys)
  {
    forall k | k !in hidden
      ensures k in left <==> k in right
      ensures k in left ==> left[k] == right[k]
    {
      assert k in left - hidden <==> k in right - hidden;
      if k in left {
        assert (left - hidden)[k] == (right - hidden)[k];
      }
    }
  }

  lemma {:induction false} OutputsOutsideBlock(rows: Rows, deltas: seq<TxDelta>)
    requires CommitAll(rows, deltas).Ok?
    ensures CommitAll(rows, deltas).value.outputs - UndoFor(rows, deltas).outputs
         == rows.outputs - UndoFor(rows, deltas).outputs
  {
    if deltas != [] {
      var k := |deltas| - 1;
      var base := CommitAll(rows, deltas[..k]).value;
      OutputsOutsideBlock(rows, deltas[..k]);
      CommitTxEffect(base, deltas[k]);
      OverwriteOutside(base.outputs, rows.outputs, TxOutputs(deltas[k].tx), UndoFor(rows, deltas[..k]).outputs);
    }
  }

  /**
   Rolling a committed block back always succeeds and restores every contract row and owner row.
   The output rows come back too exactly when none of the outpoints the block produces was stored before.
   */
  lemma RollbackUndoesBlock(rows: Rows, deltas: seq<TxDelta>)
    requires Coherent(rows)
    requires CommitAll(rows, deltas).Ok?
    ensures Rollback(CommitAll(rows, deltas).value, UndoFor(rows, deltas))
         == Ok(rows.(outputs := rows.outputs - UndoFor(rows, deltas).outputs))
    ensures Rollback(CommitAll(rows, deltas).value, UndoFor(rows, deltas)) == Ok(rows)
       <==> rows.outputs.Keys !! UndoFor(rows, deltas).outputs
  {
    var after := CommitAll(rows, deltas).value;
    var undo := UndoFor(rows, deltas);
    RevertUndoesCommits(rows, deltas, after.outputs);
    OutputsOutsideBlock(rows, deltas);
    assert after.(outputs := after.outputs) == after;
    var kept := rows.outputs - undo.outputs;
    assert kept.Keys == rows.outputs.Keys - undo.outputs;
    if rows.outputs.Keys !! undo.outputs {
      assert kept == rows.outputs;
    }
  }

  /** A block that creates a contract at an outpoint already stored: rolling it back loses the output row. */
  lemma ReproducedOutputIsLost(record: Record, txout: TxOut, position: Position)
    requires record.core.id == OutPoint(1, 0) && record.core.outpoints == [Tracked(0, OutPoint(1, 0))]
    ensures
      var rows := Rows(map[], map[], map[OutPoint(1, 0) := txout]);
      var deltas := [TxDelta(position, Transaction(1, [], [txout], Blocks(0), 0), [record], [])];
      && Coherent(rows)
      && CommitAll(rows, deltas).Ok?
      && Rollback(CommitAll(rows, deltas).value, UndoFor(rows, deltas)) == Ok(Rows(map[], map[], map[]))
  {
    var tx := Transaction(1, [], [txout], Blocks(0), 0);
    var rows := Rows(map[], map[], map[OutPoint(1, 0) := txout]);
    var delta := TxDelta(position, tx, [record], []);
    assert Legs(delta) == [Creates(record)];
    assert CommitLegs(rows, [Creates(record)][..0], 1, 1) == Ok(rows);
    assert CommitTx(rows, delta).Ok?;
    assert [delta][..0] == [];
    assert CommitAll(rows, [delta]) == CommitTx(rows, delta);
    assert UndoFor(rows, [delta][..0]) == BlockUndo([], {});
    assert OutPoint(1, 0) in TxOutputs(tx);
    assert UndoFor(rows, [delta]).outputs == TxOutputs(tx).Keys;
    RollbackUndoesBlock(rows, [delta]);
    assert rows.outputs - UndoFor(rows, [delta]).outputs == map[];
  }
}
