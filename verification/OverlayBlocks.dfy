/**
 Whole-block safety of the interpreter: every interpreted block commits, keeps the owner index the
 inverse of the live-outpoint lists, spends no outpoint twice, and never trips the overlay's own checks.
 */
module OverlayBlocks {
  import opened Types
  import opened Ledger
  import opened TransitionCodec
  import opened Overlay
  import opened OverlayRefinement

  /** What the creation verifier and the covenant interpreter promise of what they return. */
  ghost predicate Sound(rules: Rules) {
    && (forall tx, position, declaration {:trigger rules.verify(tx, position, declaration)} ::
          rules.verify(tx, position, declaration).Some? ==>
            NewOutpointsOk(rules.verify(tx, position, declaration).value.outpoints, tx.txid, |tx.outputs|))
    && (forall params, state, live, tx {:trigger rules.spend(params, state, live, tx)} ::
          rules.spend(params, state, live, tx).Some? ==>
            SoundSpend(rules.spend(params, state, live, tx).value, tx))
  }

  /** Spent outpoints are inputs; continuations are distinct outputs of the spending transaction. */
  predicate SoundSpend(spend: Spend, tx: Transaction) {
    && (forall o :: o in spend.spent ==> o in Inputs(tx))
    && NewOutpointsOk(NewTracked(spend.continuations), tx.txid, |tx.outputs|)
  }

  predicate UnknownTxid(rows: Rows, txid: Txid) {
    && (forall o :: o in rows.owners ==> o.txid != txid)
    && (forall o :: o in rows.outputs ==> o.txid != txid)
  }

  predicate SpendsOthers(tx: Transaction) {
    forall o :: o in Inputs(tx) ==> o.txid != tx.txid
  }

  /** Transaction ids are unique in the block and unknown to the store; none spends itself. */
  predicate GoodBlock(rows: Rows, txs: seq<Transaction>) {
    && (forall i, j :: 0 <= i < j < |txs| ==> txs[i].txid != txs[j].txid)
    && (forall tx :: tx in txs ==> UnknownTxid(rows, tx.txid) && SpendsOthers(tx))
  }

  predicate OutputsStored(rows: Rows) {
    forall o :: o in rows.owners ==> o in rows.outputs
  }

  // ----- What a successful interpretation hands to the store -----

  predicate LegReady(rows: Rows, leg: Leg, txid: Txid, outputCount: nat) {
    && NewOutpointsOk(LegOutpoints(leg), txid, outputCount)
    && match leg
       case Creates(record) => record.core.id !in rows.contracts
       case Updates(update) =>
         && update.id in rows.contracts
         && rows.contracts[update.id].core.state == update.oldState
         && CompleteSpend(rows.contracts[update.id].core.outpoints, update.spent)
  }

  lemma {:induction false} VerifiedReady(rules: Rules, tx: Transaction, position: Position, retained: seq<Declaration>)
    requires Sound(rules)
    ensures forall core :: core in Verified(rules, tx, position, retained) ==>
      NewOutpointsOk(core.outpoints, tx.txid, |tx.outputs|)
  {
    if retained != [] {
      VerifiedReady(rules, tx, position, retained[..|retained| - 1]);
    }
  }

  lemma {:induction false} RetainReady(rows: Rows, candidates: seq<Core>, anchor: Anchor, txid: Txid, outputCount: nat)
    requires forall core :: core in candidates ==> NewOutpointsOk(core.outpoints, txid, outputCount)
    requires RetainAll(OverlayView(rows, []), candidates, anchor).Ok?
    ensures forall r :: r in RetainAll(OverlayView(rows, []), candidates, anchor).value ==>
      LegReady(rows, Creates(r), txid, outputCount)
  {
    if candidates != [] {
      RetainReady(rows, candidates[..|candidates| - 1], anchor, txid, outputCount);
    }
  }

  lemma {:induction false} TouchedOwners(rows: Rows, inputs: seq<OutPoint>, mode: Mode)
    requires Coherent(rows)
    requires Touched(OverlayView(rows, []), inputs, mode).Ok?
    ensures forall id :: id in Touched(OverlayView(rows, []), inputs, mode).value ==> id in rows.contracts
    ensures mode.Canonical? ==> forall o :: o in inputs && o in rows.owners ==>
      rows.owners[o].contract in Touched(OverlayView(rows, []), inputs, mode).value
  {
    if inputs != [] {
      TouchedOwners(rows, inputs[..|inputs| - 1], mode);
    }
  }

  lemma {:induction false} InterpretTouchedReady(rows: Rows, rules: Rules, ids: seq<OutPoint>, tx: Transaction)
    requires Sound(rules)
    requires Coherent(rows)
    requires InterpretTouched(OverlayView(rows, []), rules, ids, tx).Ok?
    ensures
      var updates := InterpretTouched(OverlayView(rows, []), rules, ids, tx).value;
      && |updates| == |ids|
      && (forall i :: 0 <= i < |ids| ==> updates[i].id == ids[i])
      && (forall u :: u in updates ==> LegReady(rows, Updates(u), tx.txid, |tx.outputs|))
      && (forall u, o :: u in updates && o in u.spent ==> o in Inputs(tx))
  {
    if ids != [] {
      var k := |ids| - 1;
      InterpretTouchedReady(rows, rules, ids[..k], tx);
      var core := rows.contracts[ids[k]].core;
      var live := Materialize(OverlayView(rows, []), core.outpoints, core.id).value;
      assert rules.spend(core.params, core.state, live, tx).Some?;
    }
  }

  // ----- Ready legs with disjoint claims always commit -----

  predicate LegsReady(rows: Rows, legs: seq<Leg>, txid: Txid, outputCount: nat) {
    && (forall leg :: leg in legs ==> LegReady(rows, leg, txid, outputCount))
    && NoDup(LegIds(legs))
    && NoDup(NewOutpoints(legs))
    && (forall o :: o in rows.owners ==> o.txid != txid)
  }

  lemma {:induction false} NewOutpointMembers(legs: seq<Leg>)
    ensures forall leg, o :: leg in legs && o in Outpoints(LegOutpoints(leg)) ==> o in NewOutpoints(legs)
    ensures forall o :: o in NewOutpoints(legs) ==> exists leg :: leg in legs && o in Outpoints(LegOutpoints(leg))
  {
    if legs != [] {
      var k := |legs| - 1;
      NewOutpointMembers(legs[..k]);
      forall o | o in NewOutpoints(legs)
        ensures exists leg :: leg in legs && o in Outpoints(LegOutpoints(leg))
      {
        if o in Outpoints(LegOutpoints(legs[k])) {
          assert legs[k] in legs;
        } else {
          assert o in NewOutpoints(legs[..k]);
          var leg :| leg in legs[..k] && o in Outpoints(LegOutpoints(leg));
          assert leg in legs;
        }
      }
    }
  }

  lemma LegCommits(rows: Rows, current: Rows, leg: Leg, txid: Txid, outputCount: nat)
    requires LegReady(rows, leg, txid, outputCount)
    requires (LegId(leg) in current.contracts <==> LegId(leg) in rows.contracts)
    requires LegId(leg) in rows.contracts ==> current.contracts[LegId(leg)] == rows.contracts[LegId(leg)]
    requires LegId(leg) in rows.contracts ==> rows.contracts[LegId(leg)].core.id == LegId(leg)
    requires forall o :: o in Outpoints(LegOutpoints(leg)) ==> o !in current.owners
    ensures CommitLeg(current, leg, txid, outputCount).Ok?
    ensures
      var next := CommitLeg(current, leg, txid, outputCount).value;
      && (forall o :: o in next.owners ==> o in current.owners || o in Outpoints(LegOutpoints(leg)))
      && (forall id :: id != LegId(leg) ==>
            && (id in next.contracts <==> id in current.contracts)
            && (id in next.contracts ==> next.contracts[id] == current.contracts[id]))
  {
    match leg
    case Creates(record) => InsertEffect(current, record);
    case Updates(update) =>
      var before := current.contracts[update.id];
      InsertEffect(RemoveContract(current, before), Updated(before, update));
  }

  lemma {:induction false} LegsCommit(rows: Rows, legs: seq<Leg>, txid: Txid, outputCount: nat)
    requires Coherent(rows)
    requires LegsReady(rows, legs, txid, outputCount)
    ensures CommitLegs(rows, legs, txid, outputCount).Ok?
    ensures
      var next := CommitLegs(rows, legs, txid, outputCount).value;
      && (forall o :: o in next.owners ==> o in rows.owners || o in NewOutpoints(legs))
      && (forall id :: id !in LegIds(legs) ==>
            && (id in next.contracts <==> id in rows.contracts)
            && (id in next.contracts ==> next.contracts[id] == rows.contracts[id]))
  {
    if legs != [] {
      var k := |legs| - 1;
      NoDupConcat(NewOutpoints(legs[..k]), Outpoints(LegOutpoints(legs[k])));
      assert LegIds(legs) == LegIds(legs[..k]) + [LegId(legs[k])];
      NoDupAppend(LegIds(legs[..k]), LegId(legs[k]));
      LegsCommit(rows, legs[..k], txid, outputCount);
      OutpointMembers(LegOutpoints(legs[k]));
      LegCommits(rows, CommitLegs(rows, legs[..k], txid, outputCount).value, legs[k], txid, outputCount);
    }
  }

  // ----- One interpreted transaction commits -----

  lemma {:induction false} DeclaredMembers(updates: seq<Update>)
    ensures forall u, o :: u in updates && o in u.spent ==> o in Declared(updates)
    ensures forall o :: o in Declared(updates) ==> exists u :: u in updates && o in u.spent
  {
    if updates != [] {
      var k := |updates| - 1;
      DeclaredMembers(updates[..k]);
      forall o | o in Declared(updates)
        ensures exists u :: u in updates && o in u.spent
      {
        if o in updates[k].spent {
          assert updates[k] in updates;
        } else {
          assert o in Declared(updates[..k]);
          var u :| u in updates[..k] && o in u.spent;
          assert u in updates;
        }
      }
    }
  }

  /** What a successful canonical interpretation against committed rows guarantees. */
  ghost predicate ReadyInterpretation(rows: Rows, tx: Transaction, result: Interpretation) {
    && LegsReady(rows, LegsOf(result.created, result.updates), tx.txid, |tx.outputs|)
    && NoDup(Declared(result.updates))
    && ClaimsInputs(tx, result.updates)
    && CoversOwners(rows, tx, result.updates)
  }

  predicate ClaimsInputs(tx: Transaction, updates: seq<Update>) {
    forall u, o :: u in updates && o in u.spent ==> o in Inputs(tx)
  }

  predicate CoversOwners(rows: Rows, tx: Transaction, updates: seq<Update>) {
    forall o :: o in Inputs(tx) && o in rows.owners ==> exists u :: u in updates && u.id == rows.owners[o].contract
  }

  lemma CreatedAreReady(rows: Rows, rules: Rules, site: Site, tx: Transaction)
    requires Sound(rules) && site.mode.Canonical?
    requires RetainAll(OverlayView(rows, []), Candidates(rules, tx, site), site.anchor).Ok?
    ensures forall r :: r in RetainAll(OverlayView(rows, []), Candidates(rules, tx, site), site.anchor).value ==>
      LegReady(rows, Creates(r), tx.txid, |tx.outputs|)
  {
    VerifiedReady(rules, tx, site.position, site.mode.retained);
    RetainReady(rows, Candidates(rules, tx, site), site.anchor, tx.txid, |tx.outputs|);
  }

  lemma UpdatesAreReady(rows: Rows, rules: Rules, site: Site, tx: Transaction)
    requires Sound(rules) && Coherent(rows) && site.mode.Canonical?
    requires Touched(OverlayView(rows, []), Inputs(tx), site.mode).Ok?
    requires InterpretTouched(OverlayView(rows, []), rules, Touched(OverlayView(rows, []), Inputs(tx), site.mode).value, tx).Ok?
    ensures
      var touched := Touched(OverlayView(rows, []), Inputs(tx), site.mode).value;
      var updates := InterpretTouched(OverlayView(rows, []), rules, touched, tx).value;
      && (forall u :: u in updates ==> LegReady(rows, Updates(u), tx.txid, |tx.outputs|))
      && ClaimsInputs(tx, updates)
      && CoversOwners(rows, tx, updates)
  {
    TouchedOwners(rows, Inputs(tx), site.mode);
    var touched := Touched(OverlayView(rows, []), Inputs(tx), site.mode).value;
    InterpretTouchedReady(rows, rules, touched, tx);
    var updates := InterpretTouched(OverlayView(rows, []), rules, touched, tx).value;
    forall o | o in Inputs(tx) && o in rows.owners
      ensures exists u :: u in updates && u.id == rows.owners[o].contract
    {
      var i :| 0 <= i < |touched| && touched[i] == rows.owners[o].contract;
      assert updates[i] in updates;
    }
  }

  lemma LegsFromParts(rows: Rows, created: seq<Record>, updates: seq<Update>, txid: Txid, outputCount: nat)
    requires forall r :: r in created ==> LegReady(rows, Creates(r), txid, outputCount)
    requires forall u :: u in updates ==> LegReady(rows, Updates(u), txid, outputCount)
    ensures forall leg :: leg in LegsOf(created, updates) ==> LegReady(rows, leg, txid, outputCount)
  {
    LegMembers(created, updates);
  }

  lemma InterpretedIsReady(rows: Rows, rules: Rules, site: Site, tx: Transaction)
    requires Sound(rules) && Coherent(rows) && site.mode.Canonical?
    requires UnknownTxid(rows, tx.txid)
    requires Interpret(OverlayView(rows, []), rules, site, tx).Ok?
    ensures ReadyInterpretation(rows, tx, Interpret(OverlayView(rows, []), rules, site, tx).value)
  {
    var result := Interpret(OverlayView(rows, []), rules, site, tx).value;
    CreatedAreReady(rows, rules, site, tx);
    UpdatesAreReady(rows, rules, site, tx);
    LegsFromParts(rows, result.created, result.updates, tx.txid, |tx.outputs|);
  }

  /** Declared spends and tracked inputs name each other, leg by owner. */
  predicate Accounted(rows: Rows, delta: TxDelta) {
    && (forall u, o :: u in delta.updates && o in u.spent ==> o in rows.owners && rows.owners[o].contract == u.id)
    && (forall o :: o in Inputs(delta.tx) && o in rows.owners ==> DeclaredBy(delta.updates, o, rows.owners[o].contract))
  }

  lemma ReadyUpdate(rows: Rows, delta: TxDelta, update: Update)
    requires LegsReady(rows, Legs(delta), delta.tx.txid, |delta.tx.outputs|)
    requires update in delta.updates
    ensures update.id in rows.contracts
    ensures CompleteSpend(rows.contracts[update.id].core.outpoints, update.spent)
  {
    LegMembers(delta.created, delta.updates);
    assert LegReady(rows, Updates(update), delta.tx.txid, |delta.tx.outputs|);
  }

  lemma ReadyIsAccounted(rows: Rows, delta: TxDelta)
    requires Coherent(rows)
    requires ReadyInterpretation(rows, delta.tx, Interpretation(delta.created, delta.updates))
    ensures Accounted(rows, delta)
  {
    assert LegsReady(rows, Legs(delta), delta.tx.txid, |delta.tx.outputs|);
    forall u, o | u in delta.updates && o in u.spent
      ensures o in rows.owners && rows.owners[o].contract == u.id
    {
      ReadyUpdate(rows, delta, u);
      SpentIsLive(rows, u, o);
    }
    forall o | o in Inputs(delta.tx) && o in rows.owners
      ensures DeclaredBy(delta.updates, o, rows.owners[o].contract)
    {
      var u :| u in delta.updates && u.id == rows.owners[o].contract;
      ReadyUpdate(rows, delta, u);
      LiveIsSpent(rows, u, o);
    }
  }

  lemma TrackedInputsAccounted(rows: Rows, delta: TxDelta)
    requires NoDup(Declared(delta.updates))
    requires ClaimsInputs(delta.tx, delta.updates)
    requires Accounted(rows, delta)
    ensures ValidateTrackedInputs(rows, delta).Ok?
    ensures forall o :: o in Declared(delta.updates) ==> o in rows.owners && o in Inputs(delta.tx)
  {
    DeclaredMembers(delta.updates);
    forall o | o in Declared(delta.updates)
      ensures o in rows.owners && o in Inputs(delta.tx)
    {
      var u :| u in delta.updates && o in u.spent;
    }
  }

  lemma SpentIsLive(rows: Rows, update: Update, outpoint: OutPoint)
    requires Coherent(rows)
    requires update.id in rows.contracts
    requires CompleteSpend(rows.contracts[update.id].core.outpoints, update.spent)
    requires outpoint in update.spent
    ensures outpoint in rows.owners && rows.owners[outpoint].contract == update.id
  {
    var live := rows.contracts[update.id].core.outpoints;
    OutpointMembers(live);
    assert outpoint in ToSet(Outpoints(live));
    assert outpoint in Outpoints(live);
    var t :| t in live && t.outpoint == outpoint;
    assert rows.owners[t.outpoint] == Owner(update.id, t.role);
  }

  lemma LiveIsSpent(rows: Rows, update: Update, outpoint: OutPoint)
    requires Coherent(rows)
    requires outpoint in rows.owners && rows.owners[outpoint].contract == update.id
    requires CompleteSpend(rows.contracts[update.id].core.outpoints, update.spent)
    ensures outpoint in update.spent
  {
    OutpointMembers(rows.contracts[update.id].core.outpoints);
    assert Tracked(rows.owners[outpoint].role, outpoint) in rows.contracts[update.id].core.outpoints;
    assert outpoint in ToSet(Outpoints(rows.contracts[update.id].core.outpoints));
  }

  /** The store accepts the delta of every interpreted transaction. */
  lemma InterpretedCommits(rows: Rows, delta: TxDelta)
    requires Coherent(rows)
    requires ReadyInterpretation(rows, delta.tx, Interpretation(delta.created, delta.updates))
    ensures CommitTx(rows, delta).Ok?
    ensures forall o :: o in CommitTx(rows, delta).value.owners ==>
      o in rows.owners || (o.txid == delta.tx.txid && o.vout < |delta.tx.outputs|)
  {
    ReadyIsAccounted(rows, delta);
    TrackedInputsAccounted(rows, delta);
    LegsCommit(rows, Legs(delta), delta.tx.txid, |delta.tx.outputs|);
    NewOutpointMembers(Legs(delta));
    forall o | o in NewOutpoints(Legs(delta))
      ensures o.txid == delta.tx.txid && o.vout < |delta.tx.outputs|
    {
      var leg :| leg in Legs(delta) && o in Outpoints(LegOutpoints(leg));
      OutpointMembers(LegOutpoints(leg));
    }
  }

  // ----- Whole blocks -----

  function SpentBy(deltas: seq<TxDelta>): seq<OutPoint> {
    if deltas == [] then [] else SpentBy(deltas[..|deltas| - 1]) + Declared(deltas[|deltas| - 1].updates)
  }

  predicate Known(rows: Rows, txs: seq<Transaction>, outpoint: OutPoint) {
    outpoint in rows.owners || exists tx :: tx in txs && tx.txid == outpoint.txid
  }

  ghost predicate BlockInvariant(rows: Rows, txs: seq<Transaction>, deltas: seq<TxDelta>) {
    && CommitAll(rows, deltas).Ok?
    && (forall d :: d in deltas ==> d.tx in txs && DeltaSpendsOlder(d))
    && FreshTxids(rows, deltas)
    && NoDup(SpentBy(deltas))
    && (forall o :: o in CommitAll(rows, deltas).value.owners ==> Known(rows, txs, o))
    && (forall o :: o in SpentBy(deltas) ==> o !in CommitAll(rows, deltas).value.owners && Known(rows, txs, o))
    && OutputsStored(CommitAll(rows, deltas).value)
  }

  lemma {:induction false} LegScanSpent(legs: seq<Leg>, spender: Leg, outpoint: OutPoint)
    requires spender in legs && outpoint in LegSpent(spender)
    requires forall leg :: leg in legs ==> outpoint !in Outpoints(LegOutpoints(leg))
    ensures LegScan(legs, outpoint).Some? && LegScan(legs, outpoint).value.SpentEarlier?
  {
    var k := |legs| - 1;
    FindFirst(LegOutpoints(legs[k]), outpoint);
    if outpoint !in LegSpent(legs[k]) {
      LegScanSpent(legs[..k], spender, outpoint);
    }
  }

  lemma OlderIsNotNew(legs: seq<Leg>, txid: Txid, outputCount: nat, outpoint: OutPoint)
    requires forall leg :: leg in legs ==> NewOutpointsOk(LegOutpoints(leg), txid, outputCount)
    requires outpoint.txid != txid
    ensures forall leg :: leg in legs ==> outpoint !in Outpoints(LegOutpoints(leg))
  {
    forall leg | leg in legs
      ensures outpoint !in Outpoints(LegOutpoints(leg))
    {
      OutpointMembers(LegOutpoints(leg));
    }
  }

  lemma DeclaredLeg(delta: TxDelta, outpoint: OutPoint)
    requires outpoint in Declared(delta.updates)
    ensures exists leg :: leg in Legs(delta) && outpoint in LegSpent(leg)
  {
    DeclaredMembers(delta.updates);
    LegMembers(delta.created, delta.updates);
    var u :| u in delta.updates && outpoint in u.spent;
    assert Updates(u) in Legs(delta) && outpoint in LegSpent(Updates(u));
  }

  lemma DeclaredLeave(rows: Rows, delta: TxDelta, outpoint: OutPoint)
    requires Coherent(rows)
    requires CommitTx(rows, delta).Ok?
    requires DeltaSpendsOlder(delta)
    requires forall leg :: leg in Legs(delta) ==> NewOutpointsOk(LegOutpoints(leg), delta.tx.txid, |delta.tx.outputs|)
    requires outpoint in Declared(delta.updates)
    ensures outpoint !in CommitTx(rows, delta).value.owners
  {
    DeclaredLeg(delta, outpoint);
    var leg :| leg in Legs(delta) && outpoint in LegSpent(leg);
    assert SpendsOlder(leg, delta.tx.txid);
    OlderIsNotNew(Legs(delta), delta.tx.txid, |delta.tx.outputs|, outpoint);
    LegScanSpent(Legs(delta), leg, outpoint);
    DeltaOwner(rows, delta, outpoint);
  }

  lemma ReadySpendsOlder(rows: Rows, delta: TxDelta)
    requires SpendsOthers(delta.tx)
    requires ReadyInterpretation(rows, delta.tx, Interpretation(delta.created, delta.updates))
    ensures DeltaSpendsOlder(delta)
  {
    LegMembers(delta.created, delta.updates);
  }

  /** Committed rows after the prefix know nothing of the next transaction's id. */
  lemma NextIsUnknown(rows: Rows, txs: seq<Transaction>, deltas: seq<TxDelta>, tx: Transaction)
    requires BlockInvariant(rows, txs, deltas)
    requires GoodBlock(rows, txs + [tx])
    ensures forall o :: Known(rows, txs, o) ==> o.txid != tx.txid
    ensures UnknownTxid(CommitAll(rows, deltas).value, tx.txid)
    ensures SpendsOthers(tx)
  {
    var all := txs + [tx];
    assert all[|txs|] == tx;
    assert forall i :: 0 <= i < |txs| ==> all[i].txid != all[|txs|].txid;
    forall o | Known(rows, txs, o)
      ensures o.txid != tx.txid
    {
      if o !in rows.owners {
        var t :| t in txs && t.txid == o.txid;
        var i :| 0 <= i < |txs| && txs[i] == t;
        assert all[i] == t;
      }
    }
    var after := CommitAll(rows, deltas).value;
    forall o | o in after.outputs
      ensures o.txid != tx.txid
    {
      CommittedOutputTxids(rows, deltas, o);
      if o !in rows.outputs {
        var d :| d in deltas && d.tx.txid == o.txid;
        var i :| 0 <= i < |txs| && txs[i] == d.tx;
        assert all[i] == d.tx;
      }
    }
  }

  lemma KnownGrows(rows: Rows, txs: seq<Transaction>, tx: Transaction)
    ensures forall o :: Known(rows, txs, o) ==> Known(rows, txs + [tx], o)
    ensures forall o: OutPoint :: o.txid == tx.txid ==> Known(rows, txs + [tx], o)
  {
    assert (txs + [tx])[|txs|] == tx;
  }

  lemma FreshGrows(rows: Rows, txs: seq<Transaction>, deltas: seq<TxDelta>, delta: TxDelta)
    requires BlockInvariant(rows, txs, deltas)
    requires GoodBlock(rows, txs + [delta.tx])
    ensures FreshTxids(rows, deltas + [delta])
  {
    var all := txs + [delta.tx];
    assert all[|txs|] == delta.tx;
    forall d | d in deltas
      ensures d.tx.txid != delta.tx.txid
    {
      var i :| 0 <= i < |txs| && txs[i] == d.tx;
      assert all[i].txid != all[|txs|].txid;
    }
  }

  lemma StepSpends(rows: Rows, txs: seq<Transaction>, deltas: seq<TxDelta>, delta: TxDelta)
    requires Coherent(rows)
    requires BlockInvariant(rows, txs, deltas)
    requires GoodBlock(rows, txs + [delta.tx])
    requires ReadyInterpretation(CommitAll(rows, deltas).value, delta.tx, Interpretation(delta.created, delta.updates))
    requires CommitTx(CommitAll(rows, deltas).value, delta).Ok?
    ensures NoDup(SpentBy(deltas) + Declared(delta.updates))
    ensures forall o :: o in SpentBy(deltas) + Declared(delta.updates) ==>
      o !in CommitTx(CommitAll(rows, deltas).value, delta).value.owners && Known(rows, txs + [delta.tx], o)
  {
    var base := CommitAll(rows, deltas).value;
    CommitKeepsCoherent(rows, deltas);
    NextIsUnknown(rows, txs, deltas, delta.tx);
    KnownGrows(rows, txs, delta.tx);
    ReadyIsAccounted(base, delta);
    TrackedInputsAccounted(base, delta);
    InterpretedCommits(base, delta);
    ReadySpendsOlder(base, delta);
    NoDupConcat(SpentBy(deltas), Declared(delta.updates));
    forall o | o in Declared(delta.updates)
      ensures o !in CommitTx(base, delta).value.owners
    {
      DeclaredLeave(base, delta, o);
    }
  }

  lemma StepKeepsInvariant(rows: Rows, txs: seq<Transaction>, deltas: seq<TxDelta>, delta: TxDelta)
    requires Coherent(rows)
    requires BlockInvariant(rows, txs, deltas)
    requires GoodBlock(rows, txs + [delta.tx])
    requires ReadyInterpretation(CommitAll(rows, deltas).value, delta.tx, Interpretation(delta.created, delta.updates))
    ensures BlockInvariant(rows, txs + [delta.tx], deltas + [delta])
  {
    var base := CommitAll(rows, deltas).value;
    var next := deltas + [delta];
    assert next[..|next| - 1] == deltas && next[|next| - 1] == delta;
    CommitKeepsCoherent(rows, deltas);
    NextIsUnknown(rows, txs, deltas, delta.tx);
    KnownGrows(rows, txs, delta.tx);
    InterpretedCommits(base, delta);
    CommitTxEffect(base, delta);
    FreshGrows(rows, txs, deltas, delta);
    ReadySpendsOlder(base, delta);
    StepSpends(rows, txs, deltas, delta);
    forall d | d in next
      ensures d.tx in txs + [delta.tx] && DeltaSpendsOlder(d)
    {
      if d !in deltas {
        assert d == delta;
        assert (txs + [delta.tx])[|txs|] == delta.tx;
      }
    }
  }

  lemma QuietKeepsInvariant(rows: Rows, txs: seq<Transaction>, deltas: seq<TxDelta>, tx: Transaction)
    requires BlockInvariant(rows, txs, deltas)
    ensures BlockInvariant(rows, txs + [tx], deltas)
  {
    KnownGrows(rows, txs, tx);
  }

  lemma NextIsReady(
      rules: Rules, rows: Rows, txs: seq<Transaction>, deltas: seq<TxDelta>, site: Site, tx: Transaction)
    requires Sound(rules) && Coherent(rows) && site.mode.Canonical?
    requires BlockInvariant(rows, txs, deltas)
    requires GoodBlock(rows, txs + [tx])
    requires Interpret(OverlayView(rows, deltas), rules, site, tx).Ok?
    ensures ReadyInterpretation(
              CommitAll(rows, deltas).value, tx, Interpret(OverlayView(rows, deltas), rules, site, tx).value)
  {
    CommitKeepsCoherent(rows, deltas);
    NextIsUnknown(rows, txs, deltas, tx);
    OverlayRefinesCommit(rows, deltas, rules, site, tx);
    InterpretedIsReady(CommitAll(rows, deltas).value, rules, site, tx);
  }

  lemma NothingInterpreted(rows: Rows)
    requires Coherent(rows) && OutputsStored(rows)
    ensures BlockInvariant(rows, [], [])
  {
  }

  lemma GoodPrefix(rows: Rows, txs: seq<Transaction>, k: nat)
    requires GoodBlock(rows, txs) && k <= |txs|
    ensures GoodBlock(rows, txs[..k])
  {
  }

  lemma {:induction false} BlockKeepsInvariant(
      rules: Rules, rows: Rows, anchor: Anchor, retained: Txid -> seq<Declaration>, txs: seq<Transaction>)
    requires Sound(rules) && Coherent(rows) && OutputsStored(rows)
    requires GoodBlock(rows, txs)
    requires InterpretBlock(rules, rows, anchor, retained, txs).Ok?
    ensures BlockInvariant(rows, txs, InterpretBlock(rules, rows, anchor, retained, txs).value)
  {
    hide Sound, Coherent, OutputsStored, BlockInvariant, Interpret, ReadyInterpretation, OverlayView;
    if txs == [] {
      NothingInterpreted(rows);
    } else {
      var k := |txs| - 1;
      var tx := txs[k];
      assert txs == txs[..k] + [tx];
      GoodPrefix(rows, txs, k);
      BlockKeepsInvariant(rules, rows, anchor, retained, txs[..k]);
      var deltas := InterpretBlock(rules, rows, anchor, retained, txs[..k]).value;
      var site := Site(Canonical(retained(tx.txid)), anchor, Position(anchor.height, k));
      NextIsReady(rules, rows, txs[..k], deltas, site, tx);
      var result := Interpret(OverlayView(rows, deltas), rules, site, tx).value;
      if result.created == [] && result.updates == [] {
        QuietKeepsInvariant(rows, txs[..k], deltas, tx);
      } else {
        StepKeepsInvariant(rows, txs[..k], deltas, TxDelta(site.position, tx, result.created, result.updates));
      }
    }
  }

  /**
   Safety of every interpreted block prefix: its deltas commit, the committed owner index is the exact
   inverse of the live-outpoint lists, no outpoint is spent twice, and replaying the overlay for any
   contract succeeds (no duplicate contract, state mismatch or incomplete spend).
   */
  lemma InterpretedBlockIsSafe(
      rules: Rules, rows: Rows, anchor: Anchor, retained: Txid -> seq<Declaration>, txs: seq<Transaction>)
    requires Sound(rules) && Coherent(rows) && OutputsStored(rows)
    requires GoodBlock(rows, txs)
    requires InterpretBlock(rules, rows, anchor, retained, txs).Ok?
    ensures
      var deltas := InterpretBlock(rules, rows, anchor, retained, txs).value;
      && CommitAll(rows, deltas).Ok?
      && Coherent(CommitAll(rows, deltas).value)
      && OutputsStored(CommitAll(rows, deltas).value)
      && NoDup(SpentBy(deltas))
      && (forall id :: ContractReplay(rows, deltas, id).Ok?)
      && (forall o :: OwnerScan(rows, deltas, o).Live? <==> o in CommitAll(rows, deltas).value.owners)
  {
    BlockKeepsInvariant(rules, rows, anchor, retained, txs);
    var deltas := InterpretBlock(rules, rows, anchor, retained, txs).value;
    CommitKeepsCoherent(rows, deltas);
    forall id
      ensures ContractReplay(rows, deltas, id).Ok?
    {
      ContractReplayIsCommitted(rows, deltas, id);
    }
    forall o
      ensures OwnerScan(rows, deltas, o).Live? <==> o in CommitAll(rows, deltas).value.owners
    {
      OwnerScanIsCommitted(rows, deltas, o);
    }
  }

  // ----- The overlay's own failure modes never fire -----

  predicate OverlayFault(error: NodeError) {
    || error.MissingContract?
    || error.MissingOutput?
    || error.DuplicateOverlayContract?
    || error.OverlayStateMismatch?
  }

  ghost predicate Serviceable(view: View) {
    && (forall id :: view.contract(id).Ok?)
    && (forall o :: view.owner(o).Live? ==> view.contract(view.owner(o).owner.contract).value.Some?)
    && (forall id, t :: view.contract(id).value.Some? && t in view.contract(id).value.value.outpoints ==>
          view.output(t.outpoint).Ok?)
  }

  lemma {:induction false} RetainFaultless(view: View, candidates: seq<Core>, anchor: Anchor)
    requires Serviceable(view)
    ensures RetainAll(view, candidates, anchor).Err? ==> !OverlayFault(RetainAll(view, candidates, anchor).error)
  {
    if candidates != [] {
      RetainFaultless(view, candidates[..|candidates| - 1], anchor);
      assert view.contract(candidates[|candidates| - 1].id).Ok?;
    }
  }

  lemma {:induction false} TouchedFaultless(view: View, inputs: seq<OutPoint>, mode: Mode)
    requires Serviceable(view)
    ensures Touched(view, inputs, mode).Err? ==> !OverlayFault(Touched(view, inputs, mode).error)
    ensures Touched(view, inputs, mode).Ok? ==> forall id :: id in Touched(view, inputs, mode).value ==>
      view.contract(id).value.Some?
  {
    if inputs != [] {
      TouchedFaultless(view, inputs[..|inputs| - 1], mode);
    }
  }

  lemma {:induction false} MaterializeFaultless(view: View, tracked: seq<Tracked>, id: OutPoint)
    requires forall t :: t in tracked ==> view.output(t.outpoint).Ok?
    ensures Materialize(view, tracked, id).Err? ==> !OverlayFault(Materialize(view, tracked, id).error)
  {
    if tracked != [] {
      MaterializeFaultless(view, tracked[..|tracked| - 1], id);
    }
  }

  lemma {:induction false} InterpretTouchedFaultless(view: View, rules: Rules, ids: seq<OutPoint>, tx: Transaction)
    requires Serviceable(view)
    requires forall id :: id in ids ==> view.contract(id).value.Some?
    ensures InterpretTouched(view, rules, ids, tx).Err? ==> !OverlayFault(InterpretTouched(view, rules, ids, tx).error)
  {
    if ids != [] {
      var k := |ids| - 1;
      InterpretTouchedFaultless(view, rules, ids[..k], tx);
      var core := view.contract(ids[k]).value.value;
      MaterializeFaultless(view, core.outpoints, core.id);
    }
  }

  lemma OverlayIsServiceable(rows: Rows, txs: seq<Transaction>, deltas: seq<TxDelta>)
    requires Coherent(rows)
    requires BlockInvariant(rows, txs, deltas)
    ensures Serviceable(OverlayView(rows, deltas))
  {
    var view := OverlayView(rows, deltas);
    var after := CommitAll(rows, deltas).value;
    CommitKeepsCoherent(rows, deltas);
    forall id
      ensures view.contract(id) == Ok(StoredCore(after, id))
    {
      ContractReplayIsCommitted(rows, deltas, id);
    }
    forall o | view.owner(o).Live?
      ensures view.contract(view.owner(o).owner.contract).value.Some?
    {
      OwnerScanIsCommitted(rows, deltas, o);
    }
    forall id, t | view.contract(id).value.Some? && t in view.contract(id).value.value.outpoints
      ensures view.output(t.outpoint).Ok?
    {
      assert t in after.contracts[id].core.outpoints;
      OutputScanIsCommitted(rows, deltas, t.outpoint);
    }
  }

  /**
   After any interpreted block prefix, the next transaction can fail only for a reason of its own:
   never because the overlay lost a contract or an output, duplicated a contract or disagrees with itself.
   */
  lemma OverlayNeverFaults(
      rules: Rules, rows: Rows, anchor: Anchor, retained: Txid -> seq<Declaration>, txs: seq<Transaction>,
      site: Site, tx: Transaction)
    requires Sound(rules) && Coherent(rows) && OutputsStored(rows)
    requires GoodBlock(rows, txs)
    requires InterpretBlock(rules, rows, anchor, retained, txs).Ok?
    ensures
      var view := OverlayView(rows, InterpretBlock(rules, rows, anchor, retained, txs).value);
      Interpret(view, rules, site, tx).Err? ==> !OverlayFault(Interpret(view, rules, site, tx).error)
  {
    var deltas := InterpretBlock(rules, rows, anchor, retained, txs).value;
    var view := OverlayView(rows, deltas);
    BlockKeepsInvariant(rules, rows, anchor, retained, txs);
    OverlayIsServiceable(rows, txs, deltas);
    RetainFaultless(view, Candidates(rules, tx, site), site.anchor);
    TouchedFaultless(view, Inputs(tx), site.mode);
    var touched := Touched(view, Inputs(tx), site.mode);
    if touched.Ok? {
      InterpretTouchedFaultless(view, rules, touched.value, tx);
    }
  }
}
