/**
 The interpreter's loops, each proved against the overlay specification: scans with early return,
 a record updated in place while deltas are replayed, and vectors and sets filled as a transaction is read.
 */
module Interpreter {
  import opened Types
  import opened Ledger
  import opened TransitionCodec
  import opened Overlay

  method FindTracked(tracked: seq<Tracked>, outpoint: OutPoint) returns (found: Option<Tracked>)
    ensures found == Find(tracked, outpoint)
  {
    for i := 0 to |tracked|
      invariant Find(tracked, outpoint) == Find(tracked[i..], outpoint)
    {
      if tracked[i].outpoint == outpoint {
        return Some(tracked[i]);
      }
      assert tracked[i..][1..] == tracked[i + 1..];
    }
    found := None;
  }

  lemma ScanUpdate(created: seq<Record>, updates: seq<Update>, outpoint: OutPoint)
    requires updates != []
    ensures
      var hit := LegHit(Updates(updates[|updates| - 1]), outpoint);
      LegScan(LegsOf(created, updates), outpoint)
      == if hit.Some? then hit else LegScan(LegsOf(created, updates[..|updates| - 1]), outpoint)
  {
    var legs := LegsOf(created, updates);
    assert legs[..|legs| - 1] == LegsOf(created, updates[..|updates| - 1]);
  }

  lemma ScanCreate(created: seq<Record>, outpoint: OutPoint)
    requires created != []
    ensures
      var hit := LegHit(Creates(created[|created| - 1]), outpoint);
      LegScan(CreateLegs(created), outpoint)
      == if hit.Some? then hit else LegScan(CreateLegs(created[..|created| - 1]), outpoint)
  {
    var legs := CreateLegs(created);
    assert legs[..|legs| - 1] == CreateLegs(created[..|created| - 1]);
  }

  method OwnerInUpdates(delta: TxDelta, outpoint: OutPoint) returns (hit: Option<Resolution>)
    ensures LegScan(Legs(delta), outpoint) == if hit.Some? then hit else LegScan(CreateLegs(delta.created), outpoint)
  {
    assert delta.updates[..|delta.updates|] == delta.updates;
    for u := |delta.updates| downto 0
      invariant LegScan(Legs(delta), outpoint) == LegScan(LegsOf(delta.created, delta.updates[..u]), outpoint)
    {
      var update := delta.updates[u];
      ScanUpdate(delta.created, delta.updates[..u + 1], outpoint);
      assert delta.updates[..u + 1][..u] == delta.updates[..u];
      if outpoint in update.spent {
        return Some(SpentEarlier(update.id));
      }
      var tracked := FindTracked(update.created, outpoint);
      if tracked.Some? {
        return Some(Live(Owner(update.id, tracked.value.role)));
      }
    }
    hit := None;
  }

  method OwnerInCreated(created: seq<Record>, outpoint: OutPoint) returns (hit: Option<Resolution>)
    ensures hit == LegScan(CreateLegs(created), outpoint)
  {
    assert created[..|created|] == created;
    for c := |created| downto 0
      invariant LegScan(CreateLegs(created), outpoint) == LegScan(CreateLegs(created[..c]), outpoint)
    {
      ScanCreate(created[..c + 1], outpoint);
      assert created[..c + 1][..c] == created[..c];
      var tracked := FindTracked(created[c].core.outpoints, outpoint);
      if tracked.Some? {
        return Some(Live(Owner(created[c].core.id, tracked.value.role)));
      }
    }
    hit := None;
  }

  /** Newest delta first; the store decides when no delta mentions the outpoint. */
  method OwnerInContext(rows: Rows, deltas: seq<TxDelta>, outpoint: OutPoint) returns (resolution: Resolution)
    ensures resolution == OwnerScan(rows, deltas, outpoint)
  {
    assert deltas[..|deltas|] == deltas;
    for d := |deltas| downto 0
      invariant OwnerScan(rows, deltas, outpoint) == OwnerScan(rows, deltas[..d], outpoint)
    {
      assert deltas[..d + 1][..d] == deltas[..d];
      var hit := OwnerInUpdates(deltas[d], outpoint);
      if hit.None? {
        hit := OwnerInCreated(deltas[d].created, outpoint);
      }
      if hit.Some? {
        return hit.value;
      }
    }
    resolution := if outpoint in rows.owners then Live(rows.owners[outpoint]) else Untracked;
  }

  /** Oldest delta first, keeping the record as of the deltas replayed so far. */
  method ContractInContext(rows: Rows, deltas: seq<TxDelta>, id: OutPoint)
    returns (r: Result<Option<Core>, NodeError>)
    ensures r == ContractReplay(rows, deltas, id)
  {
    var current := StoredCore(rows, id);
    for d := 0 to |deltas|
      invariant ContractReplay(rows, deltas[..d], id) == Ok(current)
      invariant ContractReplay(rows, deltas, id).Err? || ContractReplay(rows, deltas[..d], id).Ok?
    {
      var delta := deltas[d];
      assert deltas[..d + 1][..d] == deltas[..d];
      var created := ReplayCreated(current, delta.created, id);
      if created.Err? {
        ReplayErrorStays(rows, deltas, d + 1, id);
        return Err(created.error);
      }
      current := created.value;
      for u := 0 to |delta.updates|
        invariant ReplayUpdates(created.value, delta.updates[..u], id) == Ok(current)
      {
        assert delta.updates[..u + 1][..u] == delta.updates[..u];
        if delta.updates[u].id == id {
          var next := ReplayUpdate(current, delta.updates[u]);
          if next.Err? {
            UpdateErrorStays(created.value, delta.updates, u + 1, id);
            ReplayErrorStays(rows, deltas, d + 1, id);
            return Err(next.error);
          }
          current := next.value;
        }
      }
      assert delta.updates[..|delta.updates|] == delta.updates;
    }
    assert deltas[..|deltas|] == deltas;
    r := Ok(current);
  }

  lemma {:induction false} UpdateErrorStays(current: Option<Core>, updates: seq<Update>, n: nat, id: OutPoint)
    requires n <= |updates|
    requires ReplayUpdates(current, updates[..n], id).Err?
    ensures ReplayUpdates(current, updates, id) == ReplayUpdates(current, updates[..n], id)
  {
    if n < |updates| {
      var init := updates[..|updates| - 1];
      assert init[..n] == updates[..n];
      UpdateErrorStays(current, init, n, id);
    } else {
      assert updates[..n] == updates;
    }
  }

  lemma {:induction false} ReplayErrorStays(rows: Rows, deltas: seq<TxDelta>, n: nat, id: OutPoint)
    requires n <= |deltas|
    requires ContractReplay(rows, deltas[..n], id).Err?
    ensures ContractReplay(rows, deltas, id) == ContractReplay(rows, deltas[..n], id)
  {
    if n < |deltas| {
      var init := deltas[..|deltas| - 1];
      assert init[..n] == deltas[..n];
      ReplayErrorStays(rows, init, n, id);
    } else {
      assert deltas[..n] == deltas;
    }
  }

  method MaterializeOutput(rows: Rows, deltas: seq<TxDelta>, outpoint: OutPoint) returns (r: Result<TxOut, NodeError>)
    ensures r == OutputScan(rows, deltas, outpoint)
  {
    assert deltas[..|deltas|] == deltas;
    for d := |deltas| downto 0
      invariant OutputScan(rows, deltas, outpoint) == OutputScan(rows, deltas[..d], outpoint)
    {
      assert deltas[..d + 1][..d] == deltas[..d];
      var tx := deltas[d].tx;
      if tx.txid == outpoint.txid {
        if outpoint.vout < |tx.outputs| {
          return Ok(tx.outputs[outpoint.vout]);
        }
        return Err(MissingOutput(outpoint));
      }
    }
    if outpoint in rows.outputs {
      r := Ok(rows.outputs[outpoint]);
    } else {
      r := Err(MissingOutput(outpoint));
    }
  }

  method MaterializeMarketOutputs(rows: Rows, deltas: seq<TxDelta>, core: Core)
    returns (r: Result<LiveOutputs, NodeError>)
    ensures r == Materialize(OverlayView(rows, deltas), core.outpoints, core.id)
  {
    ghost var view := OverlayView(rows, deltas);
    var live := LiveOutputs(None, None, None);
    for i := 0 to |core.outpoints|
      invariant Materialize(view, core.outpoints[..i], core.id) == Ok(live)
    {
      var tracked := core.outpoints[i];
      assert core.outpoints[..i + 1][..i] == core.outpoints[..i];
      var txout := MaterializeOutput(rows, deltas, tracked.outpoint);
      if txout.Err? {
        MaterializeErrorStays(view, core.outpoints, i + 1, core.id);
        return Err(txout.error);
      }
      var placed := Place(live, tracked.role, TrackedOutput(tracked.outpoint, txout.value), core.id);
      if placed.Err? {
        MaterializeErrorStays(view, core.outpoints, i + 1, core.id);
        return placed;
      }
      live := placed.value;
    }
    assert core.outpoints[..|core.outpoints|] == core.outpoints;
    r := Ok(live);
  }

  lemma {:induction false} MaterializeErrorStays(view: View, tracked: seq<Tracked>, n: nat, id: OutPoint)
    requires n <= |tracked|
    requires Materialize(view, tracked[..n], id).Err?
    ensures Materialize(view, tracked, id) == Materialize(view, tracked[..n], id)
  {
    if n < |tracked| {
      var init := tracked[..|tracked| - 1];
      assert init[..n] == tracked[..n];
      MaterializeErrorStays(view, init, n, id);
    } else {
      assert tracked[..n] == tracked;
    }
  }

  /** Inserts every value into the set; false as soon as one is already there. */
  method InsertAll(seen: set<OutPoint>, values: seq<OutPoint>) returns (all: set<OutPoint>, distinct: bool)
    ensures distinct <==> NoDup(values) && forall o :: o in values ==> o !in seen
    ensures distinct ==> all == seen + ToSet(values)
  {
    all := seen;
    for i := 0 to |values|
      invariant all == seen + ToSet(values[..i])
      invariant NoDup(values[..i])
      invariant forall o :: o in values[..i] ==> o !in seen
    {
      assert values[..i + 1] == values[..i] + [values[i]];
      NoDupAppend(values[..i], values[i]);
      if values[i] in all {
        if values[i] !in seen {
          assert values[i] in values[..i];
          RepeatedEarlier(values, i);
        }
        return all, false;
      }
      all := all + {values[i]};
    }
    assert values[..|values|] == values;
    distinct := true;
  }

  lemma RepeatedEarlier<T>(values: seq<T>, i: nat)
    requires i < |values| && values[i] in values[..i]
    ensures !NoDup(values)
  {
    var j :| 0 <= j < i && values[j] == values[i];
  }

  predicate Disjoint(left: seq<OutPoint>, right: seq<OutPoint>) {
    forall o :: o in right ==> o !in left
  }

  lemma AppendLeg(legs: seq<Leg>, leg: Leg)
    ensures LegIds(legs + [leg]) == LegIds(legs) + [LegId(leg)]
    ensures NewOutpoints(legs + [leg]) == NewOutpoints(legs) + Outpoints(LegOutpoints(leg))
  {
    var all := legs + [leg];
    assert all[..|all| - 1] == legs && all[|all| - 1] == leg;
  }

  lemma ClaimCreate(created: seq<Record>)
    requires created != []
    ensures
      var k := |created| - 1;
      var core := created[k].core;
      var legs := CreateLegs(created[..k]);
      && LegIds(CreateLegs(created)) == LegIds(legs) + [core.id]
      && NewOutpoints(CreateLegs(created)) == NewOutpoints(legs) + Outpoints(core.outpoints)
      && (AtomicClaims(created, []) <==>
            && AtomicClaims(created[..k], [])
            && core.id !in LegIds(legs)
            && NoDup(Outpoints(core.outpoints)) && Disjoint(NewOutpoints(legs), Outpoints(core.outpoints)))
  {
    var k := |created| - 1;
    var legs := CreateLegs(created[..k]);
    var leg := Creates(created[k]);
    AppendLeg(legs, leg);
    NoDupAppend(LegIds(legs), LegId(leg));
    NoDupConcat(NewOutpoints(legs), Outpoints(LegOutpoints(leg)));
  }

  lemma ClaimUpdate(created: seq<Record>, updates: seq<Update>)
    requires updates != []
    ensures
      var k := |updates| - 1;
      var update := updates[k];
      var legs := LegsOf(created, updates[..k]);
      && LegIds(LegsOf(created, updates)) == LegIds(legs) + [update.id]
      && NewOutpoints(LegsOf(created, updates)) == NewOutpoints(legs) + Outpoints(update.created)
      && Declared(updates) == Declared(updates[..k]) + update.spent
      && (AtomicClaims(created, updates) <==>
            && AtomicClaims(created, updates[..k])
            && update.id !in LegIds(legs)
            && NoDup(update.spent) && Disjoint(Declared(updates[..k]), update.spent)
            && NoDup(Outpoints(update.created)) && Disjoint(NewOutpoints(legs), Outpoints(update.created)))
  {
    var k := |updates| - 1;
    var legs := LegsOf(created, updates[..k]);
    var leg := Updates(updates[k]);
    AppendLeg(legs, leg);
    NoDupAppend(LegIds(legs), LegId(leg));
    NoDupConcat(NewOutpoints(legs), Outpoints(LegOutpoints(leg)));
    NoDupConcat(Declared(updates[..k]), updates[k].spent);
  }

  /** A conflict in a prefix of the batch spoils the whole batch. */
  lemma {:induction false} ConflictStays(created: seq<Record>, updates: seq<Update>, n: nat)
    requires n <= |updates|
    requires !AtomicClaims(created, updates[..n])
    ensures !AtomicClaims(created, updates)
  {
    if n < |updates| {
      var init := updates[..|updates| - 1];
      assert init[..n] == updates[..n];
      ConflictStays(created, init, n);
      ClaimUpdate(created, updates);
    } else {
      assert updates[..n] == updates;
    }
  }

  lemma {:induction false} CreateConflictStays(created: seq<Record>, n: nat)
    requires n <= |created|
    requires !AtomicClaims(created[..n], [])
    ensures !AtomicClaims(created, [])
  {
    if n < |created| {
      var init := created[..|created| - 1];
      assert init[..n] == created[..n];
      CreateConflictStays(init, n);
      ClaimCreate(created);
    } else {
      assert created[..n] == created;
    }
  }

  ghost predicate ClaimsSoFar(
      created: seq<Record>, updates: seq<Update>, contracts: set<OutPoint>, spent: set<OutPoint>, outputs: set<OutPoint>)
  {
    var legs := LegsOf(created, updates);
    && AtomicClaims(created, updates)
    && contracts == ToSet(LegIds(legs))
    && spent == ToSet(Declared(updates))
    && outputs == ToSet(NewOutpoints(legs))
  }

  lemma ClaimsExtendCreate(
      created: seq<Record>, contracts: set<OutPoint>, outputs: set<OutPoint>, grown: set<OutPoint>, distinct: bool)
    requires created != []
    requires
      var k := |created| - 1;
      var points := Outpoints(created[k].core.outpoints);
      && ClaimsSoFar(created[..k], [], contracts, {}, outputs)
      && (distinct <==> NoDup(points) && forall o :: o in points ==> o !in outputs)
      && (distinct ==> grown == outputs + ToSet(points))
    ensures
      var id := created[|created| - 1].core.id;
      if id in contracts || !distinct then !AtomicClaims(created, [])
      else ClaimsSoFar(created, [], contracts + {id}, {}, grown)
  {
    ClaimCreate(created);
  }

  lemma ClaimsExtendUpdate(
      created: seq<Record>, updates: seq<Update>, contracts: set<OutPoint>,
      spent: set<OutPoint>, moreSpent: set<OutPoint>, distinctSpent: bool,
      outputs: set<OutPoint>, moreOutputs: set<OutPoint>, distinctOutputs: bool)
    requires updates != []
    requires
      var k := |updates| - 1;
      var points := Outpoints(updates[k].created);
      && ClaimsSoFar(created, updates[..k], contracts, spent, outputs)
      && (distinctSpent <==> NoDup(updates[k].spent) && forall o :: o in updates[k].spent ==> o !in spent)
      && (distinctSpent ==> moreSpent == spent + ToSet(updates[k].spent))
      && (distinctOutputs <==> NoDup(points) && forall o :: o in points ==> o !in outputs)
      && (distinctOutputs ==> moreOutputs == outputs + ToSet(points))
    ensures
      var id := updates[|updates| - 1].id;
      if id in contracts || !distinctSpent || !distinctOutputs then !AtomicClaims(created, updates)
      else ClaimsSoFar(created, updates, contracts + {id}, moreSpent, moreOutputs)
  {
    ClaimUpdate(created, updates);
  }

  method ClaimCreated(created: seq<Record>) returns (ok: bool, contracts: set<OutPoint>, outputs: set<OutPoint>)
    ensures ok <==> AtomicClaims(created, [])
    ensures ok ==> ClaimsSoFar(created, [], contracts, {}, outputs)
  {
    contracts, outputs := {}, {};
    for c := 0 to |created|
      invariant ClaimsSoFar(created[..c], [], contracts, {}, outputs)
    {
      var core := created[c].core;
      assert created[..c + 1][..c] == created[..c];
      var grown, distinct := InsertAll(outputs, Outpoints(core.outpoints));
      ClaimsExtendCreate(created[..c + 1], contracts, outputs, grown, distinct);
      if core.id in contracts || !distinct {
        CreateConflictStays(created, c + 1);
        return false, contracts, outputs;
      }
      contracts, outputs := contracts + {core.id}, grown;
    }
    assert created[..|created|] == created;
    ok := true;
  }

  method ClaimOneUpdate(
      created: seq<Record>, updates: seq<Update>, u: nat,
      contracts: set<OutPoint>, spent: set<OutPoint>, outputs: set<OutPoint>)
    returns (ok: bool, moreContracts: set<OutPoint>, moreSpent: set<OutPoint>, moreOutputs: set<OutPoint>)
    requires u < |updates|
    requires ClaimsSoFar(created, updates[..u], contracts, spent, outputs)
    ensures ok ==> ClaimsSoFar(created, updates[..u + 1], moreContracts, moreSpent, moreOutputs)
    ensures !ok ==> !AtomicClaims(created, updates[..u + 1])
  {
    var update := updates[u];
    assert updates[..u + 1][..u] == updates[..u];
    var distinctSpent, distinctOutputs;
    moreContracts := contracts + {update.id};
    moreSpent, distinctSpent := InsertAll(spent, update.spent);
    moreOutputs, distinctOutputs := InsertAll(outputs, Outpoints(update.created));
    ClaimsExtendUpdate(
      created, updates[..u + 1], contracts, spent, moreSpent, distinctSpent, outputs, moreOutputs, distinctOutputs);
    ok := update.id !in contracts && distinctSpent && distinctOutputs;
  }

  /** Claims every contract id, spent outpoint and created outpoint once, in three sets. */
  method ValidateAtomicClaims(result: Interpretation) returns (ok: bool)
    ensures ok <==> AtomicClaims(result.created, result.updates)
  {
    var updates := result.updates;
    var spent: set<OutPoint> := {};
    var fine, contracts, outputs := ClaimCreated(result.created);
    if !fine {
      ConflictStays(result.created, updates, 0);
      return false;
    }
    for u := 0 to |updates|
      invariant ClaimsSoFar(result.created, updates[..u], contracts, spent, outputs)
    {
      fine, contracts, spent, outputs := ClaimOneUpdate(result.created, updates, u, contracts, spent, outputs);
      if !fine {
        ConflictStays(result.created, updates, u + 1);
        return false;
      }
    }
    assert updates[..|updates|] == updates;
    ok := true;
  }

  // ----- One transaction, then one block -----

  method RetainCanonicalCreation(rows: Rows, deltas: seq<TxDelta>, created: seq<Record>, candidate: Core, anchor: Anchor)
    returns (r: Result<seq<Record>, NodeError>)
    ensures r == Retain(OverlayView(rows, deltas), created, candidate, anchor)
  {
    var current := FindRecord(created, candidate.id);
    if current.None? {
      var known := ContractInContext(rows, deltas, candidate.id);
      if known.Err? {
        return Err(known.error);
      }
      current := known.value;
    }
    if current.None? {
      return Ok(created + [Record(candidate, Ready(anchor))]);
    }
    if SameCreation(current.value, candidate) {
      return Ok(created);
    }
    r := Err(DiscoveryConflict(candidate.id));
  }

  lemma {:induction false} RetainErrorStays(view: View, candidates: seq<Core>, n: nat, anchor: Anchor)
    requires n <= |candidates|
    requires RetainAll(view, candidates[..n], anchor).Err?
    ensures RetainAll(view, candidates, anchor) == RetainAll(view, candidates[..n], anchor)
  {
    if n < |candidates| {
      var init := candidates[..|candidates| - 1];
      assert init[..n] == candidates[..n];
      RetainErrorStays(view, init, n, anchor);
    } else {
      assert candidates[..n] == candidates;
    }
  }

  /** Verifies each declared contract, then the hinted one, retaining those not yet known. */
  method CreatedContracts(rows: Rows, deltas: seq<TxDelta>, rules: Rules, site: Site, tx: Transaction)
    returns (r: Result<seq<Record>, NodeError>)
    requires site.mode.Canonical?
    ensures r == RetainAll(OverlayView(rows, deltas), Candidates(rules, tx, site), site.anchor)
  {
    ghost var view := OverlayView(rows, deltas);
    var retained := site.mode.retained;
    ghost var candidates := Candidates(rules, tx, site);
    var created: seq<Record> := [];
    for i := 0 to |retained|
      invariant RetainAll(view, Verified(rules, tx, site.position, retained[..i]), site.anchor) == Ok(created)
    {
      assert retained[..i + 1][..i] == retained[..i];
      var verified := rules.verify(tx, site.position, Some(retained[i]));
      if verified.Some? {
        ghost var sofar := Verified(rules, tx, site.position, retained[..i]);
        assert (sofar + [verified.value])[..|sofar|] == sofar;
        var next := RetainCanonicalCreation(rows, deltas, created, verified.value, site.anchor);
        if next.Err? {
          VerifiedPrefix(rules, tx, site.position, retained, i + 1);
          assert candidates[..|sofar| + 1] == sofar + [verified.value];
          RetainErrorStays(view, candidates, |sofar| + 1, site.anchor);
          return next;
        }
        created := next.value;
      }
    }
    assert retained[..|retained|] == retained;
    if rules.hasMarketHint(tx) {
      var verified := rules.verify(tx, site.position, None);
      if verified.Some? {
        assert candidates[..|candidates| - 1] == Verified(rules, tx, site.position, retained);
        r := RetainCanonicalCreation(rows, deltas, created, verified.value, site.anchor);
        return;
      }
    }
    assert candidates == Verified(rules, tx, site.position, retained);
    r := Ok(created);
  }

  lemma {:induction false} VerifiedPrefix(
      rules: Rules, tx: Transaction, position: Position, retained: seq<Declaration>, n: nat)
    requires n <= |retained|
    ensures Verified(rules, tx, position, retained[..n]) <= Verified(rules, tx, position, retained)
  {
    if n < |retained| {
      var init := retained[..|retained| - 1];
      assert init[..n] == retained[..n];
      VerifiedPrefix(rules, tx, position, init, n);
    } else {
      assert retained[..n] == retained;
    }
  }

  lemma {:induction false} TouchedErrorStays(view: View, inputs: seq<OutPoint>, n: nat, mode: Mode)
    requires n <= |inputs|
    requires Touched(view, inputs[..n], mode).Err?
    ensures Touched(view, inputs, mode) == Touched(view, inputs[..n], mode)
  {
    if n < |inputs| {
      var init := inputs[..|inputs| - 1];
      assert init[..n] == inputs[..n];
      TouchedErrorStays(view, init, n, mode);
    } else {
      assert inputs[..n] == inputs;
    }
  }

  /** The contracts whose live outputs the transaction spends, in input order. */
  method TouchedContracts(rows: Rows, deltas: seq<TxDelta>, inputs: seq<OutPoint>, mode: Mode)
    returns (r: Result<seq<OutPoint>, NodeError>)
    ensures r == Touched(OverlayView(rows, deltas), inputs, mode)
  {
    ghost var view := OverlayView(rows, deltas);
    var touched: seq<OutPoint> := [];
    for i := 0 to |inputs|
      invariant Touched(view, inputs[..i], mode) == Ok(touched)
    {
      assert inputs[..i + 1][..i] == inputs[..i];
      var resolution := OwnerInContext(rows, deltas, inputs[i]);
      match resolution {
        case Untracked =>
        case SpentEarlier(contract) =>
          TouchedErrorStays(view, inputs, i + 1, mode);
          return Err(SameBlockDoubleSpend(inputs[i], contract));
        case Live(owner) =>
          touched := Touch(touched, owner.contract, mode);
      }
    }
    assert inputs[..|inputs|] == inputs;
    r := Ok(touched);
  }

  lemma {:induction false} UpdatesErrorStays(view: View, rules: Rules, ids: seq<OutPoint>, n: nat, tx: Transaction)
    requires n <= |ids|
    requires InterpretTouched(view, rules, ids[..n], tx).Err?
    ensures InterpretTouched(view, rules, ids, tx) == InterpretTouched(view, rules, ids[..n], tx)
  {
    if n < |ids| {
      var init := ids[..|ids| - 1];
      assert init[..n] == ids[..n];
      UpdatesErrorStays(view, rules, init, n, tx);
    } else {
      assert ids[..n] == ids;
    }
  }

  /** One state update per touched contract. */
  method StateUpdates(rows: Rows, deltas: seq<TxDelta>, rules: Rules, ids: seq<OutPoint>, tx: Transaction)
    returns (r: Result<seq<Update>, NodeError>)
    ensures r == InterpretTouched(OverlayView(rows, deltas), rules, ids, tx)
  {
    ghost var view := OverlayView(rows, deltas);
    var updates: seq<Update> := [];
    for i := 0 to |ids|
      invariant InterpretTouched(view, rules, ids[..i], tx) == Ok(updates)
    {
      assert ids[..i + 1][..i] == ids[..i];
      var update := UpdateOf(rows, deltas, rules, ids[i], tx);
      if update.Err? {
        UpdatesErrorStays(view, rules, ids, i + 1, tx);
        return Err(update.error);
      }
      updates := updates + [update.value];
    }
    assert ids[..|ids|] == ids;
    r := Ok(updates);
  }

  method UpdateOf(rows: Rows, deltas: seq<TxDelta>, rules: Rules, id: OutPoint, tx: Transaction)
    returns (r: Result<Update, NodeError>)
    ensures
      var view := OverlayView(rows, deltas);
      var known := view.contract(id);
      r == if known.Err? then Err(known.error)
           else if known.value.None? then Err(MissingContract(id))
           else InterpretContract(view, rules, known.value.value, tx)
  {
    var known := ContractInContext(rows, deltas, id);
    if known.Err? {
      return Err(known.error);
    }
    if known.value.None? {
      return Err(MissingContract(id));
    }
    var core := known.value.value;
    var live := MaterializeMarketOutputs(rows, deltas, core);
    if live.Err? {
      return Err(live.error);
    }
    var spend := rules.spend(core.params, core.state, live.value, tx);
    if spend.None? {
      return Err(ContractSpend(core.id));
    }
    if !CompleteSpend(core.outpoints, spend.value.spent) {
      return Err(IncompleteSpend(core.id));
    }
    r := Ok(SpendUpdate(core, spend.value));
  }

  method InterpretTransaction(rows: Rows, deltas: seq<TxDelta>, rules: Rules, site: Site, tx: Transaction)
    returns (r: Result<Interpretation, NodeError>)
    ensures r == Interpret(OverlayView(rows, deltas), rules, site, tx)
  {
    var created: seq<Record> := [];
    if site.mode.Canonical? {
      var retained := CreatedContracts(rows, deltas, rules, site, tx);
      if retained.Err? {
        return Err(retained.error);
      }
      created := retained.value;
    }
    var touched := TouchedContracts(rows, deltas, Inputs(tx), site.mode);
    if touched.Err? {
      return Err(touched.error);
    }
    var updates := StateUpdates(rows, deltas, rules, touched.value, tx);
    if updates.Err? {
      return Err(updates.error);
    }
    var result := Interpretation(created, updates.value);
    var ok := ValidateAtomicClaims(result);
    if ok {
      r := Ok(result);
    } else {
      r := Err(ConflictingAtomicBatch);
    }
  }

  lemma {:induction false} BlockErrorStays(
      rules: Rules, rows: Rows, anchor: Anchor, retained: Txid -> seq<Declaration>, txs: seq<Transaction>, n: nat)
    requires n <= |txs|
    requires InterpretBlock(rules, rows, anchor, retained, txs[..n]).Err?
    ensures InterpretBlock(rules, rows, anchor, retained, txs)
         == InterpretBlock(rules, rows, anchor, retained, txs[..n])
  {
    if n < |txs| {
      var init := txs[..|txs| - 1];
      assert init[..n] == txs[..n];
      BlockErrorStays(rules, rows, anchor, retained, init, n);
    } else {
      assert txs[..n] == txs;
    }
  }

  /** Each transaction sees the deltas of its predecessors; one that touches no contract adds none. */
  method InterpretCanonicalBlock(
      rules: Rules, rows: Rows, anchor: Anchor, retained: Txid -> seq<Declaration>, txs: seq<Transaction>)
    returns (r: Result<seq<TxDelta>, NodeError>)
    ensures r == InterpretBlock(rules, rows, anchor, retained, txs)
  {
    var deltas: seq<TxDelta> := [];
    for k := 0 to |txs|
      invariant InterpretBlock(rules, rows, anchor, retained, txs[..k]) == Ok(deltas)
    {
      assert txs[..k + 1][..k] == txs[..k];
      var position := Position(anchor.height, k);
      var site := Site(Canonical(retained(txs[k].txid)), anchor, position);
      var result := InterpretTransaction(rows, deltas, rules, site, txs[k]);
      if result.Err? {
        BlockErrorStays(rules, rows, anchor, retained, txs, k + 1);
        return Err(result.error);
      }
      if result.value.created != [] || result.value.updates != [] {
        deltas := deltas + [TxDelta(position, txs[k], result.value.created, result.value.updates)];
      }
    }
    assert txs[..|txs|] == txs;
    r := Ok(deltas);
  }
}
