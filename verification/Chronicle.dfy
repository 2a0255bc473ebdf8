/**
 What a synchronized node serves of a market is accepted by a client: the chronicle of a contract, read
 off the indexed blocks, replays from the market's creation to the stored state and live outputs.
 */
module Chronicle {
  import opened Types
  import opened Ledger
  import opened MarketLayout
  import opened MarketSpend
  import opened Overlay
  import opened OverlayRefinement
  import opened OverlayBlocks
  import opened Replay
  import opened Agreement
  import TransitionCodec
  import opened Merkle
  import opened ChainStore
  import opened Branches
  import opened ChainSync

  // ----- Creation -----

  function InitialContinuations(params: Params, tx: Transaction, yes: nat, no: nat): seq<Continuation> {
    [ Continuation(DormantYesRt, TrackedAt(tx.txid, yes, InitialRt(params, Yes))),
      Continuation(DormantNoRt, TrackedAt(tx.txid, no, InitialRt(params, No))) ]
  }

  /** The indices of the two dormant token outputs a new record tracks. */
  function YesIndex(core: Core): nat
    requires |core.outpoints| == 2
  {
    core.outpoints[0].outpoint.vout
  }

  function NoIndex(core: Core): nat
    requires |core.outpoints| == 2
  {
    core.outpoints[1].outpoint.vout
  }

  /** A new record: its parameters compile, the transaction creates the market, and the record tracks its two dormant tokens. */
  ghost predicate Founded(key: KeyCheck, core: Core, tx: Transaction, position: Position) {
    && core.position == position && core.state == Trading(0)
    && ValidParams(key, core.params)
    && |core.outpoints| == 2
    && core.outpoints == NewTracked(InitialContinuations(core.params, tx, YesIndex(core), NoIndex(core)))
    && Replay.Creates(core.params, tx, core.id, YesIndex(core), NoIndex(core))
  }

  /** The node's verifier only returns records of markets the transaction creates. */
  ghost predicate Founds(key: KeyCheck, rules: Rules) {
    forall tx, position, declaration {:trigger rules.verify(tx, position, declaration)} ::
      rules.verify(tx, position, declaration).Some? ==>
        Founded(key, rules.verify(tx, position, declaration).value, tx, position)
  }

  function SlotScripts(params: Params): seq<Script> {
    [ Covenant(params, DormantYesRt), Covenant(params, DormantNoRt),
      Covenant(params, UnresolvedYesRt), Covenant(params, UnresolvedNoRt), Covenant(params, UnresolvedCollateral),
      Covenant(params, ResolvedYesCollateral), Covenant(params, ResolvedNoCollateral), Covenant(params, ExpiredCollateral) ]
  }

  /** The record of a market created by a transaction at the two given outputs. */
  function NewCore(params: Params, tx: Transaction, position: Position, yes: nat, no: nat): Core {
    Core(
      OutPoint(tx.txid, yes), params, position, SlotScripts(params),
      [params.collateral, params.yesToken, params.noToken, params.yesRt, params.noRt], Trading(0),
      NewTracked(InitialContinuations(params, tx, yes, no)))
  }

  /** The node's check of a declared market: it passes exactly when it compiles and the transaction creates it under its id. */
  method VerifyDeclared(key: KeyCheck, declaration: Declaration, tx: Transaction, position: Position)
    returns (r: Option<Core>)
    ensures r.Some? <==>
      && ValidParams(key, declaration.params)
      && exists yes: nat, no: nat :: Replay.Creates(declaration.params, tx, declaration.id, yes, no)
    ensures r.Some? ==>
      && Founded(key, r.value, tx, position)
      && r.value.id == declaration.id && r.value.params == declaration.params
  {
    hide InitialRt, DefinesLeg, ValidParams;
    var params := declaration.params;
    if !ValidParams(key, params) {
      return None;
    }
    var yesInput := UniqueDefiningInput(params, tx, Yes);
    var noInput := UniqueDefiningInput(params, tx, No);
    if yesInput.None? || noInput.None? || yesInput == noInput {
      return None;
    }
    assert OnlyDefining(params, tx, Yes, yesInput.value) && OnlyDefining(params, tx, No, noInput.value);
    var yes := UniqueMarketOutput(tx, InitialRt(params, Yes));
    var no := UniqueMarketOutput(tx, InitialRt(params, No));
    if yes.None? || no.None? || declaration.id != OutPoint(tx.txid, yes.value) {
      return None;
    }
    assert Replay.Creates(params, tx, declaration.id, yes.value, no.value);
    r := Some(NewCore(params, tx, position, yes.value, no.value));
  }

  /** A market hint found in a transaction, its collateral resolved if the network knows it. */
  datatype MarketHint = MarketHint(oracleKey: nat, collateral: Option<AssetId>, basePayout: U64, expiryHeight: nat)

  predicate NewIssuance(input: TxIn) {
    && input.issuance.Some?
    && input.issuance.value.nonce == 0
    && input.issuance.value.amount.None?
    && !input.issuance.value.inflationKeysNull
  }

  /** The fixed shape of a standalone creation: the two first inputs issue, and no other does. */
  predicate Standalone(tx: Transaction) {
    && |tx.inputs| >= 2 && |tx.outputs| >= 2
    && NewIssuance(tx.inputs[0]) && NewIssuance(tx.inputs[1])
    && forall k :: 2 <= k < |tx.inputs| ==> tx.inputs[k].issuance.None?
  }

  /** The market a standalone creation and its hint describe. */
  function HintedParams(hint: MarketHint, tx: Transaction): Params
    requires hint.collateral.Some? && Standalone(tx)
  {
    var yes, no := tx.inputs[0].issuance.value, tx.inputs[1].issuance.value;
    Params(
      hint.oracleKey, hint.collateral.value, yes.asset, no.asset, yes.reissuanceToken, no.reissuanceToken,
      hint.basePayout, hint.expiryHeight)
  }

  /** With distinct assets the two issuing inputs are the only ones that define the legs. */
  lemma HintedDefines(key: KeyCheck, hint: MarketHint, tx: Transaction)
    requires hint.collateral.Some? && Standalone(tx) && ValidParams(key, HintedParams(hint, tx))
    ensures OnlyDefining(HintedParams(hint, tx), tx, Yes, 0)
    ensures OnlyDefining(HintedParams(hint, tx), tx, No, 1)
  {
    CompiledAssets(key, HintedParams(hint, tx));
  }

  /**
   The node's search for a market nobody declared: it passes exactly for a standalone creation with one hint
   whose market compiles and whose dormant tokens are the two first outputs, and the record is a founded one.
   */
  method VerifyDiscovered(key: KeyCheck, hints: seq<MarketHint>, tx: Transaction, position: Position)
    returns (r: Option<Core>)
    ensures r.Some? <==>
      && |hints| == 1 && hints[0].collateral.Some? && Standalone(tx)
      && ValidParams(key, HintedParams(hints[0], tx))
      && Replay.Creates(HintedParams(hints[0], tx), tx, OutPoint(tx.txid, 0), 0, 1)
    ensures r.Some? ==>
      && Founded(key, r.value, tx, position)
      && r.value.id == OutPoint(tx.txid, 0) && r.value.params == HintedParams(hints[0], tx)
  {
    hide InitialRt, DefinesLeg, ValidParams, NewIssuance;
    if |hints| != 1 || !Standalone(tx) || hints[0].collateral.None? {
      return None;
    }
    var params := HintedParams(hints[0], tx);
    if !ValidParams(key, params) {
      return None;
    }
    HintedDefines(key, hints[0], tx);
    var yes := UniqueMarketOutput(tx, InitialRt(params, Yes));
    var no := UniqueMarketOutput(tx, InitialRt(params, No));
    if yes != Some(0) || no != Some(1) {
      return None;
    }
    assert Replay.Creates(params, tx, OutPoint(tx.txid, 0), 0, 1);
    r := Some(NewCore(params, tx, position, 0, 1));
  }

  lemma FoundedIsSound(key: KeyCheck, core: Core, tx: Transaction, position: Position)
    requires Founded(key, core, tx, position)
    ensures NewOutpointsOk(core.outpoints, tx.txid, |tx.outputs|)
    ensures PlacedCore(core, position)
  {
    hide DefinesLeg, RtOut;
    var (yes, no) := (YesIndex(core), NoIndex(core));
    assert InitialRt(core.params, Yes).script == Covenant(core.params, DormantYesRt) by {
      InitialScript(core.params, Yes);
    }
    assert InitialRt(core.params, No).script == Covenant(core.params, DormantNoRt) by {
      InitialScript(core.params, No);
    }
    assert tx.outputs[yes] != tx.outputs[no];
    assert Outpoints(core.outpoints)[0] == core.id;
  }

  lemma InitialScript(params: Params, leg: Outcome)
    ensures InitialRt(params, leg).script == Covenant(params, RtSlot(Trading(0), leg))
  {
  }

  /** So such a node meets everything whole-block interpretation and admission ask of its rules. */
  lemma FoundingRulesAreSound(context: Context, rules: Rules)
    requires Explained(context, rules.spend) && Founds(context.key, rules)
    ensures Sound(rules) && Placed(rules)
  {
    hide Founded, PlacedCore, NewOutpointsOk, Explained;
    forall tx, position, declaration | rules.verify(tx, position, declaration).Some?
      ensures NewOutpointsOk(rules.verify(tx, position, declaration).value.outpoints, tx.txid, |tx.outputs|)
      ensures PlacedCore(rules.verify(tx, position, declaration).value, position)
    {
      FoundedIsSound(context.key, rules.verify(tx, position, declaration).value, tx, position);
    }
    ExplainedRulesAreSound(context, rules);
  }

  lemma FoundedIsOpening(key: KeyCheck, core: Core, tx: Transaction, position: Position)
    requires Founded(key, core, tx, position)
    ensures SameMarket(core.params, tx, Opening(core, tx), core)
  {
    hide DefinesLeg, RtOut;
    var (yes, no) := (YesIndex(core), NoIndex(core));
    var list := InitialContinuations(core.params, tx, yes, no);
    InitialScript(core.params, Yes);
    InitialScript(core.params, No);
    assert RealContinuation(core.params, tx, list[0]);
    assert RealContinuation(core.params, tx, list[1]);
    assert list[..1] == [list[0]] && list[..1][..0] == [];
    assert LiveFrom(list[..1]) == PlaceOne(LiveFrom([]), list[0]);
    assert LiveFrom(list) == InitialLive(core.params, tx, yes, no);
  }

  // ----- The chronicle of a contract -----

  datatype Chronicle = Chronicle(creation: Transaction, start: Core, txs: seq<Transaction>, updates: seq<Update>)

  function UpdateFor(updates: seq<Update>, id: OutPoint): Option<Update> {
    if updates == [] then
      None
    else if updates[|updates| - 1].id == id then
      Some(updates[|updates| - 1])
    else
      UpdateFor(updates[..|updates| - 1], id)
  }

  function Continued(earlier: Option<Chronicle>, delta: TxDelta, id: OutPoint): Option<Chronicle> {
    if earlier.None? then
      match FindRecord(delta.created, id)
      case None => None
      case Some(core) => Some(Chronicle(delta.tx, core, [], []))
    else
      match UpdateFor(delta.updates, id)
      case None => earlier
      case Some(update) =>
        Some(earlier.value.(txs := earlier.value.txs + [delta.tx], updates := earlier.value.updates + [update]))
  }

  /** The creation of a contract and its updates, in the order of the recorded changes. */
  function Chronicled(deltas: seq<TxDelta>, id: OutPoint): Option<Chronicle> {
    if deltas == [] then None else Continued(Chronicled(deltas[..|deltas| - 1], id), deltas[|deltas| - 1], id)
  }

  function Latest(c: Chronicle): Transaction {
    if c.txs == [] then c.creation else c.txs[|c.txs| - 1]
  }

  function Opening(core: Core, creation: Transaction): Stage
    requires |core.outpoints| == 2
  {
    Stage(Trading(0), InitialLive(core.params, creation, YesIndex(core), NoIndex(core)))
  }

  predicate HoldsOutputs(rows: Rows, tx: Transaction) {
    forall i :: 0 <= i < |tx.outputs| ==>
      OutPoint(tx.txid, i) in rows.outputs && rows.outputs[OutPoint(tx.txid, i)] == tx.outputs[i]
  }

  /** The client's fold over the chronicle ends in the market the node's row describes. */
  ghost predicate Agrees(key: KeyCheck, spend: SpendReader, rows: Rows, id: OutPoint, c: Chronicle) {
    && Founded(key, c.start, c.creation, c.start.position) && c.start.id == id
    && id in rows.contracts && rows.contracts[id].core.params == c.start.params
    && HoldsOutputs(rows, Latest(c))
    && var folded := Fold(spend, c.start.params, Opening(c.start, c.creation), c.txs);
       && folded.Some?
       && folded.value.1 == Transitions(c.updates)
       && SameMarket(c.start.params, Latest(c), folded.value.0, rows.contracts[id].core)
  }

  ghost predicate AgreesAt(key: KeyCheck, spend: SpendReader, rows: Rows, id: OutPoint, c: Option<Chronicle>) {
    && (c.Some? <==> id in rows.contracts)
    && (c.Some? ==> Agrees(key, spend, rows, id, c.value))
  }

  ghost predicate AllAgree(key: KeyCheck, spend: SpendReader, rows: Rows, deltas: seq<TxDelta>) {
    forall id :: AgreesAt(key, spend, rows, id, Chronicled(deltas, id))
  }

  // ----- One committed transaction -----

  lemma {:induction false} UpdateForFinds(updates: seq<Update>, id: OutPoint)
    ensures UpdateFor(updates, id).Some? ==> UpdateFor(updates, id).value in updates && UpdateFor(updates, id).value.id == id
    ensures UpdateFor(updates, id).None? ==> forall u :: u in updates ==> u.id != id
  {
    if updates != [] {
      assert updates == updates[..|updates| - 1] + [updates[|updates| - 1]];
      UpdateForFinds(updates[..|updates| - 1], id);
    }
  }

  predicate OneEach(updates: seq<Update>) {
    forall i, j :: 0 <= i < j < |updates| ==> updates[i].id != updates[j].id
  }

  /** Where each contract is updated at most once, replaying the updates applies its one update. */
  lemma {:induction false} ReplayIsOneUpdate(current: Option<Core>, updates: seq<Update>, id: OutPoint)
    requires OneEach(updates)
    requires ReplayUpdates(current, updates, id).Ok?
    ensures
      var update := UpdateFor(updates, id);
      ReplayUpdates(current, updates, id).value
      == if update.None? then current else if current.None? then None else Some(CoreAfter(current.value, update.value))
    ensures UpdateFor(updates, id).Some? ==> current.Some?
  {
    if updates != [] {
      var k := |updates| - 1;
      ReplayIsOneUpdate(current, updates[..k], id);
      if updates[k].id == id {
        UpdateForFinds(updates[..k], id);
        assert forall u :: u in updates[..k] ==> u.id != id;
        assert UpdateFor(updates[..k], id).None?;
      }
    }
  }

  lemma InterpretedOnce(position: Position, tx: Transaction, created: seq<Record>, updates: seq<Update>)
    requires AtomicClaims(created, updates)
    ensures OneEach(updates)
  {
    ContractIdsAreLegIds(position, tx, created, updates);
    var ids := ContractIds(TxDelta(position, tx, created, updates));
    forall i, j | 0 <= i < j < |updates|
      ensures updates[i].id != updates[j].id
    {
      assert ids[|created| + i] != ids[|created| + j];
    }
  }

  /** The stored record of a contract after one committed transaction. */
  lemma CommittedCore(rows: Rows, delta: TxDelta, id: OutPoint)
    requires Coherent(rows) && CommitTx(rows, delta).Ok? && AtomicClaims(delta.created, delta.updates)
    ensures
      var before := StoredCore(rows, id);
      var after := StoredCore(CommitTx(rows, delta).value, id);
      var update := UpdateFor(delta.updates, id);
      if before.None? && FindRecord(delta.created, id).None? then
        after.None?
      else if before.None? then
        after.Some? && (update.None? ==> after == FindRecord(delta.created, id))
      else
        after == if update.None? then before else Some(CoreAfter(before.value, update.value))
  {
    hide CommitTx, Coherent;
    assert [delta][..0] == [];
    assert CommitAll(rows, [delta]) == CommitTx(rows, delta);
    ContractReplayIsCommitted(rows, [delta], id);
    InterpretedOnce(delta.position, delta.tx, delta.created, delta.updates);
    var created := ReplayCreated(StoredCore(rows, id), delta.created, id).value;
    ReplayIsOneUpdate(created, delta.updates, id);
  }

  /** Every update of an interpreted transaction was read off the stored record of its contract. */
  lemma {:induction false} UpdatesAreRead(rows: Rows, rules: Rules, ids: seq<OutPoint>, tx: Transaction)
    requires Coherent(rows)
    requires InterpretTouched(OverlayView(rows, []), rules, ids, tx).Ok?
    ensures forall u :: u in InterpretTouched(OverlayView(rows, []), rules, ids, tx).value ==>
      && u.id in rows.contracts
      && InterpretContract(OverlayView(rows, []), rules, rows.contracts[u.id].core, tx) == Ok(u)
  {
    hide Materialize, CompleteSpend;
    if ids != [] {
      UpdatesAreRead(rows, rules, ids[..|ids| - 1], tx);
    }
  }

  lemma {:induction false} FoundRecord(records: seq<Record>, id: OutPoint)
    ensures FindRecord(records, id).Some? ==> exists r :: r in records && r.core == FindRecord(records, id).value && r.core.id == id
  {
    if records != [] && records[0].core.id != id {
      FoundRecord(records[1..], id);
    }
  }

  lemma {:induction false} VerifiedFounded(key: KeyCheck, rules: Rules, tx: Transaction, position: Position, retained: seq<Declaration>)
    requires Founds(key, rules)
    ensures forall core :: core in Verified(rules, tx, position, retained) ==> Founded(key, core, tx, position)
  {
    hide Founded;
    if retained != [] {
      VerifiedFounded(key, rules, tx, position, retained[..|retained| - 1]);
    }
  }

  lemma CreatedAreFounded(key: KeyCheck, view: View, rules: Rules, site: Site, tx: Transaction)
    requires Founds(key, rules) && Interpret(view, rules, site, tx).Ok?
    ensures forall r :: r in Interpret(view, rules, site, tx).value.created ==> Founded(key, r.core, tx, site.position)
  {
    hide Founded, Touched, InterpretTouched, RetainAll, AtomicClaims;
    RetainedAreCandidates(view, Candidates(rules, tx, site), site.anchor);
    if site.mode.Canonical? {
      VerifiedFounded(key, rules, tx, site.position, site.mode.retained);
    }
  }

  /** What is known of one transaction the node interpreted over committed rows and then committed. */
  ghost predicate Recorded(rules: Rules, rows: Rows, delta: TxDelta, site: Site) {
    && Coherent(rows) && UnknownTxid(rows, delta.tx.txid)
    && Interpret(OverlayView(rows, []), rules, site, delta.tx) == Ok(Interpretation.Interpretation(delta.created, delta.updates))
    && CommitTx(rows, delta).Ok?
  }

  lemma OutputsStay(rows: Rows, delta: TxDelta, tx: Transaction)
    requires CommitTx(rows, delta).Ok? && UnknownTxid(rows, delta.tx.txid) && HoldsOutputs(rows, tx)
    ensures HoldsOutputs(CommitTx(rows, delta).value, tx)
  {
    hide CommitLegs, ValidateTrackedInputs;
    CommitTxEffect(rows, delta);
  }

  lemma OutputsArrive(rows: Rows, delta: TxDelta)
    requires CommitTx(rows, delta).Ok?
    ensures HoldsOutputs(CommitTx(rows, delta).value, delta.tx)
  {
    hide CommitLegs, ValidateTrackedInputs;
    CommitTxEffect(rows, delta);
  }

  lemma CreationAgrees(key: KeyCheck, rules: Rules, rows: Rows, delta: TxDelta, site: Site, id: OutPoint)
    requires Founds(key, rules) && Recorded(rules, rows, delta, site)
    requires id !in rows.contracts
    ensures AgreesAt(key, rules.spend, CommitTx(rows, delta).value, id, Continued(None, delta, id))
  {
    hide Founds, Founded, Interpret, CommitTx, Coherent, SameMarket, HoldsOutputs, UnknownTxid, AtomicClaims;
    InterpretedFacts(rules, rows, delta, site);
    CommittedCore(rows, delta, id);
    FoundRecord(delta.created, id);
    CreatedAreFounded(key, OverlayView(rows, []), rules, site, delta.tx);
    UpdateForFinds(delta.updates, id);
    if FindRecord(delta.created, id).Some? {
      var core := FindRecord(delta.created, id).value;
      FoundedPosition(key, core, delta.tx, site.position);
      FoundedIsOpening(key, core, delta.tx, core.position);
      OutputsArrive(rows, delta);
    }
  }

  lemma FoundedPosition(key: KeyCheck, core: Core, tx: Transaction, position: Position)
    requires Founded(key, core, tx, position)
    ensures Founded(key, core, tx, core.position) && |core.outpoints| == 2
  {
  }

  lemma InterpretedFacts(rules: Rules, rows: Rows, delta: TxDelta, site: Site)
    requires Recorded(rules, rows, delta, site)
    ensures AtomicClaims(delta.created, delta.updates)
    ensures forall u :: u in delta.updates ==>
      && u.id in rows.contracts
      && InterpretContract(OverlayView(rows, []), rules, rows.contracts[u.id].core, delta.tx) == Ok(u)
  {
    hide InterpretContract, AtomicClaims, RetainAll, CommitTx, UnknownTxid;
    UpdatesAreRead(rows, rules, Touched(OverlayView(rows, []), Inputs(delta.tx), site.mode).value, delta.tx);
  }

  lemma HeldReadsBack(rows: Rows, tx: Transaction)
    requires HoldsOutputs(rows, tx)
    ensures ReadsBack(OverlayView(rows, []), tx)
  {
  }

  lemma UpdateAgrees(context: Context, rules: Rules, rows: Rows, delta: TxDelta, site: Site, id: OutPoint, c: Chronicle)
    requires Explained(context, rules.spend) && Recorded(rules, rows, delta, site)
    requires Agrees(context.key, rules.spend, rows, id, c)
    ensures AgreesAt(context.key, rules.spend, CommitTx(rows, delta).value, id, Continued(Some(c), delta, id))
  {
    hide Explained, Founded, Interpret, CommitTx, Coherent, SameMarket, HoldsOutputs, UnknownTxid, AtomicClaims;
    hide InterpretContract, ReadsBack, Materialize, Fold, LiveFrom;
    InterpretedFacts(rules, rows, delta, site);
    CommittedCore(rows, delta, id);
    UpdateForFinds(delta.updates, id);
    var update := UpdateFor(delta.updates, id);
    if update.None? {
      OutputsStay(rows, delta, Latest(c));
    } else {
      StoredUnderId(rows, id);
      OneMoreUpdate(context, rules, rows, delta.tx, c, id, update.value);
      OutputsArrive(rows, delta);
    }
  }

  lemma StoredUnderId(rows: Rows, id: OutPoint)
    requires Coherent(rows) && id in rows.contracts
    ensures rows.contracts[id].core.id == id
  {
  }

  lemma OneMoreUpdate(
      context: Context, rules: Rules, rows: Rows, tx: Transaction, c: Chronicle, id: OutPoint, update: Update)
    requires Explained(context, rules.spend) && Agrees(context.key, rules.spend, rows, id, c)
    requires InterpretContract(OverlayView(rows, []), rules, rows.contracts[id].core, tx) == Ok(update)
    ensures
      var folded := Fold(rules.spend, c.start.params, Opening(c.start, c.creation), c.txs + [tx]);
      && folded.Some?
      && folded.value.1 == Transitions(c.updates + [update])
      && SameMarket(c.start.params, tx, folded.value.0, CoreAfter(rows.contracts[id].core, update))
  {
    hide Explained, Founded, SameMarket, HoldsOutputs, InterpretContract, ReadsBack, Materialize, LiveFrom, OverlayView;
    hide Fold, Opening, CoreAfter, TransitionCodec.NodeRecord;
    var (params, core) := (c.start.params, rows.contracts[id].core);
    FoundedPosition(context.key, c.start, c.creation, c.start.position);
    var start := Opening(c.start, c.creation);
    var stage := Fold(rules.spend, params, start, c.txs).value.0;
    HeldReadsBack(rows, Latest(c));
    ViewSeesStage(params, OverlayView(rows, []), Latest(c), stage, core);
    SameState(params, Latest(c), stage, core);
    StepAgrees(context, rules, params, OverlayView(rows, []), tx, stage, core, update);
    var txs := c.txs + [tx];
    assert txs[..|c.txs|] == c.txs && txs[..|c.txs| + 1] == txs;
    FoldStep(rules.spend, params, start, txs, |c.txs|);
    assert Transitions(c.updates + [update]) == Transitions(c.updates) + [update.transition];
  }

  lemma SameState(params: Params, tx: Transaction, stage: Stage, core: Core)
    requires SameMarket(params, tx, stage, core)
    ensures stage.state == core.state
  {
  }

  lemma StepKeepsAgreement(
      context: Context, rules: Rules, rows: Rows, deltas: seq<TxDelta>, delta: TxDelta, site: Site)
    requires Explained(context, rules.spend) && Founds(context.key, rules)
    requires Recorded(rules, rows, delta, site)
    requires AllAgree(context.key, rules.spend, rows, deltas)
    ensures AllAgree(context.key, rules.spend, CommitTx(rows, delta).value, deltas + [delta])
  {
    hide Explained, Founds, Recorded, CommitTx, Continued, Agrees;
    RecordedCommits(rules, rows, delta, site);
    assert (deltas + [delta])[..|deltas|] == deltas;
    forall id
      ensures AgreesAt(context.key, rules.spend, CommitTx(rows, delta).value, id, Chronicled(deltas + [delta], id))
    {
      var c := Chronicled(deltas, id);
      assert AgreesAt(context.key, rules.spend, rows, id, c);
      if c.None? {
        CreationAgrees(context.key, rules, rows, delta, site, id);
      } else {
        UpdateAgrees(context, rules, rows, delta, site, id, c.value);
      }
    }
  }

  // ----- One block -----

  lemma NextIsRecorded(
      rules: Rules, rows: Rows, txs: seq<Transaction>, deltas: seq<TxDelta>, site: Site, tx: Transaction)
    requires Sound(rules) && Coherent(rows) && site.mode.Canonical?
    requires BlockInvariant(rows, txs, deltas)
    requires GoodBlock(rows, txs + [tx])
    requires Interpret(OverlayView(rows, deltas), rules, site, tx).Ok?
    ensures
      var result := Interpret(OverlayView(rows, deltas), rules, site, tx).value;
      var delta := TxDelta(site.position, tx, result.created, result.updates);
      Recorded(rules, CommitAll(rows, deltas).value, delta, site)
  {
    hide Sound, Coherent, Interpret, ReadyInterpretation, GoodBlock, UnknownTxid;
    var result := Interpret(OverlayView(rows, deltas), rules, site, tx).value;
    CommitKeepsCoherent(rows, deltas);
    NextIsUnknown(rows, txs, deltas, tx);
    OverlayRefinesCommit(rows, deltas, rules, site, tx);
    NextIsReady(rules, rows, txs, deltas, site, tx);
    InterpretedCommits(CommitAll(rows, deltas).value, TxDelta(site.position, tx, result.created, result.updates));
  }

  lemma CommitNothing(rows: Rows)
    ensures CommitAll(rows, []) == Ok(rows)
  {
  }

  lemma CommitOneMore(rows: Rows, deltas: seq<TxDelta>, delta: TxDelta)
    requires CommitAll(rows, deltas).Ok?
    ensures CommitAll(rows, deltas + [delta]) == CommitTx(CommitAll(rows, deltas).value, delta)
  {
    assert (deltas + [delta])[..|deltas|] == deltas;
  }

  lemma RecordedCommits(rules: Rules, rows: Rows, delta: TxDelta, site: Site)
    requires Recorded(rules, rows, delta, site)
    ensures CommitTx(rows, delta).Ok?
  {
  }

  /** Interpreting and committing a block keeps every chronicle in agreement. */
  lemma {:induction false} BlockKeepsAgreement(
      context: Context, rules: Rules, rows: Rows, prior: seq<TxDelta>, anchor: Anchor,
      retained: Txid -> seq<Declaration>, txs: seq<Transaction>)
    requires Explained(context, rules.spend) && Founds(context.key, rules) && Sound(rules)
    requires Coherent(rows) && OutputsStored(rows) && GoodBlock(rows, txs)
    requires InterpretBlock(rules, rows, anchor, retained, txs).Ok?
    requires AllAgree(context.key, rules.spend, rows, prior)
    ensures
      var deltas := InterpretBlock(rules, rows, anchor, retained, txs).value;
      && CommitAll(rows, deltas).Ok?
      && AllAgree(context.key, rules.spend, CommitAll(rows, deltas).value, prior + deltas)
  {
    hide Explained, Founds, Sound, Coherent, OutputsStored, GoodBlock, Interpret, OverlayView, AllAgree, BlockInvariant,
         Recorded, CommitTx, CommitAll;
    if txs == [] {
      CommitNothing(rows);
      assert prior + [] == prior;
    } else {
      var k := |txs| - 1;
      var tx := txs[k];
      assert txs == txs[..k] + [tx];
      GoodPrefix(rows, txs, k);
      BlockKeepsInvariant(rules, rows, anchor, retained, txs[..k]);
      BlockKeepsAgreement(context, rules, rows, prior, anchor, retained, txs[..k]);
      var deltas := InterpretBlock(rules, rows, anchor, retained, txs[..k]).value;
      var site := Site(Canonical(retained(tx.txid)), anchor, Position(anchor.height, k));
      var result := Interpret(OverlayView(rows, deltas), rules, site, tx).value;
      if result.created != [] || result.updates != [] {
        var delta := TxDelta(site.position, tx, result.created, result.updates);
        NextIsRecorded(rules, rows, txs[..k], deltas, site, tx);
        RecordedCommits(rules, CommitAll(rows, deltas).value, delta, site);
        CommitOneMore(rows, deltas, delta);
        StepKeepsAgreement(context, rules, CommitAll(rows, deltas).value, prior + deltas, delta, site);
        assert prior + (deltas + [delta]) == (prior + deltas) + [delta];
      }
    }
  }

  // ----- The indexed chain -----

  /** The recorded changes of the indexed blocks up to a height, in chain order. */
  function ChangesTo(blocks: map<nat, BlockDelta>, activation: nat, height: nat): seq<TxDelta> {
    if height <= activation then
      []
    else
      ChangesTo(blocks, activation, height - 1) + (if height in blocks then blocks[height].deltas else [])
  }

  /** A store that followed fresh branches, the evidence behind it, and rules that keep their promises. */
  ghost predicate Followed(
      context: Context, reading: ChainSync.Reading, activation: Anchor, tip: Anchor, blocks: map<nat, BlockDelta>,
      undo: map<nat, UndoRow>, known: map<nat, Read>, history: map<nat, Past>, ancestry: Ancestry)
  {
    && Explained(context, reading.rules.spend) && Founds(context.key, reading.rules)
    && Linked(activation, tip, blocks)
    && Evidence(reading, blocks, known, history)
    && KnownFresh(reading, blocks, known, ancestry)
    && Clean(activation, blocks, undo, history, ancestry)
  }

  /** A block was interpreted over rows to which all its transactions were new. */
  lemma ReadOverGoodRows(
      context: Context, reading: ChainSync.Reading, activation: Anchor, tip: Anchor, blocks: map<nat, BlockDelta>,
      undo: map<nat, UndoRow>, known: map<nat, Read>, history: map<nat, Past>, ancestry: Ancestry, height: nat)
    requires Followed(context, reading, activation, tip, blocks, undo, known, history, ancestry)
    requires height in blocks
    ensures height > 0 && height - 1 in history && height in history
    ensures
      var below := history[height - 1].rows;
      && OutputsStored(below)
      && GoodBlock(below, known[height].block.txs)
      && InterpretBlock(reading.rules, below, blocks[height].anchor, reading.retained, known[height].block.txs)
         == Ok(blocks[height].deltas)
      && CommitAll(below, blocks[height].deltas) == Ok(history[height].rows)
  {
    hide InterpretBlock, CommitAll, Explained, Founds, OutputsStored, GoodBlock, Root, NoDup, FreshBlock;
    CleanReads(reading, activation, blocks, undo, known, history, ancestry, height);
    assert ReadAs(reading, height, blocks[height], known[height], history);
    var below := history[height - 1].rows;
    assert blocks[height].previous == HashAt(activation, blocks, height - 1);
    assert CleanAt(history[height - 1], ancestry(HashAt(activation, blocks, height - 1)));
    FreshIsGood(reading.hashing, ancestry, known[height].block, below);
  }

  lemma {:induction false} ChainAgrees(
      context: Context, reading: ChainSync.Reading, activation: Anchor, tip: Anchor, blocks: map<nat, BlockDelta>,
      undo: map<nat, UndoRow>, known: map<nat, Read>, history: map<nat, Past>, ancestry: Ancestry, height: nat)
    requires Followed(context, reading, activation, tip, blocks, undo, known, history, ancestry)
    requires activation.height <= height <= tip.height
    ensures height in history && Coherent(history[height].rows)
    ensures AllAgree(context.key, reading.rules.spend, history[height].rows, ChangesTo(blocks, activation.height, height))
    decreases height
  {
    hide InterpretBlock, CommitAll, Explained, Founds, OutputsStored, GoodBlock, ReadAs, CleanAt, FreshBlock,
         UndoesFresh, AgreesAt, Coherent;
    if height == activation.height {
      NothingChronicled(context.key, reading.rules.spend);
    } else {
      assert height in blocks;
      ChainAgrees(context, reading, activation, tip, blocks, undo, known, history, ancestry, height - 1);
      ReadOverGoodRows(context, reading, activation, tip, blocks, undo, known, history, ancestry, height);
      FoundingRulesAreSound(context, reading.rules);
      var below := history[height - 1].rows;
      CommitKeepsCoherent(below, blocks[height].deltas);
      BlockKeepsAgreement(
        context, reading.rules, below, ChangesTo(blocks, activation.height, height - 1), blocks[height].anchor,
        reading.retained, known[height].block.txs);
    }
  }

  lemma NothingChronicled(key: KeyCheck, spend: SpendReader)
    ensures Coherent(Rows(map[], map[], map[]))
    ensures AllAgree(key, spend, Rows(map[], map[], map[]), [])
  {
  }

  /**
   A client accepts a served record: its parameters compile, its chronicle has a creation that founds the market under its id, and
   replaying the recorded transitions from there ends in the record's state and live outputs. This is the
   condition under which the replay answers yes.
   */
  ghost predicate Replays(key: KeyCheck, spend: SpendReader, changes: seq<TxDelta>, core: Core, id: OutPoint) {
    var c := Chronicled(changes, id);
    && ValidParams(key, core.params)
    && c.Some?
    && |c.value.updates| == |c.value.txs|
    && exists yes: nat, no: nat ::
         && Replay.Creates(core.params, c.value.creation, id, yes, no)
         && Accepted(
              spend, Reported(id, core.state, ReportedLive(core.outpoints)), core.params,
              Transitions(c.value.updates),
              Stage(Trading(0), InitialLive(core.params, c.value.creation, yes, no)), c.value.txs)
  }

  /**
   Whatever market a node serves after following fresh branches, a client that replays the chronicle of
   the indexed blocks accepts: from the creation, through any number of spends, to the stored state and
   live outputs.
   */
  lemma ClientAcceptsNodeHistory(
      context: Context, reading: ChainSync.Reading, activation: Anchor, tip: Anchor, blocks: map<nat, BlockDelta>,
      undo: map<nat, UndoRow>, known: map<nat, Read>, history: map<nat, Past>, ancestry: Ancestry, id: OutPoint)
    requires Followed(context, reading, activation, tip, blocks, undo, known, history, ancestry)
    requires tip.height in history && id in history[tip.height].rows.contracts
    ensures Replays(
      context.key, reading.rules.spend, ChangesTo(blocks, activation.height, tip.height),
      history[tip.height].rows.contracts[id].core, id)
  {
    hide Linked, Evidence, KnownFresh, Clean, Explained, Founds, Coherent, HoldsOutputs, Replay.Creates;
    ChainHeights(activation, tip, blocks);
    ChainAgrees(context, reading, activation, tip, blocks, undo, known, history, ancestry, tip.height);
    var rows := history[tip.height].rows;
    var c := Chronicled(ChangesTo(blocks, activation.height, tip.height), id);
    assert AgreesAt(context.key, reading.rules.spend, rows, id, c);
    AgreedIsAccepted(context.key, reading.rules.spend, rows, id, c.value);
    assert Replay.Creates(c.value.start.params, c.value.creation, id, YesIndex(c.value.start), NoIndex(c.value.start));
  }

  // ----- Running nodes -----

  /** Every market in the node's store passes the client's replay of the indexed blocks. */
  ghost predicate ServesAccepted(key: KeyCheck, node: ChainSync.Coordinator)
    reads node, node.store
  {
    var store := node.store;
    forall id :: id in store.rows.contracts ==>
      Replays(
        key, node.reading.rules.spend, ChangesTo(store.blocks, store.activation.height, store.tip.height),
        store.rows.contracts[id].core, id)
  }

  lemma ServedMarketsAreAccepted(context: Context, node: ChainSync.Coordinator)
    requires node.Valid() && node.Orderly()
    requires Explained(context, node.reading.rules.spend) && Founds(context.key, node.reading.rules)
    ensures ServesAccepted(context.key, node)
  {
    hide Linked, Undoable, Evidence, KnownFresh, Clean, Explained, Founds, Replays, FreshSource, ChangesTo;
    var store := node.store;
    TipIsClean(
      store.activation, Staged(store.tip, store.blocks, store.undo, store.rows), store.history, node.ancestry);
    forall id | id in store.rows.contracts
      ensures Replays(
        context.key, node.reading.rules.spend, ChangesTo(store.blocks, store.activation.height, store.tip.height),
        store.rows.contracts[id].core, id)
    {
      ClientAcceptsNodeHistory(
        context, node.reading, store.activation, store.tip, store.blocks, store.undo, node.known, store.history,
        node.ancestry, id);
    }
  }

  /**
   A new node at an activation anchor: valid and orderly from the start, whatever the source goes on to do
   on branches that repeat no transaction id, and on the way to any chain that can be indexed from there.
   */
  method StartNode(
      script: nat -> ChainView, start: Anchor, reading: ChainSync.Reading, maxRestarts: nat,
      ghost context: Context, ghost ancestry: Ancestry)
    returns (node: ChainSync.Coordinator)
    requires Explained(context, reading.rules.spend) && Founds(context.key, reading.rules)
    requires FreshSource(reading.hashing, script, ancestry)
    ensures fresh(node) && fresh(node.store) && fresh(node.source)
    ensures node.Valid() && node.Orderly()
    ensures node.reading == reading && node.source.script == script && node.source.now == 0
    ensures node.maxRestarts == maxRestarts && node.ancestry == ancestry
    ensures node.store.tip == start && node.store.blocks == map[] && node.store.rows == Rows(map[], map[], map[])
    ensures
      var view := script(0);
      view.tip.Ok? && PinnedIn(view, view.tip.value) && view.tip.value.height <= U32_MAX
      && Indexable(reading, view, Rows(map[], map[], map[]), start, view.tip.value.height) ==>
        node.OnTheWay(view) && node.DepthDue(view) == 0
  {
    hide ValidStaged, Explained, Founds, Sound, Placed, FreshSource, Indexable, Clean;
    FoundingRulesAreSound(context, reading.rules);
    EmptyIsClean(start, ancestry);
    var source := new Source(script);
    var store := new Store(start);
    node := new ChainSync.Coordinator(source, store, reading, maxRestarts, map[], ancestry);
  }

  /**
   Any number of synchronizations of a node, whatever the source answers: no call is refused by the store,
   and after the last one every market served is accepted by a client.
   */
  method RunNode(node: ChainSync.Coordinator, rounds: nat, ghost context: Context)
    returns (outcomes: seq<Result<SyncOutcome, SyncError>>)
    requires node.Valid() && node.Orderly()
    requires Explained(context, node.reading.rules.spend) && Founds(context.key, node.reading.rules)
    modifies node, node.store, node.source
    ensures node.Valid() && node.Orderly()
    ensures |outcomes| == rounds && forall k :: 0 <= k < rounds ==> !StoreFault(outcomes[k])
    ensures ServesAccepted(context.key, node)
  {
    hide ValidStaged, Evidence, Clean, FreshSource, KnownFresh, Sound, Placed, Explained, Founds, Replays, SeenCanonical;
    outcomes := [];
    for k := 0 to rounds
      invariant node.Valid() && node.Orderly()
      invariant |outcomes| == k && forall j :: 0 <= j < k ==> !StoreFault(outcomes[j])
    {
      var outcome := node.SyncToTip();
      outcomes := outcomes + [outcome];
    }
    ServedMarketsAreAccepted(context, node);
  }

  /** From nothing: a new node, synchronized any number of times, serves only markets a client accepts. */
  method StartAndRun(
      script: nat -> ChainView, start: Anchor, reading: ChainSync.Reading, maxRestarts: nat, rounds: nat,
      ghost context: Context, ghost ancestry: Ancestry)
    returns (node: ChainSync.Coordinator, outcomes: seq<Result<SyncOutcome, SyncError>>)
    requires Explained(context, reading.rules.spend) && Founds(context.key, reading.rules)
    requires FreshSource(reading.hashing, script, ancestry)
    ensures node.Valid() && node.Orderly() && ServesAccepted(context.key, node)
    ensures |outcomes| == rounds && forall k :: 0 <= k < rounds ==> !StoreFault(outcomes[k])
  {
    hide ValidStaged, Evidence, Clean, FreshSource, KnownFresh, Sound, Placed, Explained, Founds, Replays;
    node := StartNode(script, start, reading, maxRestarts, context, ancestry);
    outcomes := RunNode(node, rounds, context);
  }

  lemma ChainHeights(activation: Anchor, tip: Anchor, blocks: map<nat, BlockDelta>)
    requires Linked(activation, tip, blocks)
    ensures activation.height <= tip.height
  {
  }

  lemma AgreedIsAccepted(key: KeyCheck, spend: SpendReader, rows: Rows, id: OutPoint, c: Chronicle)
    requires Agrees(key, spend, rows, id, c)
    ensures
      var core := rows.contracts[id].core;
      Accepted(
        spend, Reported(id, core.state, ReportedLive(core.outpoints)), core.params, Transitions(c.updates),
        Opening(c.start, c.creation), c.txs)
    ensures |c.updates| == |c.txs|
  {
    hide Founded, HoldsOutputs, Fold, RealContinuations, LiveFrom, LiveRoles, Opening, TrackedList, ReportedLive, NewTracked;
    var (params, core) := (c.start.params, rows.contracts[id].core);
    FoundedPosition(key, c.start, c.creation, c.start.position);
    var start := Opening(c.start, c.creation);
    var stage := Fold(spend, params, start, c.txs).value.0;
    FoldPrefix(spend, params, start, c.txs, |c.txs|);
    var list: seq<Continuation> :|
      RealContinuations(params, Latest(c), list) && stage.live == LiveFrom(list) && core.outpoints == NewTracked(list);
    RolesAgree(params, Latest(c), list);
  }
}
