/**
 Interpretation of a block, transaction by transaction, against frozen store rows plus the deltas
 produced so far: ownership by a backwards scan, contract state by a forwards replay, outputs by a
 transaction-id search.
 */
module Overlay {
  import opened Types
  import opened Ledger
  import opened TransitionCodec

  datatype Resolution = Untracked | Live(owner: Owner) | SpentEarlier(contract: OutPoint)

  datatype Declaration = Declaration(id: OutPoint, params: Params)

  datatype Mode = Canonical(retained: seq<Declaration>) | Backfill(targets: seq<OutPoint>)

  datatype NodeError =
    | ContractSpend(contract: OutPoint)
    | MissingContract(contract: OutPoint)
    | MissingOutput(outpoint: OutPoint)
    | InvalidLiveSet(contract: OutPoint)
    | DuplicateOverlayContract(contract: OutPoint)
    | OverlayStateMismatch(contract: OutPoint)
    | IncompleteSpend(contract: OutPoint)
    | SameBlockDoubleSpend(outpoint: OutPoint, contract: OutPoint)
    | DiscoveryConflict(contract: OutPoint)
    | ConflictingAtomicBatch

  /** The verification and covenant code the interpreter calls and does not define. */
  datatype Rules = Rules(
    verify: (Transaction, Position, Option<Declaration>) -> Option<Core>,
    hasMarketHint: Transaction -> bool,
    spend: (Params, MarketState, LiveOutputs, Transaction) -> Option<Spend>)

  datatype Interpretation = Interpretation(created: seq<Record>, updates: seq<Update>)

  /** Where a transaction is read: its mode, block anchor and position. */
  datatype Site = Site(mode: Mode, anchor: Anchor, position: Position)

  // ----- The three views of the overlay -----

  function Find(tracked: seq<Tracked>, outpoint: OutPoint): Option<Tracked> {
    if tracked == [] then
      None
    else if tracked[0].outpoint == outpoint then
      Some(tracked[0])
    else
      Find(tracked[1..], outpoint)
  }

  function LegHit(leg: Leg, outpoint: OutPoint): Option<Resolution> {
    if outpoint in LegSpent(leg) then
      Some(SpentEarlier(LegId(leg)))
    else
      match Find(LegOutpoints(leg), outpoint)
      case Some(tracked) => Some(Live(Owner(LegId(leg), tracked.role)))
      case None => None
  }

  /** The last leg that mentions the outpoint decides. */
  function LegScan(legs: seq<Leg>, outpoint: OutPoint): Option<Resolution> {
    if legs == [] then
      None
    else
      match LegHit(legs[|legs| - 1], outpoint)
      case Some(resolution) => Some(resolution)
      case None => LegScan(legs[..|legs| - 1], outpoint)
  }

  function OwnerScan(rows: Rows, deltas: seq<TxDelta>, outpoint: OutPoint): Resolution {
    if deltas == [] then
      if outpoint in rows.owners then Live(rows.owners[outpoint]) else Untracked
    else
      match LegScan(Legs(deltas[|deltas| - 1]), outpoint)
      case Some(resolution) => resolution
      case None => OwnerScan(rows, deltas[..|deltas| - 1], outpoint)
  }

  function FindRecord(records: seq<Record>, id: OutPoint): Option<Core> {
    if records == [] then
      None
    else if records[0].core.id == id then
      Some(records[0].core)
    else
      FindRecord(records[1..], id)
  }

  function ReplayUpdate(current: Option<Core>, update: Update): Result<Option<Core>, NodeError> {
    match current
    case None => Err(MissingContract(update.id))
    case Some(core) =>
      if core.state != update.oldState then
        Err(OverlayStateMismatch(update.id))
      else if !CompleteSpend(core.outpoints, update.spent) then
        Err(IncompleteSpend(update.id))
      else
        Ok(Some(core.(state := update.newState, outpoints := update.created)))
  }

  function ReplayUpdates(current: Option<Core>, updates: seq<Update>, id: OutPoint): Result<Option<Core>, NodeError> {
    if updates == [] then
      Ok(current)
    else
      var earlier :- ReplayUpdates(current, updates[..|updates| - 1], id);
      var last := updates[|updates| - 1];
      if last.id == id then ReplayUpdate(earlier, last) else Ok(earlier)
  }

  function ReplayCreated(current: Option<Core>, created: seq<Record>, id: OutPoint): Result<Option<Core>, NodeError> {
    match FindRecord(created, id)
    case None => Ok(current)
    case Some(core) => if current.Some? then Err(DuplicateOverlayContract(id)) else Ok(Some(core))
  }

  function StoredCore(rows: Rows, id: OutPoint): Option<Core> {
    if id in rows.contracts then Some(rows.contracts[id].core) else None
  }

  function ContractReplay(rows: Rows, deltas: seq<TxDelta>, id: OutPoint): Result<Option<Core>, NodeError> {
    if deltas == [] then
      Ok(StoredCore(rows, id))
    else
      var delta := deltas[|deltas| - 1];
      var earlier :- ContractReplay(rows, deltas[..|deltas| - 1], id);
      var created :- ReplayCreated(earlier, delta.created, id);
      ReplayUpdates(created, delta.updates, id)
  }

  function OutputScan(rows: Rows, deltas: seq<TxDelta>, outpoint: OutPoint): Result<TxOut, NodeError> {
    if deltas == [] then
      if outpoint in rows.outputs then Ok(rows.outputs[outpoint]) else Err(MissingOutput(outpoint))
    else
      var tx := deltas[|deltas| - 1].tx;
      if tx.txid != outpoint.txid then
        OutputScan(rows, deltas[..|deltas| - 1], outpoint)
      else if outpoint.vout < |tx.outputs| then
        Ok(tx.outputs[outpoint.vout])
      else
        Err(MissingOutput(outpoint))
  }

  // ----- One transaction, over any view of ownership, contracts and outputs -----

  datatype View = View(
    owner: OutPoint -> Resolution,
    contract: OutPoint -> Result<Option<Core>, NodeError>,
    output: OutPoint -> Result<TxOut, NodeError>)

  function OverlayView(rows: Rows, deltas: seq<TxDelta>): View {
    View(
      o => OwnerScan(rows, deltas, o),
      id => ContractReplay(rows, deltas, id),
      o => OutputScan(rows, deltas, o))
  }

  function Verified(rules: Rules, tx: Transaction, position: Position, retained: seq<Declaration>): seq<Core> {
    if retained == [] then
      []
    else
      var earlier := Verified(rules, tx, position, retained[..|retained| - 1]);
      match rules.verify(tx, position, Some(retained[|retained| - 1]))
      case Some(core) => earlier + [core]
      case None => earlier
  }

  function Discovered(rules: Rules, tx: Transaction, position: Position): seq<Core> {
    if !rules.hasMarketHint(tx) then
      []
    else
      match rules.verify(tx, position, None)
      case Some(core) => [core]
      case None => []
  }

  /** Declared contracts in declaration order, then the one found through its recovery hint. */
  function Candidates(rules: Rules, tx: Transaction, site: Site): seq<Core> {
    match site.mode
    case Backfill(_) => []
    case Canonical(retained) =>
      Verified(rules, tx, site.position, retained) + Discovered(rules, tx, site.position)
  }

  predicate SameCreation(existing: Core, candidate: Core) {
    && existing.params == candidate.params
    && existing.position == candidate.position
    && existing.scripts == candidate.scripts
    && existing.assets == candidate.assets
  }

  function Retain(view: View, created: seq<Record>, candidate: Core, anchor: Anchor): Result<seq<Record>, NodeError> {
    match FindRecord(created, candidate.id)
    case Some(existing) =>
      if SameCreation(existing, candidate) then Ok(created) else Err(DiscoveryConflict(candidate.id))
    case None =>
      var known :- view.contract(candidate.id);
      match known
      case Some(existing) =>
        if SameCreation(existing, candidate) then Ok(created) else Err(DiscoveryConflict(candidate.id))
      case None => Ok(created + [Record(candidate, Ready(anchor))])
  }

  function RetainAll(view: View, candidates: seq<Core>, anchor: Anchor): Result<seq<Record>, NodeError> {
    if candidates == [] then
      Ok([])
    else
      var created :- RetainAll(view, candidates[..|candidates| - 1], anchor);
      Retain(view, created, candidates[|candidates| - 1], anchor)
  }

  function Touch(touched: seq<OutPoint>, contract: OutPoint, mode: Mode): seq<OutPoint> {
    if mode.Backfill? && contract !in mode.targets then
      touched
    else if contract in touched then
      touched
    else
      touched + [contract]
  }

  function Touched(view: View, inputs: seq<OutPoint>, mode: Mode): Result<seq<OutPoint>, NodeError> {
    if inputs == [] then
      Ok([])
    else
      var earlier :- Touched(view, inputs[..|inputs| - 1], mode);
      var outpoint := inputs[|inputs| - 1];
      match view.owner(outpoint)
      case Untracked => Ok(earlier)
      case SpentEarlier(contract) => Err(SameBlockDoubleSpend(outpoint, contract))
      case Live(owner) => Ok(Touch(earlier, owner.contract, mode))
  }

  function Place(live: LiveOutputs, role: Byte, output: TrackedOutput, id: OutPoint): Result<LiveOutputs, NodeError> {
    if role == SlotTag(DormantYesRt) || role == SlotTag(UnresolvedYesRt) then
      if live.yesRt.Some? then Err(InvalidLiveSet(id)) else Ok(live.(yesRt := Some(output)))
    else if role == SlotTag(DormantNoRt) || role == SlotTag(UnresolvedNoRt) then
      if live.noRt.Some? then Err(InvalidLiveSet(id)) else Ok(live.(noRt := Some(output)))
    else if role == SlotTag(UnresolvedCollateral) || role == SlotTag(ResolvedYesCollateral)
         || role == SlotTag(ResolvedNoCollateral) || role == SlotTag(ExpiredCollateral) then
      if live.collateral.Some? then Err(InvalidLiveSet(id)) else Ok(live.(collateral := Some(output)))
    else
      Err(InvalidLiveSet(id))
  }

  function Materialize(view: View, tracked: seq<Tracked>, id: OutPoint): Result<LiveOutputs, NodeError> {
    if tracked == [] then
      Ok(LiveOutputs(None, None, None))
    else
      var live :- Materialize(view, tracked[..|tracked| - 1], id);
      var last := tracked[|tracked| - 1];
      var txout :- view.output(last.outpoint);
      Place(live, last.role, TrackedOutput(last.outpoint, txout), id)
  }

  function NewTracked(continuations: seq<Continuation>): (tracked: seq<Tracked>)
    ensures |tracked| == |continuations|
    ensures forall i :: 0 <= i < |tracked| ==>
      tracked[i] == Tracked(SlotTag(continuations[i].slot), continuations[i].output.outpoint)
  {
    seq(|continuations|, i requires 0 <= i < |continuations| =>
      Tracked(SlotTag(continuations[i].slot), continuations[i].output.outpoint))
  }

  function SpendUpdate(core: Core, spend: Spend): Update {
    Update(core.id, core.state, spend.after, spend.spent, NewTracked(spend.continuations),
           NodeRecord(spend.path, spend.transition))
  }

  function InterpretContract(view: View, rules: Rules, core: Core, tx: Transaction): Result<Update, NodeError> {
    var live :- Materialize(view, core.outpoints, core.id);
    match rules.spend(core.params, core.state, live, tx)
    case None => Err(ContractSpend(core.id))
    case Some(spend) =>
      if CompleteSpend(core.outpoints, spend.spent) then Ok(SpendUpdate(core, spend)) else Err(IncompleteSpend(core.id))
  }

  function InterpretTouched(view: View, rules: Rules, ids: seq<OutPoint>, tx: Transaction): Result<seq<Update>, NodeError> {
    if ids == [] then
      Ok([])
    else
      var earlier :- InterpretTouched(view, rules, ids[..|ids| - 1], tx);
      var id := ids[|ids| - 1];
      var known :- view.contract(id);
      match known
      case None => Err(MissingContract(id))
      case Some(core) =>
        var update :- InterpretContract(view, rules, core, tx);
        Ok(earlier + [update])
  }

  function LegIds(legs: seq<Leg>): (ids: seq<OutPoint>)
    ensures |ids| == |legs|
  {
    if legs == [] then [] else LegIds(legs[..|legs| - 1]) + [LegId(legs[|legs| - 1])]
  }

  function NewOutpoints(legs: seq<Leg>): seq<OutPoint> {
    if legs == [] then [] else NewOutpoints(legs[..|legs| - 1]) + Outpoints(LegOutpoints(legs[|legs| - 1]))
  }

  /** One leg per contract, no outpoint spent by two legs, no outpoint created by two legs. */
  predicate AtomicClaims(created: seq<Record>, updates: seq<Update>) {
    var legs := LegsOf(created, updates);
    NoDup(LegIds(legs)) && NoDup(Declared(updates)) && NoDup(NewOutpoints(legs))
  }

  function Interpret(view: View, rules: Rules, site: Site, tx: Transaction): Result<Interpretation, NodeError> {
    var created :- RetainAll(view, Candidates(rules, tx, site), site.anchor);
    var touched :- Touched(view, Inputs(tx), site.mode);
    var updates :- InterpretTouched(view, rules, touched, tx);
    if AtomicClaims(created, updates) then Ok(Interpretation(created, updates)) else Err(ConflictingAtomicBatch)
  }

  /** The relevant deltas of a block prefix; transactions that touch no contract leave none. */
  function InterpretBlock(
      rules: Rules, rows: Rows, anchor: Anchor, retained: Txid -> seq<Declaration>, txs: seq<Transaction>)
    : Result<seq<TxDelta>, NodeError>
  {
    if txs == [] then
      Ok([])
    else
      var k := |txs| - 1;
      var deltas :- InterpretBlock(rules, rows, anchor, retained, txs[..k]);
      var position := Position(anchor.height, k);
      var site := Site(Canonical(retained(txs[k].txid)), anchor, position);
      var result :- Interpret(OverlayView(rows, deltas), rules, site, txs[k]);
      if result.created == [] && result.updates == [] then
        Ok(deltas)
      else
        Ok(deltas + [TxDelta(position, txs[k], result.created, result.updates)])
  }
}
