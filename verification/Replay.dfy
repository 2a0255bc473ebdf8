/** The client's replay of a reported history from its creation transaction. */
module Replay {
  import opened Types
  import opened Ledger
  import opened Scalar
  import opened Market
  import opened MarketLayout
  import opened MarketSpend
  import opened Overlay
  import opened OverlayBlocks
  import TransitionCodec

  /** Reads one confirmed spend of a market in a given state. */
  type SpendReader = (Params, MarketState, LiveOutputs, Transaction) -> Option<Spend>

  /** The reported contract: its creation anchor, its state and its live outputs. */
  datatype Reported = Reported(anchor: OutPoint, state: MarketState, live: seq<LiveRole>)

  datatype Stage = Stage(state: MarketState, live: LiveOutputs)

  // ----- Creation -----

  predicate DefinesLeg(params: Params, input: TxIn, leg: Outcome) {
    && input.issuance.Some?
    && input.issuance.value.nonce == 0
    && input.issuance.value.amount.None?
    && !input.issuance.value.inflationKeysNull
    && input.issuance.value.asset == TokenAsset(params, leg)
    && input.issuance.value.reissuanceToken == RtAsset(params, leg)
  }

  predicate OnlyDefining(params: Params, tx: Transaction, leg: Outcome, index: nat) {
    && index < |tx.inputs| && DefinesLeg(params, tx.inputs[index], leg)
    && forall k :: 0 <= k < |tx.inputs| && DefinesLeg(params, tx.inputs[k], leg) ==> k == index
  }

  method UniqueDefiningInput(params: Params, tx: Transaction, leg: Outcome) returns (r: Option<nat>)
    ensures forall k: nat :: r == Some(k) <==> OnlyDefining(params, tx, leg, k)
  {
    r := None;
    for i := 0 to |tx.inputs|
      invariant r.None? ==> forall k :: 0 <= k < i ==> !DefinesLeg(params, tx.inputs[k], leg)
      invariant r.Some? ==> r.value < i && DefinesLeg(params, tx.inputs[r.value], leg)
      invariant r.Some? ==> forall k :: 0 <= k < i && DefinesLeg(params, tx.inputs[k], leg) ==> k == r.value
    {
      if DefinesLeg(params, tx.inputs[i], leg) {
        if r.Some? {
          assert i != r.value;
          return None;
        }
        r := Some(i);
      }
    }
  }

  /** The dormant token output of a leg as creation makes it: on side A. */
  function InitialRt(params: Params, leg: Outcome): TxOut {
    RtOut(params, leg, A, Covenant(params, RtSlot(Trading(0), leg)))
  }

  predicate OnlyOutput(tx: Transaction, txout: TxOut, index: nat) {
    && index < |tx.outputs| && tx.outputs[index] == txout
    && forall k :: 0 <= k < |tx.outputs| && tx.outputs[k] == txout ==> k == index
  }

  method UniqueMarketOutput(tx: Transaction, txout: TxOut) returns (r: Option<nat>)
    ensures forall k: nat :: r == Some(k) <==> OnlyOutput(tx, txout, k)
  {
    r := None;
    for i := 0 to |tx.outputs|
      invariant r.None? ==> forall k :: 0 <= k < i ==> tx.outputs[k] != txout
      invariant r.Some? ==> r.value < i && tx.outputs[r.value] == txout
      invariant r.Some? ==> forall k :: 0 <= k < i && tx.outputs[k] == txout ==> k == r.value
    {
      if tx.outputs[i] == txout {
        if r.Some? {
          assert i != r.value;
          return None;
        }
        r := Some(i);
      }
    }
  }

  function InitialLive(params: Params, tx: Transaction, yes: nat, no: nat): LiveOutputs {
    LiveOutputs(
      Some(TrackedAt(tx.txid, yes, InitialRt(params, Yes))), Some(TrackedAt(tx.txid, no, InitialRt(params, No))), None)
  }

  /** A creation defines both legs by two inputs and makes each dormant token exactly once, the YES one as anchor. */
  ghost predicate Creates(params: Params, tx: Transaction, anchor: OutPoint, yes: nat, no: nat) {
    && (exists a: nat, b: nat :: OnlyDefining(params, tx, Yes, a) && OnlyDefining(params, tx, No, b) && a != b)
    && OnlyOutput(tx, InitialRt(params, Yes), yes)
    && OnlyOutput(tx, InitialRt(params, No), no)
    && anchor == OutPoint(tx.txid, yes)
  }

  // ----- The fold -----

  /** Interpreting every transaction in turn: the final stage and the records on the way. */
  function Fold(spend: SpendReader, params: Params, start: Stage, txs: seq<Transaction>)
    : Option<(Stage, seq<TransitionRecord>)>
  {
    if txs == [] then
      Some((start, []))
    else
      var k := |txs| - 1;
      var before := Fold(spend, params, start, txs[..k]);
      if before.None? then
        None
      else
        var (stage, records) := before.value;
        var read := spend(params, stage.state, stage.live, txs[k]);
        if read.None? then
          None
        else
          Some((
            Stage(read.value.after, LiveFrom(read.value.continuations)),
            records + [TransitionCodec.NodeRecord(read.value.path, read.value.transition)]))
  }

  lemma {:induction false} FoldPrefix(
      spend: SpendReader, params: Params, start: Stage, txs: seq<Transaction>, k: nat)
    requires k <= |txs| && Fold(spend, params, start, txs).Some?
    ensures
      var whole := Fold(spend, params, start, txs).value;
      var part := Fold(spend, params, start, txs[..k]);
      part.Some? && |whole.1| == |txs| && part.value.1 == whole.1[..k]
    decreases |txs|
  {
    if k == |txs| {
      assert txs[..k] == txs;
      if txs != [] {
        FoldPrefix(spend, params, start, txs[..k - 1], k - 1);
      }
    } else {
      var last := |txs| - 1;
      FoldPrefix(spend, params, start, txs[..last], k);
      assert txs[..last][..k] == txs[..k];
    }
  }

  /** One transaction further. */
  lemma FoldStep(spend: SpendReader, params: Params, start: Stage, txs: seq<Transaction>, i: nat)
    requires i < |txs| && Fold(spend, params, start, txs[..i]).Some?
    ensures
      var (stage, records) := Fold(spend, params, start, txs[..i]).value;
      var read := spend(params, stage.state, stage.live, txs[i]);
      Fold(spend, params, start, txs[..i + 1])
      == if read.None? then None
         else Some((
           Stage(read.value.after, LiveFrom(read.value.continuations)),
           records + [TransitionCodec.NodeRecord(read.value.path, read.value.transition)]))
  {
    assert txs[..i + 1][..i] == txs[..i];
  }

  lemma NothingFolded(spend: SpendReader, params: Params, start: Stage, txs: seq<Transaction>)
    ensures Fold(spend, params, start, txs[..0]) == Some((start, []))
  {
  }

  method LiveFromContinuations(list: seq<Continuation>) returns (live: LiveOutputs)
    ensures live == LiveFrom(list)
  {
    live := LiveOutputs(None, None, None);
    for i := 0 to |list|
      invariant live == LiveFrom(list[..i])
    {
      live := PlaceOne(live, list[i]);
      assert list[..i + 1][..i] == list[..i];
    }
    assert list[..|list|] == list;
  }

  // ----- The live set -----

  function RoleOf(params: Params, output: TrackedOutput): Option<LiveRole> {
    if output.txout.script.Covenant? && output.txout.script.params == params then
      Some(LiveRole(SlotTag(output.txout.script.slot), output.outpoint))
    else
      None
  }

  function TrackedList(live: LiveOutputs): seq<TrackedOutput> {
    (if live.yesRt.Some? then [live.yesRt.value] else []) +
    (if live.noRt.Some? then [live.noRt.value] else []) +
    (if live.collateral.Some? then [live.collateral.value] else [])
  }

  /** The roles of the live outputs, read off their scripts; none if a script is not one of the market's. */
  function LiveRoles(params: Params, list: seq<TrackedOutput>): Option<seq<LiveRole>> {
    if list == [] then
      Some([])
    else
      var k := |list| - 1;
      var before := LiveRoles(params, list[..k]);
      var role := RoleOf(params, list[k]);
      if before.None? || role.None? then None else Some(before.value + [role.value])
  }

  // ----- Replay -----

  /**
   The replay accepts a history exactly when the parameters compile, it starts from the market's creation,
   its records are those of folding the interpreter over the transactions, and the fold ends in the reported state and live set.
   */
  method ReplayMarket(
      key: KeyCheck, spend: SpendReader, reported: Reported, params: Params, records: seq<TransitionRecord>,
      creation: Transaction, txs: seq<Transaction>)
    returns (ok: bool)
    requires |records| == |txs|
    ensures ok <==>
      && ValidParams(key, params)
      && exists yes: nat, no: nat ::
           && Creates(params, creation, reported.anchor, yes, no)
           && Accepted(
                spend, reported, params, records, Stage(Trading(0), InitialLive(params, creation, yes, no)), txs)
  {
    hide InitialRt, RtOut, DefinesLeg, Fold;
    if !ValidParams(key, params) {
      return false;
    }
    var yesInput := UniqueDefiningInput(params, creation, Yes);
    var noInput := UniqueDefiningInput(params, creation, No);
    if yesInput.None? || noInput.None? || yesInput == noInput {
      return false;
    }
    assert OnlyDefining(params, creation, Yes, yesInput.value) && OnlyDefining(params, creation, No, noInput.value);
    var yes := UniqueMarketOutput(creation, InitialRt(params, Yes));
    var no := UniqueMarketOutput(creation, InitialRt(params, No));
    if yes.None? || no.None? || reported.anchor != OutPoint(creation.txid, yes.value) {
      return false;
    }
    assert Creates(params, creation, reported.anchor, yes.value, no.value);
    var start := Stage(Trading(0), InitialLive(params, creation, yes.value, no.value));
    ok := ReplayFrom(spend, reported, params, records, start, txs);
  }

  predicate Accepted(
      spend: SpendReader, reported: Reported, params: Params, records: seq<TransitionRecord>, start: Stage,
      txs: seq<Transaction>)
  {
    var folded := Fold(spend, params, start, txs);
    && folded.Some?
    && folded.value.1 == records
    && folded.value.0.state == reported.state
    && var roles := LiveRoles(params, TrackedList(folded.value.0.live));
       roles.Some? && ToSet(roles.value) == ToSet(reported.live)
  }

  method ReplayFrom(
      spend: SpendReader, reported: Reported, params: Params, records: seq<TransitionRecord>, start: Stage,
      txs: seq<Transaction>)
    returns (ok: bool)
    requires |records| == |txs|
    ensures ok <==> Accepted(spend, reported, params, records, start, txs)
  {
    hide Fold, LiveFrom, LiveRoles, TrackedList;
    var state, live := start.state, start.live;
    NothingFolded(spend, params, start, txs);
    for i := 0 to |txs|
      invariant Fold(spend, params, start, txs[..i]) == Some((Stage(state, live), records[..i]))
    {
      FoldStep(spend, params, start, txs, i);
      assert records[..i + 1] == records[..i] + [records[i]];
      if Fold(spend, params, start, txs).Some? {
        FoldPrefix(spend, params, start, txs, i + 1);
      }
      var read := spend(params, state, live, txs[i]);
      if read.None? {
        return false;
      }
      var kind, payload := TransitionCodec.ClientRecord(read.value.path, read.value.transition);
      if records[i] != TransitionRecord(kind, payload) {
        return false;
      }
      state := read.value.after;
      live := LiveFromContinuations(read.value.continuations);
    }
    assert txs[..|txs|] == txs && records[..|txs|] == records;
    if state != reported.state {
      return false;
    }
    var roles := LiveRoles(params, TrackedList(live));
    ok := roles.Some? && ToSet(roles.value) == ToSet(reported.live);
  }

  // ----- Replays of the market's own interpreter -----

  predicate ExplainedBy(
      context: Context, params: Params, before: MarketState, live: LiveOutputs, tx: Transaction,
      base: nat, claim: Claim, action: Action, spend: Spend)
  {
    && Explains(context, params, before, live, tx, base, claim, action)
    && spend == SpendFor(params, before, live, tx, claim, action, spend.path)
  }

  /** The reader only reports spends that an action explains. */
  ghost predicate Explained(context: Context, spend: SpendReader) {
    forall params, before, live, tx :: spend(params, before, live, tx).Some? ==>
      exists base: nat, claim, action ::
        ExplainedBy(context, params, before, live, tx, base, claim, action, spend(params, before, live, tx).value)
  }

  /** So a node that reads spends this way meets what whole-block interpretation asks of its rules. */
  lemma ExplainedRulesAreSound(context: Context, rules: Rules)
    requires Explained(context, rules.spend)
    requires forall tx, position, declaration ::
      rules.verify(tx, position, declaration).Some? ==>
        NewOutpointsOk(rules.verify(tx, position, declaration).value.outpoints, tx.txid, |tx.outputs|)
    ensures Sound(rules)
  {
    hide ExplainedBy, SoundSpend, NewOutpointsOk;
    forall params, before, live, tx | rules.spend(params, before, live, tx).Some?
      ensures SoundSpend(rules.spend(params, before, live, tx).value, tx)
    {
      var spend := rules.spend(params, before, live, tx).value;
      var base: nat, claim, action :| ExplainedBy(context, params, before, live, tx, base, claim, action, spend);
      ExplainedIsSound(context, params, before, live, tx, base, claim, action, spend);
    }
  }

  lemma ExplainedIsSound(
      context: Context, params: Params, before: MarketState, live: LiveOutputs, tx: Transaction,
      base: nat, claim: Claim, action: Action, spend: Spend)
    requires ExplainedBy(context, params, before, live, tx, base, claim, action, spend)
    ensures SoundSpend(spend, tx)
  {
    hide SoundSpend;
    ExplainedSpendIsSound(context, params, before, live, tx, base, claim, action, spend.path);
  }

  lemma CreationIsCanonical(params: Params, tx: Transaction, yes: nat, no: nat)
    requires params.basePayout in BASE_PAYOUTS
    ensures CanonicalLive(params, Trading(0), InitialLive(params, tx, yes, no), A)
  {
    hide AbfOf, VbfOf;
  }

  lemma ExplainedStage(
      context: Context, params: Params, before: MarketState, live: LiveOutputs, tx: Transaction,
      base: nat, claim: Claim, action: Action, spend: Spend)
    requires ExplainedBy(context, params, before, live, tx, base, claim, action, spend)
    ensures exists side :: CanonicalLive(params, spend.after, LiveFrom(spend.continuations), side)
  {
    hide CanonicalLive, LiveFrom, Continuations, AbfOf, VbfOf, Product;
    ExplainedLeavesCanonical(context, params, before, live, tx, base, claim, action, spend.path);
  }

  /** Every stage of an explained history has the canonical live outputs of its state, on one side. */
  lemma FoldStaysCanonical(
      context: Context, spend: SpendReader, params: Params, start: Stage, txs: seq<Transaction>)
    requires Explained(context, spend) && CanonicalLive(params, start.state, start.live, A)
    requires Fold(spend, params, start, txs).Some?
    ensures
      var stage := Fold(spend, params, start, txs).value.0;
      exists side :: CanonicalLive(params, stage.state, stage.live, side)
  {
    hide CanonicalLive, ExplainedBy, LiveFrom;
    if txs != [] {
      var k := |txs| - 1;
      var before := Fold(spend, params, start, txs[..k]).value.0;
      var read := spend(params, before.state, before.live, txs[k]).value;
      var base: nat, claim, action :|
        ExplainedBy(context, params, before.state, before.live, txs[k], base, claim, action, read);
      ExplainedStage(context, params, before.state, before.live, txs[k], base, claim, action, read);
    }
  }

  /** On canonical live outputs the roles read off the scripts are the roles of the state. */
  lemma CanonicalRoles(params: Params, state: MarketState, live: LiveOutputs, side: Side)
    requires CanonicalLive(params, state, live, side)
    ensures LiveRoles(params, TrackedList(live)) == Some(Roles(state, live))
  {
    hide AbfOf, VbfOf, Product, ValidateState, LiveRoles;
    var list, roles := TrackedList(live), Roles(state, live);
    assert |list| == |roles|;
    assert forall i :: 0 <= i < |list| ==> RoleOf(params, list[i]) == Some(roles[i]);
    RolesPointwise(params, list, roles);
  }

  lemma {:induction false} RolesPointwise(params: Params, list: seq<TrackedOutput>, roles: seq<LiveRole>)
    requires |list| == |roles|
    requires forall i :: 0 <= i < |list| ==> RoleOf(params, list[i]) == Some(roles[i])
    ensures LiveRoles(params, list) == Some(roles)
  {
    if list != [] {
      var k := |list| - 1;
      RolesPointwise(params, list[..k], roles[..k]);
      assert roles == roles[..k] + [roles[k]];
    }
  }

  /** So a duplicate-free live set that survives replay has the shape its state calls for. */
  lemma AcceptedReplayHasShape(
      context: Context, spend: SpendReader, reported: Reported, params: Params, records: seq<TransitionRecord>,
      start: Stage, txs: seq<Transaction>)
    requires Explained(context, spend) && CanonicalLive(params, start.state, start.live, A)
    requires Accepted(spend, reported, params, records, start, txs)
    requires NoDup(reported.live)
    ensures LiveShape(reported.state, reported.live)
  {
    hide CanonicalLive, LiveRoles, Roles, Fold, InOrder, LiveShape, Explained;
    FoldStaysCanonical(context, spend, params, start, txs);
    var stage := Fold(spend, params, start, txs).value.0;
    var side :| CanonicalLive(params, stage.state, stage.live, side);
    CanonicalRoles(params, stage.state, stage.live, side);
    CanonicalInOrder(params, stage.state, stage.live, side);
    var roles := Roles(stage.state, stage.live);
    OrderedHasNoDup(stage.state, roles);
    NoDupCardinality(roles);
    NoDupCardinality(reported.live);
    forall r
      ensures r in reported.live <==> r in roles
    {
      assert r in ToSet(reported.live) <==> r in ToSet(roles);
    }
    OrderedShape(stage.state, roles, reported.live);
  }

  lemma OrderedHasNoDup(state: MarketState, roles: seq<LiveRole>)
    requires InOrder(state, roles)
    ensures NoDup(roles)
  {
  }

  // ----- Node and client agree on what is alive -----

  datatype Holding = YesHolding | NoHolding | CollateralHolding

  function HoldingOf(slot: Slot): Holding {
    match slot
    case DormantYesRt => YesHolding
    case UnresolvedYesRt => YesHolding
    case DormantNoRt => NoHolding
    case UnresolvedNoRt => NoHolding
    case _ => CollateralHolding
  }

  predicate OnePerHolding(list: seq<Continuation>) {
    forall i, j :: 0 <= i < j < |list| ==> HoldingOf(list[i].slot) != HoldingOf(list[j].slot)
  }

  predicate HoldingFree(live: LiveOutputs, holding: Holding) {
    match holding
    case YesHolding => live.yesRt.None?
    case NoHolding => live.noRt.None?
    case CollateralHolding => live.collateral.None?
  }

  lemma {:induction false} UnusedHoldingIsFree(list: seq<Continuation>, holding: Holding)
    requires forall i :: 0 <= i < |list| ==> HoldingOf(list[i].slot) != holding
    ensures HoldingFree(LiveFrom(list), holding)
  {
    if list != [] {
      UnusedHoldingIsFree(list[..|list| - 1], holding);
    }
  }

  /** The node, reading back roles and outputs, sees the same live outputs as the client, collecting continuations. */
  lemma {:induction false} NodeSeesClientLive(view: View, list: seq<Continuation>, id: OutPoint)
    requires OnePerHolding(list)
    requires forall i :: 0 <= i < |list| ==> view.output(list[i].output.outpoint) == Ok(list[i].output.txout)
    ensures Materialize(view, NewTracked(list), id) == Ok(LiveFrom(list))
  {
    if list != [] {
      var k := |list| - 1;
      NodeSeesClientLive(view, list[..k], id);
      UnusedHoldingIsFree(list[..k], HoldingOf(list[k].slot));
      assert NewTracked(list)[..k] == NewTracked(list[..k]);
    }
  }
}
