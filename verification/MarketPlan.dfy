/** The client's builder of market transitions: a plan's checks, its output templates and its input checks. */
module MarketPlan {
  import opened Types
  import opened Scalar
  import opened Market
  import opened MarketLayout
  import opened Locktime

  /** What a caller hands to the builder: token outputs in full, collateral by outpoint. */
  datatype LiveInputs = LiveInputs(
    yesRt: Option<TrackedOutput>,
    noRt: Option<TrackedOutput>,
    collateral: Option<OutPoint>)

  datatype Attestation = Attestation(outcome: Outcome, signature: nat)

  /** Schnorr verification of an outcome under the market's oracle key. */
  type Oracle = (Params, Outcome, nat) -> bool

  datatype PlanError =
    | Economics(economics: MarketError)
    | MissingYesRt
    | MissingNoRt
    | MissingCollateral
    | InvalidSiblingGroup
    | IndexOverflow
    | WrongContractInput
    | MismatchedRtSides
    | UnexpectedAttestation
    | MissingAttestation
    | OutcomeMismatch
    | InvalidAttestation

  datatype Plan = Plan(
    params: Params,
    before: MarketState,
    applied: Applied,
    path: Path,
    live: LiveInputs,
    outputs: seq<TxOut>)

  function InferRtSide(params: Params, input: TrackedOutput, leg: Outcome): Result<Side, PlanError> {
    var side := InferSide(leg, RtAsset(params, leg), input.txout.asset, input.txout.value);
    if side.Some? then Ok(side.value) else Err(WrongContractInput)
  }

  function ValidateRtPair(
      params: Params, yes: TrackedOutput, no: TrackedOutput, yesSlot: Slot, noSlot: Slot): Result<(), PlanError>
  {
    if yes.txout.script != Covenant(params, yesSlot) || no.txout.script != Covenant(params, noSlot) then
      Err(WrongContractInput)
    else
      var yesSide :- InferRtSide(params, yes, Yes);
      var noSide :- InferRtSide(params, no, No);
      if yesSide != noSide then Err(MismatchedRtSides) else Ok(())
  }

  function ValidateDormant(params: Params, live: LiveInputs): Result<(), PlanError> {
    if live.yesRt.None? then
      Err(MissingYesRt)
    else if live.noRt.None? then
      Err(MissingNoRt)
    else if live.collateral.Some? || live.yesRt.value.outpoint.txid != live.noRt.value.outpoint.txid then
      Err(InvalidSiblingGroup)
    else
      ValidateRtPair(params, live.yesRt.value, live.noRt.value, DormantYesRt, DormantNoRt)
  }

  function ValidateActive(params: Params, live: LiveInputs): Result<(), PlanError> {
    if live.yesRt.None? then
      Err(MissingYesRt)
    else if live.noRt.None? then
      Err(MissingNoRt)
    else if live.collateral.None? then
      Err(MissingCollateral)
    else
      var yes, no := live.yesRt.value.outpoint, live.noRt.value.outpoint;
      var collateral := live.collateral.value;
      if yes.txid != no.txid || yes.txid != collateral.txid then
        Err(InvalidSiblingGroup)
      else if yes.vout + 1 > U32_MAX then
        Err(IndexOverflow)
      else if no.vout != yes.vout + 1 then
        Err(InvalidSiblingGroup)
      else if yes.vout + 2 > U32_MAX then
        Err(IndexOverflow)
      else if collateral.vout != yes.vout + 2 then
        Err(InvalidSiblingGroup)
      else
        ValidateRtPair(params, live.yesRt.value, live.noRt.value, UnresolvedYesRt, UnresolvedNoRt)
  }

  function ValidateLiveShape(params: Params, before: MarketState, path: Path, live: LiveInputs): Result<(), PlanError> {
    if params.basePayout !in BASE_PAYOUTS then
      Err(Economics(InvalidBasePayout))
    else if ValidateState(params.basePayout, before).Err? then
      Err(Economics(ValidateState(params.basePayout, before).error))
    else if path in {InitialIssuance, DormantResolution, DormantExpiry} then
      ValidateDormant(params, live)
    else if ConsumesRt(path) then
      ValidateActive(params, live)
    else if live.yesRt.Some? || live.noRt.Some? || live.collateral.None? then
      Err(InvalidSiblingGroup)
    else
      Ok(())
  }

  function ValidateAttestation(
      oracle: Oracle, params: Params, action: Action, attestation: Option<Attestation>): Result<(), PlanError>
  {
    if !action.Resolve? then
      if attestation.Some? then Err(UnexpectedAttestation) else Ok(())
    else if attestation.None? then
      Err(MissingAttestation)
    else if attestation.value.outcome != action.outcome then
      Err(OutcomeMismatch)
    else if !oracle(params, action.outcome, attestation.value.signature) then
      Err(InvalidAttestation)
    else
      Ok(())
  }

  /** What the live inputs must look like, said by the state they come from rather than by the path taken. */
  predicate Fits(params: Params, before: MarketState, live: LiveInputs, side: Side) {
    if before.Trading? then
      && live.yesRt.Some? && live.noRt.Some?
      && live.yesRt.value.txout == RtOut(params, Yes, side, Covenant(params, RtSlot(before, Yes)))
      && live.noRt.value.txout == RtOut(params, No, side, Covenant(params, RtSlot(before, No)))
      && live.yesRt.value.outpoint.txid == live.noRt.value.outpoint.txid
      && (if before == Trading(0) then
            live.collateral.None?
          else
            && live.collateral.Some?
            && live.yesRt.value.outpoint.vout + 2 <= U32_MAX
            && live.noRt.value.outpoint.vout == live.yesRt.value.outpoint.vout + 1
            && live.collateral.value
               == OutPoint(live.yesRt.value.outpoint.txid, live.yesRt.value.outpoint.vout + 2))
    else
      live.yesRt.None? && live.noRt.None? && live.collateral.Some?
  }

  lemma RtPairSides(params: Params, yes: TrackedOutput, no: TrackedOutput, yesSlot: Slot, noSlot: Slot, side: Side)
    ensures ValidateRtPair(params, yes, no, yesSlot, noSlot).Ok? && InferRtSide(params, yes, Yes) == Ok(side)
       <==> && yes.txout == RtOut(params, Yes, side, Covenant(params, yesSlot))
            && no.txout == RtOut(params, No, side, Covenant(params, noSlot))
  {
    hide AbfOf, VbfOf, InferSide;
    InferSideExactly(Yes, params.yesRt, yes.txout.asset, yes.txout.value, side);
    InferSideExactly(No, params.noRt, no.txout.asset, no.txout.value, side);
  }

  /** The path-driven shape check accepts exactly the live inputs the old state calls for. */
  lemma ShapeIsFit(params: Params, before: MarketState, action: Action, live: LiveInputs, side: Side)
    requires Apply(params.basePayout, before, action).Ok?
    ensures ShapeIsFitAt(params, before, action, live, side)
  {
    hide AbfOf, VbfOf, Product, ValidateRtPair, InferRtSide, ForOperation;
    AcceptedHasLayout(params.basePayout, before, action);
    if live.yesRt.Some? && live.noRt.Some? {
      RtPairSides(params, live.yesRt.value, live.noRt.value, RtSlot(before, Yes), RtSlot(before, No), side);
    }
  }

  /** The shape check passes exactly when some side fits, and the side read off the tokens is the one that fits. */
  lemma ShapeFitsASide(params: Params, before: MarketState, action: Action, live: LiveInputs)
    requires Apply(params.basePayout, before, action).Ok?
    ensures
      var applied := Apply(params.basePayout, before, action).value;
      && ForTransition(before, action, applied).Ok?
      && (ValidateLiveShape(params, before, ForTransition(before, action, applied).value, live).Ok?
          <==> exists side :: Fits(params, before, live, side))
    ensures forall side :: Fits(params, before, live, side) && before.Trading? ==>
      && live.yesRt.Some? && live.noRt.Some?
      && InferRtSide(params, live.yesRt.value, Yes) == Ok(side)
      && InferRtSide(params, live.noRt.value, No) == Ok(side)
  {
    hide AbfOf, VbfOf, Product, InferSide, ForOperation;
    AcceptedHasLayout(params.basePayout, before, action);
    forall side
      ensures ShapeIsFitAt(params, before, action, live, side)
      ensures Fits(params, before, live, side) && before.Trading? ==>
        InferRtSide(params, live.noRt.value, No) == Ok(side)
    {
      ShapeIsFit(params, before, action, live, side);
      if Fits(params, before, live, side) && before.Trading? {
        InferSideExactly(No, params.noRt, live.noRt.value.txout.asset, live.noRt.value.txout.value, side);
      }
    }
    var path := ForTransition(before, action, Apply(params.basePayout, before, action).value).value;
    if ValidateLiveShape(params, before, path, live).Ok? {
      var side := if before.Trading? then InferRtSide(params, live.yesRt.value, Yes).value else A;
      assert ShapeIsFitAt(params, before, action, live, side);
      assert Fits(params, before, live, side);
    }
  }

  predicate ShapeIsFitAt(params: Params, before: MarketState, action: Action, live: LiveInputs, side: Side)
    requires Apply(params.basePayout, before, action).Ok?
  {
    var path := ForTransition(before, action, Apply(params.basePayout, before, action).value);
    && path.Ok?
    && ((&& ValidateLiveShape(params, before, path.value, live).Ok?
         && (before.Trading? ==> live.yesRt.Some? && InferRtSide(params, live.yesRt.value, Yes) == Ok(side)))
        <==> Fits(params, before, live, side))
  }

  method AppendNonRtOutputs(
      outputs: seq<TxOut>, params: Params, path: Path, applied: Applied, tokens: U64, redeemYes: bool,
      ghost before: MarketState, ghost action: Action)
    returns (r: seq<TxOut>)
    requires Apply(params.basePayout, before, action) == Ok(applied)
    requires ForTransition(before, action, applied) == Ok(path)
    requires action.Redeem? ==> tokens == action.tokens && redeemYes == (action.outcome == Yes)
    ensures Held(params.basePayout, applied.after) <= U64_MAX
    ensures r == outputs + (CollateralPart(params, applied.after) + BurnPart(params, applied.transition))
  {
    hide Product, AbfOf, VbfOf;
    AppliedHoldsU64(params.basePayout, before, action);
    AcceptedHasLayout(params.basePayout, before, action);
    if applied.after.Trading? {
      HeldZero(params.basePayout, applied.after.outstandingPairs);
    }
    if before.Trading? {
      HeldZero(params.basePayout, before.outstandingPairs);
    }
    r := outputs;
    var held: U64 := Held(params.basePayout, applied.after);
    match path {
      case InitialIssuance =>
        r := r + [ExplicitOut(params.collateral, held, Covenant(params, UnresolvedCollateral))];
      case SubsequentIssuance =>
        r := r + [ExplicitOut(params.collateral, held, Covenant(params, UnresolvedCollateral))];
      case PartialCancellation =>
        r := r + [ExplicitOut(params.collateral, held, Covenant(params, UnresolvedCollateral))];
        r := r + [ExplicitOut(params.yesToken, applied.transition.pairs, BareOpReturn)];
        r := r + [ExplicitOut(params.noToken, applied.transition.pairs, BareOpReturn)];
      case FullCancellation =>
        r := r + [ExplicitOut(params.yesToken, applied.transition.pairs, BareOpReturn)];
        r := r + [ExplicitOut(params.noToken, applied.transition.pairs, BareOpReturn)];
      case ActiveResolution =>
        var slot := if applied.after.ResolvedYes? then ResolvedYesCollateral else ResolvedNoCollateral;
        r := r + [ExplicitOut(params.collateral, applied.after.collateral, Covenant(params, slot))];
      case ActiveExpiry =>
        r := r + [ExplicitOut(params.collateral, applied.after.collateral, Covenant(params, ExpiredCollateral))];
      case DormantResolution =>
      case DormantExpiry =>
      case _ =>
        var slot := CollateralSlot(applied.after);
        var asset := if redeemYes then params.yesToken else params.noToken;
        if applied.after.collateral > 0 {
          r := r + [ExplicitOut(params.collateral, applied.after.collateral, Covenant(params, slot))];
        }
        r := r + [ExplicitOut(asset, tokens, BareOpReturn)];
    }
  }

  method RtTemplates(
      params: Params, path: Path, side: Side, ghost before: MarketState, ghost action: Action, ghost applied: Applied)
    returns (outputs: seq<TxOut>)
    requires Apply(params.basePayout, before, action) == Ok(applied)
    requires ForTransition(before, action, applied) == Ok(path) && ConsumesRt(path)
    ensures outputs == RtPart(params, before, applied.after, side)
  {
    hide Product, AbfOf, VbfOf;
    AcceptedHasLayout(params.basePayout, before, action);
    outputs := [];
    var yesScript, noScript := BareOpReturn, BareOpReturn;
    match path {
      case FullCancellation =>
        yesScript, noScript := Covenant(params, DormantYesRt), Covenant(params, DormantNoRt);
      case ActiveResolution =>
      case DormantResolution =>
      case ActiveExpiry =>
      case DormantExpiry =>
      case _ =>
        yesScript, noScript := Covenant(params, UnresolvedYesRt), Covenant(params, UnresolvedNoRt);
    }
    outputs := outputs + [RtOut(params, Yes, side, yesScript)];
    outputs := outputs + [RtOut(params, No, side, noScript)];
  }

  /**
   A plan exists exactly when the economics accepts the action, the live inputs fit the old state and a
   resolution is attested; its outputs are the window of the new state, tokens moved to the other side.
   */
  method NewPlan(
      oracle: Oracle, params: Params, before: MarketState, action: Action, live: LiveInputs,
      attestation: Option<Attestation>)
    returns (r: Result<Plan, PlanError>)
    ensures r.Ok? <==>
      && Apply(params.basePayout, before, action).Ok?
      && (exists side :: Fits(params, before, live, side))
      && ValidateAttestation(oracle, params, action, attestation).Ok?
    ensures r.Ok? ==>
      && Apply(params.basePayout, before, action) == Ok(r.value.applied)
      && ForTransition(before, action, r.value.applied) == Ok(r.value.path)
      && r.value.params == params && r.value.before == before && r.value.live == live
      && Held(params.basePayout, r.value.applied.after) <= U64_MAX
      && forall side :: Fits(params, before, live, side) ==>
           r.value.outputs == Window(params, before, r.value.applied, Flip(side))
  {
    hide Product, AbfOf, VbfOf, ValidateLiveShape, InferRtSide, ForOperation, Fits, ValidateAttestation, RtOut;
    var applied := Apply(params.basePayout, before, action);
    if applied.Err? {
      return Err(Economics(applied.error));
    }
    AcceptedHasLayout(params.basePayout, before, action);
    ShapeFitsASide(params, before, action, live);
    var layout := ForTransition(before, action, applied.value);
    var path := layout.value;
    var shape := ValidateLiveShape(params, before, path, live);
    if shape.Err? {
      return Err(shape.error);
    }
    var attested := ValidateAttestation(oracle, params, action, attestation);
    if attested.Err? {
      return Err(attested.error);
    }
    var tokens, redeemYes := 0, false;
    if action.Redeem? {
      tokens, redeemYes := action.tokens, action.outcome == Yes;
    }
    var outputs: seq<TxOut> := [];
    if ConsumesRt(path) {
      // The shape check has already read the same side off both tokens.
      var yesSide := InferRtSide(params, live.yesRt.value, Yes);
      assert yesSide.Ok? && InferRtSide(params, live.noRt.value, No) == yesSide;
      outputs := RtTemplates(params, path, Flip(yesSide.value), before, action, applied.value);
    }
    outputs := AppendNonRtOutputs(outputs, params, path, applied.value, tokens, redeemYes, before, action);
    r := Ok(Plan(params, before, applied.value, path, live, outputs));
  }

  // ----- Checking a transaction against a plan -----

  /** A proposal: the transaction being built and the outputs its inputs are said to spend. */
  datatype Proposal = Proposal(tx: Transaction, utxos: seq<Option<TxOut>>)

  function OutpointFor(live: LiveInputs, slot: Slot): Option<OutPoint> {
    match slot
    case DormantYesRt => if live.yesRt.Some? then Some(live.yesRt.value.outpoint) else None
    case UnresolvedYesRt => if live.yesRt.Some? then Some(live.yesRt.value.outpoint) else None
    case DormantNoRt => if live.noRt.Some? then Some(live.noRt.value.outpoint) else None
    case UnresolvedNoRt => if live.noRt.Some? then Some(live.noRt.value.outpoint) else None
    case _ => live.collateral
  }

  predicate RtInputOk(params: Params, utxo: TxOut, live: Option<TrackedOutput>, leg: Outcome) {
    live.Some? && utxo == live.value.txout && InferRtSide(params, live.value, leg).Ok?
  }

  /** One contract input: the right outpoint, script, and token output or collateral amount. */
  predicate SlotInputOk(plan: Plan, proposal: Proposal, index: nat, slot: Slot) {
    && index < |proposal.tx.inputs| && index < |proposal.utxos|
    && OutpointFor(plan.live, slot) == Some(proposal.tx.inputs[index].previous)
    && proposal.utxos[index].Some?
    && var utxo := proposal.utxos[index].value;
       && utxo.script == Covenant(plan.params, slot)
       && match slot
          case DormantYesRt => RtInputOk(plan.params, utxo, plan.live.yesRt, Yes)
          case UnresolvedYesRt => RtInputOk(plan.params, utxo, plan.live.yesRt, Yes)
          case DormantNoRt => RtInputOk(plan.params, utxo, plan.live.noRt, No)
          case UnresolvedNoRt => RtInputOk(plan.params, utxo, plan.live.noRt, No)
          case _ =>
            && Held(plan.params.basePayout, plan.before) <= U64_MAX
            && utxo.asset == ExplicitAsset(plan.params.collateral)
            && utxo.value == ExplicitValue(Held(plan.params.basePayout, plan.before))
  }

  function Reissuance(params: Params, leg: Outcome, pairs: U64, side: Side): Issuance {
    Issuance(TokenAsset(params, leg), RtAsset(params, leg), Some(pairs), true, AbfOf(side))
  }

  /** Issuance fields: both legs reissue the pairs under the nonce of their side, and nothing else issues. */
  predicate IssuancesOk(plan: Plan, tx: Transaction, base: nat)
    requires base + |InputSlots(Coordinator(plan.before))| <= |tx.inputs|
  {
    var n := |InputSlots(Coordinator(plan.before))|;
    if plan.applied.transition.Issued? then
      var pairs := plan.applied.transition.pairs;
      && plan.live.yesRt.Some? && plan.live.noRt.Some?
      && var yes := InferRtSide(plan.params, plan.live.yesRt.value, Yes);
         var no := InferRtSide(plan.params, plan.live.noRt.value, No);
         && yes.Ok? && no.Ok? && yes.value == no.value
         && n >= 2
         && tx.inputs[base].issuance == Some(Reissuance(plan.params, Yes, pairs, yes.value))
         && tx.inputs[base + 1].issuance == Some(Reissuance(plan.params, No, pairs, no.value))
         && forall k :: base + 2 <= k < base + n ==> tx.inputs[k].issuance.None?
    else
      forall k :: base <= k < base + n ==> tx.inputs[k].issuance.None?
  }

  predicate InputsVerified(plan: Plan, proposal: Proposal, base: nat) {
    var slots := InputSlots(Coordinator(plan.before));
    && (forall k :: 0 <= k < |slots| ==> SlotInputOk(plan, proposal, base + k, slots[k]))
    && base + |slots| <= |proposal.tx.inputs|
    && IssuancesOk(plan, proposal.tx, base)
  }

  method VerifyInputs(plan: Plan, proposal: Proposal, base: nat) returns (ok: bool)
    ensures ok <==> InputsVerified(plan, proposal, base)
  {
    hide SlotInputOk;
    var slots := InputSlots(Coordinator(plan.before));
    var offset := 0;
    while offset < |slots|
      invariant 0 <= offset <= |slots|
      invariant forall k :: 0 <= k < offset ==> SlotInputOk(plan, proposal, base + k, slots[k])
    {
      if !SlotInputOk(plan, proposal, base + offset, slots[offset]) {
        return false;
      }
      offset := offset + 1;
    }
    LastInput(plan, proposal, base + |slots| - 1, slots[|slots| - 1]);
    ok := IssuancesOk(plan, proposal.tx, base);
  }

  lemma LastInput(plan: Plan, proposal: Proposal, index: int, slot: Slot)
    requires index >= 0
    ensures SlotInputOk(plan, proposal, index, slot) ==> index < |proposal.tx.inputs|
  {
  }

  /** The builder's expiry check: the raw locktime is late enough and every contract input is non-final. */
  predicate ExpiryVerified(plan: Plan, tx: Transaction, base: nat) {
    plan.path in {ActiveExpiry, DormantExpiry} ==>
      && ConsensusValue(tx.locktime) >= plan.params.expiryHeight
      && forall k :: base <= k < base + |InputSlots(Coordinator(plan.before))| && k < |tx.inputs| ==> !tx.inputs[k].isFinal
  }

  predicate WindowAt(outputs: seq<TxOut>, base: nat, window: seq<TxOut>) {
    base + |window| <= |outputs| && outputs[base..base + |window|] == window
  }

  method VerifyOutputs(plan: Plan, outputs: seq<TxOut>, base: nat) returns (ok: bool)
    ensures ok <==> WindowAt(outputs, base, plan.outputs) || plan.outputs == []
  {
    for k := 0 to |plan.outputs|
      invariant k > 0 ==> base + k <= |outputs| && outputs[base..base + k] == plan.outputs[..k]
    {
      assert plan.outputs[..k + 1] == plan.outputs[..k] + [plan.outputs[k]];
      if base + k >= |outputs| || outputs[base + k] != plan.outputs[k] {
        if base + |plan.outputs| <= |outputs| {
          assert outputs[base..base + |plan.outputs|][k] == outputs[base + k];
        }
        return false;
      }
      assert outputs[base..base + k + 1] == outputs[base..base + k] + [outputs[base + k]];
    }
    assert plan.outputs[..|plan.outputs|] == plan.outputs;
    ok := true;
  }

  // ----- Runs of plans -----

  function InputsOf(live: LiveOutputs): LiveInputs {
    LiveInputs(live.yesRt, live.noRt, if live.collateral.Some? then Some(live.collateral.value.outpoint) else None)
  }

  function LiveAt(live: LiveOutputs, slot: Slot): Option<TrackedOutput> {
    match slot
    case DormantYesRt => live.yesRt
    case UnresolvedYesRt => live.yesRt
    case DormantNoRt => live.noRt
    case UnresolvedNoRt => live.noRt
    case _ => live.collateral
  }

  /** From canonical live outputs, every action the economics accepts can be planned. */
  lemma CanonicalFits(params: Params, before: MarketState, action: Action, live: LiveOutputs, side: Side)
    requires CanonicalLive(params, before, live, side)
    requires Apply(params.basePayout, before, action).Ok?
    ensures Fits(params, before, InputsOf(live), side)
    ensures forall slot :: slot in InputSlots(Coordinator(before)) ==> LiveAt(live, slot).Some?
  {
    hide AbfOf, VbfOf, Product;
    if !before.Trading? && action.Redeem? {
      RedeemOnce(params.basePayout, before, action.outcome, action.tokens);
      ProductMonotone(1, action.tokens, UnitPayout(params.basePayout, before));
      assert Product(1, UnitPayout(params.basePayout, before)) > 0 by {
        UnitIsPositive(params.basePayout, before);
      }
    }
  }

  lemma UnitIsPositive(base: U64, state: MarketState)
    requires base in BASE_PAYOUTS
    ensures Product(1, UnitPayout(base, state)) > 0
  {
  }

  /** The input checks of the next plan demand exactly the live outputs, slot by slot: outpoint, script and amount. */
  lemma NextChecksDemandLive(
      plan: Plan, live: LiveOutputs, side: Side, proposal: Proposal, index: nat, slot: Slot)
    requires CanonicalLive(plan.params, plan.before, live, side)
    requires plan.live == InputsOf(live)
    requires slot in InputSlots(Coordinator(plan.before)) && LiveAt(live, slot).Some?
    ensures SlotInputOk(plan, proposal, index, slot) <==>
      && index < |proposal.tx.inputs| && index < |proposal.utxos|
      && proposal.tx.inputs[index].previous == LiveAt(live, slot).value.outpoint
      && proposal.utxos[index] == Some(LiveAt(live, slot).value.txout)
  {
    hide AbfOf, VbfOf, Product, ValidateState, InferSide;
    if plan.before.Trading? {
      var yes, no := live.yesRt.value.txout, live.noRt.value.txout;
      InferSideExactly(Yes, plan.params.yesRt, yes.asset, yes.value, side);
      InferSideExactly(No, plan.params.noRt, no.asset, no.value, side);
    }
  }

  /** Where a market stands on chain: its state, its live outputs and the side of its tokens. */
  datatype Point = Point(state: MarketState, live: LiveOutputs, side: Side)

  /** A confirmed plan: what was done, in which transaction, from which output on. */
  datatype Move = Move(action: Action, txid: Txid, base: nat)

  function Advance(params: Params, point: Point, move: Move): Option<Point> {
    var applied := Apply(params.basePayout, point.state, move.action);
    if applied.Ok? && InReach(applied.value.after, move.base) then
      AppliedHoldsU64(params.basePayout, point.state, move.action);
      var side := if point.state.Trading? then Flip(point.side) else point.side;
      var window := Window(params, point.state, applied.value, side);
      Some(Point(applied.value.after, LiveFrom(Continuations(move.txid, move.base, window)), side))
    else
      None
  }

  function AdvanceAll(params: Params, start: Point, moves: seq<Move>): Option<Point> {
    if moves == [] then
      Some(start)
    else
      var before := AdvanceAll(params, start, moves[..|moves| - 1]);
      if before.None? then None else Advance(params, before.value, moves[|moves| - 1])
  }

  /** How many moves of a run consumed the reissuance tokens. */
  function TokenMoves(params: Params, start: Point, moves: seq<Move>): nat {
    if moves == [] then
      0
    else
      var k := |moves| - 1;
      var before := AdvanceAll(params, start, moves[..k]);
      TokenMoves(params, start, moves[..k]) + if before.Some? && before.value.state.Trading? then 1 else 0
  }

  lemma AdvanceStaysCanonical(params: Params, point: Point, move: Move)
    requires CanonicalLive(params, point.state, point.live, point.side)
    requires Advance(params, point, move).Some?
    ensures
      var next := Advance(params, point, move).value;
      && CanonicalLive(params, next.state, next.live, next.side)
      && next.side == if point.state.Trading? then Flip(point.side) else point.side
  {
    hide AbfOf, VbfOf, Product, CanonicalLive, Continuations, LiveFrom, Window;
    var applied := Apply(params.basePayout, point.state, move.action).value;
    var side := if point.state.Trading? then Flip(point.side) else point.side;
    StepLeavesCanonical(params, point.state, move.action, side, move.txid, move.base);
    WindowLeavesLive(params, point.state, applied, side, move.txid, move.base);
  }

  /**
   Along every run of plans from creation the outputs left are exactly those the next plan needs: they
   fit its live shape, so every action the economics accepts can be planned next, and the two tokens are
   on one side, which has flipped once for each move that consumed them.
   */
  lemma {:induction false} RunStaysCanonical(params: Params, start: Point, moves: seq<Move>)
    requires CanonicalLive(params, start.state, start.live, start.side)
    requires AdvanceAll(params, start, moves).Some?
    ensures
      var point := AdvanceAll(params, start, moves).value;
      && CanonicalLive(params, point.state, point.live, point.side)
      && point.side == (if TokenMoves(params, start, moves) % 2 == 0 then start.side else Flip(start.side))
      && forall action :: Apply(params.basePayout, point.state, action).Ok? ==>
           Fits(params, point.state, InputsOf(point.live), point.side)
  {
    hide CanonicalLive, Fits, Advance, Apply;
    if moves != [] {
      var k := |moves| - 1;
      RunStaysCanonical(params, start, moves[..k]);
      AdvanceStaysCanonical(params, AdvanceAll(params, start, moves[..k]).value, moves[k]);
    }
    var point := AdvanceAll(params, start, moves).value;
    forall action | Apply(params.basePayout, point.state, action).Ok?
      ensures Fits(params, point.state, InputsOf(point.live), point.side)
    {
      CanonicalFits(params, point.state, action, point.live, point.side);
    }
  }
}
