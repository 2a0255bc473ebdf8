/** Venue legs: authorized against the user's allocation, aggregated into a route, composed into one transaction. */
module Venue {
  import opened Types
  import opened Locktime
  import opened Composition
  import opened Composer

  datatype AssetAmount = AssetAmount(asset: AssetId, amount: U64)

  datatype Recipient = Recipient(script: ScriptBytes, key: nat)

  /** Chain, market and policy asset shared by every leg. */
  datatype VenueContext = VenueContext(chain: nat, market: OutPoint, policyAsset: AssetId)

  datatype Execution = Execution(input: AssetAmount, output: AssetAmount)

  datatype LegKind =
    | LegExactIn(input: AssetAmount, outputAsset: AssetId)
    | LegExactOut(inputAsset: AssetId, output: AssetAmount)

  datatype TradeKind =
    | ExactIn(input: AssetAmount, outputAsset: AssetId, minimumOutput: U64)
    | ExactOut(inputAsset: AssetId, maximumInput: U64, output: AssetAmount)

  datatype LegRequest = LegRequest(
    id: nat, context: VenueContext, kind: LegKind, recipient: Recipient, payer: OutPoint)

  datatype Proposal = Proposal(
    execution: Execution, fees: map<AssetId, U64>, contribution: Contribution, payment: nat, receive: nat)

  datatype PreparedLeg = PreparedLeg(request: LegRequest, proposal: Proposal)

  datatype Request = Request(
    context: VenueContext, kind: TradeKind, recipient: Recipient, feeLimits: map<AssetId, U64>, maxNetworkFee: U64)

  datatype VenueError =
    | AssetDirectionMismatch
    | LegAmountMismatch
    | ZeroFeeEntry
    | UnsupportedFeeAsset
    | VenueFeeExceedsGrossInput
    | EmptyContribution
    | ReusedEconomicOutput
    | EconomicOutputMissing
    | EconomicOutputMismatch
    | ReceiveOutputNotVenueBlinded
    | UnauthorizedExternalBlinder
    | VenueClaimsPayerInput
    | NoLegs
    | WrongPolicyAsset
    | NetworkFeeExceeded
    | DuplicateLegId
    | ContextMismatch
    | WrongLegRequestKind
    | AmountOverflow
    | VenueFeeExceeded
    | TradeBoundMissed
    | PayerBlinderNotInWallet
    | PayerBlinderClaimedByVenue
    | CompositionFailure(reason: ComposeError)

  function LegPair(kind: LegKind): (AssetId, AssetId) {
    match kind
    case LegExactIn(input, outputAsset) => (input.asset, outputAsset)
    case LegExactOut(inputAsset, output) => (inputAsset, output.asset)
  }

  function TradePair(kind: TradeKind): (AssetId, AssetId) {
    match kind
    case ExactIn(input, outputAsset, _) => (input.asset, outputAsset)
    case ExactOut(inputAsset, _, output) => (inputAsset, output.asset)
  }

  // ----- Authorizing one leg -----

  predicate AllocationMet(kind: LegKind, execution: Execution) {
    && LegPair(kind) == (execution.input.asset, execution.output.asset)
    && (kind.LegExactIn? ==> execution.input == kind.input)
    && (kind.LegExactOut? ==> execution.output == kind.output)
  }

  predicate FeesWithin(execution: Execution, fees: map<AssetId, U64>) {
    forall a :: a in fees ==> fees[a] > 0 && a == execution.input.asset && fees[a] <= execution.input.amount
  }

  predicate OnlyOutputId(contribution: Contribution, id: nat, k: nat) {
    && k < |contribution.outputs| && contribution.outputs[k].id == id
    && forall j :: 0 <= j < |contribution.outputs| && contribution.outputs[j].id == id ==> j == k
  }

  predicate OnlyInputId(contribution: Contribution, id: nat, k: nat) {
    && k < |contribution.inputs| && contribution.inputs[k].id == id
    && forall j :: 0 <= j < |contribution.inputs| && contribution.inputs[j].id == id ==> j == k
  }

  /** The payment: the gross input, confidential, blinded by the payer's own input. */
  predicate IsPayment(output: OutputSpec, amount: AssetAmount, payer: OutPoint) {
    && output.ConfidentialOut?
    && output.asset == amount.asset && output.amount == amount.amount
    && output.blinder == External(payer)
  }

  /** The receipt: the net output to the user's recipient, blinded by one of the venue's own inputs. */
  ghost predicate IsReceipt(contribution: Contribution, output: OutputSpec, amount: AssetAmount, recipient: Recipient) {
    && output.ConfidentialOut?
    && output.asset == amount.asset && output.amount == amount.amount
    && output.script == recipient.script && output.key == recipient.key
    && output.blinder.Local?
    && exists i: nat :: OnlyInputId(contribution, output.blinder.input, i)
  }

  /** Only the payment output may name an input outside the contribution. */
  predicate BlindersConfined(contribution: Contribution, payment: nat, payer: OutPoint) {
    forall k :: 0 <= k < |contribution.outputs| ==>
      var output := contribution.outputs[k];
      output.ConfidentialOut? && output.blinder.External? ==> output.id == payment && output.blinder.outpoint == payer
  }

  predicate SpendsNot(contribution: Contribution, payer: OutPoint) {
    forall k :: 0 <= k < |contribution.inputs| ==> contribution.inputs[k].outpoint != payer
  }

  ghost predicate Authorized(request: LegRequest, proposal: Proposal) {
    var c := proposal.contribution;
    && AllocationMet(request.kind, proposal.execution)
    && FeesWithin(proposal.execution, proposal.fees)
    && c.inputs != [] && c.outputs != []
    && proposal.payment != proposal.receive
    && (exists p: nat ::
          OnlyOutputId(c, proposal.payment, p) && IsPayment(c.outputs[p], proposal.execution.input, request.payer))
    && (exists q: nat ::
          OnlyOutputId(c, proposal.receive, q)
          && IsReceipt(c, c.outputs[q], proposal.execution.output, request.recipient))
    && BlindersConfined(c, proposal.payment, request.payer)
    && SpendsNot(c, request.payer)
  }

  method UniqueOutput(contribution: Contribution, id: nat) returns (r: Option<nat>)
    ensures forall k: nat :: r == Some(k) <==> OnlyOutputId(contribution, id, k)
  {
    r := None;
    for i := 0 to |contribution.outputs|
      invariant r.None? ==> forall k :: 0 <= k < i ==> contribution.outputs[k].id != id
      invariant r.Some? ==> r.value < i && contribution.outputs[r.value].id == id
      invariant r.Some? ==> forall k :: 0 <= k < i && contribution.outputs[k].id == id ==> k == r.value
    {
      if contribution.outputs[i].id == id {
        if r.Some? {
          assert i != r.value;
          return None;
        }
        r := Some(i);
      }
    }
  }

  method UniqueInput(contribution: Contribution, id: nat) returns (r: Option<nat>)
    ensures forall k: nat :: r == Some(k) <==> OnlyInputId(contribution, id, k)
  {
    r := None;
    for i := 0 to |contribution.inputs|
      invariant r.None? ==> forall k :: 0 <= k < i ==> contribution.inputs[k].id != id
      invariant r.Some? ==> r.value < i && contribution.inputs[r.value].id == id
      invariant r.Some? ==> forall k :: 0 <= k < i && contribution.inputs[k].id == id ==> k == r.value
    {
      if contribution.inputs[i].id == id {
        if r.Some? {
          assert i != r.value;
          return None;
        }
        r := Some(i);
      }
    }
  }

  function ValidateFees(execution: Execution, fees: map<AssetId, U64>): Option<VenueError> {
    if exists a :: a in fees && fees[a] == 0 then
      Some(ZeroFeeEntry)
    else if exists a :: a in fees && a != execution.input.asset then
      Some(UnsupportedFeeAsset)
    else if exists a :: a in fees && fees[a] > execution.input.amount then
      Some(VenueFeeExceedsGrossInput)
    else
      None
  }

  /** A proposal becomes a prepared leg exactly when it keeps to the allocation, recipient and blinding rules. */
  method Authorize(request: LegRequest, proposal: Proposal) returns (r: Result<PreparedLeg, VenueError>)
    ensures r.Ok? <==> Authorized(request, proposal)
    ensures r.Ok? ==> r.value == PreparedLeg(request, proposal)
  {
    hide OnlyOutputId, OnlyInputId, BlindersConfined, SpendsNot;
    var c := proposal.contribution;
    var execution := proposal.execution;
    if LegPair(request.kind) != (execution.input.asset, execution.output.asset) {
      return Err(AssetDirectionMismatch);
    }
    if !AllocationMet(request.kind, execution) {
      return Err(LegAmountMismatch);
    }
    var fault := ValidateFees(execution, proposal.fees);
    if fault.Some? {
      return Err(fault.value);
    }
    if c.inputs == [] || c.outputs == [] {
      return Err(EmptyContribution);
    }
    if proposal.payment == proposal.receive {
      return Err(ReusedEconomicOutput);
    }
    var payment := UniqueOutput(c, proposal.payment);
    if payment.None? {
      return Err(EconomicOutputMissing);
    }
    InRange(c, proposal.payment, payment.value);
    if !IsPayment(c.outputs[payment.value], execution.input, request.payer) {
      return Err(EconomicOutputMismatch);
    }
    var receive := UniqueOutput(c, proposal.receive);
    if receive.None? {
      return Err(EconomicOutputMissing);
    }
    InRange(c, proposal.receive, receive.value);
    var receipt := c.outputs[receive.value];
    if !receipt.ConfidentialOut?
      || receipt.asset != execution.output.asset || receipt.amount != execution.output.amount
      || receipt.script != request.recipient.script || receipt.key != request.recipient.key {
      return Err(EconomicOutputMismatch);
    }
    if !receipt.blinder.Local? {
      return Err(ReceiveOutputNotVenueBlinded);
    }
    var blinder := UniqueInput(c, receipt.blinder.input);
    if blinder.None? {
      return Err(ReceiveOutputNotVenueBlinded);
    }
    assert OnlyInputId(c, receipt.blinder.input, blinder.value);
    assert IsReceipt(c, receipt, execution.output, request.recipient);
    if !BlindersConfined(c, proposal.payment, request.payer) {
      return Err(UnauthorizedExternalBlinder);
    }
    if !SpendsNot(c, request.payer) {
      return Err(VenueClaimsPayerInput);
    }
    r := Ok(PreparedLeg(request, proposal));
  }

  lemma InRange(contribution: Contribution, id: nat, k: nat)
    requires OnlyOutputId(contribution, id, k)
    ensures k < |contribution.outputs|
  {
  }

  // ----- Aggregating a route -----

  function InputTotal(legs: seq<PreparedLeg>): nat {
    if legs == [] then 0 else InputTotal(legs[..|legs| - 1]) + legs[|legs| - 1].proposal.execution.input.amount
  }

  function OutputTotal(legs: seq<PreparedLeg>): nat {
    if legs == [] then 0 else OutputTotal(legs[..|legs| - 1]) + legs[|legs| - 1].proposal.execution.output.amount
  }

  function FeeIn(fees: map<AssetId, U64>, asset: AssetId): nat {
    if asset in fees then fees[asset] else 0
  }

  function FeeTotal(legs: seq<PreparedLeg>, asset: AssetId): nat {
    if legs == [] then 0 else FeeTotal(legs[..|legs| - 1], asset) + FeeIn(legs[|legs| - 1].proposal.fees, asset)
  }

  function LegIds(legs: seq<PreparedLeg>): (ids: seq<nat>)
    ensures |ids| == |legs| && forall i :: 0 <= i < |legs| ==> ids[i] == legs[i].request.id
  {
    seq(|legs|, i requires 0 <= i < |legs| => legs[i].request.id)
  }

  predicate LegBelongs(request: Request, leg: PreparedLeg) {
    && leg.request.context == request.context && leg.request.recipient == request.recipient
    && (request.kind.ExactIn? <==> leg.request.kind.LegExactIn?)
    && LegPair(leg.request.kind) == TradePair(request.kind)
    && (leg.proposal.execution.input.asset, leg.proposal.execution.output.asset) == TradePair(request.kind)
  }

  predicate BoundsMet(kind: TradeKind, input: nat, output: nat) {
    match kind
    case ExactIn(given, _, minimumOutput) => input == given.amount && output >= minimumOutput
    case ExactOut(_, maximumInput, wanted) => output == wanted.amount && input <= maximumInput
  }

  /** A route the user's request allows: legs that belong to it, exact totals, fees within their limits. */
  ghost predicate RouteAllowed(request: Request, legs: seq<PreparedLeg>, fee: Fee) {
    && legs != []
    && fee.asset == request.context.policyAsset && fee.amount <= request.maxNetworkFee
    && NoDup(LegIds(legs))
    && (forall i :: 0 <= i < |legs| ==> LegBelongs(request, legs[i]))
    && InputTotal(legs) <= U64_MAX && OutputTotal(legs) <= U64_MAX
    && (forall asset :: FeeTotal(legs, asset) <= U64_MAX)
    && (forall asset :: FeeTotal(legs, asset) <= FeeIn(request.feeLimits, asset))
    && BoundsMet(request.kind, InputTotal(legs), OutputTotal(legs))
  }

  datatype Summary = Summary(input: nat, output: nat, fees: map<AssetId, U64>)

  /** Running totals over the legs seen so far. */
  ghost predicate Totals(request: Request, legs: seq<PreparedLeg>, ids: set<nat>, summary: Summary) {
    && NoDup(LegIds(legs)) && ids == ToSet(LegIds(legs))
    && (forall i :: 0 <= i < |legs| ==> LegBelongs(request, legs[i]))
    && summary.input == InputTotal(legs) <= U64_MAX
    && summary.output == OutputTotal(legs) <= U64_MAX
    && FeesAre(legs, summary.fees)
  }

  ghost predicate FeesAre(legs: seq<PreparedLeg>, fees: map<AssetId, U64>) {
    && (forall asset :: FeeTotal(legs, asset) == FeeIn(fees, asset))
    && (forall asset :: asset in fees ==> exists i :: 0 <= i < |legs| && asset in legs[i].proposal.fees)
  }

  /** Adds one leg's fees to the running totals, asset by asset; none if a sum leaves 64 bits. */
  method AddFees(totals: map<AssetId, U64>, more: map<AssetId, U64>) returns (r: Option<map<AssetId, U64>>)
    ensures r.Some? <==> forall asset :: FeeIn(totals, asset) + FeeIn(more, asset) <= U64_MAX
    ensures r.Some? ==> r.value.Keys == totals.Keys + more.Keys
    ensures r.Some? ==> forall asset :: FeeIn(r.value, asset) == FeeIn(totals, asset) + FeeIn(more, asset)
  {
    var sums := totals;
    var left := more.Keys;
    while left != {}
      invariant left <= more.Keys
      invariant sums.Keys == totals.Keys + (more.Keys - left)
      invariant forall asset :: FeeIn(sums, asset) == FeeIn(totals, asset) + if asset in left then 0 else FeeIn(more, asset)
      decreases left
    {
      var asset :| asset in left;
      var total := FeeIn(sums, asset) + more[asset];
      if total > U64_MAX {
        assert FeeIn(totals, asset) + FeeIn(more, asset) > U64_MAX;
        return None;
      }
      sums := sums[asset := total];
      left := left - {asset};
    }
    assert forall asset :: FeeIn(sums, asset) <= U64_MAX;
    r := Some(sums);
  }

  lemma {:induction false} TotalsGrow(legs: seq<PreparedLeg>, n: nat, asset: AssetId)
    requires n <= |legs|
    ensures InputTotal(legs[..n]) <= InputTotal(legs) && OutputTotal(legs[..n]) <= OutputTotal(legs)
    ensures FeeTotal(legs[..n], asset) <= FeeTotal(legs, asset)
    decreases |legs| - n
  {
    if n == |legs| {
      assert legs[..n] == legs;
    } else {
      TotalsGrow(legs, n + 1, asset);
      assert legs[..n + 1][..n] == legs[..n];
    }
  }

  lemma IdsAppend(legs: seq<PreparedLeg>, n: nat)
    requires n < |legs|
    ensures LegIds(legs[..n + 1]) == LegIds(legs[..n]) + [legs[n].request.id]
    ensures NoDup(LegIds(legs)) ==> NoDup(LegIds(legs[..n + 1]))
    ensures NoDup(LegIds(legs[..n + 1])) <==> NoDup(LegIds(legs[..n])) && legs[n].request.id !in LegIds(legs[..n])
    ensures ToSet(LegIds(legs[..n + 1])) == ToSet(LegIds(legs[..n])) + {legs[n].request.id}
  {
    assert LegIds(legs[..n + 1]) == LegIds(legs[..n]) + [legs[n].request.id];
    NoDupAppend(LegIds(legs[..n]), legs[n].request.id);
    if NoDup(LegIds(legs)) {
      assert LegIds(legs[..n + 1]) == LegIds(legs)[..n + 1];
    }
  }

  /** One leg joins the totals, or no route with it can be allowed. */
  method AddLeg(
      request: Request, legs: seq<PreparedLeg>, n: nat, ids: set<nat>, summary: Summary, ghost fee: Fee)
    returns (r: Result<(set<nat>, Summary), VenueError>)
    requires n < |legs| && Totals(request, legs[..n], ids, summary)
    ensures r.Ok? ==> Totals(request, legs[..n + 1], r.value.0, r.value.1)
    ensures r.Err? ==> !RouteAllowed(request, legs, fee)
  {
    hide LegBelongs, BoundsMet, NoDup;
    var leg := legs[n];
    var execution := leg.proposal.execution;
    IdsAppend(legs, n);
    ghost var shorter, longer := legs[..n], legs[..n + 1];
    assert longer[..n] == shorter && longer[n] == leg;
    if leg.request.id in ids {
      return Err(DuplicateLegId);
    }
    if !LegBelongs(request, leg) {
      return Err(ContextMismatch);
    }
    TotalsGrow(legs, n + 1, 0);
    if summary.input + execution.input.amount > U64_MAX || summary.output + execution.output.amount > U64_MAX {
      return Err(AmountOverflow);
    }
    forall asset
      ensures FeeTotal(longer, asset) == FeeIn(summary.fees, asset) + FeeIn(leg.proposal.fees, asset)
      ensures FeeTotal(longer, asset) <= FeeTotal(legs, asset)
    {
      TotalsGrow(legs, n + 1, asset);
    }
    var fees := AddFees(summary.fees, leg.proposal.fees);
    if fees.None? {
      ghost var asset :| FeeIn(summary.fees, asset) + FeeIn(leg.proposal.fees, asset) > U64_MAX;
      assert FeeTotal(legs, asset) > U64_MAX;
      return Err(AmountOverflow);
    }
    r := Ok((
      ids + {leg.request.id},
      Summary(summary.input + execution.input.amount, summary.output + execution.output.amount, fees.value)));
    FeesExtend(shorter, longer, summary.fees, fees.value);
    assert forall i :: 0 <= i < n ==> longer[i] == shorter[i];
  }

  lemma FeesExtend(shorter: seq<PreparedLeg>, longer: seq<PreparedLeg>, before: map<AssetId, U64>, after: map<AssetId, U64>)
    requires |longer| == |shorter| + 1 && longer[..|shorter|] == shorter
    requires FeesAre(shorter, before)
    requires after.Keys == before.Keys + longer[|shorter|].proposal.fees.Keys
    requires forall asset :: FeeIn(after, asset) == FeeIn(before, asset) + FeeIn(longer[|shorter|].proposal.fees, asset)
    ensures FeesAre(longer, after)
  {
    forall asset | asset in after
      ensures exists i :: 0 <= i < |longer| && asset in longer[i].proposal.fees
    {
      if asset in before {
        var i :| 0 <= i < |shorter| && asset in shorter[i].proposal.fees;
        assert longer[i] == shorter[i];
      } else {
        assert asset in longer[|shorter|].proposal.fees;
      }
    }
  }

  /** Aggregates the legs; succeeds exactly for the routes the request allows, reporting their totals. */
  method ValidateRoute(request: Request, legs: seq<PreparedLeg>, fee: Fee) returns (r: Result<Summary, VenueError>)
    ensures r.Ok? <==> RouteAllowed(request, legs, fee)
    ensures r.Ok? ==>
      && r.value.input == InputTotal(legs) && r.value.output == OutputTotal(legs)
      && forall asset :: FeeIn(r.value.fees, asset) == FeeTotal(legs, asset)
  {
    hide NoDup, LegBelongs, InputTotal, OutputTotal, FeeTotal;
    if legs == [] {
      return Err(NoLegs);
    }
    if fee.asset != request.context.policyAsset {
      return Err(WrongPolicyAsset);
    }
    if fee.amount > request.maxNetworkFee {
      return Err(NetworkFeeExceeded);
    }
    var ids: set<nat> := {};
    var summary := Summary(0, 0, map[]);
    NoTotals(request, legs);
    for n := 0 to |legs|
      invariant Totals(request, legs[..n], ids, summary)
    {
      var added := AddLeg(request, legs, n, ids, summary, fee);
      if added.Err? {
        return Err(added.error);
      }
      ids, summary := added.value.0, added.value.1;
    }
    assert legs[..|legs|] == legs;
    if exists asset :: asset in summary.fees && summary.fees[asset] > FeeIn(request.feeLimits, asset) {
      ghost var asset :| asset in summary.fees && summary.fees[asset] > FeeIn(request.feeLimits, asset);
      assert FeeTotal(legs, asset) > FeeIn(request.feeLimits, asset);
      return Err(VenueFeeExceeded);
    }
    forall asset
      ensures FeeTotal(legs, asset) <= FeeIn(request.feeLimits, asset) && FeeTotal(legs, asset) <= U64_MAX
    {
      assert FeeTotal(legs, asset) == FeeIn(summary.fees, asset);
    }
    if !BoundsMet(request.kind, summary.input, summary.output) {
      return Err(TradeBoundMissed);
    }
    r := Ok(summary);
  }

  lemma NoTotals(request: Request, legs: seq<PreparedLeg>)
    ensures Totals(request, legs[..0], {}, Summary(0, 0, map[]))
  {
    assert ToSet(LegIds(legs[..0])) == {};
  }

  // ----- Composing a route -----

  datatype Route = Route(composed: Composed, wallet: nat, legs: map<nat, nat>)

  /** The wallet's contribution, then those of the legs in order. */
  function RouteList(wallet: Contribution, legs: seq<PreparedLeg>): seq<Contribution> {
    if legs == [] then
      [wallet]
    else
      RouteList(wallet, legs[..|legs| - 1]) + [legs[|legs| - 1].proposal.contribution]
  }

  lemma {:induction false} RouteListAt(wallet: Contribution, legs: seq<PreparedLeg>)
    ensures |RouteList(wallet, legs)| == |legs| + 1
    ensures RouteList(wallet, legs)[0] == wallet
    ensures forall j :: 0 <= j < |legs| ==> RouteList(wallet, legs)[j + 1] == legs[j].proposal.contribution
  {
    if legs != [] {
      RouteListAt(wallet, legs[..|legs| - 1]);
    }
  }

  predicate InWallet(wallet: Contribution, outpoint: OutPoint) {
    exists k :: 0 <= k < |wallet.inputs| && wallet.inputs[k].outpoint == outpoint
  }

  predicate Within(index: nat, place: Placement) {
    place.inputBase <= index < place.inputBase + place.inputCount
  }

  /**
   A leg as it ended up in the transaction: the payment carries the authorized input and is blinded by a
   wallet input, the receipt carries the authorized output to the user's recipient, and every other
   confidential output of the leg is blinded by the leg's own inputs.
   */
  ghost predicate LegSettled(wallet: Contribution, leg: PreparedLeg, handle: nat, composed: Composed) {
    var layout, pset := composed.layout, composed.pset;
    var execution := leg.proposal.execution;
    && handle < |layout.placements|
    && (handle, leg.proposal.payment) in layout.outputs && (handle, leg.proposal.receive) in layout.outputs
    && var place := layout.placements[handle];
       var pay, receive := layout.outputs[(handle, leg.proposal.payment)], layout.outputs[(handle, leg.proposal.receive)];
       && place.outputBase <= pay < place.outputBase + place.outputCount <= |pset.outputs|
       && place.outputBase <= receive < place.outputBase + place.outputCount
       && pay != receive
       && Settles(pset.outputs[pay], execution.input)
       && pset.outputs[pay].blinderIndex.value < |wallet.inputs| <= |pset.inputs|
       && pset.inputs[pset.outputs[pay].blinderIndex.value].outpoint == leg.request.payer
       && Settles(pset.outputs[receive], execution.output)
       && pset.outputs[receive].script == leg.request.recipient.script
       && pset.outputs[receive].key == Some(leg.request.recipient.key)
       && forall k :: place.outputBase <= k < place.outputBase + place.outputCount && k != pay ==>
            pset.outputs[k].blinderIndex.Some? ==> Within(pset.outputs[k].blinderIndex.value, place)
  }

  predicate Settles(output: PsetOutput, amount: AssetAmount) {
    && output.asset == Some(amount.asset) && output.amount == Some(amount.amount as nat)
    && output.key.Some? && output.blinderIndex.Some?
  }

  /** An input's handle says in whose stretch of the transaction it lies. */
  lemma {:induction false} HandleLocates(list: seq<Contribution>, i: nat)
    requires i < |InputList(list)|
    ensures
      var c := InputList(list)[i].handle;
      c < |list| && |InputList(list[..c])| <= i < |InputList(list[..c])| + |list[c].inputs|
  {
    var n := |list| - 1;
    if i < |InputList(list[..n])| {
      HandleLocates(list[..n], i);
      var c := InputList(list)[i].handle;
      assert list[..n][..c] == list[..c];
    } else {
      assert list[..n] == list[..n];
    }
  }

  /** Where an output of a contribution ends up, and as what. */
  lemma OutputLands(list: seq<Contribution>, fee: Fee, composed: Composed, c: nat, k: nat)
    requires WellComposed(list, fee, composed) && c < |list| && k < |list[c].outputs|
    ensures
      var place := composed.layout.placements[c];
      && place == PlacementOf(list, c)
      && place.outputBase + place.outputCount <= |composed.pset.outputs| && place.outputCount == |list[c].outputs|
      && (c, list[c].outputs[k].id) in composed.layout.outputs
      && composed.layout.outputs[(c, list[c].outputs[k].id)] == place.outputBase + k
      && CompiledAs(InputList(list), OutputAt(c, list[c].outputs[k]), composed.pset.outputs[place.outputBase + k])
  {
    hide Holds, CompiledAs, LeastLock, InputList, OutputList;
    OutputsTile(list, c);
    var i := |OutputList(list[..c])| + k;
    assert OutputList(list)[i] == OutputAt(c, list[c].outputs[k]);
    assert OutputKeys(OutputList(list))[i] == (c, list[c].outputs[k].id);
  }

  lemma LocalBlinderWithin(list: seq<Contribution>, fee: Fee, composed: Composed, c: nat, k: nat)
    requires WellComposed(list, fee, composed) && c < |list| && k < |list[c].outputs|
    requires list[c].outputs[k].ConfidentialOut? ==> list[c].outputs[k].blinder.Local?
    ensures
      var place := composed.layout.placements[c];
      && place.outputBase + k < |composed.pset.outputs|
      && var output := composed.pset.outputs[place.outputBase + k];
         output.blinderIndex.Some? ==> Within(output.blinderIndex.value, place)
  {
    hide Holds, LeastLock, InputList, OutputList, WellComposed;
    PlacementExists(list, fee, composed, c);
    OutputLands(list, fee, composed, c, k);
    if list[c].outputs[k].ConfidentialOut? {
      var output := composed.pset.outputs[composed.layout.placements[c].outputBase + k];
      HandleLocates(list, output.blinderIndex.value);
    }
  }

  lemma WalletFirst(list: seq<Contribution>, k: nat)
    requires list != [] && k < |list[0].inputs|
    ensures k < |InputList(list)| && InputList(list)[k] == InputAt(0, list[0].inputs[k])
    ensures |list[0].inputs| <= |InputList(list)|
  {
    hide InputList, OutputList;
    InputsTile(list, 0);
    NoneBefore(list);
  }

  /** An external reference to a wallet input is resolved to that wallet input. */
  lemma PayerBlinderInWallet(list: seq<Contribution>, fee: Fee, composed: Composed, c: nat, k: nat, payer: OutPoint)
    requires WellComposed(list, fee, composed) && c < |list| && k < |list[c].outputs|
    requires list[c].outputs[k].ConfidentialOut? && list[c].outputs[k].blinder == External(payer)
    requires InWallet(list[0], payer)
    ensures
      var place := composed.layout.placements[c];
      && place.outputBase + k < |composed.pset.outputs|
      && var output := composed.pset.outputs[place.outputBase + k];
         && output.blinderIndex.Some?
         && output.blinderIndex.value < |list[0].inputs| <= |composed.pset.inputs|
         && composed.pset.inputs[output.blinderIndex.value].outpoint == payer
  {
    hide Holds, LeastLock, InputList, OutputList;
    OutputLands(list, fee, composed, c, k);
    var i := composed.pset.outputs[composed.layout.placements[c].outputBase + k].blinderIndex.value;
    var w :| 0 <= w < |list[0].inputs| && list[0].inputs[w].outpoint == payer;
    WalletFirst(list, w);
    var keys := OutpointKeys(InputList(list));
    assert keys[i] == payer && keys[w] == payer;
    assert composed.layout.outpoints[keys[i]] == i && composed.layout.outpoints[keys[w]] == w;
  }

  /** Every authorized leg of a composition is settled as authorized. */
  lemma AuthorizedLegSettles(
      list: seq<Contribution>, fee: Fee, composed: Composed, leg: PreparedLeg, handle: nat)
    requires WellComposed(list, fee, composed) && 0 < handle < |list|
    requires list[handle] == leg.proposal.contribution
    requires Authorized(leg.request, leg.proposal) && InWallet(list[0], leg.request.payer)
    ensures LegSettled(list[0], leg, handle, composed)
  {
    hide Holds, LeastLock, InputList, OutputList, WellComposed, InWallet;
    var c := leg.proposal.contribution;
    var p: nat :|
      OnlyOutputId(c, leg.proposal.payment, p)
      && IsPayment(c.outputs[p], leg.proposal.execution.input, leg.request.payer);
    var q: nat :|
      OnlyOutputId(c, leg.proposal.receive, q)
      && IsReceipt(c, c.outputs[q], leg.proposal.execution.output, leg.request.recipient);
    OutputLands(list, fee, composed, handle, p);
    OutputLands(list, fee, composed, handle, q);
    PayerBlinderInWallet(list, fee, composed, handle, p, leg.request.payer);
    PlacementExists(list, fee, composed, handle);
    var place := composed.layout.placements[handle];
    forall k | place.outputBase <= k < place.outputBase + place.outputCount && k != place.outputBase + p
      && composed.pset.outputs[k].blinderIndex.Some?
      ensures Within(composed.pset.outputs[k].blinderIndex.value, place)
    {
      LocalBlinderWithin(list, fee, composed, handle, k - place.outputBase);
    }
  }

  lemma PlacementExists(list: seq<Contribution>, fee: Fee, composed: Composed, handle: nat)
    requires WellComposed(list, fee, composed) && handle < |list|
    ensures handle < |composed.layout.placements|
  {
  }

  /** Different economic outputs, of one leg or of two, never share a position. */
  lemma PositionsDiffer(list: seq<Contribution>, fee: Fee, composed: Composed, left: (nat, nat), right: (nat, nat))
    requires WellComposed(list, fee, composed)
    requires left in composed.layout.outputs && right in composed.layout.outputs && left != right
    ensures composed.layout.outputs[left] != composed.layout.outputs[right]
  {
    hide Holds, LeastLock, InputList, OutputList, CompiledAs;
    var keys := OutputKeys(OutputList(list));
    assert keys[composed.layout.outputs[left]] == left;
  }

  predicate EncodableLegs(legs: seq<PreparedLeg>) {
    forall j :: 0 <= j < |legs| ==>
      var bound := legs[j].proposal.contribution.locktime;
      bound.Unconstrained? || Encodable(bound.bound)
  }

  /** Every payer's input is in the wallet and spent by no leg. */
  predicate PayersInWallet(wallet: Contribution, legs: seq<PreparedLeg>) {
    forall j :: 0 <= j < |legs| ==>
      && InWallet(wallet, legs[j].request.payer)
      && forall i :: 0 <= i < |legs| ==> SpendsNot(legs[i].proposal.contribution, legs[j].request.payer)
  }

  method CheckPayers(wallet: Contribution, legs: seq<PreparedLeg>) returns (r: Result<(), VenueError>)
    ensures r.Ok? <==> PayersInWallet(wallet, legs)
  {
    hide InWallet, SpendsNot;
    for j := 0 to |legs|
      invariant forall k :: 0 <= k < j ==> InWallet(wallet, legs[k].request.payer)
      invariant forall k, i :: 0 <= k < j && 0 <= i < |legs| ==>
        SpendsNot(legs[i].proposal.contribution, legs[k].request.payer)
    {
      if !InWallet(wallet, legs[j].request.payer) {
        return Err(PayerBlinderNotInWallet);
      }
      for i := 0 to |legs|
        invariant forall m :: 0 <= m < i ==> SpendsNot(legs[m].proposal.contribution, legs[j].request.payer)
      {
        if !SpendsNot(legs[i].proposal.contribution, legs[j].request.payer) {
          return Err(PayerBlinderClaimedByVenue);
        }
      }
    }
    r := Ok(());
  }

  /** Leg identifiers lead to the contributions behind the wallet's. */
  ghost predicate Handled(legs: seq<PreparedLeg>, handles: map<nat, nat>) {
    && NoDup(LegIds(legs))
    && handles.Keys == ToSet(LegIds(legs))
    && forall j :: 0 <= j < |legs| ==> legs[j].request.id in handles && handles[legs[j].request.id] == j + 1
  }

  lemma HandledAppend(legs: seq<PreparedLeg>, n: nat, handles: map<nat, nat>)
    requires n < |legs| && Handled(legs[..n], handles)
    requires legs[n].request.id !in handles
    ensures Handled(legs[..n + 1], handles[legs[n].request.id := n + 1])
  {
    hide NoDup;
    IdsAppend(legs, n);
    var shorter, longer := legs[..n], legs[..n + 1];
    assert forall j :: 0 <= j < n ==> longer[j] == shorter[j];
    forall j | 0 <= j < n
      ensures longer[j].request.id != legs[n].request.id
    {
      assert shorter[j].request.id in handles;
    }
  }

  /** Pushes the wallet and every leg; on success the composer holds exactly the route's contributions. */
  method PushRoute(composer: TransactionComposer, wallet: Contribution, legs: seq<PreparedLeg>)
    returns (r: Result<map<nat, nat>, VenueError>)
    requires composer.Valid() && composer.contributions == []
    requires EncodableLegs(legs) && (wallet.locktime.Unconstrained? || Encodable(wallet.locktime.bound))
    modifies composer
    ensures composer.Valid()
    ensures r.Ok? ==> composer.contributions == RouteList(wallet, legs) && Handled(legs, r.value)
    ensures r.Ok? <==> |legs| < composer.limits.contributions && NoDup(LegIds(legs))
  {
    hide Handled, NoDup;
    var first := composer.Push(wallet);
    if first.Err? {
      return Err(CompositionFailure(first.error));
    }
    var handles: map<nat, nat> := map[];
    NoneHandled(legs);
    assert legs[..0] == [];
    for n := 0 to |legs|
      invariant composer.Valid()
      invariant composer.contributions == RouteList(wallet, legs[..n]) && |composer.contributions| == n + 1
      invariant Handled(legs[..n], handles)
    {
      assert legs[..n + 1][..n] == legs[..n];
      var pushed := composer.Push(legs[n].proposal.contribution);
      if pushed.Err? {
        return Err(CompositionFailure(pushed.error));
      }
      if legs[n].request.id in handles {
        HandledTwice(legs, n, handles);
        return Err(DuplicateLegId);
      }
      HandledAppend(legs, n, handles);
      handles := handles[legs[n].request.id := pushed.value];
    }
    assert legs[..|legs|] == legs;
    HandledOnce(legs, handles);
    r := Ok(handles);
  }

  lemma HandledTwice(legs: seq<PreparedLeg>, n: nat, handles: map<nat, nat>)
    requires n < |legs| && Handled(legs[..n], handles) && legs[n].request.id in handles
    ensures !NoDup(LegIds(legs))
  {
    hide NoDup;
    IdsAppend(legs, n);
  }

  lemma HandledOnce(legs: seq<PreparedLeg>, handles: map<nat, nat>)
    requires Handled(legs, handles)
    ensures NoDup(LegIds(legs))
  {
  }

  lemma NoneHandled(legs: seq<PreparedLeg>)
    ensures Handled(legs[..0], map[])
  {
    assert ToSet(LegIds(legs[..0])) == {};
  }

  /** What composing asks of wallet and legs together, apart from the size of the result. */
  ghost predicate RouteComposable(rules: ScriptRules, limits: Limits, legs: seq<PreparedLeg>, wallet: Contribution) {
    && PayersInWallet(wallet, legs)
    && |legs| < limits.contributions && NoDup(LegIds(legs))
    && Composable(rules, limits, RouteList(wallet, legs))
  }

  /**
   End to end: whatever the venues proposed, a composed route of authorized legs settles every leg exactly
   as authorized, at positions of its own. Exactly the routes that can be composed are, unless the result
   is too large.
   */
  method Compose(
      rules: ScriptRules, limits: Limits, size: Pset -> nat, legs: seq<PreparedLeg>, fee: Fee, wallet: Contribution)
    returns (r: Result<Route, VenueError>)
    requires forall j :: 0 <= j < |legs| ==> Authorized(legs[j].request, legs[j].proposal)
    requires EncodableLegs(legs) && (wallet.locktime.Unconstrained? || Encodable(wallet.locktime.bound))
    ensures r.Ok? ==>
      && PayersInWallet(wallet, legs)
      && WellComposed(RouteList(wallet, legs), fee, r.value.composed)
      && Handled(legs, r.value.legs)
      && forall j :: 0 <= j < |legs| ==> LegSettled(wallet, legs[j], j + 1, r.value.composed)
    ensures r.Ok? ==> RouteComposable(rules, limits, legs, wallet) && size(r.value.composed.pset) <= limits.psetBytes
    ensures RouteComposable(rules, limits, legs, wallet) ==> r.Ok? || r == Err(CompositionFailure(PsetTooLarge))
  {
    hide Handled, WellComposed, LegSettled, Authorized, InWallet, SpendsNot, EncodableLegs, Composable, NoDup;
    var payers := CheckPayers(wallet, legs);
    if payers.Err? {
      return Err(payers.error);
    }
    var composer := new TransactionComposer(rules, limits, fee, size);
    var handles := PushRoute(composer, wallet, legs);
    if handles.Err? {
      return Err(handles.error);
    }
    var composed := composer.Finish();
    if composed.Err? {
      return Err(CompositionFailure(composed.error));
    }
    RouteListAt(wallet, legs);
    forall j | 0 <= j < |legs|
      ensures LegSettled(wallet, legs[j], j + 1, composed.value)
    {
      AuthorizedLegSettles(RouteList(wallet, legs), fee, composed.value, legs[j], j + 1);
    }
    r := Ok(Route(composed.value, 0, handles.value));
  }

  function PaymentAt(leg: PreparedLeg, handle: nat, composed: Composed): nat {
    if (handle, leg.proposal.payment) in composed.layout.outputs then
      composed.layout.outputs[(handle, leg.proposal.payment)]
    else
      0
  }

  function ReceiptAt(leg: PreparedLeg, handle: nat, composed: Composed): nat {
    if (handle, leg.proposal.receive) in composed.layout.outputs then
      composed.layout.outputs[(handle, leg.proposal.receive)]
    else
      0
  }

  /** The payments and receipts of all legs occupy pairwise distinct positions. */
  lemma EconomicOutputsDistinct(
      wallet: Contribution, legs: seq<PreparedLeg>, fee: Fee, composed: Composed, i: nat, j: nat)
    requires WellComposed(RouteList(wallet, legs), fee, composed)
    requires i < |legs| && j < |legs|
    requires LegSettled(wallet, legs[i], i + 1, composed) && LegSettled(wallet, legs[j], j + 1, composed)
    ensures PaymentAt(legs[i], i + 1, composed) != ReceiptAt(legs[j], j + 1, composed)
    ensures i != j ==> PaymentAt(legs[i], i + 1, composed) != PaymentAt(legs[j], j + 1, composed)
    ensures i != j ==> ReceiptAt(legs[i], i + 1, composed) != ReceiptAt(legs[j], j + 1, composed)
  {
    hide WellComposed;
    var list := RouteList(wallet, legs);
    if i != j {
      PositionsDiffer(list, fee, composed, (i + 1, legs[i].proposal.payment), (j + 1, legs[j].proposal.payment));
      PositionsDiffer(list, fee, composed, (i + 1, legs[i].proposal.receive), (j + 1, legs[j].proposal.receive));
      PositionsDiffer(list, fee, composed, (i + 1, legs[i].proposal.payment), (j + 1, legs[j].proposal.receive));
    }
  }

  /** Sum of the amounts at the receipt positions of a composition. */
  function Received(legs: seq<PreparedLeg>, composed: Composed): nat {
    if legs == [] then
      0
    else
      var n := |legs| - 1;
      var at := ReceiptAt(legs[n], n + 1, composed);
      Received(legs[..n], composed) +
      if at < |composed.pset.outputs| && composed.pset.outputs[at].amount.Some? then
        composed.pset.outputs[at].amount.value
      else
        0
  }

  function Paid(legs: seq<PreparedLeg>, composed: Composed): nat {
    if legs == [] then
      0
    else
      var n := |legs| - 1;
      var at := PaymentAt(legs[n], n + 1, composed);
      Paid(legs[..n], composed) +
      if at < |composed.pset.outputs| && composed.pset.outputs[at].amount.Some? then
        composed.pset.outputs[at].amount.value
      else
        0
  }

  lemma {:induction false} SettledSums(wallet: Contribution, legs: seq<PreparedLeg>, composed: Composed)
    requires forall j :: 0 <= j < |legs| ==> LegSettled(wallet, legs[j], j + 1, composed)
    ensures Received(legs, composed) == OutputTotal(legs) && Paid(legs, composed) == InputTotal(legs)
  {
    if legs != [] {
      var n := |legs| - 1;
      assert LegSettled(wallet, legs[n], n + 1, composed);
      forall j | 0 <= j < n
        ensures LegSettled(wallet, legs[..n][j], j + 1, composed)
      {
        assert LegSettled(wallet, legs[j], j + 1, composed);
      }
      SettledSums(wallet, legs[..n], composed);
    }
  }

  /** So the transaction itself pays and receives what the trade bounds allow. */
  lemma RouteMeetsBounds(
      request: Request, wallet: Contribution, legs: seq<PreparedLeg>, fee: Fee, composed: Composed)
    requires RouteAllowed(request, legs, fee)
    requires forall j :: 0 <= j < |legs| ==> LegSettled(wallet, legs[j], j + 1, composed)
    ensures BoundsMet(request.kind, Paid(legs, composed), Received(legs, composed))
  {
    hide LegSettled, NoDup;
    SettledSums(wallet, legs, composed);
  }

  /** The position a leg pays at and the one it is paid at, as the request has it: assets, recipient, payer. */
  ghost predicate LegServes(request: Request, leg: PreparedLeg, handle: nat, composed: Composed) {
    var outputs, inputs := composed.pset.outputs, composed.pset.inputs;
    var pay, receive := PaymentAt(leg, handle, composed), ReceiptAt(leg, handle, composed);
    && pay < |outputs| && receive < |outputs|
    && outputs[pay].asset == Some(TradePair(request.kind).0)
    && outputs[pay].blinderIndex.Some? && outputs[pay].blinderIndex.value < |inputs|
    && inputs[outputs[pay].blinderIndex.value].outpoint == leg.request.payer
    && outputs[receive].asset == Some(TradePair(request.kind).1)
    && outputs[receive].script == request.recipient.script
    && outputs[receive].key == Some(request.recipient.key)
  }

  lemma SettledLegServes(request: Request, wallet: Contribution, leg: PreparedLeg, handle: nat, composed: Composed)
    requires LegBelongs(request, leg) && LegSettled(wallet, leg, handle, composed)
    ensures LegServes(request, leg, handle, composed)
  {
  }

  ghost predicate PositionsDistinct(legs: seq<PreparedLeg>, composed: Composed) {
    && (forall i, j :: 0 <= i < |legs| && 0 <= j < |legs| ==>
          PaymentAt(legs[i], i + 1, composed) != ReceiptAt(legs[j], j + 1, composed))
    && (forall i, j :: 0 <= i < |legs| && 0 <= j < |legs| && i != j ==>
          && PaymentAt(legs[i], i + 1, composed) != PaymentAt(legs[j], j + 1, composed)
          && ReceiptAt(legs[i], i + 1, composed) != ReceiptAt(legs[j], j + 1, composed))
  }

  /**
   What the user asked for, in the transaction: the payments and receipts stand at pairwise distinct
   positions, every receipt goes to the request's recipient in the bought asset, every payment is in the
   sold asset and blinded by its payer, and the amounts at those positions meet the trade bounds.
   */
  ghost predicate Fulfilled(request: Request, legs: seq<PreparedLeg>, composed: Composed) {
    && PositionsDistinct(legs, composed)
    && (forall j :: 0 <= j < |legs| ==> LegServes(request, legs[j], j + 1, composed))
    && BoundsMet(request.kind, Paid(legs, composed), Received(legs, composed))
  }

  lemma SettledRouteFulfils(
      request: Request, wallet: Contribution, legs: seq<PreparedLeg>, fee: Fee, composed: Composed)
    requires RouteAllowed(request, legs, fee)
    requires WellComposed(RouteList(wallet, legs), fee, composed)
    requires forall j :: 0 <= j < |legs| ==> LegSettled(wallet, legs[j], j + 1, composed)
    ensures Fulfilled(request, legs, composed)
  {
    hide LegSettled, WellComposed, LegBelongs, LegServes, BoundsMet, PaymentAt, ReceiptAt, NoDup, Paid, Received;
    RouteMeetsBounds(request, wallet, legs, fee, composed);
    forall j | 0 <= j < |legs|
      ensures LegServes(request, legs[j], j + 1, composed)
    {
      SettledLegServes(request, wallet, legs[j], j + 1, composed);
    }
    forall i, j | 0 <= i < |legs| && 0 <= j < |legs|
      ensures PaymentAt(legs[i], i + 1, composed) != ReceiptAt(legs[j], j + 1, composed)
      ensures i != j ==> PaymentAt(legs[i], i + 1, composed) != PaymentAt(legs[j], j + 1, composed)
      ensures i != j ==> ReceiptAt(legs[i], i + 1, composed) != ReceiptAt(legs[j], j + 1, composed)
    {
      EconomicOutputsDistinct(wallet, legs, fee, composed, i, j);
    }
  }

  /**
   From the request to the transaction: aggregates the prepared legs, refuses what the request does not
   allow, and composes the rest with the wallet. Whatever it returns fulfils the request, and it returns
   every allowed route that can be composed, unless the transaction is too large.
   */
  method ExecuteRoute(
      rules: ScriptRules, limits: Limits, size: Pset -> nat, request: Request, legs: seq<PreparedLeg>, fee: Fee,
      wallet: Contribution)
    returns (r: Result<(Summary, Route), VenueError>)
    requires forall j :: 0 <= j < |legs| ==> Authorized(legs[j].request, legs[j].proposal)
    requires EncodableLegs(legs) && (wallet.locktime.Unconstrained? || Encodable(wallet.locktime.bound))
    ensures r.Ok? ==>
      && RouteAllowed(request, legs, fee)
      && Fulfilled(request, legs, r.value.1.composed)
      && r.value.0.input == Paid(legs, r.value.1.composed) && r.value.0.output == Received(legs, r.value.1.composed)
      && WellComposed(RouteList(wallet, legs), fee, r.value.1.composed)
      && Handled(legs, r.value.1.legs)
    ensures r.Ok? ==> RouteComposable(rules, limits, legs, wallet)
    ensures RouteAllowed(request, legs, fee) && RouteComposable(rules, limits, legs, wallet) ==>
      r.Ok? || r == Err(CompositionFailure(PsetTooLarge))
  {
    hide RouteComposable, Authorized, EncodableLegs, RouteAllowed, WellComposed, Handled, LegSettled, Fulfilled, FeeTotal;
    var summary := ValidateRoute(request, legs, fee);
    if summary.Err? {
      return Err(summary.error);
    }
    var route := Compose(rules, limits, size, legs, fee, wallet);
    if route.Err? {
      return Err(route.error);
    }
    SettledRouteFulfils(request, wallet, legs, fee, route.value.composed);
    SettledSums(wallet, legs, route.value.composed);
    r := Ok((summary.value, route.value));
  }
}
