/** The node's reading of a confirmed market spend, from the decoded witness on. */
module MarketSpend {
  import opened Types
  import opened Ledger
  import opened Scalar
  import opened Market
  import opened MarketLayout
  import opened MarketPlan
  import opened Overlay
  import opened OverlayBlocks

  /** A coordinator's decoded witness: the operation, where its outputs start, and the oracle's word. */
  datatype Claim = Claim(operation: Operation, outputBase: nat, outcome: Outcome, signature: nat)

  /** Witness decoding for the input of a slot: the covenant program itself is not part of this model. */
  type Decoder = (Transaction, nat, Slot) -> Option<Claim>

  datatype Context = Context(oracle: Oracle, decode: Decoder, key: KeyCheck)

  datatype Reading = Reading(inputBase: nat, claim: Claim, action: Action, spend: Spend)

  // ----- Output windows -----

  predicate At(outputs: seq<TxOut>, index: nat, txout: TxOut) {
    index <= U32_MAX && index < |outputs| && outputs[index] == txout
  }

  predicate Matches(outputs: seq<TxOut>, base: nat, window: seq<TxOut>) {
    if window == [] then
      true
    else
      && Matches(outputs, base, window[..|window| - 1])
      && At(outputs, base + |window| - 1, window[|window| - 1])
  }

  lemma MatchesAppend(outputs: seq<TxOut>, base: nat, window: seq<TxOut>, next: TxOut)
    ensures Matches(outputs, base, window + [next])
       <==> Matches(outputs, base, window) && At(outputs, base + |window|, next)
  {
    assert (window + [next])[..|window|] == window;
  }

  lemma {:induction false} MatchesConcat(outputs: seq<TxOut>, base: nat, left: seq<TxOut>, right: seq<TxOut>)
    ensures Matches(outputs, base, left + right)
       <==> Matches(outputs, base, left) && Matches(outputs, base + |left|, right)
  {
    if right == [] {
      assert left + right == left;
    } else {
      var k := |right| - 1;
      MatchesConcat(outputs, base, left, right[..k]);
      assert left + right == (left + right[..k]) + [right[k]];
      assert right == right[..k] + [right[k]];
      MatchesAppend(outputs, base, left + right[..k], right[k]);
      MatchesAppend(outputs, base + |left|, right[..k], right[k]);
    }
  }

  lemma SliceLast(outputs: seq<TxOut>, base: nat, window: seq<TxOut>)
    requires window != [] && base + |window| <= |outputs|
    ensures
      var k := |window| - 1;
      outputs[base..base + |window|] == window <==>
        outputs[base..base + k] == window[..k] && outputs[base + k] == window[k]
  {
    var k := |window| - 1;
    assert outputs[base..base + |window|] == outputs[base..base + k] + [outputs[base + k]];
    assert window == window[..k] + [window[k]];
  }

  lemma {:induction false} MatchesAll(outputs: seq<TxOut>, base: nat, window: seq<TxOut>)
    ensures Matches(outputs, base, window) && window != [] <==>
      && window != []
      && base + |window| <= |outputs|
      && base + |window| <= U32_MAX + 1
      && outputs[base..base + |window|] == window
  {
    if window != [] {
      var k := |window| - 1;
      MatchesAll(outputs, base, window[..k]);
      if base + |window| <= |outputs| {
        SliceLast(outputs, base, window);
      }
    }
  }

  lemma MatchesOne(outputs: seq<TxOut>, base: nat, a: TxOut)
    ensures Matches(outputs, base, [a]) <==> At(outputs, base, a)
  {
    assert [] + [a] == [a];
    MatchesAppend(outputs, base, [], a);
  }

  lemma MatchesTwo(outputs: seq<TxOut>, base: nat, a: TxOut, b: TxOut)
    ensures Matches(outputs, base, [a, b]) <==> At(outputs, base, a) && At(outputs, base + 1, b)
  {
    MatchesOne(outputs, base, a);
    assert [a] + [b] == [a, b];
    MatchesAppend(outputs, base, [a], b);
  }

  // ----- The state a spend is read in -----

  predicate Confidential(txout: TxOut) {
    !txout.asset.ExplicitAsset? && !txout.value.ExplicitValue?
  }

  /** The tracked outputs carry the scripts and amounts of the state. */
  predicate LiveMatches(params: Params, state: MarketState, live: LiveOutputs) {
    && params.basePayout in BASE_PAYOUTS
    && ValidateState(params.basePayout, state).Ok?
    && Held(params.basePayout, state) <= U64_MAX
    && (if state.Trading? then
          && live.yesRt.Some? && live.yesRt.value.txout.script == Covenant(params, RtSlot(state, Yes))
          && live.noRt.Some? && live.noRt.value.txout.script == Covenant(params, RtSlot(state, No))
          && Confidential(live.yesRt.value.txout) && Confidential(live.noRt.value.txout)
          && (state == Trading(0) ==> live.collateral.None?)
        else
          live.yesRt.None? && live.noRt.None?)
    && (state != Trading(0) ==>
          && live.collateral.Some?
          && live.collateral.value.txout
             == ExplicitOut(params.collateral, Held(params.basePayout, state), Covenant(params, CollateralSlot(state))))
  }

  /** Both tokens' side, read off their commitments. */
  function SideOf(params: Params, state: MarketState, live: LiveOutputs): Option<Side> {
    if !state.Trading? then
      Some(A)
    else if live.yesRt.None? || live.noRt.None? then
      None
    else
      var yes := InferSide(Yes, params.yesRt, live.yesRt.value.txout.asset, live.yesRt.value.txout.value);
      var no := InferSide(No, params.noRt, live.noRt.value.txout.asset, live.noRt.value.txout.value);
      if yes == no then yes else None
  }

  function Head(state: MarketState, live: LiveOutputs): Option<TrackedOutput> {
    if state.Trading? then live.yesRt else live.collateral
  }

  predicate OnlyInput(tx: Transaction, outpoint: OutPoint, index: nat) {
    && index < |tx.inputs| && tx.inputs[index].previous == outpoint
    && forall k :: 0 <= k < |tx.inputs| && tx.inputs[k].previous == outpoint ==> k == index
  }

  method LocateInput(tx: Transaction, outpoint: OutPoint) returns (r: Option<nat>)
    ensures forall k: nat :: r == Some(k) <==> OnlyInput(tx, outpoint, k)
  {
    r := None;
    for i := 0 to |tx.inputs|
      invariant r.None? ==> forall k :: 0 <= k < i ==> tx.inputs[k].previous != outpoint
      invariant r.Some? ==> r.value < i && tx.inputs[r.value].previous == outpoint
      invariant r.Some? ==> forall k :: 0 <= k < i && tx.inputs[k].previous == outpoint ==> k == r.value
    {
      if tx.inputs[i].previous == outpoint {
        if r.Some? {
          assert i != r.value;
          return None;
        }
        r := Some(i);
      }
    }
  }

  /** The group's live outpoints, in slot order. */
  function GroupOf(state: MarketState, live: LiveOutputs): seq<Option<TrackedOutput>> {
    if state == Trading(0) then
      [live.yesRt, live.noRt]
    else if state.Trading? then
      [live.yesRt, live.noRt, live.collateral]
    else
      [live.collateral]
  }

  function Spent(group: seq<Option<TrackedOutput>>): seq<OutPoint>
    requires forall k :: 0 <= k < |group| ==> group[k].Some?
  {
    seq(|group|, k requires 0 <= k < |group| => group[k].value.outpoint)
  }

  /** The inputs from the base on spend the whole group in order, and a trading group consists of siblings. */
  predicate GroupSpent(state: MarketState, live: LiveOutputs, tx: Transaction, base: nat) {
    && InputsSpend(GroupOf(state, live), tx, base)
    && (state.Trading? ==> Siblings(state, live))
  }

  predicate InputsSpend(group: seq<Option<TrackedOutput>>, tx: Transaction, base: nat) {
    forall k :: 0 <= k < |group| ==>
      && group[k].Some?
      && base + k <= U32_MAX && base + k < |tx.inputs|
      && tx.inputs[base + k].previous == group[k].value.outpoint
  }

  /** Issuances of the group's inputs: those of an issue, or none. */
  predicate IssuancesMatch(
      params: Params, state: MarketState, tx: Transaction, base: nat, action: Action, side: Side, size: nat)
  {
    base + size <= |tx.inputs| &&
    if action.Issue? then
      && size >= 2
      && tx.inputs[base].issuance == Some(Reissuance(params, Yes, action.pairs, side))
      && tx.inputs[base + 1].issuance == Some(Reissuance(params, No, action.pairs, side))
      && (size > 2 ==> tx.inputs[base + 2].issuance.None?)
    else
      forall k :: base <= k < base + size ==> tx.inputs[k].issuance.None?
  }

  predicate ExpiryLocked(tx: Transaction, expiry: nat) {
    && tx.locktime.Blocks? && tx.locktime.height >= expiry
    && exists k :: 0 <= k < |tx.inputs| && !tx.inputs[k].isFinal
  }

  /** The parameters compile, the tracked outputs fit the state, and the head of the group is spent by exactly one input. */
  predicate Located(
      context: Context, params: Params, before: MarketState, live: LiveOutputs, tx: Transaction, base: nat, claim: Claim)
  {
    && ValidParams(context.key, params)
    && LiveMatches(params, before, live)
    && SideOf(params, before, live).Some?
    && base <= U32_MAX && OnlyInput(tx, Head(before, live).value.outpoint, base)
    && context.decode(tx, base, Coordinator(before)) == Some(claim)
  }

  predicate Authorized(context: Context, params: Params, tx: Transaction, claim: Claim, action: Action) {
    && claim.operation == Kind(action)
    && (action.Resolve? ==>
          claim.outcome == action.outcome && context.oracle(params, claim.outcome, claim.signature))
    && (action.Expire? ==> ExpiryLocked(tx, params.expiryHeight))
  }

  predicate WindowAccepted(
      params: Params, before: MarketState, action: Action, side: Side, outputs: seq<TxOut>, base: nat)
  {
    && Apply(params.basePayout, before, action).Ok?
    && var applied := Apply(params.basePayout, before, action).value;
       && Held(params.basePayout, applied.after) <= U64_MAX
       && Matches(outputs, base, Window(params, before, applied, side))
  }

  /** An action explains a spend: applied to the state, it accounts for every input and output of the group. */
  predicate Explains(
      context: Context, params: Params, before: MarketState, live: LiveOutputs, tx: Transaction,
      base: nat, claim: Claim, action: Action)
  {
    && Located(context, params, before, live, tx, base, claim)
    && Authorized(context, params, tx, claim, action)
    && GroupSpent(before, live, tx, base)
    && IssuancesMatch(
         params, before, tx, base, action, SideOf(params, before, live).value, |GroupOf(before, live)|)
    && WindowAccepted(
         params, before, action, Flip(SideOf(params, before, live).value), tx.outputs, claim.outputBase)
  }

  function SpendFor(
      params: Params, before: MarketState, live: LiveOutputs, tx: Transaction, claim: Claim, action: Action, path: Path)
    : Spend
    requires Apply(params.basePayout, before, action).Ok? && SideOf(params, before, live).Some?
    requires Held(params.basePayout, Apply(params.basePayout, before, action).value.after) <= U64_MAX
    requires forall k :: 0 <= k < |GroupOf(before, live)| ==> GroupOf(before, live)[k].Some?
  {
    var applied := Apply(params.basePayout, before, action).value;
    Spend(
      path, applied.after, applied.transition, Spent(GroupOf(before, live)),
      Continuations(
        tx.txid, claim.outputBase, Window(params, before, applied, Flip(SideOf(params, before, live).value))))
  }

  // ----- The path-driven checks -----

  function OutputAt(tx: Transaction, base: nat, offset: nat): Option<TxOut> {
    if base + offset <= U32_MAX && base + offset < |tx.outputs| then Some(tx.outputs[base + offset]) else None
  }

  function ExplicitOf(txout: TxOut): Option<(AssetId, U64)> {
    if txout.asset.ExplicitAsset? && txout.value.ExplicitValue? then
      Some((txout.asset.id, txout.value.amount))
    else
      None
  }

  function BurnAmount(tx: Transaction, base: nat, offset: nat, asset: AssetId): Option<U64> {
    var output := OutputAt(tx, base, offset);
    if output.None? || ExplicitOf(output.value).None? then
      None
    else
      var (actual, amount) := ExplicitOf(output.value).value;
      if actual != asset || amount == 0 || output.value.script != BareOpReturn then None else Some(amount)
  }

  lemma BurnAmountExactly(params: Params, tx: Transaction, base: nat, offset: nat, leg: Outcome, amount: U64)
    ensures BurnAmount(tx, base, offset, TokenAsset(params, leg)) == Some(amount)
       <==> amount > 0 && At(tx.outputs, base + offset, BurnOut(params, leg, amount))
  {
  }

  /** The third output tells a partial cancellation from a full one: collateral goes on, or tokens burn. */
  function CancellationIsFull(params: Params, tx: Transaction, base: nat): Option<bool> {
    var output := OutputAt(tx, base, 2);
    if output.None? || ExplicitOf(output.value).None? then
      None
    else if ExplicitOf(output.value).value.0 == params.collateral then
      Some(false)
    else if BurnAmount(tx, base, 2, params.yesToken).None? then
      None
    else
      Some(true)
  }

  /** A resolved market fixes the outcome; after expiry the burned asset names it. */
  function RedeemedOutcome(params: Params, before: MarketState, burn: Option<TxOut>): Option<Outcome> {
    if before.ResolvedYes? then
      Some(Yes)
    else if before.ResolvedNo? then
      Some(No)
    else if burn.None? || ExplicitOf(burn.value).None? then
      None
    else if ExplicitOf(burn.value).value.0 == params.yesToken then
      Some(Yes)
    else if ExplicitOf(burn.value).value.0 == params.noToken then
      Some(No)
    else
      None
  }

  function RedemptionDetails(params: Params, before: MarketState, tx: Transaction, base: nat): Option<(Outcome, U64)> {
    var first := OutputAt(tx, base, 0);
    if first.None? || ExplicitOf(first.value).None? || before.Trading? then
      None
    else
      var offset := if ExplicitOf(first.value).value.0 == params.collateral then 1 else 0;
      var outcome := RedeemedOutcome(params, before, OutputAt(tx, base, offset));
      if outcome.None? then
        None
      else
        var tokens := BurnAmount(tx, base, offset, TokenAsset(params, outcome.value));
        if tokens.None? then None else Some((outcome.value, tokens.value))
  }

  function IssuanceAmount(params: Params, tx: Transaction, index: nat, leg: Outcome, side: Side): Option<U64> {
    if index > U32_MAX || index >= |tx.inputs| || tx.inputs[index].issuance.None? then
      None
    else
      var issuance := tx.inputs[index].issuance.value;
      if && issuance.asset == TokenAsset(params, leg)
         && issuance.reissuanceToken == RtAsset(params, leg)
         && issuance.inflationKeysNull
         && issuance.nonce == AbfOf(side)
      then
        issuance.amount
      else
        None
  }

  /** The action a path stands for, its quantities read off issuances and burns. */
  function ReadAction(
      params: Params, before: MarketState, path: Path, tx: Transaction, base: nat, outputBase: nat, side: Side,
      outcome: Outcome, tokens: U64): Option<Action>
  {
    match path
    case InitialIssuance => ReadIssue(params, tx, base, side)
    case SubsequentIssuance => ReadIssue(params, tx, base, side)
    case PartialCancellation => ReadCancel(params, tx, outputBase, 3)
    case FullCancellation => ReadCancel(params, tx, outputBase, 2)
    case ActiveResolution => Some(Resolve(outcome))
    case DormantResolution => Some(Resolve(outcome))
    case ActiveExpiry => if ExpiryLocked(tx, params.expiryHeight) then Some(Expire) else None
    case DormantExpiry => if ExpiryLocked(tx, params.expiryHeight) then Some(Expire) else None
    case ResolvedRedemption =>
      if before.ResolvedYes? then
        Some(Redeem(Yes, tokens))
      else if before.ResolvedNo? then
        Some(Redeem(No, tokens))
      else
        None
    case ExpiryRedemption => Some(Redeem(outcome, tokens))
  }

  function ReadIssue(params: Params, tx: Transaction, base: nat, side: Side): Option<Action> {
    var yes := IssuanceAmount(params, tx, base, Yes, side);
    var no := IssuanceAmount(params, tx, base + 1, No, side);
    if yes.None? || no.None? || yes.value == 0 || yes != no then None else Some(Issue(yes.value))
  }

  function ReadCancel(params: Params, tx: Transaction, outputBase: nat, offset: nat): Option<Action> {
    var yes := BurnAmount(tx, outputBase, offset, params.yesToken);
    var no := BurnAmount(tx, outputBase, offset + 1, params.noToken);
    if yes.None? || no != yes then None else Some(Cancel(yes.value))
  }

  /** Issuances a path forbids on its inputs. */
  predicate NoStrayIssuance(path: Path, before: MarketState, tx: Transaction, base: nat) {
    if before == Trading(0) then
      && base + 1 < |tx.inputs|
      && (path != InitialIssuance ==> tx.inputs[base].issuance.None? && tx.inputs[base + 1].issuance.None?)
    else if before.Trading? then
      && base + 2 < |tx.inputs|
      && (path != SubsequentIssuance ==>
            tx.inputs[base].issuance.None? && tx.inputs[base + 1].issuance.None?)
      && tx.inputs[base + 2].issuance.None?
    else
      base < |tx.inputs| && tx.inputs[base].issuance.None?
  }

  method VerifyInputGroup(params: Params, path: Path, before: MarketState, live: LiveOutputs, tx: Transaction, base: nat)
    returns (r: Option<seq<OutPoint>>)
    requires LiveMatches(params, before, live)
    ensures r.Some? <==> GroupSpent(before, live, tx, base) && NoStrayIssuance(path, before, tx, base)
    ensures r.Some? ==>
      && (forall k :: 0 <= k < |GroupOf(before, live)| ==> GroupOf(before, live)[k].Some?)
      && r.value == Spent(GroupOf(before, live))
  {
    hide LiveMatches, NoStrayIssuance, Siblings;
    var group := GroupOf(before, live);
    var spent: seq<OutPoint> := [];
    for offset := 0 to |group|
      invariant InputsSpend(group[..offset], tx, base)
      invariant spent == Spent(group[..offset])
    {
      ghost var reached := group[..offset + 1];
      assert reached[..offset] == group[..offset] && reached[offset] == group[offset];
      if group[offset].None? || base + offset > U32_MAX || base + offset >= |tx.inputs| {
        return None;
      }
      if tx.inputs[base + offset].previous != group[offset].value.outpoint {
        return None;
      }
      assert forall k :: 0 <= k < offset ==> reached[k] == group[..offset][k];
      spent := spent + [group[offset].value.outpoint];
    }
    assert group[..|group|] == group;
    if before.Trading? && !Siblings(before, live) {
      return None;
    }
    if !NoStrayIssuance(path, before, tx, base) {
      return None;
    }
    r := Some(spent);
  }

  /** Two token outputs in a row, on one side. */
  predicate RtPairAt(params: Params, tx: Transaction, base: nat, side: Side, yes: Script, no: Script) {
    && At(tx.outputs, base, RtOut(params, Yes, side, yes))
    && At(tx.outputs, base + 1, RtOut(params, No, side, no))
  }

  function RtContinuation(params: Params, tx: Transaction, base: nat, side: Side, yesSlot: Slot, noSlot: Slot): seq<Continuation> {
    [Continuation(yesSlot, TrackedAt(tx.txid, base, RtOut(params, Yes, side, Covenant(params, yesSlot)))),
     Continuation(noSlot, TrackedAt(tx.txid, base + 1, RtOut(params, No, side, Covenant(params, noSlot))))]
  }

  function CollateralOut(params: Params, slot: Slot, amount: U64): TxOut {
    ExplicitOut(params.collateral, amount, Covenant(params, slot))
  }

  function RtScript(params: Params, after: MarketState, leg: Outcome): Script {
    if after.Trading? then Covenant(params, RtSlot(after, leg)) else BareOpReturn
  }

  predicate CollateralAt(params: Params, tx: Transaction, index: nat, slot: Slot, amount: U64) {
    At(tx.outputs, index, CollateralOut(params, slot, amount))
  }

  function CollateralContinuation(params: Params, tx: Transaction, index: nat, slot: Slot, amount: U64): Continuation {
    Continuation(slot, TrackedAt(tx.txid, index, CollateralOut(params, slot, amount)))
  }

  lemma PairAndCollateral(
      params: Params, tx: Transaction, before: MarketState, after: MarketState, side: Side, base: nat)
    requires before.Trading? && Held(params.basePayout, after) <= U64_MAX
    ensures
      var held := Held(params.basePayout, after);
      Matches(tx.outputs, base, Kept(params, before, after, side)) <==>
      && RtPairAt(params, tx, base, side, RtScript(params, after, Yes), RtScript(params, after, No))
      && (held > 0 ==> CollateralAt(params, tx, base + 2, CollateralSlot(after), held))
  {
    hide AbfOf, VbfOf, Product, Held, RtOut;
    var rt, collateral := RtPart(params, before, after, side), CollateralPart(params, after);
    MatchesConcat(tx.outputs, base, rt, collateral);
    MatchesTwo(
      tx.outputs, base, RtOut(params, Yes, side, RtScript(params, after, Yes)),
      RtOut(params, No, side, RtScript(params, after, No)));
    if collateral != [] {
      assert collateral == [collateral[0]];
      MatchesOne(tx.outputs, base + 2, collateral[0]);
    }
  }

  lemma PairAndCollateralContinue(
      params: Params, tx: Transaction, before: MarketState, after: MarketState, side: Side, base: nat)
    requires before.Trading? && Held(params.basePayout, after) <= U64_MAX
    ensures
      var held := Held(params.basePayout, after);
      Continuations(tx.txid, base, Kept(params, before, after, side)) ==
      (if after.Trading? then RtContinuation(params, tx, base, side, RtSlot(after, Yes), RtSlot(after, No)) else [])
      + if held > 0 then [CollateralContinuation(params, tx, base + 2, CollateralSlot(after), held)] else []
  {
    hide AbfOf, VbfOf, Product, Held, RtOut, Continuations;
    var rt, collateral := RtPart(params, before, after, side), CollateralPart(params, after);
    NothingContinues(tx.txid, base);
    RtTagged(params, side, after);
    assert rt == [rt[0], rt[1]] && [] + [rt[0]] == [rt[0]] && [rt[0]] + [rt[1]] == rt;
    ContinuationsAppend(tx.txid, base, [], rt[0]);
    ContinuationsAppend(tx.txid, base, [rt[0]], rt[1]);
    if collateral != [] {
      assert collateral == [collateral[0]];
      ContinuationsAppend(tx.txid, base, rt, collateral[0]);
    } else {
      assert rt + collateral == rt;
    }
  }

  lemma NothingContinues(txid: Txid, base: nat)
    ensures Continuations(txid, base, []) == []
  {
  }

  lemma RtTagged(params: Params, side: Side, after: MarketState)
    ensures forall leg, script :: RtOut(params, leg, side, script).script == script
  {
  }

  /** The token part of the output check, path by path. */
  method VerifyTokenOutputs(
      params: Params, tx: Transaction, path: Path, before: MarketState, side: Side, applied: Applied, base: nat,
      ghost action: Action, ghost full: bool)
    returns (r: Option<seq<Continuation>>)
    requires Apply(params.basePayout, before, action) == Ok(applied) && before.Trading?
    requires ForOperation(Coordinator(before), Kind(action), if action.Cancel? then Some(full) else None) == Ok(path)
    ensures Held(params.basePayout, applied.after) <= U64_MAX
    ensures r.Some? <==>
      && (action.Cancel? ==> full == applied.transition.full)
      && Matches(tx.outputs, base, Kept(params, before, applied.after, side))
    ensures r.Some? ==> r.value == Continuations(tx.txid, base, Kept(params, before, applied.after, side))
  {
    hide AbfOf, VbfOf, Product, RtOut, Matches, Continuations, At, Kept;
    AppliedHoldsU64(params.basePayout, before, action);
    var after := applied.after;
    if after.Trading? {
      HeldZero(params.basePayout, after.outstandingPairs);
    }
    HeldZero(params.basePayout, before.outstandingPairs);
    PairAndCollateral(params, tx, before, after, side, base);
    PairAndCollateralContinue(params, tx, before, after, side, base);
    var amount: U64 := Held(params.basePayout, after);
    var output: seq<Continuation> := [];
    if path == FullCancellation {
      if after != Trading(0) {
        return None;
      }
      if !RtPairAt(params, tx, base, side, Covenant(params, DormantYesRt), Covenant(params, DormantNoRt)) {
        return None;
      }
      output := output + RtContinuation(params, tx, base, side, DormantYesRt, DormantNoRt);
    } else if path in {InitialIssuance, SubsequentIssuance, PartialCancellation} {
      if !RtPairAt(params, tx, base, side, Covenant(params, UnresolvedYesRt), Covenant(params, UnresolvedNoRt)) {
        return None;
      }
      output := output + RtContinuation(params, tx, base, side, UnresolvedYesRt, UnresolvedNoRt);
      if path == PartialCancellation && amount == 0 {
        return None;
      }
      if !CollateralAt(params, tx, base + 2, UnresolvedCollateral, amount) {
        return None;
      }
      output := output + [CollateralContinuation(params, tx, base + 2, UnresolvedCollateral, amount)];
    } else {
      if !RtPairAt(params, tx, base, side, BareOpReturn, BareOpReturn) {
        return None;
      }
      if path in {ActiveResolution, ActiveExpiry} {
        var slot := if path == ActiveExpiry then ExpiredCollateral else CollateralSlot(after);
        if !CollateralAt(params, tx, base + 2, slot, amount) {
          return None;
        }
        output := output + [CollateralContinuation(params, tx, base + 2, slot, amount)];
      }
    }
    r := Some(output);
  }

  lemma RedemptionWindow(
      params: Params, tx: Transaction, before: MarketState, side: Side, applied: Applied, base: nat)
    requires !before.Trading? && !applied.after.Trading? && applied.transition.Redeemed?
    ensures
      var left := applied.after.collateral;
      var slot := CollateralSlot(applied.after);
      var burn := BurnOut(params, applied.transition.outcome, applied.transition.tokens);
      var window := Window(params, before, applied, side);
      if left > 0 then
        && (Matches(tx.outputs, base, window) <==>
              CollateralAt(params, tx, base, slot, left) && At(tx.outputs, base + 1, burn))
        && Continuations(tx.txid, base, window) == [CollateralContinuation(params, tx, base, slot, left)]
      else
        && (Matches(tx.outputs, base, window) <==> At(tx.outputs, base, burn))
        && Continuations(tx.txid, base, window) == []
  {
    hide AbfOf, VbfOf, RtOut, Matches, Continuations;
    NothingContinues(tx.txid, base);
    var burn := BurnOut(params, applied.transition.outcome, applied.transition.tokens);
    if applied.after.collateral > 0 {
      var left := CollateralOut(params, CollateralSlot(applied.after), applied.after.collateral);
      assert Window(params, before, applied, side) == [left, burn] == [left] + [burn];
      MatchesTwo(tx.outputs, base, left, burn);
      assert [] + [left] == [left];
      ContinuationsAppend(tx.txid, base, [], left);
      ContinuationsAppend(tx.txid, base, [left], burn);
    } else {
      assert Window(params, before, applied, side) == [burn] == [] + [burn];
      MatchesOne(tx.outputs, base, burn);
      ContinuationsAppend(tx.txid, base, [], burn);
    }
  }

  /** The output check of a redemption: collateral that is left, then the burn. */
  method VerifyRedemptionOutputs(
      params: Params, tx: Transaction, before: MarketState, side: Side, applied: Applied, base: nat, tokens: U64,
      ghost outcome: Outcome)
    returns (r: Option<seq<Continuation>>)
    requires Apply(params.basePayout, before, Redeem(outcome, tokens)) == Ok(applied) && !before.Trading?
    ensures Held(params.basePayout, applied.after) <= U64_MAX
    ensures r.Some? <==> Matches(tx.outputs, base, Window(params, before, applied, side))
    ensures r.Some? ==> r.value == Continuations(tx.txid, base, Window(params, before, applied, side))
  {
    hide AbfOf, VbfOf, Product, Matches, Continuations, Window, BurnAmount, At, ValidateState;
    AppliedHoldsU64(params.basePayout, before, Redeem(outcome, tokens));
    RedemptionWindow(params, tx, before, side, applied, base);
    var left := applied.after.collateral;
    var slot := CollateralSlot(applied.after);
    var asset := TokenAsset(params, applied.transition.outcome);
    BurnAmountExactly(params, tx, base, 0, applied.transition.outcome, tokens);
    BurnAmountExactly(params, tx, base, 1, applied.transition.outcome, tokens);
    var output: seq<Continuation> := [];
    if left > 0 {
      if !CollateralAt(params, tx, base, slot, left) {
        return None;
      }
      output := output + [CollateralContinuation(params, tx, base, slot, left)];
      if BurnAmount(tx, base, 1, asset) != Some(tokens) {
        return None;
      }
    } else {
      if BurnAmount(tx, base, 0, asset) != Some(tokens) {
        return None;
      }
    }
    r := Some(output);
  }

  // ----- Reading a spend -----

  /** The collateral and the two outcome tokens are three assets. */
  predicate DistinctAssets(params: Params) {
    params.collateral != params.yesToken && params.collateral != params.noToken && params.yesToken != params.noToken
  }

  lemma CompiledAssets(key: KeyCheck, params: Params)
    requires ValidParams(key, params)
    ensures DistinctAssets(params) && params.expiryHeight > 0
  {
    var assets := [params.collateral, params.yesToken, params.noToken, params.yesRt, params.noRt];
    assert assets[0] != assets[1] && assets[0] != assets[2] && assets[1] != assets[2];
  }

  /** What remains of an explanation once the group is located. */
  predicate Accounts(
      context: Context, params: Params, before: MarketState, live: LiveOutputs, tx: Transaction,
      base: nat, claim: Claim, side: Side, action: Action)
  {
    && Authorized(context, params, tx, claim, action)
    && GroupSpent(before, live, tx, base)
    && IssuancesMatch(params, before, tx, base, action, side, |GroupOf(before, live)|)
    && WindowAccepted(params, before, action, Flip(side), tx.outputs, claim.outputBase)
  }

  /** How many outputs of a cancellation's window come before its burns. */
  function BurnOffset(full: bool): nat {
    if full then 2 else 3
  }

  lemma CancelWindow(
      params: Params, tx: Transaction, before: MarketState, pairs: U64, side: Side, base: nat)
    requires Apply(params.basePayout, before, Cancel(pairs)).Ok?
    ensures
      var applied := Apply(params.basePayout, before, Cancel(pairs)).value;
      && Held(params.basePayout, applied.after) <= U64_MAX
      && (Matches(tx.outputs, base, Window(params, before, applied, side)) <==>
            && Matches(tx.outputs, base, Kept(params, before, applied.after, side))
            && ReadCancel(params, tx, base, BurnOffset(applied.transition.full)) == Some(Cancel(pairs)))
  {
    hide AbfOf, VbfOf, Product, RtOut, Matches, ValidateState, BurnAmount;
    AppliedHoldsU64(params.basePayout, before, Cancel(pairs));
    var applied := Apply(params.basePayout, before, Cancel(pairs)).value;
    HeldZero(params.basePayout, applied.after.outstandingPairs);
    var kept := Kept(params, before, applied.after, side);
    var offset := BurnOffset(applied.transition.full);
    assert |kept| == offset;
    MatchesConcat(tx.outputs, base, kept, BurnPart(params, applied.transition));
    MatchesTwo(tx.outputs, base + offset, BurnOut(params, Yes, pairs), BurnOut(params, No, pairs));
    BurnAmountExactly(params, tx, base, offset, Yes, pairs);
    BurnAmountExactly(params, tx, base, offset + 1, No, pairs);
  }

  /** With three assets, the output after the tokens tells a full cancellation from a partial one. */
  lemma CancelDiscriminator(
      params: Params, tx: Transaction, before: MarketState, pairs: U64, side: Side, base: nat)
    requires DistinctAssets(params)
    requires WindowAccepted(params, before, Cancel(pairs), side, tx.outputs, base)
    ensures CancellationIsFull(params, tx, base)
         == Some(Apply(params.basePayout, before, Cancel(pairs)).value.transition.full)
  {
    hide AbfOf, VbfOf, Product, RtOut, Matches, ValidateState;
    var applied := Apply(params.basePayout, before, Cancel(pairs)).value;
    CancelWindow(params, tx, before, pairs, side, base);
    HeldZero(params.basePayout, applied.after.outstandingPairs);
    PairAndCollateral(params, tx, before, applied.after, side, base);
  }

  lemma RedeemDiscriminator(
      params: Params, tx: Transaction, before: MarketState, outcome: Outcome, tokens: U64, side: Side, base: nat)
    requires DistinctAssets(params)
    requires WindowAccepted(params, before, Redeem(outcome, tokens), side, tx.outputs, base)
    ensures RedemptionDetails(params, before, tx, base) == Some((outcome, tokens))
  {
    hide AbfOf, VbfOf, Product, RtOut, Matches, ValidateState, Continuations, Window;
    var applied := Apply(params.basePayout, before, Redeem(outcome, tokens)).value;
    RedemptionWindow(params, tx, before, side, applied, base);
  }

  /** Issuances: what an issue reads, and what the path forbids, together are what the action calls for. */
  lemma IssuancesByPath(
      params: Params, before: MarketState, live: LiveOutputs, tx: Transaction, base: nat, side: Side,
      action: Action, path: Path)
    requires GroupSpent(before, live, tx, base)
    requires path.InitialIssuance? || path.SubsequentIssuance? <==> action.Issue?
    requires before.Trading? || !action.Issue?
    requires path.InitialIssuance? ==> before == Trading(0)
    requires path.SubsequentIssuance? ==> before != Trading(0)
    requires action.Issue? ==> action.pairs > 0
    ensures IssuancesMatch(params, before, tx, base, action, side, |GroupOf(before, live)|) <==>
      && NoStrayIssuance(path, before, tx, base)
      && (action.Issue? ==> ReadIssue(params, tx, base, side) == Some(action))
  {
    hide AbfOf, Siblings;
    var group := GroupOf(before, live);
    assert group[0].Some?;
    if before.Trading? {
      assert group[1].Some?;
      if before != Trading(0) {
        assert group[2].Some?;
      }
    }
    if action.Issue? {
      assert Reissuance(params, Yes, action.pairs, side).nonce == AbfOf(side);
    }
  }

  /** From the decoded operation to a path and an action, before anything is checked against the action. */
  function DecodeSpend(
      context: Context, params: Params, before: MarketState, tx: Transaction, base: nat, claim: Claim, side: Side)
    : Option<(Path, Action)>
  {
    var full := if claim.operation == Cancelling then CancellationIsFull(params, tx, claim.outputBase) else None;
    var details :=
      if claim.operation == Resolving then
        if context.oracle(params, claim.outcome, claim.signature) then Some((claim.outcome, 0)) else None
      else if claim.operation == Redeeming then
        RedemptionDetails(params, before, tx, claim.outputBase)
      else
        Some((No, 0));
    var path := ForOperation(Coordinator(before), claim.operation, full);
    if (claim.operation == Cancelling && full.None?) || path.Err? || details.None? then
      None
    else
      var (outcome, tokens) := details.value;
      var action := ReadAction(params, before, path.value, tx, base, claim.outputBase, side, outcome, tokens);
      if action.None? then None else Some((path.value, action.value))
  }

  /** What decoding has established about its action. */
  lemma DecodedFacts(
      context: Context, params: Params, before: MarketState, tx: Transaction, base: nat, claim: Claim, side: Side)
    requires DecodeSpend(context, params, before, tx, base, claim, side).Some?
    ensures
      var (path, action) := DecodeSpend(context, params, before, tx, base, claim, side).value;
      && Authorized(context, params, tx, claim, action)
      && (action.Issue? ==> ReadIssue(params, tx, base, side) == Some(action))
      && (action.Cancel? ==>
            && (path == PartialCancellation || path == FullCancellation)
            && ReadCancel(params, tx, claim.outputBase, BurnOffset(path == FullCancellation)) == Some(action))
      && ForOperation(
           Coordinator(before), Kind(action),
           if action.Cancel? then Some(path == FullCancellation) else None) == Ok(path)
  {
    hide AbfOf, VbfOf, ExpiryLocked, BurnAmount, IssuanceAmount;
  }

  /** Given three assets, decoding finds the one action that accounts for the spend. */
  lemma AccountedIsDecoded(
      context: Context, params: Params, before: MarketState, live: LiveOutputs, tx: Transaction,
      base: nat, claim: Claim, side: Side, action: Action)
    requires DistinctAssets(params)
    requires Accounts(context, params, before, live, tx, base, claim, side, action)
    ensures
      var path := ForTransition(before, action, Apply(params.basePayout, before, action).value);
      && path.Ok?
      && DecodeSpend(context, params, before, tx, base, claim, side) == Some((path.value, action))
      && NoStrayIssuance(path.value, before, tx, base)
  {
    hide AbfOf, VbfOf, Product, Matches, ExpiryLocked, BurnAmount, IssuanceAmount, ReadIssue, ReadCancel;
    hide CancellationIsFull, RedemptionDetails, IssuancesMatch, NoStrayIssuance, GroupSpent, ValidateState, Window;
    AcceptedHasLayout(params.basePayout, before, action);
    var path := ForTransition(before, action, Apply(params.basePayout, before, action).value).value;
    IssuancesByPath(params, before, live, tx, base, side, action, path);
    match action {
      case Cancel(pairs) =>
        CancelDiscriminator(params, tx, before, pairs, Flip(side), claim.outputBase);
        CancelWindow(params, tx, before, pairs, Flip(side), claim.outputBase);
      case Redeem(outcome, tokens) =>
        RedeemDiscriminator(params, tx, before, outcome, tokens, Flip(side), claim.outputBase);
      case _ =>
    }
  }

  lemma WithoutBurns(params: Params, before: MarketState, applied: Applied, side: Side)
    requires Held(params.basePayout, applied.after) <= U64_MAX
    requires !applied.transition.Cancelled? && !applied.transition.Redeemed?
    ensures Window(params, before, applied, side) == Kept(params, before, applied.after, side)
  {
    hide AbfOf, VbfOf, Product;
  }

  lemma CancelContinuations(
      params: Params, tx: Transaction, before: MarketState, applied: Applied, side: Side, base: nat)
    requires Held(params.basePayout, applied.after) <= U64_MAX
    ensures Continuations(tx.txid, base, Window(params, before, applied, side))
         == Continuations(tx.txid, base, Kept(params, before, applied.after, side))
  {
    hide AbfOf, VbfOf, Product, Continuations, Kept;
    BurnsLeaveNothing(
      tx.txid, base, Kept(params, before, applied.after, side), BurnPart(params, applied.transition));
  }

  /** Outputs of a decoded action: accepted exactly when the whole window is there. */
  method VerifyOutputs(
      context: Context, params: Params, tx: Transaction, before: MarketState, side: Side, base: nat, claim: Claim,
      path: Path, action: Action, applied: Applied)
    returns (r: Option<seq<Continuation>>)
    requires DecodeSpend(context, params, before, tx, base, claim, side) == Some((path, action))
    requires Apply(params.basePayout, before, action) == Ok(applied)
    ensures Held(params.basePayout, applied.after) <= U64_MAX
    ensures r.Some? <==>
      && (action.Cancel? ==> (path == FullCancellation) == applied.transition.full)
      && Matches(tx.outputs, claim.outputBase, Window(params, before, applied, Flip(side)))
    ensures r.Some? ==>
      r.value == Continuations(tx.txid, claim.outputBase, Window(params, before, applied, Flip(side)))
  {
    hide AbfOf, VbfOf, Product, Matches, Continuations, Kept, Window, DecodeSpend, ReadCancel, ValidateState, Authorized;
    DecodedFacts(context, params, before, tx, base, claim, side);
    if action.Redeem? {
      r := VerifyRedemptionOutputs(
        params, tx, before, Flip(side), applied, claim.outputBase, action.tokens, action.outcome);
    } else {
      ghost var full := path == FullCancellation;
      r := VerifyTokenOutputs(params, tx, path, before, Flip(side), applied, claim.outputBase, action, full);
      CancelContinuations(params, tx, before, applied, Flip(side), claim.outputBase);
      if action.Cancel? {
        CancelWindow(params, tx, before, action.pairs, Flip(side), claim.outputBase);
      } else {
        WithoutBurns(params, before, applied, Flip(side));
      }
    }
  }

  /** Checks a located spend; what it accepts is accounted for, and given three assets it misses nothing. */
  method ReadSpend(
      context: Context, params: Params, before: MarketState, live: LiveOutputs, tx: Transaction,
      base: nat, claim: Claim, side: Side)
    returns (r: Option<(Action, Spend)>)
    requires LiveMatches(params, before, live) && SideOf(params, before, live) == Some(side)
    ensures r.Some? ==>
      var (action, spend) := r.value;
      && Accounts(context, params, before, live, tx, base, claim, side, action)
      && ForTransition(before, action, Apply(params.basePayout, before, action).value) == Ok(spend.path)
      && (forall k :: 0 <= k < |GroupOf(before, live)| ==> GroupOf(before, live)[k].Some?)
      && spend == SpendFor(params, before, live, tx, claim, action, spend.path)
    ensures DistinctAssets(params) ==>
      forall action :: Accounts(context, params, before, live, tx, base, claim, side, action) ==>
        r.Some? && r.value.0 == action
  {
    hide AbfOf, VbfOf, Product, Matches, Continuations, Window, DecodeSpend, ReadCancel, ReadIssue, ValidateState;
    hide LiveMatches, SideOf, IssuancesMatch, NoStrayIssuance, GroupSpent, Authorized, Spent, Accounts;
    var decoded := DecodeSpend(context, params, before, tx, base, claim, side);
    forall action | DistinctAssets(params) && Accounts(context, params, before, live, tx, base, claim, side, action)
      ensures decoded.Some? && decoded.value.1 == action
      ensures AccountedBy(params, before, live, tx, base, claim, side, decoded.value.0, action)
    {
      AccountedFacts(context, params, before, live, tx, base, claim, side, action);
    }
    if decoded.None? {
      return None;
    }
    var (path, action) := decoded.value;
    DecodedFacts(context, params, before, tx, base, claim, side);
    var spent := VerifyInputGroup(params, path, before, live, tx, base);
    if spent.None? {
      return None;
    }
    var applied := Apply(params.basePayout, before, action);
    if applied.Err? {
      return None;
    }
    var continuations := VerifyOutputs(context, params, tx, before, side, base, claim, path, action, applied.value);
    if continuations.None? {
      return None;
    }
    AccountsBy(context, params, before, live, tx, base, claim, side, path, action);
    r := Some((action, Spend(path, applied.value.after, applied.value.transition, spent.value, continuations.value)));
  }

  /** The stages of the check, for an action that has been decoded. */
  predicate AccountedBy(
      params: Params, before: MarketState, live: LiveOutputs, tx: Transaction,
      base: nat, claim: Claim, side: Side, path: Path, action: Action)
  {
    && GroupSpent(before, live, tx, base)
    && NoStrayIssuance(path, before, tx, base)
    && WindowAccepted(params, before, action, Flip(side), tx.outputs, claim.outputBase)
    && (action.Cancel? ==>
          (path == FullCancellation) == Apply(params.basePayout, before, action).value.transition.full)
  }

  lemma AccountedFacts(
      context: Context, params: Params, before: MarketState, live: LiveOutputs, tx: Transaction,
      base: nat, claim: Claim, side: Side, action: Action)
    requires DistinctAssets(params)
    requires Accounts(context, params, before, live, tx, base, claim, side, action)
    ensures
      var decoded := DecodeSpend(context, params, before, tx, base, claim, side);
      && decoded.Some? && decoded.value.1 == action
      && AccountedBy(params, before, live, tx, base, claim, side, decoded.value.0, action)
  {
    hide AbfOf, VbfOf, Product, Matches, Window, DecodeSpend, IssuancesMatch, NoStrayIssuance, GroupSpent, Authorized;
    AccountedIsDecoded(context, params, before, live, tx, base, claim, side, action);
    AcceptedHasLayout(params.basePayout, before, action);
  }

  lemma AccountsBy(
      context: Context, params: Params, before: MarketState, live: LiveOutputs, tx: Transaction,
      base: nat, claim: Claim, side: Side, path: Path, action: Action)
    requires DecodeSpend(context, params, before, tx, base, claim, side) == Some((path, action))
    requires AccountedBy(params, before, live, tx, base, claim, side, path, action)
    ensures Accounts(context, params, before, live, tx, base, claim, side, action)
    ensures ForTransition(before, action, Apply(params.basePayout, before, action).value) == Ok(path)
  {
    hide AbfOf, VbfOf, Product, Matches, Window, DecodeSpend, IssuancesMatch, NoStrayIssuance, GroupSpent, Authorized;
    hide ReadIssue, ReadCancel, ValidateState;
    DecodedFacts(context, params, before, tx, base, claim, side);
    AcceptedHasLayout(params.basePayout, before, action);
    IssuancesByPath(params, before, live, tx, base, side, action, path);
  }

  /**
   Interprets a confirmed spend. Every accepted spend is explained by its action, and every spend some
   action explains is accepted with that very action.
   */
  method InterpretSpend(context: Context, params: Params, before: MarketState, live: LiveOutputs, tx: Transaction)
    returns (r: Option<Reading>)
    ensures r.Some? ==>
      && Explains(context, params, before, live, tx, r.value.inputBase, r.value.claim, r.value.action)
      && r.value.spend == SpendFor(
           params, before, live, tx, r.value.claim, r.value.action, r.value.spend.path)
      && ForTransition(before, r.value.action, Apply(params.basePayout, before, r.value.action).value)
         == Ok(r.value.spend.path)
    ensures
      forall base, claim, action :: Explains(context, params, before, live, tx, base, claim, action) ==>
        r.Some? && r.value.inputBase == base && r.value.claim == claim && r.value.action == action
  {
    hide AbfOf, VbfOf, Product, Authorized, GroupSpent, IssuancesMatch, WindowAccepted, SpendFor, SideOf, OnlyInput;
    if !ValidParams(context.key, params) || !LiveMatches(params, before, live) {
      return None;
    }
    CompiledAssets(context.key, params);
    var side := SideOf(params, before, live);
    if side.None? {
      return None;
    }
    var base := LocateInput(tx, Head(before, live).value.outpoint);
    if base.None? || base.value > U32_MAX {
      return None;
    }
    var claim := context.decode(tx, base.value, Coordinator(before));
    if claim.None? {
      return None;
    }
    forall b: nat, c, a | Explains(context, params, before, live, tx, b, c, a)
      ensures b == base.value && c == claim.value
      ensures Accounts(context, params, before, live, tx, base.value, claim.value, side.value, a)
    {
      assert OnlyInput(tx, Head(before, live).value.outpoint, b);
    }
    var read := ReadSpend(context, params, before, live, tx, base.value, claim.value, side.value);
    if read.None? {
      return None;
    }
    var (action, spend) := read.value;
    r := Some(Reading(base.value, claim.value, action, spend));
  }

  // ----- What an explained spend means for the ledger, the next step and the builder -----

  lemma WindowIndex(outputs: seq<TxOut>, base: nat, window: seq<TxOut>, k: nat)
    requires Matches(outputs, base, window) && k < |window|
    ensures base + k < |outputs| && base + k <= U32_MAX && outputs[base + k] == window[k]
  {
    MatchesAll(outputs, base, window);
    assert outputs[base..base + |window|][k] == outputs[base + k];
  }

  lemma TokenContinuationsAreNew(
      params: Params, tx: Transaction, before: MarketState, after: MarketState, side: Side, base: nat)
    requires before.Trading? && Held(params.basePayout, after) <= U64_MAX
    requires Matches(tx.outputs, base, Kept(params, before, after, side))
    ensures NewOutpointsOk(
      NewTracked(Continuations(tx.txid, base, Kept(params, before, after, side))), tx.txid, |tx.outputs|)
  {
    hide AbfOf, VbfOf, Product, Held, Matches, Continuations, RtOut;
    PairAndCollateral(params, tx, before, after, side, base);
    PairAndCollateralContinue(params, tx, before, after, side, base);
  }

  lemma RedemptionContinuationsAreNew(
      params: Params, tx: Transaction, before: MarketState, applied: Applied, side: Side, base: nat)
    requires !before.Trading? && !applied.after.Trading? && applied.transition.Redeemed?
    requires Matches(tx.outputs, base, Window(params, before, applied, side))
    ensures NewOutpointsOk(
      NewTracked(Continuations(tx.txid, base, Window(params, before, applied, side))), tx.txid, |tx.outputs|)
  {
    hide AbfOf, VbfOf, Product, Matches, Continuations, RtOut, Window;
    RedemptionWindow(params, tx, before, side, applied, base);
  }

  lemma SpentAreInputs(group: seq<Option<TrackedOutput>>, tx: Transaction, base: nat)
    requires InputsSpend(group, tx, base)
    ensures forall o :: o in Spent(group) ==> o in Inputs(tx)
  {
    forall o | o in Spent(group)
      ensures o in Inputs(tx)
    {
      var k :| 0 <= k < |group| && Spent(group)[k] == o;
      assert Inputs(tx)[base + k] == o;
    }
  }

  /** An explained spend consumes inputs of its transaction and leaves distinct new outputs of it. */
  lemma ExplainedSpendIsSound(
      context: Context, params: Params, before: MarketState, live: LiveOutputs, tx: Transaction,
      base: nat, claim: Claim, action: Action, path: Path)
    requires Explains(context, params, before, live, tx, base, claim, action)
    ensures SoundSpend(SpendFor(params, before, live, tx, claim, action, path), tx)
  {
    hide AbfOf, VbfOf, Product, Matches, Continuations, Kept, Authorized, IssuancesMatch, LiveMatches, SideOf, OnlyInput;
    hide ValidateState, NewOutpointsOk;
    var side := Flip(SideOf(params, before, live).value);
    var applied := Apply(params.basePayout, before, action).value;
    SpentAreInputs(GroupOf(before, live), tx, base);
    if before.Trading? {
      MatchesConcat(
        tx.outputs, claim.outputBase, Kept(params, before, applied.after, side), BurnPart(params, applied.transition));
      CancelContinuations(params, tx, before, applied, side, claim.outputBase);
      TokenContinuationsAreNew(params, tx, before, applied.after, side, claim.outputBase);
    } else {
      RedemptionContinuationsAreNew(params, tx, before, applied, side, claim.outputBase);
    }
  }

  lemma AcceptedInReach(params: Params, before: MarketState, action: Action, side: Side, outputs: seq<TxOut>, base: nat)
    requires WindowAccepted(params, before, action, side, outputs, base)
    ensures InReach(Apply(params.basePayout, before, action).value.after, base)
  {
    hide AbfOf, VbfOf, Product, Matches, RtOut, ValidateState;
    var applied := Apply(params.basePayout, before, action).value;
    AppliedHoldsU64(params.basePayout, before, action);
    if applied.after.Trading? && applied.after != Trading(0) {
      HeldZero(params.basePayout, applied.after.outstandingPairs);
      assert |Window(params, before, applied, side)| >= 3;
      WindowIndex(outputs, base, Window(params, before, applied, side), 2);
    }
  }

  /** The outputs an explained spend leaves are the canonical live outputs of the state it leads to. */
  lemma ExplainedLeavesCanonical(
      context: Context, params: Params, before: MarketState, live: LiveOutputs, tx: Transaction,
      base: nat, claim: Claim, action: Action, path: Path)
    requires Explains(context, params, before, live, tx, base, claim, action)
    ensures
      var spend := SpendFor(params, before, live, tx, claim, action, path);
      CanonicalLive(params, spend.after, LiveFrom(spend.continuations), Flip(SideOf(params, before, live).value))
  {
    hide AbfOf, VbfOf, Product, Matches, Continuations, Window, CanonicalLive, LiveFrom, ValidateState;
    hide Authorized, IssuancesMatch, LiveMatches, SideOf, OnlyInput;
    var side := Flip(SideOf(params, before, live).value);
    var applied := Apply(params.basePayout, before, action).value;
    AcceptedInReach(params, before, action, side, tx.outputs, claim.outputBase);
    StepLeavesCanonical(params, before, action, side, tx.txid, claim.outputBase);
    WindowLeavesLive(params, before, applied, side, tx.txid, claim.outputBase);
  }

  /** Canonical live outputs pass the interpreter's own check of them, on their side. */
  lemma CanonicalMatches(params: Params, before: MarketState, action: Action, live: LiveOutputs, side: Side)
    requires CanonicalLive(params, before, live, side)
    requires Apply(params.basePayout, before, action).Ok?
    ensures LiveMatches(params, before, live)
    ensures SideOf(params, before, live) == Some(if before.Trading? then side else A)
  {
    hide AbfOf, VbfOf, Product, InferSide;
    CanonicalFits(params, before, action, live, side);
    assert forall slot :: slot in InputSlots(Coordinator(before)) ==> LiveAt(live, slot).Some?;
    if before.Trading? {
      var yes, no := live.yesRt.value.txout, live.noRt.value.txout;
      InferSideExactly(Yes, params.yesRt, yes.asset, yes.value, side);
      InferSideExactly(No, params.noRt, no.asset, no.value, side);
    } else {
      assert InputSlots(Coordinator(before)) == [CollateralSlot(before)];
      assert CollateralSlot(before) in InputSlots(Coordinator(before));
    }
  }

  /** The height a transaction is locked to: none unless its locktime is a height and some input activates it. */
  function LockHeight(tx: Transaction): nat {
    if tx.locktime.Blocks? && exists k :: 0 <= k < |tx.inputs| && !tx.inputs[k].isFinal then tx.locktime.height else 0
  }

  /** The covenant's own expiry check, run when the builder executes the finalized inputs. */
  predicate CovenantExpires(tx: Transaction, expiry: nat) {
    expiry <= LockHeight(tx)
  }

  predicate ContractInputsActive(plan: Plan, tx: Transaction, base: nat) {
    forall k :: base <= k < base + |InputSlots(Coordinator(plan.before))| && k < |tx.inputs| ==> !tx.inputs[k].isFinal
  }

  /**
   How the three expiry checks relate. Of what the builder's check accepts, the interpreter's accepts the
   height locks; of what the interpreter's accepts, the builder's accepts the transactions all of whose
   contract inputs activate the lock; the covenant and the interpreter agree on every transaction unless
   the expiry height is zero, which no lock is needed to reach.
   */
  lemma ExpiryChecksCompared(plan: Plan, tx: Transaction, base: nat)
    requires plan.path in {ActiveExpiry, DormantExpiry}
    requires base < |tx.inputs| && InputSlots(Coordinator(plan.before)) != []
    ensures ExpiryVerified(plan, tx, base) ==>
      (ExpiryLocked(tx, plan.params.expiryHeight) <==> tx.locktime.Blocks?)
    ensures ExpiryLocked(tx, plan.params.expiryHeight) ==>
      (ExpiryVerified(plan, tx, base) <==> ContractInputsActive(plan, tx, base))
    ensures CovenantExpires(tx, plan.params.expiryHeight) <==>
      plan.params.expiryHeight == 0 || ExpiryLocked(tx, plan.params.expiryHeight)
  {
    if ExpiryVerified(plan, tx, base) {
      assert !tx.inputs[base].isFinal;
    }
  }

  /** A time lock that the builder's check accepts, and the interpreter and the covenant refuse. */
  lemma TimeLockPassesBuilderOnly(plan: Plan, tx: Transaction, base: nat)
    requires plan.path in {ActiveExpiry, DormantExpiry}
    requires tx.locktime == Seconds(500_000_000) && 0 < plan.params.expiryHeight <= 500_000_000
    requires forall k :: 0 <= k < |tx.inputs| ==> !tx.inputs[k].isFinal
    ensures ExpiryVerified(plan, tx, base)
    ensures !ExpiryLocked(tx, plan.params.expiryHeight) && !CovenantExpires(tx, plan.params.expiryHeight)
  {
  }

  /** What finalizing has checked before it executes the covenant: parameters, inputs, expiry, outputs, and the witness's action. */
  predicate Checked(
      context: Context, plan: Plan, action: Action, proposal: Proposal, inputBase: nat, outputBase: nat, claim: Claim)
  {
    && ValidParams(context.key, plan.params)
    && InputsVerified(plan, proposal, inputBase)
    && ExpiryVerified(plan, proposal.tx, inputBase)
    && WindowAt(proposal.tx.outputs, outputBase, plan.outputs)
    && outputBase + |plan.outputs| <= U32_MAX + 1 && inputBase + 2 <= U32_MAX
    && NoDup(Inputs(proposal.tx))
    && context.decode(proposal.tx, inputBase, Coordinator(plan.before)) == Some(claim)
    && claim.operation == Kind(action) && claim.outputBase == outputBase
    && (action.Resolve? ==>
          claim.outcome == action.outcome && context.oracle(plan.params, claim.outcome, claim.signature))
  }

  lemma VerifiedSpendsGroup(plan: Plan, live: LiveOutputs, side: Side, proposal: Proposal, base: nat)
    requires CanonicalLive(plan.params, plan.before, live, side) && plan.live == InputsOf(live)
    requires forall slot :: slot in InputSlots(Coordinator(plan.before)) ==> LiveAt(live, slot).Some?
    requires InputsVerified(plan, proposal, base) && base + 2 <= U32_MAX
    ensures GroupSpent(plan.before, live, proposal.tx, base)
  {
    hide AbfOf, VbfOf, Product, IssuancesOk, SlotInputOk, ValidateState;
    var slots := InputSlots(Coordinator(plan.before));
    var group := GroupOf(plan.before, live);
    assert |slots| == |group|;
    forall k | 0 <= k < |group|
      ensures group[k] == LiveAt(live, slots[k]) && group[k].Some?
      ensures base + k < |proposal.tx.inputs|
      ensures proposal.tx.inputs[base + k].previous == group[k].value.outpoint
    {
      assert slots[k] in slots;
      NextChecksDemandLive(plan, live, side, proposal, base + k, slots[k]);
    }
  }

  lemma VerifiedIssuances(plan: Plan, action: Action, live: LiveOutputs, side: Side, tx: Transaction, base: nat)
    requires Fits(plan.params, plan.before, plan.live, side)
    requires Apply(plan.params.basePayout, plan.before, action) == Ok(plan.applied)
    requires base + |InputSlots(Coordinator(plan.before))| <= |tx.inputs|
    requires IssuancesOk(plan, tx, base)
    ensures IssuancesMatch(plan.params, plan.before, tx, base, action, side, |GroupOf(plan.before, live)|)
  {
    hide AbfOf, VbfOf, Product, InferSide, ValidateState;
    TransitionNamesAction(plan.params.basePayout, plan.before, action);
    if plan.before.Trading? {
      var yes, no := plan.live.yesRt.value.txout, plan.live.noRt.value.txout;
      InferSideExactly(Yes, plan.params.yesRt, yes.asset, yes.value, side);
      InferSideExactly(No, plan.params.noRt, no.asset, no.value, side);
    }
  }

  lemma HeadIsOnly(tx: Transaction, outpoint: OutPoint, base: nat)
    requires NoDup(Inputs(tx)) && base < |tx.inputs| && tx.inputs[base].previous == outpoint
    ensures OnlyInput(tx, outpoint, base)
  {
    forall k | 0 <= k < |tx.inputs| && tx.inputs[k].previous == outpoint
      ensures k == base
    {
      assert Inputs(tx)[k] == Inputs(tx)[base];
    }
  }

  /** The plan is for this action on these live outputs. */
  ghost predicate Plans(plan: Plan, action: Action, live: LiveOutputs, side: Side) {
    && CanonicalLive(plan.params, plan.before, live, side) && plan.live == InputsOf(live)
    && Apply(plan.params.basePayout, plan.before, action) == Ok(plan.applied)
    && ForTransition(plan.before, action, plan.applied) == Ok(plan.path)
    && Held(plan.params.basePayout, plan.applied.after) <= U64_MAX
    && plan.outputs == Window(plan.params, plan.before, plan.applied, Flip(side))
  }

  /**
   The interpreter explains a checked proposal with the planned action, except an expiry under a time
   lock: that one the builder's checks let through and the interpreter refuses.
   */
  lemma CheckedPlanIsExplained(
      context: Context, plan: Plan, action: Action, live: LiveOutputs, side: Side, proposal: Proposal,
      inputBase: nat, outputBase: nat, claim: Claim)
    requires Plans(plan, action, live, side)
    requires Checked(context, plan, action, proposal, inputBase, outputBase, claim)
    ensures Explains(context, plan.params, plan.before, live, proposal.tx, inputBase, claim, action)
       <==> (action.Expire? ==> proposal.tx.locktime.Blocks?)
  {
    hide AbfOf, VbfOf, Product, Matches, RtOut, CanonicalLive, LiveMatches, SideOf, SlotInputOk, IssuancesMatch, OnlyInput;
    hide GroupSpent, ValidateState, NoDup, ExpiryLocked, CovenantExpires;
    var read := if plan.before.Trading? then side else A;
    CanonicalFits(plan.params, plan.before, action, live, side);
    CanonicalMatches(plan.params, plan.before, action, live, side);
    VerifiedSpendsGroup(plan, live, side, proposal, inputBase);
    VerifiedIssuances(plan, action, live, read, proposal.tx, inputBase);
    ExplainedPieces(plan, live, proposal.tx, inputBase);
    MatchesAll(proposal.tx.outputs, outputBase, plan.outputs);
    WindowNotEmpty(plan.params, plan.before, plan.applied, Flip(side));
    assert WindowAccepted(
      plan.params, plan.before, action, Flip(read), proposal.tx.outputs, outputBase);
    if action.Expire? {
      ExpiryChecksCompared(plan, proposal.tx, inputBase);
    }
  }

  /**
   Executing the covenant adds what is missing: a proposal that also passes it is explained by the planned
   action, and an explained one passes it.
   */
  lemma FinalizedPlanIsExplained(
      context: Context, plan: Plan, action: Action, live: LiveOutputs, side: Side, proposal: Proposal,
      inputBase: nat, outputBase: nat, claim: Claim)
    requires Plans(plan, action, live, side)
    requires Checked(context, plan, action, proposal, inputBase, outputBase, claim)
    ensures Explains(context, plan.params, plan.before, live, proposal.tx, inputBase, claim, action)
       <==> (action.Expire? ==> CovenantExpires(proposal.tx, plan.params.expiryHeight))
  {
    hide Plans, Explains, Checked;
    CheckedPlanIsExplained(context, plan, action, live, side, proposal, inputBase, outputBase, claim);
    if action.Expire? {
      CheckedExpiry(context, plan, action, live, side, proposal, inputBase, outputBase, claim);
    }
  }

  lemma CheckedExpiry(
      context: Context, plan: Plan, action: Action, live: LiveOutputs, side: Side, proposal: Proposal,
      inputBase: nat, outputBase: nat, claim: Claim)
    requires Plans(plan, action, live, side)
    requires Checked(context, plan, action, proposal, inputBase, outputBase, claim)
    requires action.Expire?
    ensures CovenantExpires(proposal.tx, plan.params.expiryHeight) <==> proposal.tx.locktime.Blocks?
  {
    hide AbfOf, VbfOf, Product, RtOut, CanonicalLive, SlotInputOk, Window, GroupSpent, ValidateState, NoDup,
         ExpiryLocked, CovenantExpires;
    CompiledAssets(context.key, plan.params);
    CanonicalFits(plan.params, plan.before, action, live, side);
    VerifiedSpendsGroup(plan, live, side, proposal, inputBase);
    ExplainedPieces(plan, live, proposal.tx, inputBase);
    ExpiryChecksCompared(plan, proposal.tx, inputBase);
  }

  lemma ExplainedPieces(plan: Plan, live: LiveOutputs, tx: Transaction, base: nat)
    requires GroupSpent(plan.before, live, tx, base) && NoDup(Inputs(tx))
    ensures base < |tx.inputs|
    ensures Head(plan.before, live).Some? && OnlyInput(tx, Head(plan.before, live).value.outpoint, base)
  {
    var group := GroupOf(plan.before, live);
    assert group[0] == Head(plan.before, live) && group[0].Some?;
    HeadIsOnly(tx, group[0].value.outpoint, base);
  }

  lemma WindowNotEmpty(params: Params, before: MarketState, applied: Applied, side: Side)
    requires Held(params.basePayout, applied.after) <= U64_MAX
    requires before.Trading? || applied.transition.Redeemed?
    ensures Window(params, before, applied, side) != []
    ensures !before.Trading? ==> forall other :: Window(params, before, applied, other) == Window(params, before, applied, side)
  {
    hide AbfOf, VbfOf, Product, RtOut;
  }
}
