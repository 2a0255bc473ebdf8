/** Where a market's outputs sit: its slots, A/B commitments, protocol paths and the window each step must leave. */
module MarketLayout {
  import opened Types
  import opened Scalar
  import opened Market

  // ----- Reissuance-token commitments -----

  function RtAsset(params: Params, leg: Outcome): AssetId {
    if leg == Yes then params.yesRt else params.noRt
  }

  function TokenAsset(params: Params, leg: Outcome): AssetId {
    if leg == Yes then params.yesToken else params.noToken
  }

  /** The confidential one-unit commitments of a leg on a side. */
  function Commitments(leg: Outcome, id: AssetId, side: Side): (AssetField, ValueField) {
    (BlindedAsset(id, AbfOf(side)), BlindedValue(id, AbfOf(side), VbfOf(leg, side)))
  }

  /** The side is read off the commitments; matching both sides would be an error like matching neither. */
  function InferSide(leg: Outcome, id: AssetId, asset: AssetField, value: ValueField): Option<Side> {
    var a := (asset, value) == Commitments(leg, id, A);
    var b := (asset, value) == Commitments(leg, id, B);
    if a && !b then Some(A) else if b && !a then Some(B) else None
  }

  /** Inference is exact: a side is found exactly for the commitments of that side. */
  lemma InferSideExactly(leg: Outcome, id: AssetId, asset: AssetField, value: ValueField, side: Side)
    ensures InferSide(leg, id, asset, value) == Some(side) <==> (asset, value) == Commitments(leg, id, side)
  {
    hide AbfOf, VbfOf;
    SidesDiffer(leg);
  }

  function RtOut(params: Params, leg: Outcome, side: Side, script: Script): TxOut {
    var (asset, value) := Commitments(leg, RtAsset(params, leg), side);
    TxOut(asset, value, script)
  }

  function ExplicitOut(asset: AssetId, amount: U64, script: Script): TxOut {
    TxOut(ExplicitAsset(asset), ExplicitValue(amount), script)
  }

  function BurnOut(params: Params, leg: Outcome, amount: U64): TxOut {
    ExplicitOut(TokenAsset(params, leg), amount, BareOpReturn)
  }

  // ----- Operations, coordinators and paths -----

  datatype Operation = Issuing | Cancelling | Resolving | ExpiringOp | Redeeming

  function Kind(action: Action): Operation {
    match action
    case Issue(_) => Issuing
    case Cancel(_) => Cancelling
    case Resolve(_) => Resolving
    case Expire => ExpiringOp
    case Redeem(_, _) => Redeeming
  }

  /** The slot whose input validates a transition for the whole group. */
  function Coordinator(state: MarketState): Slot {
    match state
    case Trading(pairs) => if pairs == 0 then DormantYesRt else UnresolvedYesRt
    case ResolvedYes(_) => ResolvedYesCollateral
    case ResolvedNo(_) => ResolvedNoCollateral
    case Expired(_) => ExpiredCollateral
  }

  function InputSlots(coordinator: Slot): seq<Slot> {
    match coordinator
    case DormantYesRt => [DormantYesRt, DormantNoRt]
    case UnresolvedYesRt => [UnresolvedYesRt, UnresolvedNoRt, UnresolvedCollateral]
    case other => [other]
  }

  datatype LayoutError =
    | MissingCancellationShape
    | UnexpectedCancellationShape
    | InvalidCoordinatorOperation
    | TransitionActionMismatch

  function ForOperation(coordinator: Slot, operation: Operation, full: Option<bool>): Result<Path, LayoutError> {
    if operation == Cancelling && full.None? then
      Err(MissingCancellationShape)
    else if operation != Cancelling && full.Some? then
      Err(UnexpectedCancellationShape)
    else
      match (coordinator, operation)
      case (DormantYesRt, Issuing) => Ok(InitialIssuance)
      case (UnresolvedYesRt, Issuing) => Ok(SubsequentIssuance)
      case (UnresolvedYesRt, Cancelling) => Ok(if full.value then FullCancellation else PartialCancellation)
      case (UnresolvedYesRt, Resolving) => Ok(ActiveResolution)
      case (DormantYesRt, Resolving) => Ok(DormantResolution)
      case (UnresolvedYesRt, ExpiringOp) => Ok(ActiveExpiry)
      case (DormantYesRt, ExpiringOp) => Ok(DormantExpiry)
      case (ResolvedYesCollateral, Redeeming) => Ok(ResolvedRedemption)
      case (ResolvedNoCollateral, Redeeming) => Ok(ResolvedRedemption)
      case (ExpiredCollateral, Redeeming) => Ok(ExpiryRedemption)
      case _ => Err(InvalidCoordinatorOperation)
  }

  predicate TransitionMatches(transition: Transition, action: Action) {
    match (transition, action)
    case (Issued(left, _), Issue(pairs)) => left == pairs
    case (Cancelled(left, _, _), Cancel(pairs)) => left == pairs
    case (Resolved(left, _), Resolve(outcome)) => left == outcome
    case (Expiring(_), Expire) => true
    case (Redeemed(side, count, _, _), Redeem(outcome, tokens)) => side == outcome && count == tokens
    case _ => false
  }

  function ForTransition(before: MarketState, action: Action, applied: Applied): Result<Path, LayoutError> {
    if !TransitionMatches(applied.transition, action) then
      Err(TransitionActionMismatch)
    else
      var full := if applied.transition.Cancelled? then Some(applied.transition.full) else None;
      ForOperation(Coordinator(before), Kind(action), full)
  }

  predicate ConsumesRt(path: Path) {
    path != ResolvedRedemption && path != ExpiryRedemption
  }

  /** An operation the economics accepts always has a layout, and its path says which phase it leaves and enters. */
  lemma AcceptedHasLayout(base: U64, before: MarketState, action: Action)
    requires Apply(base, before, action).Ok?
    ensures
      var applied := Apply(base, before, action).value;
      var path := ForTransition(before, action, applied);
      && path.Ok?
      && (ConsumesRt(path.value) <==> before.Trading?)
      && (path.value in {InitialIssuance, DormantResolution, DormantExpiry} <==> before == Trading(0))
      && (path.value in {InitialIssuance, SubsequentIssuance, PartialCancellation} <==>
            applied.after.Trading? && applied.after != Trading(0))
      && (path.value == FullCancellation <==> applied.after == Trading(0))
  {
    hide Product;
  }

  // ----- The output window of a step, read off the state it leads to -----

  function CollateralSlot(state: MarketState): Slot {
    match state
    case Trading(_) => UnresolvedCollateral
    case ResolvedYes(_) => ResolvedYesCollateral
    case ResolvedNo(_) => ResolvedNoCollateral
    case Expired(_) => ExpiredCollateral
  }

  function RtSlot(state: MarketState, leg: Outcome): Slot {
    if state == Trading(0) then
      if leg == Yes then DormantYesRt else DormantNoRt
    else
      if leg == Yes then UnresolvedYesRt else UnresolvedNoRt
  }

  /** Reissuance tokens go on in the state's slots while it trades, and are burned when it ends. */
  function RtPart(params: Params, before: MarketState, after: MarketState, side: Side): seq<TxOut> {
    if !before.Trading? then
      []
    else if after.Trading? then
      [RtOut(params, Yes, side, Covenant(params, RtSlot(after, Yes))),
       RtOut(params, No, side, Covenant(params, RtSlot(after, No)))]
    else
      [RtOut(params, Yes, side, BareOpReturn), RtOut(params, No, side, BareOpReturn)]
  }

  function CollateralPart(params: Params, after: MarketState): seq<TxOut>
    requires Held(params.basePayout, after) <= U64_MAX
  {
    var held := Held(params.basePayout, after);
    if held > 0 then [ExplicitOut(params.collateral, held, Covenant(params, CollateralSlot(after)))] else []
  }

  function BurnPart(params: Params, transition: Transition): seq<TxOut> {
    match transition
    case Cancelled(pairs, _, _) => [BurnOut(params, Yes, pairs), BurnOut(params, No, pairs)]
    case Redeemed(outcome, tokens, _, _) => [BurnOut(params, outcome, tokens)]
    case _ => []
  }

  function Kept(params: Params, before: MarketState, after: MarketState, side: Side): seq<TxOut>
    requires Held(params.basePayout, after) <= U64_MAX
  {
    RtPart(params, before, after, side) + CollateralPart(params, after)
  }

  /** The whole window: tokens on the given side, then collateral, then burns. */
  function Window(params: Params, before: MarketState, applied: Applied, side: Side): seq<TxOut>
    requires Held(params.basePayout, applied.after) <= U64_MAX
  {
    Kept(params, before, applied.after, side) + BurnPart(params, applied.transition)
  }

  lemma AppliedHoldsU64(base: U64, before: MarketState, action: Action)
    requires Apply(base, before, action).Ok?
    ensures Held(base, Apply(base, before, action).value.after) <= U64_MAX
    ensures base > 0
  {
    hide Product;
  }

  lemma HeldZero(base: U64, pairs: U64)
    requires base > 0
    ensures Held(base, Trading(pairs)) == 0 <==> pairs == 0
  {
    if pairs > 0 {
      ProductMonotone(1, pairs, PerPair(base));
    }
  }

  // ----- The live outputs of a state -----

  predicate RtLive(params: Params, state: MarketState, live: Option<TrackedOutput>, leg: Outcome, side: Side) {
    live.Some? && live.value.txout == RtOut(params, leg, side, Covenant(params, RtSlot(state, leg)))
  }

  predicate CollateralLive(params: Params, state: MarketState, live: Option<TrackedOutput>) {
    && 0 < Held(params.basePayout, state) <= U64_MAX
    && live.Some?
    && live.value.txout
       == ExplicitOut(params.collateral, Held(params.basePayout, state), Covenant(params, CollateralSlot(state)))
  }

  predicate Siblings(state: MarketState, live: LiveOutputs) {
    && live.yesRt.Some? && live.noRt.Some?
    && var yes, no := live.yesRt.value.outpoint, live.noRt.value.outpoint;
    && yes.txid == no.txid
    && (state != Trading(0) ==>
          && live.collateral.Some?
          && live.collateral.value.outpoint.txid == yes.txid
          && yes.vout + 2 <= U32_MAX
          && no.vout == yes.vout + 1
          && live.collateral.value.outpoint.vout == yes.vout + 2)
  }

  /** Whether a number is the x coordinate of a public key. */
  type KeyCheck = nat -> bool

  /** Parameters a market can be compiled from: a known payout, an expiry below the time locks, a key, five assets. */
  predicate ValidParams(key: KeyCheck, params: Params) {
    && params.basePayout in BASE_PAYOUTS
    && 1 <= params.expiryHeight < 500_000_000
    && key(params.oracleKey)
    && NoDup([params.collateral, params.yesToken, params.noToken, params.yesRt, params.noRt])
  }

  /** Exactly the outputs a state keeps alive, both reissuance tokens on one side. */
  predicate CanonicalLive(params: Params, state: MarketState, live: LiveOutputs, side: Side) {
    && params.basePayout in BASE_PAYOUTS
    && ValidateState(params.basePayout, state).Ok?
    && (if state.Trading? then
          && RtLive(params, state, live.yesRt, Yes, side)
          && RtLive(params, state, live.noRt, No, side)
          && (if state == Trading(0) then live.collateral.None? else CollateralLive(params, state, live.collateral))
          && Siblings(state, live)
        else
          && live.yesRt.None? && live.noRt.None?
          && (if state.collateral == 0 then live.collateral.None? else CollateralLive(params, state, live.collateral)))
  }

  // ----- From the window of one step to the live outputs of the next -----

  function TrackedAt(txid: Txid, index: nat, txout: TxOut): TrackedOutput {
    TrackedOutput(OutPoint(txid, index), txout)
  }

  /** The outputs of a window that carry a covenant script, in order. */
  function Continuations(txid: Txid, base: nat, window: seq<TxOut>): seq<Continuation> {
    if window == [] then
      []
    else
      var k := |window| - 1;
      var rest := Continuations(txid, base, window[..k]);
      if window[k].script.Covenant? then
        rest + [Continuation(window[k].script.slot, TrackedAt(txid, base + k, window[k]))]
      else
        rest
  }

  function PlaceOne(live: LiveOutputs, c: Continuation): LiveOutputs {
    match c.slot
    case DormantYesRt => live.(yesRt := Some(c.output))
    case UnresolvedYesRt => live.(yesRt := Some(c.output))
    case DormantNoRt => live.(noRt := Some(c.output))
    case UnresolvedNoRt => live.(noRt := Some(c.output))
    case _ => live.(collateral := Some(c.output))
  }

  function LiveFrom(list: seq<Continuation>): LiveOutputs {
    if list == [] then
      LiveOutputs(None, None, None)
    else
      PlaceOne(LiveFrom(list[..|list| - 1]), list[|list| - 1])
  }

  lemma ContinuationsAppend(txid: Txid, base: nat, window: seq<TxOut>, next: TxOut)
    ensures Continuations(txid, base, window + [next])
         == Continuations(txid, base, window)
            + if next.script.Covenant? then
                [Continuation(next.script.slot, TrackedAt(txid, base + |window|, next))]
              else
                []
  {
    assert (window + [next])[..|window|] == window;
  }

  lemma {:induction false} BurnsLeaveNothing(txid: Txid, base: nat, window: seq<TxOut>, burns: seq<TxOut>)
    requires forall o :: o in burns ==> !o.script.Covenant?
    ensures Continuations(txid, base, window + burns) == Continuations(txid, base, window)
  {
    if burns == [] {
      assert window + burns == window;
    } else {
      var k := |burns| - 1;
      BurnsLeaveNothing(txid, base, window, burns[..k]);
      assert window + burns == (window + burns[..k]) + [burns[k]];
      ContinuationsAppend(txid, base, window + burns[..k], burns[k]);
    }
  }

  lemma LiveFromAppend(list: seq<Continuation>, c: Continuation)
    ensures LiveFrom(list + [c]) == PlaceOne(LiveFrom(list), c)
  {
    assert (list + [c])[..|list|] == list;
  }

  /** The live outputs after a step, said outright. */
  function NextLive(params: Params, before: MarketState, after: MarketState, side: Side, txid: Txid, base: nat): LiveOutputs
    requires Held(params.basePayout, after) <= U64_MAX
  {
    var rt := RtPart(params, before, after, side);
    var collateral := CollateralPart(params, after);
    LiveOutputs(
      if before.Trading? && after.Trading? then Some(TrackedAt(txid, base, rt[0])) else None,
      if before.Trading? && after.Trading? then Some(TrackedAt(txid, base + 1, rt[1])) else None,
      if collateral != [] then Some(TrackedAt(txid, base + |rt|, collateral[0])) else None)
  }

  lemma RtContinuations(params: Params, before: MarketState, after: MarketState, side: Side, txid: Txid, base: nat)
    requires before.Trading? && after.Trading?
    ensures
      var rt := RtPart(params, before, after, side);
      LiveFrom(Continuations(txid, base, rt))
      == LiveOutputs(Some(TrackedAt(txid, base, rt[0])), Some(TrackedAt(txid, base + 1, rt[1])), None)
  {
    hide AbfOf, VbfOf;
    var rt := RtPart(params, before, after, side);
    assert rt == [] + [rt[0]] + [rt[1]];
    ContinuationsAppend(txid, base, [], rt[0]);
    ContinuationsAppend(txid, base, [rt[0]], rt[1]);
    var yes := Continuation(RtSlot(after, Yes), TrackedAt(txid, base, rt[0]));
    var no := Continuation(RtSlot(after, No), TrackedAt(txid, base + 1, rt[1]));
    LiveFromAppend([], yes);
    LiveFromAppend([yes], no);
    assert [] + [yes] == [yes] && [yes] + [no] == [yes, no];
  }

  lemma NoRtContinuations(params: Params, before: MarketState, after: MarketState, side: Side, txid: Txid, base: nat)
    requires !(before.Trading? && after.Trading?)
    ensures Continuations(txid, base, RtPart(params, before, after, side)) == []
  {
    hide AbfOf, VbfOf;
    var rt := RtPart(params, before, after, side);
    assert [] + rt == rt;
    BurnsLeaveNothing(txid, base, [], rt);
  }

  lemma CollateralContinuation(
      params: Params, after: MarketState, rt: seq<TxOut>, txid: Txid, base: nat)
    requires Held(params.basePayout, after) <= U64_MAX
    ensures
      var collateral := CollateralPart(params, after);
      var before := LiveFrom(Continuations(txid, base, rt));
      LiveFrom(Continuations(txid, base, rt + collateral))
      == if collateral == [] then before else before.(collateral := Some(TrackedAt(txid, base + |rt|, collateral[0])))
  {
    hide Held;
    var collateral := CollateralPart(params, after);
    if collateral == [] {
      assert rt + collateral == rt;
    } else {
      assert collateral == [collateral[0]];
      ContinuationsAppend(txid, base, rt, collateral[0]);
      LiveFromAppend(
        Continuations(txid, base, rt),
        Continuation(CollateralSlot(after), TrackedAt(txid, base + |rt|, collateral[0])));
    }
  }

  /** Collecting the covenant outputs of a window gives exactly the live outputs of the state it leads to. */
  lemma WindowLeavesLive(
      params: Params, before: MarketState, applied: Applied, side: Side, txid: Txid, base: nat)
    requires Held(params.basePayout, applied.after) <= U64_MAX
    ensures LiveFrom(Continuations(txid, base, Window(params, before, applied, side)))
         == NextLive(params, before, applied.after, side, txid, base)
  {
    hide AbfOf, VbfOf, Held, Continuations, RtPart;
    var rt := RtPart(params, before, applied.after, side);
    BurnsLeaveNothing(
      txid, base, Kept(params, before, applied.after, side), BurnPart(params, applied.transition));
    CollateralContinuation(params, applied.after, rt, txid, base);
    if before.Trading? && applied.after.Trading? {
      RtContinuations(params, before, applied.after, side, txid, base);
    } else {
      NoRtContinuations(params, before, applied.after, side, txid, base);
    }
  }

  lemma AppliedStateIsValid(base: U64, before: MarketState, action: Action)
    requires Apply(base, before, action).Ok?
    ensures ValidateState(base, Apply(base, before, action).value.after).Ok?
  {
    hide Product;
    if before.Trading? {
      ProductModulo(before.outstandingPairs, PerPair(base));
      ProductDouble(before.outstandingPairs, base);
      ProductModulo(before.outstandingPairs + before.outstandingPairs, base);
    } else if action.Redeem? {
      RedeemOnce(base, before, action.outcome, action.tokens);
    }
  }

  /** An active group's three outputs have 32-bit indices. */
  predicate InReach(after: MarketState, base: nat) {
    after.Trading? && after != Trading(0) ==> base + 2 <= U32_MAX
  }

  /**
   One step: from the canonical live outputs of a state, the window of any accepted operation leaves
   the canonical live outputs of the next state, on the other side if the tokens moved.
   */
  lemma StepLeavesCanonical(params: Params, before: MarketState, action: Action, side: Side, txid: Txid, base: nat)
    requires Apply(params.basePayout, before, action).Ok?
    requires InReach(Apply(params.basePayout, before, action).value.after, base)
    ensures
      var applied := Apply(params.basePayout, before, action).value;
      && Held(params.basePayout, applied.after) <= U64_MAX
      && CanonicalLive(params, applied.after, NextLive(params, before, applied.after, side, txid, base), side)
  {
    hide AbfOf, VbfOf, Product;
    AppliedHoldsU64(params.basePayout, before, action);
    AppliedStateIsValid(params.basePayout, before, action);
    var after := Apply(params.basePayout, before, action).value.after;
    if after.Trading? {
      HeldZero(params.basePayout, after.outstandingPairs);
    }
  }

  // ----- The client's check of a reported live set -----

  datatype LiveRole = LiveRole(role: Byte, outpoint: OutPoint)

  function Role(slot: Slot, output: TrackedOutput): LiveRole {
    LiveRole(SlotTag(slot), output.outpoint)
  }

  /** The reported roles of a live set, in role order. */
  function Roles(state: MarketState, live: LiveOutputs): seq<LiveRole> {
    (if live.yesRt.Some? then [Role(RtSlot(state, Yes), live.yesRt.value)] else []) +
    (if live.noRt.Some? then [Role(RtSlot(state, No), live.noRt.value)] else []) +
    (if live.collateral.Some? then [Role(CollateralSlot(state), live.collateral.value)] else [])
  }

  function ExpectedRoles(state: MarketState): seq<Byte> {
    match state
    case Trading(pairs) =>
      if pairs == 0 then
        [SlotTag(DormantYesRt), SlotTag(DormantNoRt)]
      else
        [SlotTag(UnresolvedYesRt), SlotTag(UnresolvedNoRt), SlotTag(UnresolvedCollateral)]
    case ResolvedYes(c) => if c == 0 then [] else [SlotTag(ResolvedYesCollateral)]
    case ResolvedNo(c) => if c == 0 then [] else [SlotTag(ResolvedNoCollateral)]
    case Expired(c) => if c == 0 then [] else [SlotTag(ExpiredCollateral)]
  }

  predicate ActiveGroup(live: seq<LiveRole>) {
    forall yes, no, collateral ::
      && yes in live && yes.role == SlotTag(UnresolvedYesRt)
      && no in live && no.role == SlotTag(UnresolvedNoRt)
      && collateral in live && collateral.role == SlotTag(UnresolvedCollateral)
      ==>
      && yes.outpoint.txid == no.outpoint.txid == collateral.outpoint.txid
      && yes.outpoint.vout + 2 <= U32_MAX
      && no.outpoint.vout == yes.outpoint.vout + 1
      && collateral.outpoint.vout == yes.outpoint.vout + 2
  }

  /** The shape check, in whatever order the roles are reported; sorted, they must be the expected ones. */
  predicate LiveShape(state: MarketState, live: seq<LiveRole>) {
    && |live| == |ExpectedRoles(state)|
    && (set r | r in live :: r.role) == ToSet(ExpectedRoles(state))
    && (state == Trading(0) ==> live[0].outpoint.txid == live[1].outpoint.txid)
    && (state.Trading? && state != Trading(0) ==> ActiveGroup(live))
  }

  /** The same shape on a list already in role order. */
  predicate InOrder(state: MarketState, roles: seq<LiveRole>) {
    && |roles| == |ExpectedRoles(state)|
    && (forall i :: 0 <= i < |roles| ==> roles[i].role == ExpectedRoles(state)[i])
    && (state.Trading? ==>
          && roles[0].outpoint.txid == roles[1].outpoint.txid
          && (state != Trading(0) ==>
                && roles[2].outpoint.txid == roles[0].outpoint.txid
                && roles[0].outpoint.vout + 2 <= U32_MAX
                && roles[1].outpoint.vout == roles[0].outpoint.vout + 1
                && roles[2].outpoint.vout == roles[0].outpoint.vout + 2))
  }

  lemma CanonicalInOrder(params: Params, state: MarketState, live: LiveOutputs, side: Side)
    requires CanonicalLive(params, state, live, side)
    ensures InOrder(state, Roles(state, live))
  {
    hide Product, AbfOf, VbfOf, ValidateState;
  }

  lemma SameMembers(left: seq<LiveRole>, right: seq<LiveRole>)
    requires multiset(left) == multiset(right)
    ensures |left| == |right|
    ensures forall r :: r in left <==> r in right
  {
    assert |multiset(left)| == |multiset(right)|;
    forall r
      ensures r in left <==> r in right
    {
      assert r in left <==> r in multiset(left);
      assert r in right <==> r in multiset(right);
    }
  }

  lemma RolesAsSet(state: MarketState, roles: seq<LiveRole>)
    requires InOrder(state, roles)
    ensures (set r | r in roles :: r.role) == ToSet(ExpectedRoles(state))
  {
    var tags := ExpectedRoles(state);
    hide ExpectedRoles;
    forall t | t in tags
      ensures t in (set r | r in roles :: r.role)
    {
      var i :| 0 <= i < |tags| && tags[i] == t;
      assert roles[i] in roles;
    }
  }

  lemma OrderedShape(state: MarketState, roles: seq<LiveRole>, reported: seq<LiveRole>)
    requires InOrder(state, roles)
    requires |reported| == |roles| && forall r :: r in reported <==> r in roles
    ensures LiveShape(state, reported)
  {
    hide ActiveGroup;
    RolesAsSet(state, roles);
    SameRoles(roles, reported);
    if state.Trading? {
      if state == Trading(0) {
        assert reported[0] in roles && reported[1] in roles;
      } else {
        ActiveInOrder(state, roles);
        ActiveMembers(roles, reported);
      }
    }
  }

  lemma SameRoles(roles: seq<LiveRole>, reported: seq<LiveRole>)
    requires forall r :: r in reported <==> r in roles
    ensures (set r | r in reported :: r.role) == (set r | r in roles :: r.role)
  {
  }

  lemma ActiveMembers(roles: seq<LiveRole>, reported: seq<LiveRole>)
    requires ActiveGroup(roles) && forall r :: r in reported <==> r in roles
    ensures ActiveGroup(reported)
  {
  }

  lemma ActiveInOrder(state: MarketState, roles: seq<LiveRole>)
    requires InOrder(state, roles) && state.Trading? && state != Trading(0)
    ensures ActiveGroup(roles)
  {
    assert |roles| == 3 && roles == [roles[0], roles[1], roles[2]];
    assert roles[0].role == 2 && roles[1].role == 3 && roles[2].role == 4;
    forall yes, no, collateral |
      && yes in roles && yes.role == SlotTag(UnresolvedYesRt)
      && no in roles && no.role == SlotTag(UnresolvedNoRt)
      && collateral in roles && collateral.role == SlotTag(UnresolvedCollateral)
      ensures yes == roles[0] && no == roles[1] && collateral == roles[2]
    {
    }
  }

  /** What a step leaves alive passes the client's shape check, in any order of reporting. */
  lemma CanonicalPassesShape(
      params: Params, state: MarketState, live: LiveOutputs, side: Side, reported: seq<LiveRole>)
    requires CanonicalLive(params, state, live, side)
    requires multiset(reported) == multiset(Roles(state, live))
    ensures LiveShape(state, reported)
  {
    hide LiveShape, InOrder, Roles;
    CanonicalInOrder(params, state, live, side);
    SameMembers(reported, Roles(state, live));
    OrderedShape(state, Roles(state, live), reported);
  }
}
