/** A node's record of a market and a client's replay of it agree. */
module Agreement {
  import opened Types
  import opened Ledger
  import opened Scalar
  import opened Market
  import opened MarketLayout
  import opened MarketSpend
  import opened Overlay
  import opened Replay

  /** Continuations are outputs of the spending transaction under the market's scripts, one for each holding. */
  predicate RealContinuations(params: Params, tx: Transaction, list: seq<Continuation>) {
    OnePerHolding(list) && AllReal(params, tx, list)
  }

  predicate AllReal(params: Params, tx: Transaction, list: seq<Continuation>) {
    forall i :: 0 <= i < |list| ==> RealContinuation(params, tx, list[i])
  }

  predicate RealContinuation(params: Params, tx: Transaction, c: Continuation) {
    && c.output.txout.script == Covenant(params, c.slot)
    && c.output.outpoint.txid == tx.txid
    && c.output.outpoint.vout < |tx.outputs|
    && tx.outputs[c.output.outpoint.vout] == c.output.txout
  }

  lemma {:induction false} ContinuationsAreOutputs(params: Params, tx: Transaction, base: nat, window: seq<TxOut>)
    requires Matches(tx.outputs, base, window)
    requires forall o :: o in window && o.script.Covenant? ==> o.script.params == params
    ensures AllReal(params, tx, Continuations(tx.txid, base, window))
  {
    if window != [] {
      var k := |window| - 1;
      ContinuationsAreOutputs(params, tx, base, window[..k]);
      assert window[k] in window;
      var rest := Continuations(tx.txid, base, window[..k]);
      if window[k].script.Covenant? {
        var last := Continuation(window[k].script.slot, TrackedAt(tx.txid, base + k, window[k]));
        assert window[k].script == Covenant(params, last.slot);
        assert RealContinuation(params, tx, last);
        AppendReal(params, tx, rest, last);
      }
    }
  }

  lemma AppendReal(params: Params, tx: Transaction, rest: seq<Continuation>, last: Continuation)
    requires AllReal(params, tx, rest) && RealContinuation(params, tx, last)
    ensures AllReal(params, tx, rest + [last])
  {
  }

  lemma TokenContinuationsOnePerHolding(
      params: Params, tx: Transaction, before: MarketState, after: MarketState, side: Side, base: nat)
    requires before.Trading? && Held(params.basePayout, after) <= U64_MAX
    ensures OnePerHolding(Continuations(tx.txid, base, Kept(params, before, after, side)))
  {
    hide AbfOf, VbfOf, Product, Held, Continuations, RtOut, Kept;
    PairAndCollateralContinue(params, tx, before, after, side, base);
  }

  lemma RedemptionOnePerHolding(
      params: Params, tx: Transaction, before: MarketState, applied: Applied, side: Side, base: nat)
    requires !before.Trading? && !applied.after.Trading? && applied.transition.Redeemed?
    ensures OnePerHolding(Continuations(tx.txid, base, Window(params, before, applied, side)))
  {
    hide AbfOf, VbfOf, Product, Continuations, RtOut, Window, Matches;
    RedemptionWindow(params, tx, before, side, applied, base);
  }

  lemma WindowScripts(params: Params, before: MarketState, applied: Applied, side: Side)
    requires Held(params.basePayout, applied.after) <= U64_MAX
    ensures forall o :: o in Window(params, before, applied, side) && o.script.Covenant? ==> o.script.params == params
  {
    hide AbfOf, VbfOf, Product, Held;
    var rt, collateral := RtPart(params, before, applied.after, side), CollateralPart(params, applied.after);
    var burns := BurnPart(params, applied.transition);
    assert Window(params, before, applied, side) == rt + collateral + burns;
    assert forall o :: o in rt && o.script.Covenant? ==> o.script.params == params;
    assert forall o :: o in collateral && o.script.Covenant? ==> o.script.params == params;
    assert forall o :: o in burns ==> !o.script.Covenant?;
  }

  /** Whatever spend an action explains leaves real continuations. */
  lemma ExplainedContinuationsReal(
      context: Context, params: Params, before: MarketState, live: LiveOutputs, tx: Transaction,
      base: nat, claim: Claim, action: Action, spend: Spend)
    requires ExplainedBy(context, params, before, live, tx, base, claim, action, spend)
    ensures RealContinuations(params, tx, spend.continuations)
  {
    hide AbfOf, VbfOf, Product, Matches, Continuations, Kept, Window, OnePerHolding, LiveMatches, SideOf, ValidateState;
    hide GroupSpent, IssuancesMatch, Authorized, OnlyInput, RealContinuation, Spent;
    var side := Flip(SideOf(params, before, live).value);
    var applied := Apply(params.basePayout, before, action).value;
    WindowScripts(params, before, applied, side);
    ContinuationsAreOutputs(params, tx, claim.outputBase, Window(params, before, applied, side));
    if before.Trading? {
      CancelContinuations(params, tx, before, applied, side, claim.outputBase);
      TokenContinuationsOnePerHolding(params, tx, before, applied.after, side, claim.outputBase);
    } else {
      RedemptionOnePerHolding(params, tx, before, applied, side, claim.outputBase);
    }
  }

  // ----- One interpreted spend -----

  function CoreAfter(core: Core, update: Update): Core {
    core.(state := update.newState, outpoints := update.created)
  }

  predicate ReadsBack(view: View, tx: Transaction) {
    forall i :: 0 <= i < |tx.outputs| ==> view.output(OutPoint(tx.txid, i)) == Ok(tx.outputs[i])
  }

  function Transitions(updates: seq<Update>): (records: seq<TransitionRecord>)
    ensures |records| == |updates| && forall k :: 0 <= k < |updates| ==> records[k] == updates[k].transition
  {
    seq(|updates|, k requires 0 <= k < |updates| => updates[k].transition)
  }

  /** A stage of the client's fold and a record of the node's describe the same market. */
  ghost predicate SameMarket(params: Params, tx: Transaction, stage: Stage, core: Core) {
    && stage.state == core.state
    && exists list: seq<Continuation> :: RealContinuations(params, tx, list) && stage.live == LiveFrom(list) && core.outpoints == NewTracked(list)
  }

  lemma ViewSeesStage(params: Params, view: View, tx: Transaction, stage: Stage, core: Core)
    requires SameMarket(params, tx, stage, core) && ReadsBack(view, tx)
    ensures Materialize(view, core.outpoints, core.id) == Ok(stage.live)
  {
    hide OnePerHolding, Materialize, LiveFrom;
    var list: seq<Continuation> :| RealContinuations(params, tx, list) && stage.live == LiveFrom(list) && core.outpoints == NewTracked(list);
    forall i | 0 <= i < |list|
      ensures view.output(list[i].output.outpoint) == Ok(list[i].output.txout)
    {
      assert RealContinuation(params, tx, list[i]);
      assert list[i].output.outpoint == OutPoint(tx.txid, list[i].output.outpoint.vout);
    }
    NodeSeesClientLive(view, list, core.id);
  }

  /** One more entry: the client's step reads the same spend and arrives at the same market. */
  lemma StepAgrees(
      context: Context, rules: Rules, params: Params, view: View, tx: Transaction, stage: Stage, core: Core, update: Update)
    requires Explained(context, rules.spend) && core.params == params && stage.state == core.state
    requires Materialize(view, core.outpoints, core.id) == Ok(stage.live)
    requires InterpretContract(view, rules, core, tx) == Ok(update)
    ensures
      var read := rules.spend(params, stage.state, stage.live, tx);
      && read.Some?
      && SameMarket(params, tx, Stage(read.value.after, LiveFrom(read.value.continuations)), CoreAfter(core, update))
      && update.transition == TransitionCodec.NodeRecord(read.value.path, read.value.transition)
  {
    hide ExplainedBy, RealContinuations, Materialize, CompleteSpend;
    var spend := rules.spend(params, stage.state, stage.live, tx).value;
    var base: nat, claim, action :|
      ExplainedBy(context, params, stage.state, stage.live, tx, base, claim, action, spend);
    ExplainedContinuationsReal(context, params, stage.state, stage.live, tx, base, claim, action, spend);
  }

  // ----- The reported live set -----

  function ReportedLive(tracked: seq<Tracked>): (live: seq<LiveRole>)
    ensures |live| == |tracked|
    ensures forall i :: 0 <= i < |tracked| ==> live[i] == LiveRole(tracked[i].role, tracked[i].outpoint)
  {
    seq(|tracked|, i requires 0 <= i < |tracked| => LiveRole(tracked[i].role, tracked[i].outpoint))
  }

  lemma {:induction false} CollectedOutputs(list: seq<Continuation>, output: TrackedOutput)
    requires OnePerHolding(list)
    ensures output in TrackedList(LiveFrom(list)) <==> exists i :: 0 <= i < |list| && list[i].output == output
  {
    if list != [] {
      var k := |list| - 1;
      CollectedOutputs(list[..k], output);
      UnusedHoldingIsFree(list[..k], HoldingOf(list[k].slot));
      PlacedIsCollected(LiveFrom(list[..k]), list[k], output);
      assert forall i :: 0 <= i < k ==> list[..k][i] == list[i];
    }
  }

  lemma PlacedIsCollected(live: LiveOutputs, c: Continuation, output: TrackedOutput)
    requires HoldingFree(live, HoldingOf(c.slot))
    ensures output in TrackedList(PlaceOne(live, c)) <==> output in TrackedList(live) || output == c.output
  {
  }

  lemma {:induction false} RolesOfOutputs(params: Params, outputs: seq<TrackedOutput>)
    requires forall o :: o in outputs ==> RoleOf(params, o).Some?
    ensures LiveRoles(params, outputs).Some?
    ensures forall r :: r in LiveRoles(params, outputs).value <==> exists o :: o in outputs && RoleOf(params, o).value == r
  {
    if outputs != [] {
      var k := |outputs| - 1;
      assert outputs == outputs[..k] + [outputs[k]];
      RolesOfOutputs(params, outputs[..k]);
    }
  }

  /** The roles the client reads off its live outputs are the roles the node stored. */
  lemma RolesAgree(params: Params, tx: Transaction, list: seq<Continuation>)
    requires RealContinuations(params, tx, list)
    ensures
      var roles := LiveRoles(params, TrackedList(LiveFrom(list)));
      roles.Some? && ToSet(roles.value) == ToSet(ReportedLive(NewTracked(list)))
  {
    hide OnePerHolding, LiveFrom, LiveRoles, TrackedList;
    var outputs := TrackedList(LiveFrom(list));
    var reported := ReportedLive(NewTracked(list));
    forall o | o in outputs
      ensures RoleOf(params, o).Some? && RoleOf(params, o).value in reported
    {
      CollectedOutputs(list, o);
      var i :| 0 <= i < |list| && list[i].output == o;
      assert RealContinuation(params, tx, list[i]);
      assert reported[i] == RoleOf(params, o).value;
    }
    RolesOfOutputs(params, outputs);
    forall r | r in reported
      ensures r in LiveRoles(params, outputs).value
    {
      var i :| 0 <= i < |list| && reported[i] == r;
      CollectedOutputs(list, list[i].output);
      assert RealContinuation(params, tx, list[i]);
      assert RoleOf(params, list[i].output).value == r;
    }
  }
}
