/** Economics and layout of one binary market: checked 64-bit arithmetic over its four phases. */
module Market {
  import opened Types
  import opened Modular

  const BASE_PAYOUTS: seq<U64> := [
    100, 200, 500, 1_000, 2_000, 5_000, 10_000, 20_000, 50_000, 100_000, 200_000, 500_000,
    1_000_000, 2_000_000, 5_000_000, 10_000_000]

  datatype MarketError =
    | InvalidBasePayout
    | ZeroQuantity
    | InvalidState
    | OutstandingPairsOverflow
    | AmountOverflow
    | CancellationExceedsOutstanding
    | LosingOutcome
    | RedemptionExceedsCollateral
    | InvalidStateAmount

  datatype Applied = Applied(after: MarketState, transition: Transition)

  function Product(amount: nat, unit: nat): nat {
    amount * unit
  }

  function CheckedPayout(amount: U64, unit: nat): Result<U64, MarketError> {
    if Product(amount, unit) <= U64_MAX then Ok(Product(amount, unit)) else Err(AmountOverflow)
  }

  /** Collateral behind one YES and NO pair. */
  function PerPair(base: nat): nat {
    2 * base
  }

  function ValidateState(base: U64, state: MarketState): Result<(), MarketError>
    requires base in BASE_PAYOUTS
  {
    match state
    case Trading(pairs) =>
      var _ :- CheckedPayout(pairs, PerPair(base));
      Ok(())
    case ResolvedYes(c) => if c % PerPair(base) != 0 then Err(InvalidStateAmount) else Ok(())
    case ResolvedNo(c) => if c % PerPair(base) != 0 then Err(InvalidStateAmount) else Ok(())
    case Expired(c) => if c % base != 0 then Err(InvalidStateAmount) else Ok(())
  }

  function ApplyIssue(base: U64, state: MarketState, pairs: U64): Result<Applied, MarketError>
    requires base in BASE_PAYOUTS
  {
    if pairs == 0 then
      Err(ZeroQuantity)
    else if !state.Trading? then
      Err(InvalidState)
    else if state.outstandingPairs + pairs > U64_MAX then
      Err(OutstandingPairsOverflow)
    else
      var next: U64 := state.outstandingPairs + pairs;
      var _ :- CheckedPayout(next, PerPair(base));
      var locked :- CheckedPayout(pairs, PerPair(base));
      Ok(Applied(Trading(next), Issued(pairs, locked)))
  }

  function ApplyCancel(base: U64, state: MarketState, pairs: U64): Result<Applied, MarketError>
    requires base in BASE_PAYOUTS
  {
    if pairs == 0 then
      Err(ZeroQuantity)
    else if !state.Trading? then
      Err(InvalidState)
    else if pairs > state.outstandingPairs then
      Err(CancellationExceedsOutstanding)
    else
      var remaining: U64 := state.outstandingPairs - pairs;
      var _ :- CheckedPayout(remaining, PerPair(base));
      var released :- CheckedPayout(pairs, PerPair(base));
      Ok(Applied(Trading(remaining), Cancelled(pairs, released, remaining == 0)))
  }

  function ApplyResolve(base: U64, state: MarketState, outcome: Outcome): Result<Applied, MarketError>
    requires base in BASE_PAYOUTS
  {
    if !state.Trading? then
      Err(InvalidState)
    else
      var retained :- CheckedPayout(state.outstandingPairs, PerPair(base));
      var after := if outcome == Yes then ResolvedYes(retained) else ResolvedNo(retained);
      Ok(Applied(after, Resolved(outcome, retained)))
  }

  function ApplyExpire(base: U64, state: MarketState): Result<Applied, MarketError>
    requires base in BASE_PAYOUTS
  {
    if !state.Trading? then
      Err(InvalidState)
    else
      var retained :- CheckedPayout(state.outstandingPairs, PerPair(base));
      Ok(Applied(Expired(retained), Expiring(retained)))
  }

  function WithCollateral(state: MarketState, collateral: U64): MarketState
    requires !state.Trading?
  {
    match state
    case ResolvedYes(_) => ResolvedYes(collateral)
    case ResolvedNo(_) => ResolvedNo(collateral)
    case Expired(_) => Expired(collateral)
  }

  function UnitPayout(base: nat, state: MarketState): nat {
    if state.Expired? then base else PerPair(base)
  }

  function ApplyRedeem(base: U64, state: MarketState, outcome: Outcome, tokens: U64): Result<Applied, MarketError>
    requires base in BASE_PAYOUTS
  {
    if tokens == 0 then
      Err(ZeroQuantity)
    else if state.Trading? then
      Err(InvalidState)
    else if (state.ResolvedYes? && outcome != Yes) || (state.ResolvedNo? && outcome != No) then
      Err(LosingOutcome)
    else
      var released :- CheckedPayout(tokens, UnitPayout(base, state));
      if released > state.collateral then
        Err(RedemptionExceedsCollateral)
      else
        var remaining: U64 := state.collateral - released;
        Ok(Applied(WithCollateral(state, remaining), Redeemed(outcome, tokens, released, remaining == 0)))
  }

  function Apply(base: U64, state: MarketState, action: Action): Result<Applied, MarketError> {
    if base !in BASE_PAYOUTS then
      Err(InvalidBasePayout)
    else
      var _ :- ValidateState(base, state);
      match action
      case Issue(pairs) => ApplyIssue(base, state, pairs)
      case Cancel(pairs) => ApplyCancel(base, state, pairs)
      case Resolve(outcome) => ApplyResolve(base, state, outcome)
      case Expire => ApplyExpire(base, state)
      case Redeem(outcome, tokens) => ApplyRedeem(base, state, outcome, tokens)
  }

  // ----- Solvency -----

  /** A market together with what its history locked and released and the tokens still in circulation. */
  datatype Book = Book(state: MarketState, locked: nat, released: nat, yes: nat, no: nat)

  const Dormant: Book := Book(Trading(0), 0, 0, 0, 0)

  function Supply(book: Book, outcome: Outcome): nat {
    if outcome == Yes then book.yes else book.no
  }

  function Held(base: nat, state: MarketState): nat {
    match state
    case Trading(pairs) => Product(pairs, PerPair(base))
    case ResolvedYes(c) => c
    case ResolvedNo(c) => c
    case Expired(c) => c
  }

  /** What the tokens in circulation can still be turned into. */
  function Owed(base: nat, book: Book): nat {
    match book.state
    case Trading(_) => Product(book.yes, PerPair(base))
    case ResolvedYes(_) => Product(book.yes, PerPair(base))
    case ResolvedNo(_) => Product(book.no, PerPair(base))
    case Expired(_) => Product(book.yes + book.no, base)
  }

  predicate Solvent(base: nat, book: Book) {
    && base in BASE_PAYOUTS
    && book.locked == book.released + Held(base, book.state)
    && Held(base, book.state) == Owed(base, book) <= U64_MAX
    && (book.state.Trading? ==> book.yes == book.no == book.state.outstandingPairs)
  }

  /** Tokens must exist to be burned: the chain enforces it, the economics does not look. */
  predicate Burnable(book: Book, action: Action) {
    match action
    case Cancel(pairs) => pairs <= book.yes && pairs <= book.no
    case Redeem(outcome, tokens) => tokens <= Supply(book, outcome)
    case _ => true
  }

  /** The books after one accepted operation. */
  function Post(book: Book, applied: Applied): Book
    requires applied.transition.Cancelled? ==> applied.transition.pairs <= book.yes && applied.transition.pairs <= book.no
    requires applied.transition.Redeemed? ==> applied.transition.tokens <= Supply(book, applied.transition.outcome)
  {
    match applied.transition
    case Issued(pairs, locked) =>
      Book(applied.after, book.locked + locked, book.released, book.yes + pairs, book.no + pairs)
    case Cancelled(pairs, released, _) =>
      Book(applied.after, book.locked, book.released + released, book.yes - pairs, book.no - pairs)
    case Resolved(_, _) => book.(state := applied.after)
    case Expiring(_) => book.(state := applied.after)
    case Redeemed(outcome, tokens, released, _) =>
      if outcome == Yes then
        Book(applied.after, book.locked, book.released + released, book.yes - tokens, book.no)
      else
        Book(applied.after, book.locked, book.released + released, book.yes, book.no - tokens)
  }

  function Step(base: U64, book: Book, action: Action): Option<Book> {
    var applied := Apply(base, book.state, action);
    if applied.Ok? && Burnable(book, action) then
      TransitionNamesAction(base, book.state, action);
      Some(Post(book, applied.value))
    else
      None
  }

  /** A run of operations, each accepted and backed by existing tokens. */
  function Run(base: U64, actions: seq<Action>): Option<Book> {
    if actions == [] then
      Some(Dormant)
    else
      var before := Run(base, actions[..|actions| - 1]);
      if before.None? then None else Step(base, before.value, actions[|actions| - 1])
  }

  lemma TransitionNamesAction(base: U64, state: MarketState, action: Action)
    requires Apply(base, state, action).Ok?
    ensures
      match Apply(base, state, action).value.transition
      case Issued(pairs, _) => action == Issue(pairs)
      case Cancelled(pairs, _, _) => action == Cancel(pairs)
      case Resolved(outcome, _) => action == Resolve(outcome)
      case Expiring(_) => action == Expire
      case Redeemed(outcome, tokens, _, _) => action == Redeem(outcome, tokens)
  {
  }

  lemma ProductSum(a: nat, b: nat, unit: nat)
    ensures Product(a + b, unit) == Product(a, unit) + Product(b, unit)
  {
  }

  lemma ProductMonotone(a: nat, b: nat, unit: nat)
    requires unit > 0
    ensures a <= b <==> Product(a, unit) <= Product(b, unit)
  {
    if a <= b {
      ProductSum(a, b - a, unit);
    } else {
      ProductSum(b, a - b, unit);
      assert Product(a - b, unit) > 0;
    }
  }

  lemma ProductDouble(a: nat, base: nat)
    ensures Product(a + a, base) == Product(a, PerPair(base))
  {
    assert (a + a) * base == a * (2 * base);
  }

  lemma PairsKeepSolvency(base: U64, book: Book, action: Action)
    requires Solvent(base, book) && Step(base, book, action).Some?
    requires action.Issue? || action.Cancel?
    ensures Solvent(base, Step(base, book, action).value)
  {
    hide Product, ValidateState;
    if action.Issue? {
      ProductSum(book.yes, action.pairs, PerPair(base));
    } else {
      ProductSum(book.yes - action.pairs, action.pairs, PerPair(base));
    }
  }

  lemma EndKeepsSolvency(base: U64, book: Book, action: Action)
    requires Solvent(base, book) && Step(base, book, action).Some?
    requires action.Resolve? || action.Expire?
    ensures Solvent(base, Step(base, book, action).value)
  {
    hide Product, ValidateState;
    ProductDouble(book.yes, base);
  }

  lemma RedeemKeepsSolvency(base: U64, book: Book, outcome: Outcome, tokens: U64)
    requires Solvent(base, book) && Step(base, book, Redeem(outcome, tokens)).Some?
    ensures Solvent(base, Step(base, book, Redeem(outcome, tokens)).value)
  {
    hide Product, ValidateState;
    ProductSum(Supply(book, outcome) - tokens, tokens, UnitPayout(base, book.state));
    ProductSum(book.yes + book.no - tokens, tokens, UnitPayout(base, book.state));
  }

  lemma StepKeepsSolvency(base: U64, book: Book, action: Action)
    requires Solvent(base, book) && Step(base, book, action).Some?
    ensures Solvent(base, Step(base, book, action).value)
  {
    hide Solvent, Step;
    match action {
      case Issue(_) => PairsKeepSolvency(base, book, action);
      case Cancel(_) => PairsKeepSolvency(base, book, action);
      case Resolve(_) => EndKeepsSolvency(base, book, action);
      case Expire => EndKeepsSolvency(base, book, action);
      case Redeem(outcome, tokens) => RedeemKeepsSolvency(base, book, outcome, tokens);
    }
  }

  /**
   Over every run from a dormant market: locked less released is what the covenant holds, and that is
   exactly what the tokens in circulation can be redeemed for.
   */
  lemma {:induction false} RunIsSolvent(base: U64, actions: seq<Action>)
    requires base in BASE_PAYOUTS
    ensures Run(base, actions).Some? ==> Solvent(base, Run(base, actions).value)
  {
    if actions == [] {
      assert Product(0, PerPair(base)) == 0;
    } else {
      RunIsSolvent(base, actions[..|actions| - 1]);
      var before := Run(base, actions[..|actions| - 1]);
      if before.Some? && Step(base, before.value, actions[|actions| - 1]).Some? {
        StepKeepsSolvency(base, before.value, actions[|actions| - 1]);
      }
    }
  }

  predicate Redeemable(state: MarketState, outcome: Outcome) {
    match state
    case Trading(_) => false
    case ResolvedYes(_) => outcome == Yes
    case ResolvedNo(_) => outcome == No
    case Expired(_) => true
  }

  lemma ProductModulo(a: nat, unit: nat)
    requires unit > 0
    ensures Product(a, unit) % unit == 0
  {
    UniqueQuotient(Product(a, unit), a, 0, unit);
  }

  /** A solvent book always passes the state check that precedes every operation. */
  lemma SolventStateIsValid(base: U64, book: Book)
    requires Solvent(base, book)
    ensures ValidateState(base, book.state).Ok?
  {
    hide Product;
    ProductModulo(book.yes, PerPair(base));
    ProductModulo(book.no, PerPair(base));
    ProductModulo(book.yes + book.no, base);
  }

  /** Any redemption of existing winning tokens goes through, and takes collateral strictly down. */
  lemma RedemptionWithinSupplySucceeds(base: U64, book: Book, outcome: Outcome, tokens: U64)
    requires Solvent(base, book)
    requires Redeemable(book.state, outcome) && 0 < tokens <= Supply(book, outcome)
    ensures Step(base, book, Redeem(outcome, tokens)).Some?
    ensures Held(base, Step(base, book, Redeem(outcome, tokens)).value.state) < Held(base, book.state)
  {
    hide Product;
    SolventStateIsValid(base, book);
    var unit := UnitPayout(base, book.state);
    ProductMonotone(tokens, Supply(book, outcome), unit);
    ProductMonotone(tokens, book.yes + book.no, unit);
    ProductMonotone(tokens, 0, unit);
    assert Product(0, unit) == 0 by {
      ProductSum(0, 0, unit);
    }
  }

  /** In a resolved market the collateral check alone already confines redemption to the supply. */
  lemma ResolvedRedemptionExactly(base: U64, book: Book, outcome: Outcome, tokens: U64)
    requires Solvent(base, book) && (book.state.ResolvedYes? || book.state.ResolvedNo?)
    ensures Apply(base, book.state, Redeem(outcome, tokens)).Ok?
       <==> Redeemable(book.state, outcome) && 0 < tokens <= Supply(book, outcome)
  {
    hide Product;
    SolventStateIsValid(base, book);
    ProductMonotone(tokens, Supply(book, outcome), PerPair(base));
  }

  /** After expiry it does not: the economics would pay more YES tokens than exist out of the NO half. */
  lemma ExpiredRedemptionCanExceedSupply()
    ensures
      var book := Book(Expired(400), 400, 0, 2, 2);
      && Solvent(100, book)
      && Apply(100, book.state, Redeem(Yes, 3)).Ok? && 3 > Supply(book, Yes)
  {
    assert 100 in BASE_PAYOUTS by {
      assert BASE_PAYOUTS[0] == 100;
    }
  }

  /** The exact rule after expiry: as many tokens as both supplies together. */
  lemma ExpiredRedemptionExactly(base: U64, book: Book, outcome: Outcome, tokens: U64)
    requires Solvent(base, book) && book.state.Expired?
    ensures Apply(base, book.state, Redeem(outcome, tokens)).Ok? <==> 0 < tokens <= book.yes + book.no
  {
    hide Product;
    SolventStateIsValid(base, book);
    ProductMonotone(tokens, book.yes + book.no, base);
  }

  // ----- Redemption order -----

  datatype Redemption = Redemption(outcome: Outcome, tokens: U64)

  function RedeemAll(base: U64, state: MarketState, list: seq<Redemption>): Result<MarketState, MarketError> {
    if list == [] then
      Ok(state)
    else
      var k := |list| - 1;
      var before :- RedeemAll(base, state, list[..k]);
      var applied :- Apply(base, before, Redeem(list[k].outcome, list[k].tokens));
      Ok(applied.after)
  }

  function Total(list: seq<Redemption>): nat {
    if list == [] then 0 else Total(list[..|list| - 1]) + list[|list| - 1].tokens
  }

  predicate Proper(state: MarketState, list: seq<Redemption>) {
    forall r :: r in list ==> r.tokens > 0 && Redeemable(state, r.outcome)
  }

  lemma ProductRemainder(c: nat, t: nat, unit: nat)
    requires unit > 0 && c % unit == 0 && Product(t, unit) <= c
    ensures (c - Product(t, unit)) % unit == 0
  {
    var q := c / unit;
    assert c == q * unit;
    assert c - t * unit == (q - t) * unit by {
      assert (q - t) * unit == q * unit - t * unit;
    }
    ProductMonotone(t, q, unit);
    ProductModulo(q - t, unit);
  }

  /** One redemption from a valid terminal state, in closed form. */
  lemma RedeemOnce(base: U64, state: MarketState, outcome: Outcome, tokens: U64)
    requires base in BASE_PAYOUTS && ValidateState(base, state).Ok? && !state.Trading?
    ensures
      var r := Apply(base, state, Redeem(outcome, tokens));
      var payout := Product(tokens, UnitPayout(base, state));
      && (r.Ok? <==> tokens > 0 && Redeemable(state, outcome) && payout <= state.collateral)
      && (r.Ok? ==> r.value.after == WithCollateral(state, state.collateral - payout))
      && (r.Ok? ==> ValidateState(base, r.value.after).Ok?)
  {
    hide Product;
    if Product(tokens, UnitPayout(base, state)) <= state.collateral {
      ProductRemainder(state.collateral, tokens, UnitPayout(base, state));
    }
  }

  /** A list of redemptions succeeds exactly when each is proper and together they fit, and only their total counts. */
  lemma {:induction false} RedeemAllByTotal(base: U64, state: MarketState, list: seq<Redemption>)
    requires base in BASE_PAYOUTS && ValidateState(base, state).Ok? && !state.Trading?
    ensures
      var r := RedeemAll(base, state, list);
      var payout := Product(Total(list), UnitPayout(base, state));
      && (r.Ok? <==> Proper(state, list) && payout <= state.collateral)
      && (r.Ok? ==> r.value == WithCollateral(state, state.collateral - payout) && ValidateState(base, r.value).Ok?)
  {
    hide Product, Apply, ValidateState;
    var unit := UnitPayout(base, state);
    if list == [] {
      assert Product(0, unit) == 0 by {
        ProductSum(0, 0, unit);
      }
    } else {
      var k := |list| - 1;
      assert list == list[..k] + [list[k]];
      RedeemAllByTotal(base, state, list[..k]);
      ProductSum(Total(list[..k]), list[k].tokens, unit);
      assert Proper(state, list) <==> Proper(state, list[..k]) && list[k].tokens > 0 && Redeemable(state, list[k].outcome);
      var before := RedeemAll(base, state, list[..k]);
      if before.Ok? {
        RedeemOnce(base, before.value, list[k].outcome, list[k].tokens);
      }
    }
  }

  function Without(list: seq<Redemption>, i: nat): seq<Redemption>
    requires i < |list|
  {
    list[..i] + list[i + 1..]
  }

  lemma {:induction false} TotalRemove(list: seq<Redemption>, i: nat)
    requires i < |list|
    ensures |Without(list, i)| == |list| - 1
    ensures Total(list) == Total(Without(list, i)) + list[i].tokens
  {
    var k := |list| - 1;
    if i == k {
      assert list[..i] + list[i + 1..] == list[..k];
    } else {
      TotalRemove(list[..k], i);
      var rest := list[..i] + list[i + 1..];
      assert rest[..|rest| - 1] == list[..k][..i] + list[..k][i + 1..];
    }
  }

  lemma WithoutIsDifference(list: seq<Redemption>, i: nat)
    requires i < |list|
    ensures multiset(Without(list, i)) == multiset(list) - multiset{list[i]}
  {
    assert list == list[..i] + [list[i]] + list[i + 1..];
  }

  lemma {:induction false} TotalOfPermutation(left: seq<Redemption>, right: seq<Redemption>)
    requires multiset(left) == multiset(right)
    ensures Total(left) == Total(right)
    decreases |left|
  {
    hide Total, Without;
    if left == [] {
      assert |multiset(right)| == 0;
    } else {
      assert left[0] in multiset(right);
      var i :| 0 <= i < |right| && right[i] == left[0];
      WithoutIsDifference(left, 0);
      WithoutIsDifference(right, i);
      TotalRemove(left, 0);
      TotalRemove(right, i);
      TotalOfPermutation(Without(left, 0), Without(right, i));
    }
  }

  /** Redemption order does not matter: a permuted list is accepted alike and ends in the same state. */
  lemma RedemptionOrderIsIrrelevant(base: U64, state: MarketState, left: seq<Redemption>, right: seq<Redemption>)
    requires base in BASE_PAYOUTS && ValidateState(base, state).Ok? && !state.Trading?
    requires multiset(left) == multiset(right)
    ensures RedeemAll(base, state, left).Ok? <==> RedeemAll(base, state, right).Ok?
    ensures RedeemAll(base, state, left).Ok? ==> RedeemAll(base, state, left) == RedeemAll(base, state, right)
  {
    hide Product, ValidateState, RedeemAll, Total;
    RedeemAllByTotal(base, state, left);
    RedeemAllByTotal(base, state, right);
    TotalOfPermutation(left, right);
    assert Proper(state, left) <==> Proper(state, right) by {
      assert forall r :: r in left <==> r in multiset(left);
      assert forall r :: r in right <==> r in multiset(right);
    }
  }
}
