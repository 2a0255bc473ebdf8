/** Values shared by the node, contract and client models. */
module Types {

  datatype Option<+T> = None | Some(value: T)

  datatype Result<+T, +E> = Ok(value: T) | Err(error: E) {
    predicate IsFailure() {
      Err?
    }

    function PropagateFailure<U>(): Result<U, E>
      requires Err?
    {
      Err(error)
    }

    function Extract(): T
      requires Ok?
    {
      value
    }
  }

  const U32_MAX: nat := 0xFFFF_FFFF
  const U64_MAX: nat := 0xFFFF_FFFF_FFFF_FFFF

  type U64 = x: int | 0 <= x <= U64_MAX
  type Byte = x: int | 0 <= x < 256

  /** Hashes are opaque identifiers: two are equal exactly when the numbers are. */
  type Txid = nat
  type BlockHash = nat
  type AssetId = nat

  datatype OutPoint = OutPoint(txid: Txid, vout: nat)

  datatype Anchor = Anchor(height: nat, hash: BlockHash)

  datatype Position = Position(height: nat, index: nat)

  datatype Params = Params(
    oracleKey: nat,
    collateral: AssetId,
    yesToken: AssetId,
    noToken: AssetId,
    yesRt: AssetId,
    noRt: AssetId,
    basePayout: U64,
    expiryHeight: nat)

  datatype MarketState =
    | Trading(outstandingPairs: U64)
    | ResolvedYes(collateral: U64)
    | ResolvedNo(collateral: U64)
    | Expired(collateral: U64)

  datatype Outcome = Yes | No

  datatype Slot =
    | DormantYesRt
    | DormantNoRt
    | UnresolvedYesRt
    | UnresolvedNoRt
    | UnresolvedCollateral
    | ResolvedYesCollateral
    | ResolvedNoCollateral
    | ExpiredCollateral

  function SlotTag(slot: Slot): (tag: Byte) {
    match slot
    case DormantYesRt => 0
    case DormantNoRt => 1
    case UnresolvedYesRt => 2
    case UnresolvedNoRt => 3
    case UnresolvedCollateral => 4
    case ResolvedYesCollateral => 5
    case ResolvedNoCollateral => 6
    case ExpiredCollateral => 7
  }

  /** The compiled script of a slot is identified by the parameters and slot it commits to. */
  datatype Script = Covenant(params: Params, slot: Slot) | BareOpReturn | OtherScript(id: nat)

  /** `BlindedAsset`/`BlindedValue` stand for the commitments of one unit under given factors. */
  datatype AssetField = ExplicitAsset(id: AssetId) | BlindedAsset(id: AssetId, abf: nat) | OpaqueAsset(tag: nat)

  datatype ValueField = ExplicitValue(amount: U64) | BlindedValue(id: AssetId, abf: nat, vbf: nat) | OpaqueValue(tag: nat)

  datatype TxOut = TxOut(asset: AssetField, value: ValueField, script: Script)

  datatype Issuance = Issuance(
    asset: AssetId,
    reissuanceToken: AssetId,
    amount: Option<U64>,
    inflationKeysNull: bool,
    nonce: nat)

  datatype TxIn = TxIn(previous: OutPoint, isFinal: bool, issuance: Option<Issuance>)

  datatype LockTime = Blocks(height: nat) | Seconds(time: nat)

  datatype Transaction = Transaction(
    txid: Txid,
    inputs: seq<TxIn>,
    outputs: seq<TxOut>,
    locktime: LockTime,
    witnessData: nat)

  /** The ten transaction shapes of the market protocol. */
  datatype Path =
    | InitialIssuance
    | SubsequentIssuance
    | PartialCancellation
    | FullCancellation
    | ActiveResolution
    | DormantResolution
    | ActiveExpiry
    | DormantExpiry
    | ResolvedRedemption
    | ExpiryRedemption

  datatype Action =
    | Issue(pairs: U64)
    | Cancel(pairs: U64)
    | Resolve(outcome: Outcome)
    | Expire
    | Redeem(outcome: Outcome, tokens: U64)

  /** Exact economic effect of an applied operation. */
  datatype Transition =
    | Issued(pairs: U64, locked: U64)
    | Cancelled(pairs: U64, released: U64, full: bool)
    | Resolved(outcome: Outcome, retained: U64)
    | Expiring(retained: U64)
    | Redeemed(outcome: Outcome, tokens: U64, released: U64, complete: bool)

  datatype TrackedOutput = TrackedOutput(outpoint: OutPoint, txout: TxOut)

  datatype LiveOutputs = LiveOutputs(
    yesRt: Option<TrackedOutput>,
    noRt: Option<TrackedOutput>,
    collateral: Option<TrackedOutput>)

  datatype Continuation = Continuation(slot: Slot, output: TrackedOutput)

  /** What interpreting one confirmed spend of a market reports. */
  datatype Spend = Spend(
    path: Path,
    after: MarketState,
    transition: Transition,
    spent: seq<OutPoint>,
    continuations: seq<Continuation>)

  predicate NoDup<T(==)>(s: seq<T>) {
    forall i, j :: 0 <= i < j < |s| ==> s[i] != s[j]
  }

  function ToSet<T>(s: seq<T>): set<T> {
    set x | x in s
  }

  lemma NoDupAppend<T>(s: seq<T>, x: T)
    ensures NoDup(s + [x]) <==> NoDup(s) && x !in s
  {
    var t := s + [x];
    assert t[|s|] == x;
    assert forall i :: 0 <= i < |s| ==> t[i] == s[i];
    if NoDup(t) {
      forall i, j | 0 <= i < j < |s|
        ensures s[i] != s[j]
      {
        assert t[i] != t[j];
      }
      assert forall i :: 0 <= i < |s| ==> t[i] != t[|s|];
    }
    if NoDup(s) && x !in s {
      forall i, j | 0 <= i < j < |t|
        ensures t[i] != t[j]
      {
        assert t[i] == s[i];
        if j < |s| {
          assert t[j] == s[j];
        }
      }
    }
  }

  /** A duplicate-free list has as many members as entries, and only such a list has. */
  lemma {:induction false} NoDupCardinality<T>(s: seq<T>)
    ensures |ToSet(s)| <= |s|
    ensures NoDup(s) <==> |ToSet(s)| == |s|
  {
    if s == [] {
      assert ToSet(s) == {};
    } else {
      var k := |s| - 1;
      var front := s[..k];
      assert s == front + [s[k]];
      NoDupCardinality(front);
      NoDupAppend(front, s[k]);
      assert ToSet(s) == ToSet(front) + {s[k]};
      if s[k] in front {
        assert ToSet(s) == ToSet(front);
      }
    }
  }

  lemma {:induction false} NoDupConcat<T>(left: seq<T>, right: seq<T>)
    ensures NoDup(left + right) <==> NoDup(left) && NoDup(right) && forall x :: x in right ==> x !in left
  {
    if right == [] {
      assert left + right == left;
    } else {
      var k := |right| - 1;
      assert left + right == (left + right[..k]) + [right[k]];
      assert right == right[..k] + [right[k]];
      NoDupAppend(left + right[..k], right[k]);
      NoDupAppend(right[..k], right[k]);
      NoDupConcat(left, right[..k]);
    }
  }
}
