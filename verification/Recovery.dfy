/** Recovery hints of markets and the one-push scripts that carry them. */
module Recovery {
  import opened Types
  import opened Bytes
  import opened Market

  type Bytes32 = s: seq<Byte> | |s| == 32 witness seq(32, _ => 0)

  const MARKET_V1_TAG: Byte := 0x10
  const KNOWN_LENGTH: nat := 38
  const EXOTIC_LENGTH: nat := 70
  const OP_RETURN: Byte := 0x6a

  datatype Collateral = PolicyAsset | LiquidUsdt | OtherAsset(id: Bytes32)

  datatype Hint = Hint(oracleKey: Bytes32, collateral: Collateral, basePayout: U64, expiryHeight: nat)

  datatype RecoveryError =
    | InvalidPayloadLength
    | InvalidRecoveryScript
    | InvalidLength
    | UnknownTag
    | InvalidExpiryHeight
    | InvalidBasePayout
    | ReservedCollateralIndex
    | CollateralLengthMismatch

  // ----- The payout table -----

  /** The first position of a payout from a given one on. */
  function PayoutIndex(payout: U64, from: nat): (index: Option<nat>)
    requires from <= |BASE_PAYOUTS|
    ensures index.Some? ==> from <= index.value < |BASE_PAYOUTS|
    decreases |BASE_PAYOUTS| - from
  {
    if from == |BASE_PAYOUTS| then
      None
    else if BASE_PAYOUTS[from] == payout then
      Some(from)
    else
      PayoutIndex(payout, from + 1)
  }

  lemma PayoutsIncrease(i: nat)
    requires i + 1 < |BASE_PAYOUTS|
    ensures BASE_PAYOUTS[i] < BASE_PAYOUTS[i + 1]
  {
  }

  lemma {:induction false} PayoutsSorted(i: nat, j: nat)
    requires i < j < |BASE_PAYOUTS|
    ensures BASE_PAYOUTS[i] < BASE_PAYOUTS[j]
    decreases j
  {
    hide BASE_PAYOUTS;
    if i + 1 < j {
      PayoutsSorted(i, j - 1);
    }
    PayoutsIncrease(j - 1);
  }

  /** The table is a bijection between the sixteen nibbles and the payouts. */
  lemma {:induction false} PayoutIndexExactly(payout: U64, from: nat, i: nat)
    requires from <= i < |BASE_PAYOUTS|
    ensures PayoutIndex(payout, from) == Some(i) <==> BASE_PAYOUTS[i] == payout
    decreases |BASE_PAYOUTS| - from
  {
    hide BASE_PAYOUTS;
    if from < i {
      PayoutIndexExactly(payout, from + 1, i);
      PayoutsSorted(from, i);
    }
  }

  // ----- Hints -----

  predicate ValidExpiry(height: nat) {
    0 < height < 500_000_000
  }

  predicate ValidHint(hint: Hint) {
    ValidExpiry(hint.expiryHeight) && PayoutIndex(hint.basePayout, 0).Some?
  }

  function CollateralIndex(collateral: Collateral): nat {
    match collateral
    case PolicyAsset => 0
    case LiquidUsdt => 1
    case OtherAsset(_) => 15
  }

  function Trailer(collateral: Collateral): seq<Byte> {
    if collateral.OtherAsset? then collateral.id else []
  }

  /** Two nibbles in one byte. */
  function Packed(high: nat, low: nat): Byte
    requires high < 16 && low < 16
  {
    16 * high + low
  }

  /** The payload of a valid hint. */
  function Encoded(hint: Hint): (payload: seq<Byte>)
    requires ValidHint(hint)
  {
    [MARKET_V1_TAG] + hint.oracleKey
    + [Packed(CollateralIndex(hint.collateral), PayoutIndex(hint.basePayout, 0).value)]
    + BigEndian(hint.expiryHeight, 4) + Trailer(hint.collateral)
  }

  method Encode(hint: Hint) returns (r: Result<seq<Byte>, RecoveryError>)
    ensures r.Ok? <==> ValidHint(hint)
    ensures r.Ok? ==> r.value == Encoded(hint)
    ensures r.Ok? ==> |r.value| == if hint.collateral.OtherAsset? then EXOTIC_LENGTH else KNOWN_LENGTH
  {
    hide BASE_PAYOUTS, PayoutIndex;
    if !ValidExpiry(hint.expiryHeight) {
      return Err(InvalidExpiryHeight);
    }
    var payout := PayoutIndex(hint.basePayout, 0);
    if payout.None? {
      return Err(RecoveryError.InvalidBasePayout);
    }
    PayoutTableSize();
    var payload: seq<Byte> := [MARKET_V1_TAG];
    payload := payload + hint.oracleKey;
    payload := payload + [Packed(CollateralIndex(hint.collateral), payout.value)];
    payload := payload + BigEndian(hint.expiryHeight, 4);
    if hint.collateral.OtherAsset? {
      payload := payload + hint.collateral.id;
    } else {
      assert payload + [] == payload;
    }
    r := Ok(payload);
  }

  function DecodeCollateral(index: nat, payload: seq<Byte>): Result<Collateral, RecoveryError>
    requires |payload| == KNOWN_LENGTH || |payload| == EXOTIC_LENGTH
  {
    if index == 0 && |payload| == KNOWN_LENGTH then
      Ok(PolicyAsset)
    else if index == 1 && |payload| == KNOWN_LENGTH then
      Ok(LiquidUsdt)
    else if index == 15 && |payload| == EXOTIC_LENGTH then
      Ok(OtherAsset(payload[38..70]))
    else if 2 <= index <= 14 then
      Err(ReservedCollateralIndex)
    else
      Err(CollateralLengthMismatch)
  }

  function Decode(payload: seq<Byte>): Result<Hint, RecoveryError> {
    if |payload| != KNOWN_LENGTH && |payload| != EXOTIC_LENGTH then
      Err(InvalidLength)
    else if payload[0] != MARKET_V1_TAG then
      Err(UnknownTag)
    else if !ValidExpiry(FromBigEndian(payload[34..38])) then
      Err(InvalidExpiryHeight)
    else
      var collateral :- DecodeCollateral(payload[33] / 16, payload);
      Ok(Hint(payload[1..33], collateral, BASE_PAYOUTS[payload[33] % 16], FromBigEndian(payload[34..38])))
  }

  lemma Unpacked(high: nat, low: nat)
    requires high < 16 && low < 16
    ensures Packed(high, low) / 16 == high && Packed(high, low) % 16 == low
  {
  }

  lemma FourByteExpiry(height: nat)
    requires height < 500_000_000
    ensures FromBigEndian(BigEndian(height, 4)) == height
  {
    assert Pow256(4) == 0x1_0000_0000;
    BigEndianRoundTrip(height, 4);
  }

  /** The four parts of an encoded hint, by position. */
  lemma EncodedParts(hint: Hint)
    requires ValidHint(hint)
    ensures
      var payload := Encoded(hint);
      && |payload| == (if hint.collateral.OtherAsset? then EXOTIC_LENGTH else KNOWN_LENGTH)
      && payload[0] == MARKET_V1_TAG
      && payload[1..33] == hint.oracleKey
      && payload[33] == Packed(CollateralIndex(hint.collateral), PayoutIndex(hint.basePayout, 0).value)
      && payload[34..38] == BigEndian(hint.expiryHeight, 4)
      && payload[38..] == Trailer(hint.collateral)
  {
    hide BASE_PAYOUTS, PayoutIndex, BigEndian;
    PayoutTableSize();
    var front := [MARKET_V1_TAG] + hint.oracleKey;
    var middle := front + [Packed(CollateralIndex(hint.collateral), PayoutIndex(hint.basePayout, 0).value)];
    var whole := middle + BigEndian(hint.expiryHeight, 4);
    assert |front| == 33 && front[1..33] == hint.oracleKey;
    assert |middle| == 34 && middle[..33] == front;
    assert |whole| == 38 && whole[..34] == middle && whole[34..38] == BigEndian(hint.expiryHeight, 4);
    var payload := Encoded(hint);
    assert payload == whole + Trailer(hint.collateral);
    assert payload[..38] == whole && payload[38..] == Trailer(hint.collateral);
    assert payload[34..38] == whole[34..38];
    assert payload[1..33] == front[1..33];
  }

  /** Decoding undoes encoding on every valid hint. */
  lemma DecodeOfEncoded(hint: Hint)
    requires ValidHint(hint)
    ensures Decode(Encoded(hint)) == Ok(hint)
  {
    hide BASE_PAYOUTS, PayoutIndex, BigEndian, FromBigEndian, Encoded, Packed;
    EncodedParts(hint);
    PayoutTableSize();
    var payout := PayoutIndex(hint.basePayout, 0).value;
    PayoutIndexExactly(hint.basePayout, 0, payout);
    Unpacked(CollateralIndex(hint.collateral), payout);
    FourByteExpiry(hint.expiryHeight);
    var payload := Encoded(hint);
    if hint.collateral.OtherAsset? {
      assert payload[38..70] == payload[38..];
    }
  }

  /** Whatever decodes is the encoding of what it decodes to: one payload per hint. */
  lemma EncodedOfDecode(payload: seq<Byte>)
    requires Decode(payload).Ok?
    ensures ValidHint(Decode(payload).value)
    ensures Encoded(Decode(payload).value) == payload
  {
    hide BASE_PAYOUTS, PayoutIndex, BigEndian, FromBigEndian, Packed;
    var hint := Decode(payload).value;
    var low := payload[33] % 16;
    PayoutTableSize();
    PayoutIndexExactly(hint.basePayout, 0, low);
    FromBigEndianRoundTrip(payload[34..38]);
    Repacked(payload[33]);
    assert payload == [payload[0]] + payload[1..33] + [payload[33]] + payload[34..38] + payload[38..];
  }

  lemma PayoutTableSize()
    ensures |BASE_PAYOUTS| == 16
  {
  }

  lemma Repacked(b: Byte)
    ensures Packed(b / 16, b % 16) == b
  {
  }

  // ----- Scripts -----

  function ScriptOf(payload: seq<Byte>): Result<seq<Byte>, RecoveryError> {
    if payload == [] || |payload| > EXOTIC_LENGTH then
      Err(InvalidPayloadLength)
    else
      Ok([OP_RETURN, |payload|] + payload)
  }

  method RecoveryScript(payload: seq<Byte>) returns (r: Result<seq<Byte>, RecoveryError>)
    ensures r == ScriptOf(payload)
    ensures r.Ok? ==> ParseScript(r.value) == Ok(payload)
  {
    if payload == [] || |payload| > EXOTIC_LENGTH {
      return Err(InvalidPayloadLength);
    }
    var bytes: seq<Byte> := [OP_RETURN];
    bytes := bytes + [|payload|];
    bytes := bytes + payload;
    assert bytes == [OP_RETURN, |payload|] + payload;
    r := Ok(bytes);
  }

  function ParseScript(bytes: seq<Byte>): Result<seq<Byte>, RecoveryError> {
    if |bytes| < 3 || bytes[0] != OP_RETURN then
      Err(InvalidRecoveryScript)
    else if bytes[1] == 0 || bytes[1] > EXOTIC_LENGTH || |bytes| != bytes[1] + 2 then
      Err(InvalidRecoveryScript)
    else
      Ok(bytes[2..])
  }

  /** Scripts and payloads correspond one to one. */
  lemma ScriptRoundTrip(payload: seq<Byte>, script: seq<Byte>)
    ensures ScriptOf(payload) == Ok(script) <==> ParseScript(script) == Ok(payload)
  {
    if ParseScript(script) == Ok(payload) {
      assert script == [script[0], script[1]] + script[2..];
    }
  }
}
