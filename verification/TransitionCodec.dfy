/** The versioned transition record the node stores and the client recomputes. */
module TransitionCodec {
  import opened Bytes
  import opened Ledger
  import opened Types

  const MARKET_ISSUED: nat := 0x1001
  const MARKET_CANCELLED: nat := 0x1002
  const MARKET_RESOLVED: nat := 0x1003
  const MARKET_EXPIRED: nat := 0x1004
  const MARKET_REDEEMED: nat := 0x1005

  function PathTag(path: Path): (tag: Byte) {
    match path
    case InitialIssuance => 0
    case SubsequentIssuance => 1
    case PartialCancellation => 2
    case FullCancellation => 3
    case ActiveResolution => 4
    case DormantResolution => 5
    case ActiveExpiry => 6
    case DormantExpiry => 7
    case ResolvedRedemption => 8
    case ExpiryRedemption => 9
  }

  function PathOf(tag: Byte): Option<Path> {
    match tag
    case 0 => Some(InitialIssuance)
    case 1 => Some(SubsequentIssuance)
    case 2 => Some(PartialCancellation)
    case 3 => Some(FullCancellation)
    case 4 => Some(ActiveResolution)
    case 5 => Some(DormantResolution)
    case 6 => Some(ActiveExpiry)
    case 7 => Some(DormantExpiry)
    case 8 => Some(ResolvedRedemption)
    case 9 => Some(ExpiryRedemption)
    case _ => None
  }

  function OutcomeByte(outcome: Outcome): Byte {
    match outcome
    case Yes => 0
    case No => 1
  }

  function Flag(value: bool): Byte {
    if value then 1 else 0
  }

  function Kind(transition: Transition): nat {
    match transition
    case Issued(_, _) => MARKET_ISSUED
    case Cancelled(_, _, _) => MARKET_CANCELLED
    case Resolved(_, _) => MARKET_RESOLVED
    case Expiring(_) => MARKET_EXPIRED
    case Redeemed(_, _, _, _) => MARKET_REDEEMED
  }

  /** The node's record of a transition. */
  function NodeRecord(path: Path, transition: Transition): (record: TransitionRecord) {
    TransitionRecord(
      Kind(transition),
      [PathTag(path)] + match transition {
        case Issued(pairs, locked) => BigEndian(pairs, 8) + BigEndian(locked, 8)
        case Cancelled(pairs, released, full) => BigEndian(pairs, 8) + BigEndian(released, 8) + [Flag(full)]
        case Resolved(outcome, retained) => [OutcomeByte(outcome)] + BigEndian(retained, 8)
        case Expiring(retained) => BigEndian(retained, 8)
        case Redeemed(outcome, tokens, released, complete) =>
          [OutcomeByte(outcome)] + BigEndian(tokens, 8) + BigEndian(released, 8) + [Flag(complete)]
      })
  }

  /** The client appends the same fields to a growing payload and must agree on every transition. */
  method ClientRecord(path: Path, transition: Transition) returns (kind: nat, payload: seq<Byte>)
    ensures TransitionRecord(kind, payload) == NodeRecord(path, transition)
  {
    payload := [PathTag(path)];
    match transition {
      case Issued(pairs, locked) =>
        payload := payload + BigEndian(pairs, 8);
        payload := payload + BigEndian(locked, 8);
        kind := MARKET_ISSUED;
      case Cancelled(pairs, released, full) =>
        payload := payload + BigEndian(pairs, 8);
        payload := payload + BigEndian(released, 8);
        payload := payload + [Flag(full)];
        kind := MARKET_CANCELLED;
      case Resolved(outcome, retained) =>
        payload := payload + [OutcomeByte(outcome)];
        payload := payload + BigEndian(retained, 8);
        kind := MARKET_RESOLVED;
      case Expiring(retained) =>
        payload := payload + BigEndian(retained, 8);
        kind := MARKET_EXPIRED;
      case Redeemed(outcome, tokens, released, complete) =>
        payload := payload + [OutcomeByte(outcome)];
        payload := payload + BigEndian(tokens, 8);
        payload := payload + BigEndian(released, 8);
        payload := payload + [Flag(complete)];
        kind := MARKET_REDEEMED;
    }
  }

  function Slice(bytes: seq<Byte>, from: nat): (n: nat) {
    if from + 8 <= |bytes| then FromBigEndian(bytes[from..from + 8]) else 0
  }

  function DecodedOutcome(byte: Byte): Outcome {
    if byte == 0 then Yes else No
  }

  /** Reference decoder: what a reader of the documented layout recovers from a record. */
  function Decode(record: TransitionRecord): (r: Option<(Path, Transition)>) {
    var p := record.payload;
    if p == [] || PathOf(p[0]).None? then
      None
    else
      var path := PathOf(p[0]).value;
      if record.kind == MARKET_ISSUED && |p| == 17 && Slice(p, 1) <= U64_MAX && Slice(p, 9) <= U64_MAX then
        Some((path, Issued(Slice(p, 1), Slice(p, 9))))
      else if record.kind == MARKET_CANCELLED && |p| == 18 && Slice(p, 1) <= U64_MAX && Slice(p, 9) <= U64_MAX then
        Some((path, Cancelled(Slice(p, 1), Slice(p, 9), p[17] == 1)))
      else if record.kind == MARKET_RESOLVED && |p| == 10 && Slice(p, 2) <= U64_MAX then
        Some((path, Resolved(DecodedOutcome(p[1]), Slice(p, 2))))
      else if record.kind == MARKET_EXPIRED && |p| == 9 && Slice(p, 1) <= U64_MAX then
        Some((path, Expiring(Slice(p, 1))))
      else if record.kind == MARKET_REDEEMED && |p| == 19 && Slice(p, 2) <= U64_MAX && Slice(p, 10) <= U64_MAX then
        Some((path, Redeemed(DecodedOutcome(p[1]), Slice(p, 2), Slice(p, 10), p[18] == 1)))
      else
        None
  }

  lemma SliceOf(prefix: seq<Byte>, value: U64, suffix: seq<Byte>)
    ensures Slice(prefix + BigEndian(value, 8) + suffix, |prefix|) == value
  {
    var all := prefix + BigEndian(value, 8) + suffix;
    assert all[|prefix|..|prefix| + 8] == BigEndian(value, 8);
    U64RoundTrip(value);
  }

  lemma IssuedRoundTrip(path: Path, pairs: U64, locked: U64)
    ensures Decode(NodeRecord(path, Issued(pairs, locked))) == Some((path, Issued(pairs, locked)))
  {
    var p := NodeRecord(path, Issued(pairs, locked)).payload;
    var tag := [PathTag(path)];
    SliceOf(tag, pairs, BigEndian(locked, 8));
    SliceOf(tag + BigEndian(pairs, 8), locked, []);
    assert p == tag + BigEndian(pairs, 8) + BigEndian(locked, 8);
    assert p == tag + BigEndian(pairs, 8) + BigEndian(locked, 8) + [];
  }

  lemma CancelledRoundTrip(path: Path, pairs: U64, released: U64, full: bool)
    ensures Decode(NodeRecord(path, Cancelled(pairs, released, full))) == Some((path, Cancelled(pairs, released, full)))
  {
    var p := NodeRecord(path, Cancelled(pairs, released, full)).payload;
    var tag := [PathTag(path)];
    SliceOf(tag, pairs, BigEndian(released, 8) + [Flag(full)]);
    SliceOf(tag + BigEndian(pairs, 8), released, [Flag(full)]);
    assert p == tag + BigEndian(pairs, 8) + (BigEndian(released, 8) + [Flag(full)]);
    assert p == tag + BigEndian(pairs, 8) + BigEndian(released, 8) + [Flag(full)];
  }

  lemma ResolvedRoundTrip(path: Path, outcome: Outcome, retained: U64)
    ensures Decode(NodeRecord(path, Resolved(outcome, retained))) == Some((path, Resolved(outcome, retained)))
  {
    var p := NodeRecord(path, Resolved(outcome, retained)).payload;
    var tag := [PathTag(path)];
    SliceOf(tag + [OutcomeByte(outcome)], retained, []);
    assert p == tag + [OutcomeByte(outcome)] + BigEndian(retained, 8) + [];
  }

  lemma ExpiringRoundTrip(path: Path, retained: U64)
    ensures Decode(NodeRecord(path, Expiring(retained))) == Some((path, Expiring(retained)))
  {
    var p := NodeRecord(path, Expiring(retained)).payload;
    var tag := [PathTag(path)];
    SliceOf(tag, retained, []);
    assert p == tag + BigEndian(retained, 8) + [];
  }

  lemma RedeemedRoundTrip(path: Path, outcome: Outcome, tokens: U64, released: U64, complete: bool)
    ensures Decode(NodeRecord(path, Redeemed(outcome, tokens, released, complete)))
         == Some((path, Redeemed(outcome, tokens, released, complete)))
  {
    var p := NodeRecord(path, Redeemed(outcome, tokens, released, complete)).payload;
    var head := [PathTag(path)] + [OutcomeByte(outcome)];
    SliceOf(head, tokens, BigEndian(released, 8) + [Flag(complete)]);
    SliceOf(head + BigEndian(tokens, 8), released, [Flag(complete)]);
    assert p == head + BigEndian(tokens, 8) + (BigEndian(released, 8) + [Flag(complete)]);
    assert p == head + BigEndian(tokens, 8) + BigEndian(released, 8) + [Flag(complete)];
  }

  /** Nothing about a transition is lost in its record. */
  lemma RecordRoundTrip(path: Path, transition: Transition)
    ensures Decode(NodeRecord(path, transition)) == Some((path, transition))
  {
    match transition
    case Issued(pairs, locked) => IssuedRoundTrip(path, pairs, locked);
    case Cancelled(pairs, released, full) => CancelledRoundTrip(path, pairs, released, full);
    case Resolved(outcome, retained) => ResolvedRoundTrip(path, outcome, retained);
    case Expiring(retained) => ExpiringRoundTrip(path, retained);
    case Redeemed(outcome, tokens, released, complete) =>
      RedeemedRoundTrip(path, outcome, tokens, released, complete);
  }

  /** Distinct (path, transition) pairs never share a record. */
  lemma RecordInjective(path: Path, transition: Transition, otherPath: Path, other: Transition)
    ensures NodeRecord(path, transition) == NodeRecord(otherPath, other) <==> path == otherPath && transition == other
  {
    RecordRoundTrip(path, transition);
    RecordRoundTrip(otherPath, other);
  }
}
