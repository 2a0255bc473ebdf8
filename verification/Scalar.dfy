/** Byte-wise arithmetic modulo the secp256k1 group order, and the public blinding schedule built on it. */
module Scalar {
  import opened Types
  import opened Bytes
  import opened Modular

  /** The group order n, section 2.4.1 of SEC 2 v2.0. */
  const GROUP_ORDER: nat := 0xFFFFFFFF_FFFFFFFF_FFFFFFFF_FFFFFFFE_BAAEDCE6_AF48A03B_BFD25E8C_D0364141

  const ORDER: seq<Byte> :=
    [0xff, 0xff, 0xff, 0xff, 0xff, 0xff, 0xff, 0xff] +
    [0xff, 0xff, 0xff, 0xff, 0xff, 0xff, 0xff, 0xfe] +
    [0xba, 0xae, 0xdc, 0xe6, 0xaf, 0x48, 0xa0, 0x3b] +
    [0xbf, 0xd2, 0x5e, 0x8c, 0xd0, 0x36, 0x41, 0x41]

  type Scalar32 = s: seq<Byte> | |s| == 32 witness seq(32, _ => 0)

  function Repeated(b: Byte): (s: Scalar32) {
    seq(32, _ => b)
  }

  const ABF_A: Scalar32 := Repeated(1)
  const ABF_B: Scalar32 := Repeated(2)
  const YES_CBF: Scalar32 := Repeated(3)

  datatype Side = A | B

  function Flip(side: Side): Side {
    match side
    case A => B
    case B => A
  }

  datatype Factors = Factors(abf: Scalar32, vbf: Scalar32, cbf: Scalar32)

  lemma {:induction false} Concatenated(left: seq<Byte>, right: seq<Byte>)
    ensures FromBigEndian(left + right) == FromBigEndian(left) * Pow256(|right|) + FromBigEndian(right)
  {
    if right == [] {
      assert left + right == left;
    } else {
      var k := |right| - 1;
      Concatenated(left, right[..k]);
      assert (left + right)[..|left + right| - 1] == left + right[..k];
      assert FromBigEndian(left) * Pow256(k + 1) == FromBigEndian(left) * Pow256(k) * 256;
    }
  }

  lemma FourBytes(a: Byte, b: Byte, c: Byte, d: Byte)
    ensures FromBigEndian([a, b, c, d]) == (((a as int) * 256 + b) * 256 + c) * 256 + d
  {
    assert [a][..0] == [] && FromBigEndian([a]) == a;
    assert [a, b][..1] == [a] && FromBigEndian([a, b]) == (a as int) * 256 + b;
    assert [a, b, c][..2] == [a, b];
    assert [a, b, c, d][..3] == [a, b, c];
  }

  lemma EightBytes(s: seq<Byte>)
    requires |s| == 8
    ensures FromBigEndian(s)
         == ((((s[0] as int) * 256 + s[1]) * 256 + s[2]) * 256 + s[3]) * 0x1_0000_0000
          + (((s[4] as int) * 256 + s[5]) * 256 + s[6]) * 256 + s[7]
  {
    FourBytes(s[0], s[1], s[2], s[3]);
    FourBytes(s[4], s[5], s[6], s[7]);
    var left, right := [s[0], s[1], s[2], s[3]], [s[4], s[5], s[6], s[7]];
    assert s == left + right;
    Concatenated(left, right);
    assert Pow256(4) == 0x1_0000_0000;
  }

  lemma SixteenBytes(left: seq<Byte>, right: seq<Byte>)
    requires |left| == |right| == 8
    ensures FromBigEndian(left + right) == FromBigEndian(left) * 0x1_0000_0000_0000_0000 + FromBigEndian(right)
  {
    Pow256Of8();
    Concatenated(left, right);
  }

  lemma EmptyValue()
    ensures FromBigEndian([]) == 0
  {
  }

  lemma OrderValue()
    ensures FromBigEndian(ORDER) == GROUP_ORDER
  {
    hide FromBigEndian, Pow256;
    var w0: seq<Byte> := [0xff, 0xff, 0xff, 0xff, 0xff, 0xff, 0xff, 0xff];
    var w1: seq<Byte> := [0xff, 0xff, 0xff, 0xff, 0xff, 0xff, 0xff, 0xfe];
    var w2: seq<Byte> := [0xba, 0xae, 0xdc, 0xe6, 0xaf, 0x48, 0xa0, 0x3b];
    var w3: seq<Byte> := [0xbf, 0xd2, 0x5e, 0x8c, 0xd0, 0x36, 0x41, 0x41];
    EightBytes(w0);
    EightBytes(w1);
    EightBytes(w2);
    EightBytes(w3);
    SixteenBytes(w0, w1);
    SixteenBytes(w2, w3);
    Concatenated(w0 + w1, w2 + w3);
    Pow256Of16();
    assert ORDER == (w0 + w1) + (w2 + w3);
  }

  lemma Pow256Of16()
    ensures Pow256(16) == 0x1_00000000_00000000_00000000_00000000
  {
    Pow256Of8();
    Pow256Add(8, 8);
  }

  lemma {:induction false} Pow256Add(m: nat, n: nat)
    ensures Pow256(m + n) == Pow256(m) * Pow256(n)
  {
    if m != 0 {
      Pow256Add(m - 1, n);
    }
  }

  /** One subtraction is enough: the order is above half of the 256-bit range and inside it. */
  lemma OrderRange()
    ensures GROUP_ORDER < Pow256(32) < 2 * GROUP_ORDER
  {
    hide Pow256;
    Pow256Of16();
    Pow256Add(16, 16);
  }

  /** Byte-string comparison, first byte first. */
  predicate Less(left: seq<Byte>, right: seq<Byte>)
    requires |left| == |right|
  {
    left != [] && (left[0] < right[0] || (left[0] == right[0] && Less(left[1..], right[1..])))
  }

  lemma {:induction false} LessIsLess(left: seq<Byte>, right: seq<Byte>)
    requires |left| == |right|
    ensures Less(left, right) <==> FromBigEndian(left) < FromBigEndian(right)
  {
    if left != [] {
      LessIsLess(left[1..], right[1..]);
      FrontDigit(left);
      FrontDigit(right);
      FromBigEndianRoundTrip(left[1..]);
      FromBigEndianRoundTrip(right[1..]);
      MultipleLess(left[0], right[0], Pow256(|left| - 1));
      MultipleLess(right[0], left[0], Pow256(|left| - 1));
    }
  }

  lemma ValueInRange(s: seq<Byte>)
    ensures 0 <= FromBigEndian(s) < Pow256(|s|)
  {
    FromBigEndianRoundTrip(s);
  }

  lemma Suffix(s: seq<Byte>, k: nat)
    requires k < |s|
    ensures FromBigEndian(s[k..]) == s[k] * Pow256(|s| - k - 1) + FromBigEndian(s[k + 1..])
  {
    FrontDigit(s[k..]);
    assert s[k..][1..] == s[k + 1..];
  }

  /** Borrow loop: right is taken from left byte by byte, from the last one on. */
  method SubtractSameWidth(left: seq<Byte>, right: seq<Byte>) returns (borrowed: bool, difference: seq<Byte>)
    requires |left| == |right|
    ensures |difference| == |left|
    ensures FromBigEndian(difference)
         == FromBigEndian(left) - FromBigEndian(right) + (if borrowed then Pow256(|left|) else 0)
    ensures borrowed <==> FromBigEndian(left) < FromBigEndian(right)
  {
    hide FromBigEndian;
    EmptyValue();
    var n := |left|;
    var output := new Byte[n](_ => 0);
    var borrow := 0;
    var index := n;
    assert output[n..] == left[n..] == right[n..] == [];
    while index > 0
      invariant 0 <= index <= n
      invariant borrow == 0 || borrow == 1
      invariant FromBigEndian(output[index..])
             == FromBigEndian(left[index..]) - FromBigEndian(right[index..]) + borrow * Pow256(n - index)
    {
      ghost var done := output[index..];
      ghost var before := borrow;
      index := index - 1;
      var value := left[index] - right[index] - borrow;
      if value < 0 {
        output[index] := value + 256;
        borrow := 1;
      } else {
        output[index] := value;
        borrow := 0;
      }
      Suffix(output[..], index);
      Suffix(left, index);
      Suffix(right, index);
      assert output[..][index..] == output[index..] && output[..][index + 1..] == done;
      BorrowStep(left[index], right[index], before, borrow, output[index], Pow256(n - index - 1));
      assert Pow256(n - index) == 256 * Pow256(n - index - 1);
    }
    borrowed := borrow != 0;
    difference := output[..];
    assert output[0..] == difference && left[0..] == left && right[0..] == right;
    ValueInRange(left);
    ValueInRange(right);
    ValueInRange(difference);
  }

  lemma BorrowStep(l: Byte, r: Byte, before: nat, after: nat, d: Byte, p: nat)
    requires d == l - r - before + 256 * after
    ensures d * p == l * p - r * p - before * p + after * (256 * p)
  {
    assert d * p == (l - r - before + 256 * after) * p;
  }

  /** Carry loop: the sum of two equally wide numbers, one byte wider. */
  method AddWithCarry(left: seq<Byte>, right: seq<Byte>) returns (sum: seq<Byte>)
    requires |left| == |right|
    ensures |sum| == |left| + 1
    ensures FromBigEndian(sum) == FromBigEndian(left) + FromBigEndian(right)
  {
    hide LowByte, HighByte, FromBigEndian;
    EmptyValue();
    var n := |left|;
    var output := new Byte[n + 1](_ => 0);
    var carry := 0;
    var index := n;
    assert output[n + 1..] == left[n..] == right[n..] == [];
    while index > 0
      invariant 0 <= index <= n
      invariant carry == 0 || carry == 1
      invariant FromBigEndian(output[index + 1..]) + carry * Pow256(n - index)
             == FromBigEndian(left[index..]) + FromBigEndian(right[index..])
    {
      ghost var done := output[index + 1..];
      ghost var before := carry;
      index := index - 1;
      var word := left[index] + right[index] + carry;
      SplitWord(word);
      output[index + 1] := LowByte(word);
      carry := HighByte(word);
      assert output[index + 2..] == done;
      Suffix(output[..], index + 1);
      Suffix(left, index);
      Suffix(right, index);
      assert output[..][index + 1..] == output[index + 1..] && output[..][index + 2..] == done;
      CarryStep(left[index], right[index], before, carry, output[index + 1], Pow256(n - index - 1));
      assert Pow256(n - index) == 256 * Pow256(n - index - 1);
    }
    ghost var low := output[1..];
    output[0] := carry;
    sum := output[..];
    assert sum == [carry] + low && sum[1..] == low;
    FrontDigit(sum);
    assert left[0..] == left && right[0..] == right;
  }

  function LowByte(word: nat): Byte {
    word % 256
  }

  function HighByte(word: nat): nat {
    word / 256
  }

  lemma SplitWord(word: nat)
    requires word < 512
    ensures HighByte(word) <= 1 && LowByte(word) + 256 * HighByte(word) == word
  {
  }

  lemma CarryStep(l: Byte, r: Byte, before: nat, after: nat, d: Byte, p: nat)
    requires d + 256 * after == l + r + before
    ensures d * p + after * (256 * p) == l * p + r * p + before * p
  {
    assert (d + 256 * after) * p == (l + r + before) * p;
  }

  method ReduceScalar(value: Scalar32) returns (reduced: Scalar32)
    ensures FromBigEndian(reduced) == FromBigEndian(value) % GROUP_ORDER
  {
    reduced := value;
    LessIsLess(value, ORDER);
    OrderValue();
    OrderRange();
    ValueInRange(value);
    ReducedOnce(FromBigEndian(value), GROUP_ORDER);
    if !Less(value, ORDER) {
      var _, difference := SubtractSameWidth(value, ORDER);
      reduced := difference;
    }
  }

  lemma WidenedOrder()
    ensures FromBigEndian([0] + ORDER) == GROUP_ORDER
  {
    var order: seq<Byte> := [0] + ORDER;
    FrontDigit(order);
    assert order[1..] == ORDER;
    OrderValue();
  }

  method AddModOrder(left: Scalar32, right: Scalar32) returns (total: Scalar32)
    ensures FromBigEndian(total) == (FromBigEndian(left) + FromBigEndian(right)) % GROUP_ORDER
  {
    hide FromBigEndian, Pow256, Less;
    var l := ReduceScalar(left);
    var r := ReduceScalar(right);
    var sum := AddWithCarry(l, r);
    var order := [0] + ORDER;
    WidenedOrder();
    OrderRange();
    LessIsLess(sum, order);
    ReducedOnce(FromBigEndian(sum), GROUP_ORDER);
    SumOfResidues(FromBigEndian(left), FromBigEndian(right), GROUP_ORDER);
    if !Less(sum, order) {
      var _, difference := SubtractSameWidth(sum, order);
      sum := difference;
    }
    LeadingZero(sum, 32);
    total := sum[1..];
  }

  /** A number below the full width has a zero first byte, which can be dropped. */
  lemma LeadingZero(s: seq<Byte>, width: nat)
    requires |s| == width + 1 && FromBigEndian(s) < Pow256(width)
    ensures FromBigEndian(s[1..]) == FromBigEndian(s)
  {
    FrontDigit(s);
    MultipleLess(0, s[0], Pow256(width));
  }

  method SubtractModOrder(left: Scalar32, right: Scalar32) returns (difference: Scalar32)
    ensures FromBigEndian(difference) == (FromBigEndian(left) - FromBigEndian(right)) % GROUP_ORDER
  {
    var l := ReduceScalar(left);
    var r := ReduceScalar(right);
    LessIsLess(l, r);
    OrderValue();
    DifferenceOfResidues(FromBigEndian(left), FromBigEndian(right), GROUP_ORDER);
    if !Less(l, r) {
      var _, d := SubtractSameWidth(l, r);
      difference := d;
    } else {
      var _, d := SubtractSameWidth(r, l);
      var _, wrapped := SubtractSameWidth(ORDER, d);
      difference := wrapped;
    }
  }

  method NoCbf() returns (cbf: Scalar32)
    ensures FromBigEndian(cbf) == (0 - FromBigEndian(YES_CBF)) % GROUP_ORDER
  {
    ZeroScalar(32);
    cbf := SubtractModOrder(Repeated(0), YES_CBF);
  }

  lemma {:induction false} ZeroScalar(width: nat)
    ensures FromBigEndian(seq(width, _ => 0)) == 0
  {
    if width != 0 {
      ZeroScalar(width - 1);
      assert seq(width, _ => 0)[..width - 1] == seq(width - 1, _ => 0);
    }
  }

  function AbfBytes(side: Side): Scalar32 {
    match side
    case A => ABF_A
    case B => ABF_B
  }

  method Cbf(leg: Outcome) returns (cbf: Scalar32)
    ensures FromBigEndian(cbf) == CbfOf(leg)
  {
    match leg {
      case Yes =>
        OrderValue();
        LessIsLess(YES_CBF, ORDER);
        cbf := YES_CBF;
      case No => cbf := NoCbf();
    }
  }

  /** The schedule as numbers: what the byte-wise factors are worth. */
  function AbfOf(side: Side): nat {
    FromBigEndian(AbfBytes(side))
  }

  function CbfOf(leg: Outcome): nat {
    match leg
    case Yes => FromBigEndian(YES_CBF)
    case No => (0 - FromBigEndian(YES_CBF)) % GROUP_ORDER
  }

  function VbfOf(leg: Outcome, side: Side): nat {
    (CbfOf(leg) - AbfOf(side)) % GROUP_ORDER
  }

  method FactorsFor(leg: Outcome, side: Side) returns (f: Factors)
    ensures f.abf == AbfBytes(side) && FromBigEndian(f.abf) == AbfOf(side)
    ensures FromBigEndian(f.cbf) == CbfOf(leg)
    ensures FromBigEndian(f.vbf) == VbfOf(leg, side) < GROUP_ORDER
    ensures (FromBigEndian(f.abf) + FromBigEndian(f.vbf)) % GROUP_ORDER == FromBigEndian(f.cbf)
  {
    var cbf := Cbf(leg);
    var vbf := SubtractModOrder(cbf, AbfBytes(side));
    f := Factors(AbfBytes(side), vbf, cbf);
    CommitmentsBalance(leg, side);
  }

  lemma YesCbfReduced()
    ensures FromBigEndian(YES_CBF) < GROUP_ORDER
  {
    OrderValue();
    LessIsLess(YES_CBF, ORDER);
  }

  /** Asset and value factors of a leg add up to the leg's commitment factor on either side. */
  lemma CommitmentsBalance(leg: Outcome, side: Side)
    ensures (AbfOf(side) + VbfOf(leg, side)) % GROUP_ORDER == CbfOf(leg)
  {
    YesCbfReduced();
    AddBack(CbfOf(leg), AbfOf(side), GROUP_ORDER);
  }

  /** The two legs of one creation cancel. */
  lemma LegsCancel()
    ensures (CbfOf(Yes) + CbfOf(No)) % GROUP_ORDER == 0
  {
    AddBack(0, FromBigEndian(YES_CBF), GROUP_ORDER);
  }

  /** The two sides are told apart by their asset factor, and by the value factor of either leg. */
  lemma SidesDiffer(leg: Outcome)
    ensures AbfOf(A) != AbfOf(B) && VbfOf(leg, A) != VbfOf(leg, B)
  {
    hide FromBigEndian, BigEndian;
    AbfReduced(A);
    AbfReduced(B);
    YesCbfReduced();
    FromBigEndianRoundTrip(ABF_A);
    FromBigEndianRoundTrip(ABF_B);
    assert ABF_A[0] != ABF_B[0];
    DistinctDifferences(CbfOf(leg), AbfOf(A), AbfOf(B), GROUP_ORDER);
  }

  lemma AbfReduced(side: Side)
    ensures AbfOf(side) < GROUP_ORDER
  {
    OrderValue();
    LessIsLess(AbfBytes(side), ORDER);
  }
}
