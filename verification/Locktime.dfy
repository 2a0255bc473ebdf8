/** Absolute transaction locktimes and the constraints contributions place on them. */
module Locktime {
  import opened Types

  /** Consensus values below the threshold count blocks, those from it on count seconds. */
  const THRESHOLD: nat := 500_000_000

  const ZERO: LockTime := Blocks(0)

  datatype Constraint = Unconstrained | AtLeast(bound: LockTime) | Exact(bound: LockTime)

  datatype LocktimeError = IncompatibleUnits | IncompatibleExact | ExactBelowMinimum

  function ConsensusValue(locktime: LockTime): nat {
    match locktime
    case Blocks(height) => height
    case Seconds(time) => time
  }

  predicate Encodable(locktime: LockTime) {
    match locktime
    case Blocks(height) => height < THRESHOLD
    case Seconds(time) => THRESHOLD <= time <= U32_MAX
  }

  predicate EncodableAll(constraints: seq<Constraint>) {
    forall c :: c in constraints && !c.Unconstrained? ==> Encodable(c.bound)
  }

  predicate SameUnit(left: LockTime, right: LockTime) {
    left.Blocks? <==> right.Blocks?
  }

  /** BIP 65: a locktime meets a bound of its own unit that it reaches. */
  predicate Reaches(locktime: LockTime, bound: LockTime) {
    SameUnit(locktime, bound) && ConsensusValue(locktime) >= ConsensusValue(bound)
  }

  /** A lower bound of zero asks for nothing. */
  predicate Satisfies(locktime: LockTime, c: Constraint) {
    match c
    case Unconstrained => true
    case AtLeast(bound) => bound == ZERO || Reaches(locktime, bound)
    case Exact(bound) => locktime == bound
  }

  predicate SatisfiesAll(locktime: LockTime, constraints: seq<Constraint>) {
    forall c :: c in constraints ==> Satisfies(locktime, c)
  }

  /**
   Succeeds exactly when some locktime satisfies every constraint, and then gives the least one. What the
   loop keeps is that the two bounds collected so far are met by the same locktimes as the constraints.
   */
  method ResolveLocktime(constraints: seq<Constraint>) returns (r: Result<LockTime, LocktimeError>)
    requires EncodableAll(constraints)
    ensures r.Ok? <==> exists l :: Resolution(constraints, l)
    ensures r.Ok? ==> LeastSolution(constraints, r.value)
  {
    var minimum: Option<LockTime> := None;
    var exact: Option<LockTime> := None;
    for i := 0 to |constraints|
      invariant minimum.Some? ==> Encodable(minimum.value)
      invariant exact.Some? ==> Encodable(exact.value)
      invariant forall l :: SatisfiesAll(l, constraints[..i]) <==> Meets(l, minimum, exact)
    {
      var c := constraints[i];
      ghost var (floor, fixed) := (minimum, exact);
      forall l
        ensures SatisfiesAll(l, constraints[..i + 1]) <==> Meets(l, floor, fixed) && Satisfies(l, c)
      {
        SatisfiesMore(l, constraints, i);
      }
      if c.AtLeast? && c.bound != ZERO {
        if minimum.None? {
          minimum := Some(c.bound);
        } else if SameUnit(minimum.value, c.bound) {
          if ConsensusValue(minimum.value) < ConsensusValue(c.bound) {
            minimum := Some(c.bound);
          }
        } else {
          NoneSatisfies(constraints, i, floor, fixed);
          return Err(IncompatibleUnits);
        }
      } else if c.Exact? {
        if exact.Some? && exact.value != c.bound {
          NoneSatisfies(constraints, i, floor, fixed);
          return Err(IncompatibleExact);
        }
        exact := Some(c.bound);
      }
      forall l
        ensures SatisfiesAll(l, constraints[..i + 1]) <==> Meets(l, minimum, exact)
      {
        assert Meets(l, floor, fixed) && Satisfies(l, c) <==> Meets(l, minimum, exact);
      }
    }
    assert constraints[..|constraints|] == constraints;
    assert forall l :: Resolution(constraints, l) <==> Encodable(l) && Meets(l, minimum, exact);
    if exact.Some? {
      if minimum.Some? && !Reaches(exact.value, minimum.value) {
        assert forall l :: !Meets(l, minimum, exact);
        return Err(ExactBelowMinimum);
      }
      assert Meets(exact.value, minimum, exact);
      return Ok(exact.value);
    }
    r := Ok(if minimum.Some? then minimum.value else ZERO);
    assert Meets(r.value, minimum, exact);
    assert SatisfiesAll(r.value, constraints);
  }

  predicate Meets(locktime: LockTime, minimum: Option<LockTime>, exact: Option<LockTime>) {
    && (minimum.Some? ==> Reaches(locktime, minimum.value))
    && (exact.Some? ==> locktime == exact.value)
  }

  lemma SatisfiesMore(l: LockTime, constraints: seq<Constraint>, i: nat)
    requires i < |constraints|
    ensures SatisfiesAll(l, constraints[..i + 1]) <==> SatisfiesAll(l, constraints[..i]) && Satisfies(l, constraints[i])
  {
    assert constraints[..i + 1] == constraints[..i] + [constraints[i]];
  }

  lemma NoneSatisfies(constraints: seq<Constraint>, i: nat, minimum: Option<LockTime>, exact: Option<LockTime>)
    requires i < |constraints|
    requires forall l :: SatisfiesAll(l, constraints[..i + 1]) <==> Meets(l, minimum, exact) && Satisfies(l, constraints[i])
    requires forall l :: !(Meets(l, minimum, exact) && Satisfies(l, constraints[i]))
    ensures forall l :: !SatisfiesAll(l, constraints)
  {
    assert forall c :: c in constraints[..i + 1] ==> c in constraints;
    forall l
      ensures !SatisfiesAll(l, constraints)
    {
      assert !(Meets(l, minimum, exact) && Satisfies(l, constraints[i]));
      assert !SatisfiesAll(l, constraints[..i + 1]);
    }
  }

  /** What resolving promises of a constraint list. */
  predicate Resolution(constraints: seq<Constraint>, l: LockTime) {
    Encodable(l) && SatisfiesAll(l, constraints)
  }

  /** The least solution is unique and depends on the members of the list only, not on their order. */
  lemma OrderIsIrrelevant(left: seq<Constraint>, right: seq<Constraint>, a: LockTime, b: LockTime)
    requires multiset(left) == multiset(right)
    requires LeastSolution(left, a) && LeastSolution(right, b)
    ensures a == b
  {
    SameConstraints(left, right);
    assert Resolution(right, a) && Resolution(left, b);
  }

  lemma SameConstraints(left: seq<Constraint>, right: seq<Constraint>)
    requires multiset(left) == multiset(right)
    ensures forall l :: SatisfiesAll(l, left) <==> SatisfiesAll(l, right)
  {
    forall c
      ensures c in left <==> c in right
    {
      assert c in left <==> c in multiset(left);
      assert c in right <==> c in multiset(right);
    }
  }

  /** The least solution of a constraint list, as resolving gives it. */
  ghost predicate LeastSolution(constraints: seq<Constraint>, l: LockTime) {
    && Resolution(constraints, l)
    && forall other :: Resolution(constraints, other) ==> ConsensusValue(l) <= ConsensusValue(other)
  }

  /** Some bound is a time. */
  ghost predicate TimeBound(constraints: seq<Constraint>) {
    exists c :: c in constraints && !c.Unconstrained? && c.bound.Seconds?
  }

  /** The least solution is a time lock exactly when some bound is a time: without one, heights suffice. */
  lemma LeastIsTimeExactly(constraints: seq<Constraint>, l: LockTime)
    requires LeastSolution(constraints, l)
    ensures l.Seconds? <==> TimeBound(constraints)
  {
    if TimeBound(constraints) {
      var c :| c in constraints && !c.Unconstrained? && c.bound.Seconds?;
      assert Satisfies(l, c);
    } else if l.Seconds? {
      forall c | c in constraints
        ensures Satisfies(ZERO, c)
      {
        assert Satisfies(l, c);
      }
      assert Resolution(constraints, ZERO);
    }
  }

  /** The strict reading of BIP 65, in which a bound of block zero still rules out time locks. */
  predicate SatisfiesStrictly(locktime: LockTime, c: Constraint) {
    match c
    case Unconstrained => true
    case AtLeast(bound) => Reaches(locktime, bound)
    case Exact(bound) => locktime == bound
  }

  predicate SatisfiesAllStrictly(locktime: LockTime, constraints: seq<Constraint>) {
    forall c :: c in constraints ==> SatisfiesStrictly(locktime, c)
  }

  /**
   Under the strict reading the resolver errs on a zero bound next to a time lock: the time lock is the
   only solution there, so it is what resolving gives, yet it does not meet the zero bound strictly.
   */
  lemma ZeroBoundIgnoresItsUnit()
    ensures
      var constraints := [AtLeast(ZERO), Exact(Seconds(THRESHOLD))];
      && EncodableAll(constraints)
      && LeastSolution(constraints, Seconds(THRESHOLD))
      && (forall l :: Resolution(constraints, l) ==> l == Seconds(THRESHOLD))
      && !SatisfiesAllStrictly(Seconds(THRESHOLD), constraints)
  {
    var constraints := [AtLeast(ZERO), Exact(Seconds(THRESHOLD))];
    assert forall l :: SatisfiesAll(l, constraints) ==> Satisfies(l, constraints[1]);
    assert !SatisfiesStrictly(Seconds(THRESHOLD), constraints[0]);
  }

  /**
   Exactly then: resolving meets the strict reading unless a bound is zero and another one is a time.
   Whenever any locktime meets the strict reading, the resolved one does.
   */
  lemma StrictReadingExactly(constraints: seq<Constraint>, l: LockTime)
    requires LeastSolution(constraints, l)
    ensures SatisfiesAllStrictly(l, constraints) <==> AtLeast(ZERO) !in constraints || !TimeBound(constraints)
    ensures SatisfiesAllStrictly(l, constraints) <==> exists other :: SatisfiesAllStrictly(other, constraints)
  {
    LeastIsTimeExactly(constraints, l);
    forall c | c in constraints && !(c == AtLeast(ZERO) && l.Seconds?)
      ensures SatisfiesStrictly(l, c)
    {
      assert Satisfies(l, c);
    }
    assert l.Seconds? ==> !SatisfiesStrictly(l, AtLeast(ZERO));
    if other :| SatisfiesAllStrictly(other, constraints) {
      assert forall c :: c in constraints ==> SatisfiesStrictly(other, c);
    }
  }
}
