// Integer widths, constants and billing arithmetic of ClawEscrow.
module EscrowMath {

  const UINT16_LIMIT: nat := 0x1_0000
  const UINT32_LIMIT: nat := 0x1_0000_0000
  const UINT64_LIMIT: nat := 0x1_0000_0000_0000_0000
  const UINT96_LIMIT: nat := 0x1_0000_0000_0000_0000_0000_0000
  const UINT256_LIMIT: nat :=
    0x1_0000_0000_0000_0000_0000_0000_0000_0000_0000_0000_0000_0000_0000_0000_0000_0000

  type uint16 = x: nat | x < UINT16_LIMIT
  type uint32 = x: nat | x < UINT32_LIMIT
  type uint96 = x: nat | x < UINT96_LIMIT

  const CENT: nat := 10_000
  const SECS_PER_HOUR: nat := 3600
  const MAX_COMMISSION_BPS: nat := 2_000
  const BPS_SCALE: nat := 10_000
  const SETTLE_GRACE_SECS: nat := 300

  // Rate times usage, in base units times seconds-per-hour.
  function Product(rate: nat, secs: nat): nat {
    rate * CENT * secs
  }

  function CeilDiv(a: nat, b: nat): nat
    requires b > 0
  {
    if a == 0 then 0 else (a - 1) / b + 1
  }

  // The cost of some usage: rounded down.
  function Cost(rate: nat, secs: nat): nat {
    Product(rate, secs) / SECS_PER_HOUR
  }

  // The amount reserved at open: rounded up.
  function LockFor(rate: nat, maxSecs: nat): nat {
    CeilDiv(Product(rate, maxSecs), SECS_PER_HOUR)
  }

  function CommissionOn(cost: nat, bps: nat): nat {
    cost * bps / BPS_SCALE
  }

  // The contract's ceiling division is the least integer that covers the quotient.
  lemma CeilDivIsLeastCover(a: nat, b: nat, n: nat)
    requires b > 0
    ensures CeilDiv(a, b) * b >= a
    ensures n * b >= a ==> CeilDiv(a, b) <= n
  {
    if a > 0 {
      var q := (a - 1) / b;
      assert a - 1 == q * b + (a - 1) % b;
      assert (q + 1) * b == q * b + b;
      if n <= q {
        MulMono(n, q, b);
      }
    }
  }

  lemma MulMono(x: nat, y: nat, z: nat)
    requires x <= y
    ensures x * z <= y * z
  {
  }

  lemma ProductMono(rate: nat, u: nat, v: nat)
    requires u <= v
    ensures Product(rate, u) <= Product(rate, v)
  {
    MulMono(u, v, rate * CENT);
  }

  lemma ProductAdds(rate: nat, u: nat, v: nat)
    ensures Product(rate, u + v) == Product(rate, u) + Product(rate, v)
  {
  }

  // Usage inside the window never costs more than the lock, so the clamp in _settle never fires.
  lemma CostWithinLock(rate: nat, usage: nat, maxSecs: nat)
    requires usage <= maxSecs
    ensures Cost(rate, usage) <= Cost(rate, maxSecs) <= LockFor(rate, maxSecs)
  {
    ProductMono(rate, usage, maxSecs);
  }

  // At full usage the lock exceeds the cost by one base unit, or by nothing when the division is exact.
  lemma FullUsageResidue(rate: nat, maxSecs: nat)
    ensures LockFor(rate, maxSecs) - Cost(rate, maxSecs)
         == if Product(rate, maxSecs) % SECS_PER_HOUR == 0 then 0 else 1
  {
    var p := Product(rate, maxSecs);
    if p > 0 {
      assert p == p / SECS_PER_HOUR * SECS_PER_HOUR + p % SECS_PER_HOUR;
    }
  }

  // Splitting usage over two bills loses at most one base unit and never gains any.
  lemma SplitBillLosesAtMostOne(rate: nat, u: nat, v: nat)
    ensures Cost(rate, u) + Cost(rate, v) <= Cost(rate, u + v) <= Cost(rate, u) + Cost(rate, v) + 1
  {
    ProductAdds(rate, u, v);
  }

  // Under the 20% cap the commission is part of the cost and the supplier keeps at least 80%.
  lemma CommissionBounds(cost: nat, bps: nat)
    requires bps <= MAX_COMMISSION_BPS
    ensures CommissionOn(cost, bps) <= cost
    ensures 5 * (cost - CommissionOn(cost, bps)) >= 4 * cost
  {
    MulMono(bps, MAX_COMMISSION_BPS, cost);
    assert cost * bps <= cost * MAX_COMMISSION_BPS;
  }

  // No intermediate product on the open or settle path leaves the uint256 range.
  lemma ProductFits(rate: uint96, secs: uint32)
    ensures Product(rate, secs) < UINT256_LIMIT
    ensures LockFor(rate, secs) < UINT256_LIMIT
    ensures forall bps: uint16 :: Cost(rate, secs) * bps < UINT256_LIMIT
  {
    assert Product(rate, secs) <= UINT96_LIMIT * CENT * UINT32_LIMIT by {
      MulMono(rate * CENT, UINT96_LIMIT * CENT, secs);
      MulMono(secs, UINT32_LIMIT, UINT96_LIMIT * CENT);
    }
    forall bps: uint16 ensures Cost(rate, secs) * bps < UINT256_LIMIT {
      MulMono(Cost(rate, secs), UINT96_LIMIT * CENT * UINT32_LIMIT, bps);
      MulMono(bps, UINT16_LIMIT, UINT96_LIMIT * CENT * UINT32_LIMIT);
    }
  }
}
