/** The covenants' collateral-ratio arithmetic: one truncating division, and the facts
    about floors that every band argument rests on. */
module CovenantMath {
  import opened Prelude

  // Collateral ratios in the covenant's unit, percent times 2_000_000.
  const K_PAR: nat := 200_000_000
  const K_FULL_LIQ_CAP: nat := 230_000_000
  const K_HEALTH_GATE: nat := 260_000_000
  const K_HEAL_LO: nat := 264_000_000
  const K_HEAL_HI: nat := 274_000_000
  const K_RESERVE_SHARE: nat := 10_000_000
  const K_BAD_DEBT_CAP: nat := 40_000_000

  /** Truncating division in which a zero divisor yields zero, as the covenant's jet does. */
  function Divide(n: nat, m: nat): nat { if m == 0 then 0 else n / m }

  /** Collateral worth `debt` cents at ratio `k` and `price` USD per BTC. */
  function CollAtCr(debt: nat, price: nat, k: nat): nat { Divide(debt * k, price * 200) }

  // ----- floors

  /** The quotient is the one integer between which and its successor the dividend lies. */
  lemma FloorBounds(n: int, m: int)
    requires m > 0
    ensures n / m * m <= n < n / m * m + m
  {
  }

  /** Products by a positive factor reflect the order of their first factors. */
  lemma Cancel(p: int, q: int, m: int)
    requires m > 0 && p * m < (q + 1) * m
    ensures p <= q
  {
    assert p >= q + 1 ==> (p - (q + 1)) * m >= 0;
  }

  lemma FloorAtLeast(n: int, m: int, q: int)
    requires m > 0 && q * m <= n
    ensures q <= n / m
  {
    FloorBounds(n, m);
    Cancel(q, n / m, m);
  }

  lemma FloorAtMost(n: int, m: int, q: int)
    requires m > 0 && n < (q + 1) * m
    ensures n / m <= q
  {
    FloorBounds(n, m);
    Cancel(n / m, q, m);
  }

  lemma FloorMonotone(a: int, b: int, m: int)
    requires m > 0 && a <= b
    ensures a / m <= b / m
  {
    FloorBounds(a, m);
    FloorAtLeast(b, m, a / m);
  }

  /** Splitting a dividend loses at most one unit, and never gains. */
  lemma FloorSplit(a: int, b: int, m: int)
    requires m > 0
    ensures a / m + b / m <= (a + b) / m <= a / m + b / m + 1
  {
    FloorBounds(a, m);
    FloorBounds(b, m);
    var p, q := a / m, b / m;
    assert (p + q) * m == p * m + q * m;
    FloorAtLeast(a + b, m, p + q);
    assert (p + q + 1 + 1) * m == p * m + q * m + m + m;
    FloorAtMost(a + b, m, p + q + 1);
  }

  /** Dropping a whole divisor from the dividend drops the quotient by one. */
  lemma FloorStep(n: int, m: int)
    requires m > 0
    ensures (n - m) / m == n / m - 1
  {
    FloorBounds(n, m);
    var q := n / m;
    assert (q - 1) * m == q * m - m;
    FloorAtLeast(n - m, m, q - 1);
    FloorAtMost(n - m, m, q - 1);
  }

  // ----- collateral at a ratio

  /** What the arithmetic means. A cent is worth 1,000,000 / price satoshis, and the collateral at
      a percentage of a debt is that percentage of its worth, floored; at no price it is nothing.
      The named ratios are these percentages. */
  lemma CollIsAPercentage(debt: nat, price: nat, percent: nat)
    ensures var c := CollAtCr(debt, price, 2_000_000 * percent);
            && (price == 0 ==> c == 0)
            && (price > 0 ==> c * (100 * price) <= debt * 1_000_000 * percent < (c + 1) * (100 * price))
    ensures K_PAR == 2_000_000 * 100 && K_FULL_LIQ_CAP == 2_000_000 * 115 && K_HEALTH_GATE == 2_000_000 * 130
    ensures K_HEAL_LO == 2_000_000 * 132 && K_HEAL_HI == 2_000_000 * 137
    ensures K_RESERVE_SHARE == 2_000_000 * 5 && K_BAD_DEBT_CAP == 2_000_000 * 20
  {
    if price > 0 {
      var n, m, c := debt * (2_000_000 * percent), price * 200, CollAtCr(debt, price, 2_000_000 * percent);
      FloorBounds(n, m);
      assert n == 2 * (debt * 1_000_000 * percent);
      assert c * m == 2 * (c * (100 * price)) && c * m + m == 2 * ((c + 1) * (100 * price));
    }
  }

  lemma CollMonotone(a: nat, b: nat, price: nat, k: nat, l: nat)
    requires a * k <= b * l
    ensures CollAtCr(a, price, k) <= CollAtCr(b, price, l)
  {
    if price > 0 {
      FloorMonotone(a * k, b * l, price * 200);
    }
  }

  /** Superadditivity of the floored ratio: pricing a debt whole is worth at least as much
      as pricing its parts, and at most one satoshi more. */
  lemma CollSplit(a: nat, b: nat, price: nat, k: nat)
    ensures CollAtCr(a, price, k) + CollAtCr(b, price, k) <= CollAtCr(a + b, price, k)
    ensures CollAtCr(a + b, price, k) <= CollAtCr(a, price, k) + CollAtCr(b, price, k) + 1
  {
    if price > 0 {
      assert (a + b) * k == a * k + b * k;
      FloorSplit(a * k, b * k, price * 200);
    }
  }

  // ----- the bad-debt payout

  /** What the reserve pays towards an underwater vault: shortfall plus bounty, capped per
      vault and by the reserve itself. */
  function BadDebtReservePay(debt: nat, price: nat, coll: nat, reserve: nat): nat
  {
    var shortfall := SatSub(CollAtCr(debt, price, K_PAR), coll);
    var bounty := CollAtCr(debt, price, K_RESERVE_SHARE);
    var cap := CollAtCr(debt, price, K_BAD_DEBT_CAP);
    Min(Min(SatAdd(shortfall, bounty, U64_MAX), cap), reserve)
  }

  /** On the whole 32-bit domain the saturating sum never saturates, so the payout is the
      exact minimum of the three limits: the keeper never recovers more than par plus the
      5% bounty, and the reserve loses at most a fifth of the debt at par. */
  lemma BadDebtPayExact(debt: nat, price: nat, coll: nat, reserve: nat)
    requires debt <= U32_MAX && price <= U32_MAX && coll <= U64_MAX && reserve <= U64_MAX
    ensures var pay := BadDebtReservePay(debt, price, coll, reserve);
            var par := CollAtCr(debt, price, K_PAR);
            var bounty := CollAtCr(debt, price, 2_000_000 * 5);
            var cap := CollAtCr(debt, price, 2_000_000 * 20);
            && SatSub(par, coll) + bounty <= U64_MAX
            && pay == Min(Min(SatSub(par, coll) + bounty, cap), reserve)
            && 5 * cap <= par <= 5 * cap + 4
            && (coll < par ==> coll + pay <= par + bounty)
            && pay <= reserve
            && 5 * pay <= par
  {
    FifthOfPar(debt, price);
    SumIsSmall(debt, price);
  }

  /** The per-vault cap is a fifth of par, floored. */
  lemma FifthOfPar(debt: nat, price: nat)
    ensures var (par, cap) := (CollAtCr(debt, price, K_PAR), CollAtCr(debt, price, 2_000_000 * 20));
            5 * cap <= par <= 5 * cap + 4
  {
    if price > 0 {
      var m := price * 200;
      var c := CollAtCr(debt, price, K_BAD_DEBT_CAP);
      FloorBounds(debt * K_BAD_DEBT_CAP, m);
      assert 5 * c * m <= debt * K_PAR by { assert 5 * c * m == 5 * (c * m); }
      FloorAtLeast(debt * K_PAR, m, 5 * c);
      assert debt * K_PAR < (5 * c + 5) * m by { assert (5 * c + 5) * m == 5 * (c * m + m); }
      FloorAtMost(debt * K_PAR, m, 5 * c + 4);
    }
  }

  /** Par and bounty of a 32-bit debt add up below 64 bits. */
  lemma SumIsSmall(debt: nat, price: nat)
    requires debt <= U32_MAX
    ensures CollAtCr(debt, price, K_PAR) + CollAtCr(debt, price, 2_000_000 * 5) <= U64_MAX
  {
    if price > 0 {
      SmallQuotient(debt * K_PAR, price * 200);
      SmallQuotient(debt * K_RESERVE_SHARE, price * 200);
    }
  }

  lemma SmallQuotient(n: nat, m: nat)
    requires m >= 200
    ensures n / m <= n / 200
  {
    FloorBounds(n, m);
    assert n / m * 200 <= n / m * m;
  }

  /** The bound of 2^33 that the original's comment gives for each term is not one: at a
      price of one dollar the par value of the largest debt is about 2^52 satoshis. */
  lemma TermsExceedTwoToThe33()
    ensures CollAtCr(U32_MAX, 1, K_PAR) > 0x2_0000_0000
  {
  }
}
