/** The wallet's coin selection and its self-spends: shaping an exact coin, consolidating
    OBOL, and plain payments. */
module Coins {
  import opened Prelude
  import opened Chain
  import opened Builders

  datatype Coin = Coin(outpoint: OutPoint, value: nat)

  function Total(coins: seq<Coin>): nat {
    if coins == [] then 0 else coins[0].value + Total(coins[1..])
  }

  // ----- selection

  /** The smallest single coin covering `need`: the first of the least-valued ones. */
  method SelectAtLeast(coins: seq<Coin>, need: nat) returns (r: Option<Coin>)
    ensures r.None? <==> forall i :: 0 <= i < |coins| ==> coins[i].value < need
    ensures r.Some? ==> exists i :: 0 <= i < |coins| && coins[i] == r.value && LeastAt(coins, need, i)
  {
    r := None;
    ghost var at := 0;
    for n := 0 to |coins|
      invariant r.None? ==> forall i :: 0 <= i < n ==> coins[i].value < need
      invariant r.Some? ==> at < n && coins[at] == r.value && r.value.value >= need
      invariant r.Some? ==> forall i :: 0 <= i < n && coins[i].value >= need ==>
                  r.value.value < coins[i].value || (r.value.value == coins[i].value && at <= i)
    {
      if coins[n].value >= need && (r.None? || coins[n].value < r.value.value) {
        r, at := Some(coins[n]), n;
      }
    }
  }

  /** The coin at `i` covers the need, no coin that covers it is smaller, and none before it ties. */
  ghost predicate LeastAt(coins: seq<Coin>, need: nat, i: nat)
    requires i < |coins|
  {
    && coins[i].value >= need
    && forall j :: 0 <= j < |coins| && coins[j].value >= need ==>
         coins[i].value < coins[j].value || (coins[i].value == coins[j].value && i <= j)
  }

  ghost predicate Descending(coins: seq<Coin>) {
    forall i, j :: 0 <= i < j < |coins| ==> coins[i].value >= coins[j].value
  }

  /** Insertion behind every coin at least as large, which keeps equal coins in order. */
  function Insert(c: Coin, sorted: seq<Coin>): seq<Coin> {
    if sorted == [] || c.value > sorted[0].value then [c] + sorted
    else [sorted[0]] + Insert(c, sorted[1..])
  }

  /** The stable largest-first order. */
  function SortDescending(coins: seq<Coin>): seq<Coin> {
    if coins == [] then []
    else Insert(coins[|coins| - 1], SortDescending(coins[..|coins| - 1]))
  }

  lemma {:induction false} InsertKeeps(c: Coin, sorted: seq<Coin>)
    ensures multiset(Insert(c, sorted)) == multiset(sorted) + multiset{c}
  {
    if !(sorted == [] || c.value > sorted[0].value) {
      InsertKeeps(c, sorted[1..]);
      assert sorted == [sorted[0]] + sorted[1..];
    }
  }

  lemma {:induction false} InsertSorts(c: Coin, sorted: seq<Coin>)
    requires Descending(sorted)
    ensures Descending(Insert(c, sorted))
  {
    if !(sorted == [] || c.value > sorted[0].value) {
      var rest := Insert(c, sorted[1..]);
      InsertSorts(c, sorted[1..]);
      InsertKeeps(c, sorted[1..]);
      forall i | 0 <= i < |rest| ensures rest[i].value <= sorted[0].value {
        assert rest[i] in multiset(rest);
        assert rest[i] == c || rest[i] in multiset(sorted[1..]);
      }
    }
  }

  /** The order is largest-first and rearranges the coins. */
  lemma {:induction false} SortSorts(coins: seq<Coin>)
    ensures Descending(SortDescending(coins))
    ensures multiset(SortDescending(coins)) == multiset(coins)
  {
    if coins != [] {
      var n := |coins| - 1;
      var sorted := SortDescending(coins[..n]);
      SortSorts(coins[..n]);
      InsertSorts(coins[n], sorted);
      InsertKeeps(coins[n], sorted);
      LastApart(coins, n);
    }
  }

  lemma LastApart(coins: seq<Coin>, n: nat)
    requires |coins| == n + 1
    ensures multiset(coins) == multiset(coins[..n]) + multiset{coins[n]}
  {
    assert coins == coins[..n] + [coins[n]];
  }

  /** The coins of one value, in order. */
  function Valued(coins: seq<Coin>, x: nat): seq<Coin> {
    if coins == [] then []
    else (if coins[0].value == x then [coins[0]] else []) + Valued(coins[1..], x)
  }

  lemma {:induction false} ValuedAppend(a: seq<Coin>, b: seq<Coin>, x: nat)
    ensures Valued(a + b, x) == Valued(a, x) + Valued(b, x)
  {
    if a == [] {
      assert a + b == b;
    } else {
      var one := if a[0].value == x then [a[0]] else [];
      ValuedAppend(a[1..], b, x);
      assert (a + b)[1..] == a[1..] + b && (a + b)[0] == a[0];
      Regroup(one, Valued(a[1..], x), Valued(b, x));
    }
  }

  lemma Regroup(a: seq<Coin>, b: seq<Coin>, c: seq<Coin>)
    ensures a + (b + c) == (a + b) + c
  {
  }

  lemma {:induction false} NoneValued(coins: seq<Coin>, x: nat)
    requires forall i :: 0 <= i < |coins| ==> coins[i].value < x
    ensures Valued(coins, x) == []
  {
    if coins != [] {
      NoneValued(coins[1..], x);
    }
  }

  lemma {:induction false} InsertIsStable(c: Coin, sorted: seq<Coin>, x: nat)
    requires Descending(sorted)
    ensures Valued(Insert(c, sorted), x) == Valued(sorted, x) + if c.value == x then [c] else []
  {
    if sorted == [] || c.value > sorted[0].value {
      assert ([c] + sorted)[1..] == sorted;
      if c.value == x {
        NoneValued(sorted, x);
      }
    } else {
      InsertIsStable(c, sorted[1..], x);
      assert ([sorted[0]] + Insert(c, sorted[1..]))[1..] == Insert(c, sorted[1..]);
    }
  }

  /** Coins of equal value keep their order. */
  lemma {:induction false} SortIsStable(coins: seq<Coin>, x: nat)
    ensures Valued(SortDescending(coins), x) == Valued(coins, x)
  {
    if coins != [] {
      var n := |coins| - 1;
      var last, sorted := coins[n], SortDescending(coins[..n]);
      SortIsStable(coins[..n], x);
      SortSorts(coins[..n]);
      InsertIsStable(last, sorted, x);
      ValuedLast(coins, n, x);
    }
  }

  lemma ValuedLast(coins: seq<Coin>, n: nat, x: nat)
    requires |coins| == n + 1
    ensures Valued(coins, x) == Valued(coins[..n], x) + if coins[n].value == x then [coins[n]] else []
  {
    assert coins == coins[..n] + [coins[n]];
    ValuedAppend(coins[..n], [coins[n]], x);
    assert [coins[n]][1..] == [];
  }

  /** Largest-first accumulation. For a positive need it succeeds exactly when the coins
      suffice; it takes coins the wallet holds, and no fewer of them would do. */
  method SelectAccumulate(coins: seq<Coin>, need: nat) returns (r: Option<seq<Coin>>)
    requires need <= U64_MAX
    ensures r.Some? <==> coins != [] && Total(coins) >= need
    ensures r.Some? ==> multiset(r.value) <= multiset(coins) && Total(r.value) >= need
    ensures r.Some? ==> 0 < |r.value| <= |SortDescending(coins)| && r.value == SortDescending(coins)[..|r.value|]
    ensures r.Some? && need == 0 ==> |r.value| == 1
    ensures r.Some? && need > 0 ==> forall pick :: Covers(pick, coins, need) ==> |pick| >= |r.value|
  {
    var sorted := SortDescending(coins);
    SortSorts(coins);
    SameMultiset(sorted, coins);
    r := TakeUntil(sorted, need);
    if r.Some? {
      var n := |r.value|;
      assert sorted == sorted[..n] + sorted[n..];
      if need > 0 {
        forall pick | Covers(pick, coins, need) ensures |pick| >= n {
          FewestCoins(sorted, pick, n, need);
        }
      }
    }
  }

  /** Coins of the wallet, each used no more often than held, that reach the need. */
  ghost predicate Covers(pick: seq<Coin>, coins: seq<Coin>, need: nat) {
    multiset(pick) <= multiset(coins) && Total(pick) >= need
  }

  /** The accumulation loop: the shortest nonempty prefix that reaches the need. */
  method TakeUntil(sorted: seq<Coin>, need: nat) returns (r: Option<seq<Coin>>)
    requires need <= U64_MAX
    ensures r.Some? <==> sorted != [] && Total(sorted) >= need
    ensures r.Some? ==> 0 < |r.value| <= |sorted| && r.value == sorted[..|r.value|] && Total(r.value) >= need
    ensures r.Some? && |r.value| > 1 ==> Total(sorted[..|r.value| - 1]) < need
  {
    var taken: seq<Coin> := [];
    var sum := 0;
    for n := 0 to |sorted|
      invariant taken == sorted[..n] && sum == Min(Total(taken), U64_MAX)
      invariant n > 0 ==> Total(taken) < need
    {
      TotalAppend(taken, [sorted[n]]);
      assert sorted[..n + 1] == sorted[..n] + [sorted[n]];
      taken := taken + [sorted[n]];
      sum := SatAdd(sum, sorted[n].value, U64_MAX);
      if sum >= need {
        PrefixMonotone(sorted, n + 1, |sorted|);
        assert sorted[..|sorted|] == sorted;
        return Some(taken);
      }
    }
    assert sorted[..|sorted|] == sorted;
    r := None;
  }

  lemma {:induction false} TotalAppend(a: seq<Coin>, b: seq<Coin>)
    ensures Total(a + b) == Total(a) + Total(b)
  {
    if a == [] {
      assert a + b == b;
    } else {
      assert (a + b)[1..] == a[1..] + b;
      TotalAppend(a[1..], b);
    }
  }

  function Without(a: seq<Coin>, i: nat): seq<Coin>
    requires i < |a|
  {
    a[..i] + a[i + 1..]
  }

  lemma {:induction false} WithoutTotal(a: seq<Coin>, i: nat)
    requires i < |a|
    ensures Total(a) == a[i].value + Total(Without(a, i))
  {
    if i == 0 {
      assert Without(a, 0) == a[1..];
    } else {
      WithoutTotal(a[1..], i - 1);
      assert Without(a, i)[1..] == Without(a[1..], i - 1);
    }
  }

  lemma WithoutMultiset(a: seq<Coin>, i: nat)
    requires i < |a|
    ensures multiset(a) == multiset(Without(a, i)) + multiset{a[i]}
  {
    assert a == a[..i] + ([a[i]] + a[i + 1..]);
  }

  lemma {:induction false} SameMultiset(a: seq<Coin>, b: seq<Coin>)
    requires multiset(a) == multiset(b)
    ensures |a| == |b| && Total(a) == Total(b)
  {
    if a == [] {
      assert |b| == |multiset(b)|;
    } else {
      var rest := a[1..];
      assert a == [a[0]] + rest;
      assert a[0] in multiset(b);
      var i :| 0 <= i < |b| && b[i] == a[0];
      WithoutTotal(b, i);
      WithoutMultiset(b, i);
      assert multiset(rest) == multiset(a) - multiset{a[0]};
      assert multiset(Without(b, i)) == multiset(b) - multiset{a[0]};
      SameMultiset(rest, Without(b, i));
    }
  }

  /** In largest-first order the prefix of a length outweighs any coins of that number. */
  lemma {:induction false} PrefixDominates(sorted: seq<Coin>, pick: seq<Coin>)
    requires Descending(sorted) && multiset(pick) <= multiset(sorted) && |pick| <= |sorted|
    ensures Total(pick) <= Total(sorted[..|pick|])
    decreases |sorted|
  {
    if pick == [] {
      assert Total(pick) == 0;
    } else if sorted[0] in pick {
      var i :| 0 <= i < |pick| && pick[i] == sorted[0];
      FirstPicked(sorted, pick, i);
      PrefixDominates(sorted[1..], Without(pick, i));
      PutFirstBack(sorted, pick, i);
    } else {
      FirstLeft(sorted, pick);
      PrefixDominates(sorted[1..], pick);
      ShiftLoses(sorted, |pick|);
    }
  }

  lemma FirstPicked(sorted: seq<Coin>, pick: seq<Coin>, i: nat)
    requires sorted != [] && multiset(pick) <= multiset(sorted) && i < |pick| && pick[i] == sorted[0]
    ensures multiset(Without(pick, i)) <= multiset(sorted[1..])
  {
    assert sorted == [sorted[0]] + sorted[1..];
    WithoutMultiset(pick, i);
    CancelFirst(sorted[0], multiset(Without(pick, i)), multiset(sorted[1..]));
  }

  lemma FirstLeft(sorted: seq<Coin>, pick: seq<Coin>)
    requires sorted != [] && multiset(pick) <= multiset(sorted) && sorted[0] !in pick
    ensures multiset(pick) <= multiset(sorted[1..]) && |pick| < |sorted|
  {
    assert sorted == [sorted[0]] + sorted[1..];
    PickFromRest(sorted[0], sorted[1..], pick);
  }

  lemma PutFirstBack(sorted: seq<Coin>, pick: seq<Coin>, i: nat)
    requires i < |pick| <= |sorted| && pick[i] == sorted[0]
    requires Total(Without(pick, i)) <= Total(sorted[1..][..|pick| - 1])
    ensures Total(pick) <= Total(sorted[..|pick|])
  {
    WithoutTotal(pick, i);
    assert sorted[..|pick|][1..] == sorted[1..][..|pick| - 1];
  }

  lemma CancelFirst(first: Coin, a: multiset<Coin>, b: multiset<Coin>)
    requires a + multiset{first} <= multiset{first} + b
    ensures a <= b
  {
    forall c ensures a[c] <= b[c] {
      assert (a + multiset{first})[c] <= (multiset{first} + b)[c];
    }
  }

  lemma PickFromRest(first: Coin, rest: seq<Coin>, pick: seq<Coin>)
    requires multiset(pick) <= multiset{first} + multiset(rest) && first !in pick
    ensures multiset(pick) <= multiset(rest) && |pick| <= |rest|
  {
    assert multiset(pick)[first] == 0;
    assert multiset(pick) <= multiset(rest);
    assert multiset(rest) == multiset(pick) + (multiset(rest) - multiset(pick));
    assert |multiset(pick)| == |pick| && |multiset(rest)| == |rest|;
  }

  lemma {:induction false} ShiftLoses(sorted: seq<Coin>, n: nat)
    requires Descending(sorted) && n < |sorted|
    ensures Total(sorted[1..][..n]) <= Total(sorted[..n])
  {
    if n > 0 {
      ShiftLoses(sorted, n - 1);
      assert sorted[1..][..n] == sorted[1..][..n - 1] + [sorted[n]];
      assert sorted[..n] == sorted[..n - 1] + [sorted[n - 1]];
      TotalAppend(sorted[1..][..n - 1], [sorted[n]]);
      TotalAppend(sorted[..n - 1], [sorted[n - 1]]);
    }
  }

  lemma PrefixMonotone(sorted: seq<Coin>, m: nat, n: nat)
    requires m <= n <= |sorted|
    ensures Total(sorted[..m]) <= Total(sorted[..n])
  {
    assert sorted[..n] == sorted[..m] + sorted[m..n];
    TotalAppend(sorted[..m], sorted[m..n]);
  }

  /** No pick that covers the need is smaller than the shortest prefix that does. */
  lemma FewestCoins(sorted: seq<Coin>, pick: seq<Coin>, n: nat, need: nat)
    requires Descending(sorted) && multiset(pick) <= multiset(sorted)
    requires 0 < n <= |sorted| && 0 < need <= Total(pick)
    requires n > 1 ==> Total(sorted[..n - 1]) < need
    ensures |pick| >= n
  {
    if |pick| < n {
      PrefixDominates(sorted, pick);
      PrefixMonotone(sorted, |pick|, n - 1);
      assert false;
    }
  }

  // ----- self-spends

  /** Change below this would be dust and is folded into the fee. */
  const DUST_FLOOR: nat := 500

  /** Split an excess into a change output and the fee. */
  function SplitChange(excess: nat): (Option<nat>, nat) {
    if excess >= DUST_FLOOR then (Some(excess), FEE) else (None, FEE + excess)
  }

  /** A plan: the claimed input coins per asset, and the outputs, the fee output included. */
  datatype Leg = Leg(asset: Asset, value: nat, change: bool)
  datatype Plan = Plan(inputs: seq<Leg>, outputs: seq<Leg>)

  datatype WalletError = InsufficientLbtc(need: nat, have: nat) | InsufficientObol(need: nat, have: nat)

  function Flow(legs: seq<Leg>, a: Asset): nat {
    if legs == [] then 0
    else (if legs[0].asset == a then legs[0].value else 0) + Flow(legs[1..], a)
  }

  /** What goes in comes out, asset by asset, and no L-BTC change is dust. */
  ghost predicate Sound(p: Plan) {
    && (forall a :: Flow(p.inputs, a) == Flow(p.outputs, a))
    && (forall i :: 0 <= i < |p.outputs| && p.outputs[i].change ==>
          p.outputs[i].value >= if p.outputs[i].asset == Policy then 500 else 1)
  }

  /** The last output is the fee: the flat one, plus at most what would have been dust. */
  ghost predicate FeeLast(p: Plan) {
    && |p.outputs| > 0
    && var fee := p.outputs[|p.outputs| - 1];
       fee.asset == Policy && !fee.change && 10_000 <= fee.value < 10_500
  }

  function Claimed(coins: seq<Coin>, a: Asset): seq<Leg> {
    seq(|coins|, i requires 0 <= i < |coins| => Leg(a, coins[i].value, false))
  }

  /** The plan spends the given OBOL coins and one L-BTC coin of the wallet for the fee. */
  ghost predicate PaidWith(p: Plan, obol: seq<Coin>, lbtc: seq<Coin>) {
    exists i :: 0 <= i < |lbtc| && p.inputs == Claimed(obol, Obol) + [Leg(Policy, lbtc[i].value, false)]
  }

  lemma {:induction false} FlowAppend(p: seq<Leg>, q: seq<Leg>, a: Asset)
    ensures Flow(p + q, a) == Flow(p, a) + Flow(q, a)
  {
    if p == [] {
      assert p + q == q;
    } else {
      assert (p + q)[1..] == p[1..] + q;
      FlowAppend(p[1..], q, a);
    }
  }

  lemma {:induction false} FlowClaimed(coins: seq<Coin>, a: Asset, b: Asset)
    ensures Flow(Claimed(coins, a), b) == if a == b then Total(coins) else 0
  {
    if coins != [] {
      assert Claimed(coins, a)[1..] == Claimed(coins[1..], a);
      FlowClaimed(coins[1..], a, b);
    }
  }

  lemma FlowOne(leg: Leg, a: Asset)
    ensures Flow([leg], a) == if leg.asset == a then leg.value else 0
  {
    assert [leg][1..] == [];
  }

  /** The change and fee outputs that absorb an L-BTC excess over the flat fee. */
  method ChangeLegs(excess: nat) returns (legs: seq<Leg>)
    ensures forall a :: Flow(legs, a) == if a == Policy then FEE + excess else 0
    ensures forall i :: 0 <= i < |legs| && legs[i].change ==> legs[i].value >= DUST_FLOOR
    ensures |legs| > 0 && legs[|legs| - 1].asset == Policy && !legs[|legs| - 1].change
    ensures FEE <= legs[|legs| - 1].value < FEE + DUST_FLOOR
  {
    var (change, fee) := SplitChange(excess);
    legs := [];
    if change.Some? {
      legs := legs + [Leg(Policy, change.value, true)];
    }
    forall a ensures Flow(legs + [Leg(Policy, fee, false)], a) == if a == Policy then FEE + excess else 0 {
      if change.Some? { FlowOne(Leg(Policy, change.value, true), a); }
      FlowOne(Leg(Policy, fee, false), a);
      FlowAppend(legs, [Leg(Policy, fee, false)], a);
    }
    legs := legs + [Leg(Policy, fee, false)];
  }

  /** Pay `amount` of L-BTC from accumulated coins; shaping an exact coin for OPEN is the same
      plan paying ourselves. */
  method PayLbtc(coins: seq<Coin>, amount: nat) returns (r: Result<Plan, WalletError>)
    requires amount + FEE <= U64_MAX
    ensures r.Ok? <==> Total(coins) >= amount + FEE
    ensures r.Err? ==> r.error == InsufficientLbtc(amount + FEE, Total(coins))
    ensures r.Ok? ==> Sound(r.value) && |r.value.outputs| > 1 && r.value.outputs[0] == Leg(Policy, amount, false)
    ensures r.Ok? ==> exists taken :: multiset(taken) <= multiset(coins) && r.value.inputs == Claimed(taken, Policy)
    ensures r.Ok? ==> FeeLast(r.value)
  {
    var need := amount + FEE;
    var taken := SelectAccumulate(coins, need);
    if taken.None? {
      return Err(InsufficientLbtc(need, Total(coins)));
    }
    var sum := Total(taken.value);
    var pay := [Leg(Policy, amount, false)];
    var rest := ChangeLegs(sum - need);
    forall a ensures Flow(Claimed(taken.value, Policy), a) == Flow(pay + rest, a) {
      FlowClaimed(taken.value, Policy, a);
      FlowOne(pay[0], a);
      FlowAppend(pay, rest, a);
    }
    r := Ok(Plan(Claimed(taken.value, Policy), pay + rest));
  }

  /** Merge every OBOL coin into one, the fee paid from one L-BTC coin. */
  method ConsolidateObol(obol: seq<Coin>, lbtc: seq<Coin>) returns (r: Result<Plan, WalletError>)
    ensures r.Ok? <==> exists i :: 0 <= i < |lbtc| && lbtc[i].value > FEE
    ensures r.Err? ==> r.error == InsufficientLbtc(FEE + 1, 0)
    ensures r.Ok? ==> Sound(r.value) && |r.value.outputs| > 1 && r.value.outputs[0] == Leg(Obol, Total(obol), false)
    ensures r.Ok? ==> PaidWith(r.value, obol, lbtc)
    ensures r.Ok? ==> FeeLast(r.value)
  {
    var feeCoin := SelectAtLeast(lbtc, FEE + 1);
    if feeCoin.None? {
      return Err(InsufficientLbtc(FEE + 1, 0));
    }
    var fund := [Leg(Policy, feeCoin.value.value, false)];
    var merged := [Leg(Obol, Total(obol), false)];
    var rest := ChangeLegs(feeCoin.value.value - FEE);
    forall a ensures Flow(Claimed(obol, Obol) + fund, a) == Flow(merged + rest, a) {
      FlowClaimed(obol, Obol, a);
      FlowAppend(Claimed(obol, Obol), fund, a);
      FlowAppend(merged, rest, a);
      FlowOne(fund[0], a);
      FlowOne(merged[0], a);
    }
    r := Ok(Plan(Claimed(obol, Obol) + fund, merged + rest));
  }

  ghost predicate HasAbove(coins: seq<Coin>, floor: nat) { exists i :: 0 <= i < |coins| && coins[i].value > floor }

  /** The first of the smallest coins that cover the need. */
  ghost predicate LeastCover(coins: seq<Coin>, need: nat, c: Coin) {
    exists i :: 0 <= i < |coins| && coins[i] == c && LeastAt(coins, need, i)
  }

  /** A single coin covers the need, or all of them do and a merge can be paid for. */
  ghost predicate Coverable(obol: seq<Coin>, lbtc: seq<Coin>, need: nat) {
    || (exists i :: 0 <= i < |obol| && obol[i].value >= need)
    || (Total(obol) >= need && HasAbove(lbtc, FEE))
  }

  /** The coin is the smallest that covers the need, or the output of a sound merge of all. */
  ghost predicate Ensured(obol: seq<Coin>, lbtc: seq<Coin>, need: nat, mergeTxid: nat, c: Coin, merge: Option<Plan>) {
    match merge
    case None => LeastCover(obol, need, c)
    case Some(p) =>
      && c == Coin(OutPoint(mergeTxid, 0), Total(obol)) && c.value >= need
      && Sound(p) && FeeLast(p) && PaidWith(p, obol, lbtc)
      && |p.outputs| > 0 && p.outputs[0] == Leg(Obol, c.value, false)
      && forall i :: 0 <= i < |obol| ==> obol[i].value < need
  }

  /** One OBOL coin covering `need`: the smallest that does, or the merge of all of them. */
  method EnsureObol(obol: seq<Coin>, lbtc: seq<Coin>, need: nat, mergeTxid: nat)
    returns (r: Result<Coin, WalletError>, merge: Option<Plan>)
    ensures r.Ok? <==> Coverable(obol, lbtc, need)
    ensures r.Ok? ==> Ensured(obol, lbtc, need, mergeTxid, r.value, merge)
    ensures r.Err? ==> && merge.None?
                       && r.error == if Total(obol) < need then InsufficientObol(need, Total(obol))
                                     else InsufficientLbtc(FEE + 1, 0)
  {
    var coin := SelectAtLeast(obol, need);
    if coin.Some? {
      return Ok(coin.value), None;
    }
    if Total(obol) < need {
      return Err(InsufficientObol(need, Total(obol))), None;
    }
    var plan := ConsolidateObol(obol, lbtc);
    if plan.Err? {
      return Err(plan.error), None;
    }
    return Ok(Coin(OutPoint(mergeTxid, 0), Total(obol))), Some(plan.value);
  }

  /** What paying OBOL from one coin promises. */
  ghost predicate ObolSent(payer: Coin, lbtc: seq<Coin>, amount: nat, r: Result<Plan, WalletError>) {
    match r
    case Ok(p) =>
      && Sound(p) && FeeLast(p) && PaidWith(p, [payer], lbtc)
      && |p.outputs| > 1 && p.outputs[0] == Leg(Obol, amount, false)
      && (exists i :: 0 <= i < |lbtc| && lbtc[i].value > FEE)
    case Err(e) =>
      && e == InsufficientLbtc(FEE + 1, Total(lbtc))
      && forall i :: 0 <= i < |lbtc| ==> lbtc[i].value <= FEE
  }

  /** Pay `amount` OBOL from one coin that covers it, the fee from one L-BTC coin. */
  method SendObol(payer: Coin, lbtc: seq<Coin>, amount: nat) returns (r: Result<Plan, WalletError>)
    requires payer.value >= amount
    ensures ObolSent(payer, lbtc, amount, r)
  {
    var feeCoin := SelectAtLeast(lbtc, FEE + 1);
    if feeCoin.None? {
      return Err(InsufficientLbtc(FEE + 1, Total(lbtc)));
    }
    var coin, fund := Claimed([payer], Obol), [Leg(Policy, feeCoin.value.value, false)];
    var pay := [Leg(Obol, amount, false)];
    var surplus: seq<Leg> := [];
    if payer.value > amount {
      surplus := [Leg(Obol, payer.value - amount, true)];
    }
    var rest := ChangeLegs(feeCoin.value.value - FEE);
    forall a ensures Flow(coin + fund, a) == Flow(pay + surplus + rest, a) {
      FlowOne(coin[0], a);
      FlowOne(fund[0], a);
      FlowOne(pay[0], a);
      if surplus != [] { FlowOne(surplus[0], a); }
      FlowAppend(coin, fund, a);
      FlowAppend(pay, surplus, a);
      FlowAppend(pay + surplus, rest, a);
    }
    r := Ok(Plan(coin + fund, pay + surplus + rest));
  }

  /** The whole payment: a coin that covers the amount, merged first if need be, then the send
      from it. The fee of the send comes from the L-BTC coins that are left: those the node lists
      after the merge, if there was one. */
  method PayObol(obol: seq<Coin>, lbtc: seq<Coin>, lbtcAfter: seq<Coin>, amount: nat, mergeTxid: nat)
    returns (r: Result<Plan, WalletError>, merge: Option<Plan>)
    ensures r.Ok? <==> Coverable(obol, lbtc, amount) && HasAbove(if merge.Some? then lbtcAfter else lbtc, FEE)
    ensures Coverable(obol, lbtc, amount) ==>
              exists c :: Ensured(obol, lbtc, amount, mergeTxid, c, merge)
                          && ObolSent(c, if merge.Some? then lbtcAfter else lbtc, amount, r)
    ensures !Coverable(obol, lbtc, amount) ==>
              merge.None? && r == Err(if Total(obol) < amount then InsufficientObol(amount, Total(obol))
                                      else InsufficientLbtc(FEE + 1, 0))
  {
    var payer;
    payer, merge := EnsureObol(obol, lbtc, amount, mergeTxid);
    if payer.Err? {
      return Err(payer.error), None;
    }
    r := SendObol(payer.value, if merge.Some? then lbtcAfter else lbtc, amount);
  }
}
