/** The quote book: verified quotes per (height, slot) in a sliding window, and the assembly
    of 3-of-5 ticks from them. */
module Quotes {
  import opened Prelude
  import opened Oracle

  datatype Payload = Payload(height: nat, price: nat, backingK: nat)

  /** A quote as it travels; an absent signature stands for one that does not decode. */
  datatype WireQuote = WireQuote(slot: nat, height: nat, price: nat, backingK: nat, sig: Option<Sig>)

  datatype QuoteError =
    | BadSlot(slot: nat)
    | ZeroPrice(slot: nat, height: nat)
    | Stale(height: nat, tip: nat, horizon: nat)
    | Future(height: nat, tip: nat)
    | SigEncoding
    | BadSignature(slot: nat, height: nat)

  datatype Entry = Entry(backingK: nat, quote: SignedQuote)

  type Row = seq<Option<Entry>>
  type Heights = map<nat, Row>

  /** Signature verification against the key of a slot, and the window. */
  datatype Config = Config(verifies: (nat, Payload, Sig) -> bool, horizon: nat, drift: nat)

  function Floor(cfg: Config, tip: nat): nat { SatSub(tip, cfg.horizon) }

  function Ceiling(cfg: Config, tip: nat): nat { SatAdd(tip, cfg.drift, U32_MAX) }

  function PayloadOf(q: WireQuote): Payload { Payload(q.height, q.price, q.backingK) }

  /** Why a quote is refused, in the order the book tests it. */
  function Refusal(cfg: Config, q: WireQuote, tip: nat): Option<QuoteError> {
    if q.slot >= SLOTS then Some(BadSlot(q.slot))
    else if q.price == 0 then Some(ZeroPrice(q.slot, q.height))
    else if q.height < Floor(cfg, tip) then Some(Stale(q.height, tip, cfg.horizon))
    else if q.height > Ceiling(cfg, tip) then Some(Future(q.height, tip))
    else if q.sig.None? then Some(SigEncoding)
    else if !cfg.verifies(q.slot, PayloadOf(q), q.sig.value) then Some(BadSignature(q.slot, q.height))
    else None
  }

  const EMPTY_ROW: Row := [None, None, None, None, None]

  ghost predicate Rows(hs: Heights) { forall h :: h in hs ==> |hs[h]| == SLOTS }

  /** The book after one quote: a refused quote leaves no trace; an accepted one is filed and
      everything below the window is pruned. */
  function After(cfg: Config, hs: Heights, q: WireQuote, tip: nat): (r: Heights)
    requires Rows(hs)
    ensures Rows(r)
  {
    if Refusal(cfg, q, tip).Some? then hs
    else
      var row := if q.height in hs then hs[q.height] else EMPTY_ROW;
      var filed := hs[q.height := row[q.slot := Some(Entry(q.backingK, SignedQuote(q.price, q.sig.value)))]];
      map h | h in filed && h >= Floor(cfg, tip) :: filed[h]
  }

  /** Which quotes are taken: a slot that exists, a price, a height in the window around the tip, and
      a signature that decodes and verifies for that slot and exactly those fields. */
  ghost predicate Acceptable(cfg: Config, q: WireQuote, tip: nat) {
    && q.slot < 5 && q.price > 0
    && tip <= q.height + cfg.horizon && q.height <= tip + cfg.drift && q.height <= 4_294_967_295
    && q.sig.Some? && cfg.verifies(q.slot, Payload(q.height, q.price, q.backingK), q.sig.value)
  }

  /** The book with one quote filed: at its height and slot it holds that quote, every other slot
      and height is as before, and heights more than the horizon below the tip are gone. */
  ghost predicate Filed(cfg: Config, hs: Heights, q: WireQuote, tip: nat, after: Heights)
    requires q.slot < 5 && q.sig.Some? && Rows(hs) && Rows(after)
  {
    && (forall h :: h in after <==> (h in hs || h == q.height) && tip <= h + cfg.horizon)
    && (forall h :: h in after && h != q.height ==> after[h] == hs[h])
    && q.height in after
    && after[q.height][q.slot] == Some(Entry(q.backingK, SignedQuote(q.price, q.sig.value)))
    && forall s :: 0 <= s < 5 && s != q.slot ==> after[q.height][s] == if q.height in hs then hs[q.height][s] else None
  }

  /** A quote is taken exactly when it is acceptable; it is then filed, and nothing changes
      otherwise. */
  lemma TakenIffAcceptable(cfg: Config, hs: Heights, q: WireQuote, tip: nat)
    requires Rows(hs)
    ensures Refusal(cfg, q, tip).None? <==> Acceptable(cfg, q, tip)
    ensures if Acceptable(cfg, q, tip) then Filed(cfg, hs, q, tip, After(cfg, hs, q, tip))
            else After(cfg, hs, q, tip) == hs
  {
  }

  /** The reason given is the first that applies. */
  lemma RefusalsInOrder(cfg: Config, q: WireQuote, tip: nat)
    ensures q.slot >= 5 ==> Refusal(cfg, q, tip) == Some(BadSlot(q.slot))
    ensures q.slot < 5 && q.price == 0 ==> Refusal(cfg, q, tip) == Some(ZeroPrice(q.slot, q.height))
    ensures q.slot < 5 && q.price > 0 && q.height + cfg.horizon < tip ==>
              Refusal(cfg, q, tip) == Some(Stale(q.height, tip, cfg.horizon))
    ensures q.slot < 5 && q.price > 0 && tip <= q.height + cfg.horizon
            && (tip + cfg.drift < q.height || q.height > 4_294_967_295) ==>
              Refusal(cfg, q, tip) == Some(Future(q.height, tip))
    ensures q.slot < 5 && q.price > 0 && tip <= q.height + cfg.horizon && q.height <= tip + cfg.drift
            && q.height <= 4_294_967_295 ==>
              && (q.sig.None? ==> Refusal(cfg, q, tip) == Some(SigEncoding))
              && (q.sig.Some? && !Acceptable(cfg, q, tip) ==>
                    Refusal(cfg, q, tip) == Some(BadSignature(q.slot, q.height)))
  {
  }

  /** The slots of a row that back one ratio. */
  function Support(row: Row, k: nat): set<nat> {
    set i | 0 <= i < |row| && row[i].Some? && row[i].value.backingK == k
  }

  /** The tick assembled from a row: it carries the quotes of the three lowest slots that
      support one backing ratio, and that ratio is the only one with three supporters. */
  ghost predicate QuorumTick(row: Row, height: nat, t: OracleTick) {
    && WellFormed(t)
    && t.height == height
    && |Support(row, t.backingK)| >= 3
    && (forall k :: |Support(row, k)| >= 3 ==> k == t.backingK)
    && Active(t.slots) <= Support(row, t.backingK)
    && (forall s :: s in Active(t.slots) ==> s < |row| && row[s].Some? && t.slots[s] == Some(row[s].value.quote))
    && (forall s, u :: s in Active(t.slots) && u in Support(row, t.backingK) - Active(t.slots) ==> s < u)
  }

  class QuoteBook {
    const cfg: Config
    var heights: Heights

    ghost predicate Valid() reads this { Rows(heights) }

    constructor (cfg: Config)
      ensures Valid() && this.cfg == cfg && heights == map[]
    {
      this.cfg := cfg;
      heights := map[];
    }

    method Insert(q: WireQuote, tip: nat) returns (r: Result<(), QuoteError>)
      requires Valid()
      modifies this`heights
      ensures Valid() && heights == After(cfg, old(heights), q, tip)
      ensures r == match Refusal(cfg, q, tip) case Some(e) => Err(e) case None => Ok(())
      ensures r.Ok? <==> Acceptable(cfg, q, tip)
      ensures if r.Ok? then Filed(cfg, old(heights), q, tip, heights) else heights == old(heights)
    {
      TakenIffAcceptable(cfg, heights, q, tip);
      if q.slot >= SLOTS { return Err(BadSlot(q.slot)); }
      if q.price == 0 { return Err(ZeroPrice(q.slot, q.height)); }
      var floor := SatSub(tip, cfg.horizon);
      if q.height < floor { return Err(Stale(q.height, tip, cfg.horizon)); }
      if q.height > SatAdd(tip, cfg.drift, U32_MAX) { return Err(Future(q.height, tip)); }
      if q.sig.None? { return Err(SigEncoding); }
      if !cfg.verifies(q.slot, PayloadOf(q), q.sig.value) { return Err(BadSignature(q.slot, q.height)); }
      if q.height !in heights {
        heights := heights[q.height := EMPTY_ROW];
      }
      var row := heights[q.height];
      heights := heights[q.height := row[q.slot := Some(Entry(q.backingK, SignedQuote(q.price, q.sig.value)))]];
      heights := map h | h in heights && h >= floor :: heights[h];
      r := Ok(());
    }

    /** A tick assembles exactly when some ratio has three supporters at a block height. */
    method AssembleTick(height: nat) returns (r: Option<OracleTick>)
      requires Valid()
      ensures r.Some? <==>
              && height in heights
              && height < 500_000_000
              && exists k :: |Support(heights[height], k)| >= 3
      ensures r.Some? ==> QuorumTick(heights[height], height, r.value)
    {
      if height !in heights {
        return None;
      }
      var row := heights[height];
      var byK := GroupByRatio(row);
      var best := WidestSupport(byK);
      if best.None? {
        forall k ensures |Support(row, k)| < 3 {
          SupportSize(row, byK, k);
        }
        return None;
      }
      var k := best.value;
      SupportSize(row, byK, k);
      var quotes := byK[k][..3];
      var tick := NewTick(height, k, quotes);
      if tick.Err? {
        return None;
      }
      QuorumFromGroup(row, byK[k], k, tick.value);
      forall l | |Support(row, l)| >= 3 ensures l == k { RatiosShareSlots(row, k, l); }
      r := Some(tick.value);
    }
  }

  // ----- grouping

  /** A group lists, in ascending slot order, exactly the supporters below slot `n`. */
  ghost predicate Groups(row: Row, n: nat, k: nat, g: seq<(nat, SignedQuote)>)
    requires n <= |row|
  {
    && (forall j :: 0 <= j < |g| ==> g[j].0 < n && row[g[j].0] == Some(Entry(k, g[j].1)))
    && (forall i, j :: 0 <= i < j < |g| ==> g[i].0 < g[j].0)
    && (forall s :: 0 <= s < n && row[s].Some? && row[s].value.backingK == k ==>
          exists j :: 0 <= j < |g| && g[j].0 == s)
  }

  function GroupOf(byK: map<nat, seq<(nat, SignedQuote)>>, k: nat): seq<(nat, SignedQuote)> {
    if k in byK then byK[k] else []
  }

  method GroupByRatio(row: Row) returns (byK: map<nat, seq<(nat, SignedQuote)>>)
    requires |row| == SLOTS
    ensures forall k :: Groups(row, SLOTS, k, GroupOf(byK, k))
  {
    byK := map[];
    for i := 0 to SLOTS
      invariant forall k :: Groups(row, i, k, GroupOf(byK, k))
    {
      if row[i].Some? {
        var Entry(k, q) := row[i].value;
        ghost var was := byK;
        byK := byK[k := GroupOf(byK, k) + [(i, q)]];
        forall l ensures Groups(row, i + 1, l, GroupOf(byK, l)) {
          assert Groups(row, i, l, GroupOf(was, l));
          GroupGrows(row, i, l, GroupOf(was, l));
        }
      } else {
        forall l ensures Groups(row, i + 1, l, GroupOf(byK, l)) {
          GroupGrows(row, i, l, GroupOf(byK, l));
        }
      }
    }
  }

  lemma GroupGrows(row: Row, i: nat, k: nat, g: seq<(nat, SignedQuote)>)
    requires i < |row| && Groups(row, i, k, g)
    ensures Groups(row, i + 1, k,
                   if row[i].Some? && row[i].value.backingK == k then g + [(i, row[i].value.quote)] else g)
  {
    if row[i].Some? && row[i].value.backingK == k {
      GroupAppends(row, i, k, g, row[i].value.quote);
    }
  }

  lemma GroupAppends(row: Row, i: nat, k: nat, g: seq<(nat, SignedQuote)>, q: SignedQuote)
    requires i < |row| && Groups(row, i, k, g) && row[i] == Some(Entry(k, q))
    ensures Groups(row, i + 1, k, g + [(i, q)])
  {
    var h := g + [(i, q)];
    assert h[|g|].0 == i;
    forall s | 0 <= s < i && row[s].Some? && row[s].value.backingK == k
      ensures exists j :: 0 <= j < |h| && h[j].0 == s
    {
      var j :| 0 <= j < |g| && g[j].0 == s;
      assert h[j].0 == s;
    }
  }

  /** The ratio with the widest support, the smaller on a tie, among those with a quorum. */
  method WidestSupport(byK: map<nat, seq<(nat, SignedQuote)>>) returns (best: Option<nat>)
    ensures best.None? <==> forall k :: k in byK ==> |byK[k]| < 3
    ensures best.Some? ==> best.value in byK && |byK[best.value]| >= 3
    ensures best.Some? ==> forall k :: k in byK ==>
              |byK[k]| < |byK[best.value]| || (|byK[k]| == |byK[best.value]| && best.value <= k)
  {
    best := None;
    var rest := byK.Keys;
    while rest != {}
      invariant rest <= byK.Keys
      invariant best.None? ==> forall k :: k in byK.Keys - rest ==> |byK[k]| < 3
      invariant best.Some? ==> best.value in byK && |byK[best.value]| >= 3
      invariant best.Some? ==> forall k :: k in byK.Keys - rest ==>
                  |byK[k]| < |byK[best.value]| || (|byK[k]| == |byK[best.value]| && best.value <= k)
      decreases rest
    {
      var k :| k in rest;
      rest := rest - {k};
      if |byK[k]| >= 3 &&
         (best.None? || |byK[k]| > |byK[best.value]| || (|byK[k]| == |byK[best.value]| && k < best.value)) {
        best := Some(k);
      }
    }
  }

  function SlotsOf(g: seq<(nat, SignedQuote)>): set<nat> { set j | 0 <= j < |g| :: g[j].0 }

  lemma {:induction false} SlotCount(g: seq<(nat, SignedQuote)>)
    requires forall i, j :: 0 <= i < j < |g| ==> g[i].0 < g[j].0
    ensures |SlotsOf(g)| == |g|
  {
    if g != [] {
      var n := |g| - 1;
      SlotCount(g[..n]);
      assert SlotsOf(g) == SlotsOf(g[..n]) + {g[n].0};
      assert g[n].0 !in SlotsOf(g[..n]);
    }
  }

  lemma SupportSize(row: Row, byK: map<nat, seq<(nat, SignedQuote)>>, k: nat)
    requires |row| == SLOTS && Groups(row, SLOTS, k, GroupOf(byK, k))
    ensures |Support(row, k)| == |GroupOf(byK, k)|
  {
    var g := GroupOf(byK, k);
    SlotCount(g);
    assert Support(row, k) == SlotsOf(g);
  }

  lemma QuorumFromGroup(row: Row, g: seq<(nat, SignedQuote)>, k: nat, t: OracleTick)
    requires |row| == SLOTS && Groups(row, SLOTS, k, g) && |g| >= 3
    requires Places(t.slots, g[..3], 3)
    ensures Active(t.slots) <= Support(row, k)
    ensures forall s :: s in Active(t.slots) ==> row[s].Some? && t.slots[s] == Some(row[s].value.quote)
    ensures forall s, u :: s in Active(t.slots) && u in Support(row, k) - Active(t.slots) ==> s < u
  {
    assert forall j :: 0 <= j < 3 ==> g[..3][j] == g[j];
    assert forall j :: 0 <= j < 3 ==> g[..3][j].0 in Active(t.slots);
    forall s | s in Active(t.slots)
      ensures s in Support(row, k) && row[s].Some? && t.slots[s] == Some(row[s].value.quote) && s <= g[2].0
    {
      var j :| 0 <= j < 3 && g[..3][j].0 == s;
    }
    forall u | u in Support(row, k) - Active(t.slots) ensures u > g[2].0 {
      var j :| 0 <= j < |g| && g[j].0 == u;
    }
  }

  /** Five slots cannot give three supporters to each of two ratios. */
  lemma RatiosShareSlots(row: Row, k: nat, l: nat)
    requires |row| == SLOTS && |Support(row, k)| >= 3 && |Support(row, l)| >= 3
    ensures k == l
  {
    if k != l {
      var both := Support(row, k) + Support(row, l);
      assert Support(row, k) !! Support(row, l);
      IntervalSize(both, 0, SLOTS);
      assert false;
    }
  }

  lemma {:induction false} IntervalSize(s: set<nat>, lo: nat, n: nat)
    requires forall x :: x in s ==> lo <= x < lo + n
    ensures |s| <= n
  {
    if n == 0 {
      assert s == {};
    } else {
      IntervalSize(s - {lo + n - 1}, lo, n - 1);
    }
  }

  // ----- runs of the book

  datatype Arrival = Arrival(quote: WireQuote, tip: nat)

  /** The book after a run of arrivals, starting empty. */
  function Run(cfg: Config, run: seq<Arrival>): (hs: Heights)
    ensures Rows(hs)
  {
    if run == [] then map[]
    else
      var last := run[|run| - 1];
      After(cfg, Run(cfg, run[..|run| - 1]), last.quote, last.tip)
  }

  ghost predicate NondecreasingTips(run: seq<Arrival>) {
    forall i, j :: 0 <= i < j < |run| ==> run[i].tip <= run[j].tip
  }

  /** Every filed quote is positive and verifies for exactly the slot and height it is filed at. */
  ghost predicate Genuine(cfg: Config, hs: Heights) {
    && Rows(hs)
    && forall h, s :: h in hs && 0 <= s < SLOTS && hs[h][s].Some? ==>
         var e := hs[h][s].value;
         e.quote.price > 0 && cfg.verifies(s, Payload(h, e.quote.price, e.backingK), e.quote.sig)
  }

  lemma {:induction false} RunsAreGenuine(cfg: Config, run: seq<Arrival>)
    ensures Genuine(cfg, Run(cfg, run))
  {
    if run != [] {
      RunsAreGenuine(cfg, run[..|run| - 1]);
    }
  }

  /** All heights lie between the floor and the ceiling of one tip. */
  ghost predicate InWindow(cfg: Config, hs: Heights, tip: nat) {
    forall h :: h in hs ==> Floor(cfg, tip) <= h <= Ceiling(cfg, tip)
  }

  lemma {:induction false} RunsStayInWindow(cfg: Config, run: seq<Arrival>)
    requires NondecreasingTips(run) && run != []
    ensures exists tip: nat :: InWindow(cfg, Run(cfg, run), tip) && tip <= run[|run| - 1].tip
  {
    var n := |run| - 1;
    var init, last := run[..n], run[n];
    assert Run(cfg, run) == After(cfg, Run(cfg, init), last.quote, last.tip);
    if n == 0 {
      assert InWindow(cfg, Run(cfg, run), last.tip);
    } else {
      RunsStayInWindow(cfg, init);
      var tip: nat :| InWindow(cfg, Run(cfg, init), tip) && tip <= init[n - 1].tip;
      assert init[n - 1].tip == run[n - 1].tip <= last.tip;
      assert InWindow(cfg, Run(cfg, run), if Refusal(cfg, last.quote, last.tip).Some? then tip else last.tip);
    }
  }

  /** With nondecreasing tips the book holds at most horizon + drift + 1 heights. */
  lemma BookIsBounded(cfg: Config, run: seq<Arrival>)
    requires NondecreasingTips(run)
    ensures |Run(cfg, run)| <= cfg.horizon + cfg.drift + 1
  {
    if run != [] {
      RunsStayInWindow(cfg, run);
      var hs := Run(cfg, run);
      var tip: nat :| InWindow(cfg, hs, tip);
      IntervalSize(hs.Keys, Floor(cfg, tip), cfg.horizon + cfg.drift + 1);
      assert |hs| == |hs.Keys|;
    }
  }

  /** The fault model: at least three of the five slots are honest, and an honest slot's key
      verifies only what that oracle signed. */
  ghost predicate FaultModel(cfg: Config, honest: set<nat>, signed: (nat, Payload) -> bool) {
    && (forall s :: s in honest ==> s < SLOTS)
    && |honest| >= 3
    && (forall s, p, sig :: s in honest && cfg.verifies(s, p, sig) ==> signed(s, p))
  }

  /** An honest oracle signs one ratio per height. It may sign a height again at a new price, as
      it does when a publication failed. */
  ghost predicate OneRatioPerHeight(honest: set<nat>, signed: (nat, Payload) -> bool) {
    forall s, p, q :: s in honest && signed(s, p) && signed(s, q) && p.height == q.height ==> p.backingK == q.backingK
  }

  /** Safety: whatever arrives, a tick assembled from the book brackets a price that an
      honest oracle signed for that height and ratio. */
  lemma TickBracketsAnHonestPrice(cfg: Config, run: seq<Arrival>, honest: set<nat>,
                                  signed: (nat, Payload) -> bool, height: nat, t: OracleTick)
    requires FaultModel(cfg, honest, signed)
    requires height in Run(cfg, run) && QuorumTick(Run(cfg, run)[height], height, t)
    ensures exists s :: s in honest && s in Active(t.slots)
              && signed(s, Payload(height, t.slots[s].value.price, t.backingK))
              && LoPrice(t.slots) <= t.slots[s].value.price <= HiPrice(t.slots)
    ensures LoPrice(t.slots) > 0
  {
    RunsAreGenuine(cfg, run);
    var row := Run(cfg, run)[height];
    QuorumsMeet(honest, Active(t.slots));
    var s :| s in honest && s in Active(t.slots);
    RangeBounds(t.slots, s);
    assert cfg.verifies(s, Payload(height, row[s].value.quote.price, t.backingK), row[s].value.quote.sig);
    LoIsPositive(t.slots);
  }

  /** Two sets of three out of five slots have a slot in common. */
  lemma QuorumsMeet(a: set<nat>, b: set<nat>)
    requires forall x :: x in a + b ==> x < SLOTS
    requires |a| >= 3 && |b| >= 3
    ensures exists s :: s in a && s in b
  {
    IntervalSize(a + b, 0, SLOTS);
    assert |a + b| == |a| + |b| - |a * b|;
    var s :| s in a * b;
  }

  lemma {:induction false} RangeBounds(slots: seq<Option<SignedQuote>>, s: nat)
    requires s < |slots| && slots[s].Some?
    ensures LoPrice(slots) <= slots[s].value.price <= HiPrice(slots)
  {
    var n := |slots| - 1;
    if s < n {
      RangeBounds(slots[..n], s);
    }
  }

  lemma {:induction false} LoIsPositive(slots: seq<Option<SignedQuote>>)
    requires forall i :: 0 <= i < |slots| && slots[i].Some? ==> slots[i].value.price > 0
    ensures LoPrice(slots) > 0
  {
    if slots != [] {
      LoIsPositive(slots[..|slots| - 1]);
    }
  }

  /** An accepted quote of an honest slot keeps its ratio filed: only a newer quote of the same
      oracle, for the same ratio, can take its place, until the window has moved past it. */
  lemma {:induction false} HonestQuoteStays(cfg: Config, run: seq<Arrival>, honest: set<nat>,
                                            signed: (nat, Payload) -> bool, i: nat)
    requires FaultModel(cfg, honest, signed) && OneRatioPerHeight(honest, signed)
    requires NondecreasingTips(run) && i < |run|
    requires run[i].quote.slot in honest && Acceptable(cfg, run[i].quote, run[i].tip)
    ensures var q, hs := run[i].quote, Run(cfg, run);
            || (&& q.height in hs
                && hs[q.height][q.slot].Some?
                && hs[q.height][q.slot].value.backingK == q.backingK)
            || q.height + cfg.horizon < run[|run| - 1].tip
  {
    var n := |run| - 1;
    var init, last, q := run[..n], run[n], run[i].quote;
    if i < n {
      HonestQuoteStays(cfg, init, honest, signed, i);
      assert init[n - 1].tip <= last.tip;
      assert cfg.verifies(q.slot, PayloadOf(q), q.sig.value);
    }
  }

  /** Liveness: three honest quotes for one height that share a ratio always give it a quorum
      while the height is inside the window, so a tick assembles below the threshold. */
  lemma ThreeHonestQuotesMakeAQuorum(cfg: Config, run: seq<Arrival>, honest: set<nat>,
                                     signed: (nat, Payload) -> bool, i: nat, j: nat, l: nat)
    requires FaultModel(cfg, honest, signed) && OneRatioPerHeight(honest, signed) && NondecreasingTips(run)
    requires i < |run| && j < |run| && l < |run|
    requires forall x :: x in {i, j, l} ==>
               && run[x].quote.slot in honest && Acceptable(cfg, run[x].quote, run[x].tip)
               && run[x].quote.height == run[i].quote.height && run[x].quote.backingK == run[i].quote.backingK
    requires |{run[i].quote.slot, run[j].quote.slot, run[l].quote.slot}| == 3
    requires run[|run| - 1].tip <= run[i].quote.height + cfg.horizon
    ensures run[i].quote.height in Run(cfg, run)
    ensures |Support(Run(cfg, run)[run[i].quote.height], run[i].quote.backingK)| >= 3
  {
    HonestQuoteStays(cfg, run, honest, signed, i);
    HonestQuoteStays(cfg, run, honest, signed, j);
    HonestQuoteStays(cfg, run, honest, signed, l);
    var row := Run(cfg, run)[run[i].quote.height];
    var three := {run[i].quote.slot, run[j].quote.slot, run[l].quote.slot};
    var support := Support(row, run[i].quote.backingK);
    assert three <= support;
    SubsetSize(three, support);
  }

  lemma SubsetSize(a: set<nat>, b: set<nat>)
    requires a <= b
    ensures |a| <= |b|
  {
    assert b == a + (b - a);
  }
}
