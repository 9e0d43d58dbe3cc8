/** Oracle ticks: three signed quotes out of five slots, and their price range. */
module Oracle {
  import opened Prelude

  const SLOTS: nat := 5

  /** Heights at or above this are timestamps under BIP 65. */
  const LOCK_TIME_HEIGHT_THRESHOLD: nat := 500_000_000

  type Sig = seq<bv8>

  datatype SignedQuote = SignedQuote(price: nat, sig: Sig)

  datatype OracleTick = OracleTick(height: nat, backingK: nat, slots: seq<Option<SignedQuote>>)

  datatype OracleError = DuplicateSlot(slot: nat) | HeightAboveThreshold(height: nat)

  /** The slots that carry a quote. */
  function Active(slots: seq<Option<SignedQuote>>): set<nat> {
    set i | 0 <= i < |slots| && slots[i].Some?
  }

  ghost predicate WellFormed(t: OracleTick) {
    && t.height < LOCK_TIME_HEIGHT_THRESHOLD
    && |t.slots| == SLOTS
    && |Active(t.slots)| == 3
  }

  /** The first `n` quotes name distinct slots. */
  ghost predicate Distinct(quotes: seq<(nat, SignedQuote)>, n: nat)
    requires n <= |quotes|
  {
    forall i, j :: 0 <= i < j < n ==> quotes[i].0 != quotes[j].0
  }

  /** The slot array holds the first `n` quotes at their slots, and nothing else. */
  ghost predicate Places(slots: seq<Option<SignedQuote>>, quotes: seq<(nat, SignedQuote)>, n: nat)
    requires n <= |quotes|
  {
    && |slots| == SLOTS
    && (forall i :: 0 <= i < n ==> quotes[i].0 < SLOTS && slots[quotes[i].0] == Some(quotes[i].1))
    && Active(slots) == set i | 0 <= i < n :: quotes[i].0
  }

  /** A tick is constructed exactly from a block height below the threshold and three
      distinct slots; it then holds those quotes and no others. */
  method NewTick(height: nat, backingK: nat, quotes: seq<(nat, SignedQuote)>)
    returns (r: Result<OracleTick, OracleError>)
    requires |quotes| == 3 && forall i :: 0 <= i < 3 ==> quotes[i].0 < SLOTS
    ensures r.Ok? <==> height < 500_000_000 && Distinct(quotes, 3)
    ensures r.Ok? ==> r.value.height == height && r.value.backingK == backingK && Places(r.value.slots, quotes, 3)
    ensures r.Ok? ==> WellFormed(r.value)
    ensures r.Err? ==> r.error == if height >= LOCK_TIME_HEIGHT_THRESHOLD then HeightAboveThreshold(height)
                                  else if quotes[1].0 == quotes[0].0 then DuplicateSlot(quotes[1].0)
                                  else DuplicateSlot(quotes[2].0)
  {
    if height >= LOCK_TIME_HEIGHT_THRESHOLD {
      return Err(HeightAboveThreshold(height));
    }
    var slots: seq<Option<SignedQuote>> := [None, None, None, None, None];
    for n := 0 to 3
      invariant Places(slots, quotes, n) && Distinct(quotes, n)
    {
      var (slot, quote) := quotes[n];
      if slots[slot].Some? {
        assert slot in Active(slots);
        return Err(DuplicateSlot(slot));
      }
      assert slot !in Active(slots);
      PlaceOne(slots, quotes, n);
      slots := slots[slot := Some(quote)];
    }
    PlacesThree(slots, quotes);
    r := Ok(OracleTick(height, backingK, slots));
  }

  lemma PlaceOne(slots: seq<Option<SignedQuote>>, quotes: seq<(nat, SignedQuote)>, n: nat)
    requires n < |quotes| && Places(slots, quotes, n) && Distinct(quotes, n)
    requires quotes[n].0 < SLOTS && quotes[n].0 !in Active(slots)
    ensures Places(slots[quotes[n].0 := Some(quotes[n].1)], quotes, n + 1)
    ensures Distinct(quotes, n + 1)
  {
    var next := slots[quotes[n].0 := Some(quotes[n].1)];
    assert Active(next) == Active(slots) + {quotes[n].0};
    assert (set i | 0 <= i < n + 1 :: quotes[i].0) == (set i | 0 <= i < n :: quotes[i].0) + {quotes[n].0};
  }

  lemma PlacesThree(slots: seq<Option<SignedQuote>>, quotes: seq<(nat, SignedQuote)>)
    requires |quotes| == 3 && Places(slots, quotes, 3) && Distinct(quotes, 3)
    ensures Active(slots) == {quotes[0].0, quotes[1].0, quotes[2].0}
    ensures |Active(slots)| == 3
  {
    assert Active(slots) == {quotes[0].0, quotes[1].0, quotes[2].0};
  }

  // ----- price range

  /** The highest active price, zero when no slot is active. */
  function HiPrice(slots: seq<Option<SignedQuote>>): nat {
    if slots == [] then 0
    else
      var rest := HiPrice(slots[..|slots| - 1]);
      match slots[|slots| - 1]
      case None => rest
      case Some(q) => Max(rest, q.price)
  }

  /** The lowest active price, the 32-bit ceiling when no slot is active. */
  function LoPrice(slots: seq<Option<SignedQuote>>): nat {
    if slots == [] then U32_MAX
    else
      var rest := LoPrice(slots[..|slots| - 1]);
      match slots[|slots| - 1]
      case None => rest
      case Some(q) => Min(rest, q.price)
  }

  method PriceRange(slots: seq<Option<SignedQuote>>) returns (lo: nat, hi: nat)
    ensures lo == LoPrice(slots) && hi == HiPrice(slots)
  {
    lo, hi := U32_MAX, 0;
    for i := 0 to |slots|
      invariant lo == LoPrice(slots[..i]) && hi == HiPrice(slots[..i])
    {
      assert slots[..i + 1][..i] == slots[..i];
      if slots[i].Some? {
        lo := Min(lo, slots[i].value.price);
        hi := Max(hi, slots[i].value.price);
      }
    }
    assert slots[..|slots|] == slots;
  }

  /** The range brackets every active price and both ends are quoted, so it is the tightest
      such bracket. */
  lemma {:induction false} RangeIsTight(slots: seq<Option<SignedQuote>>)
    requires forall i :: 0 <= i < |slots| && slots[i].Some? ==> slots[i].value.price <= U32_MAX
    ensures forall i :: 0 <= i < |slots| && slots[i].Some? ==>
              LoPrice(slots) <= slots[i].value.price <= HiPrice(slots)
    ensures (exists i :: 0 <= i < |slots| && slots[i].Some?) ==>
              && (exists i :: 0 <= i < |slots| && slots[i].Some? && slots[i].value.price == LoPrice(slots))
              && (exists i :: 0 <= i < |slots| && slots[i].Some? && slots[i].value.price == HiPrice(slots))
  {
    if slots != [] {
      var n := |slots| - 1;
      var init := slots[..n];
      RangeIsTight(init);
      assert forall i :: 0 <= i < n ==> init[i] == slots[i];
      if exists i :: 0 <= i < n && slots[i].Some? {
        var a :| 0 <= a < n && slots[a].Some?;
        assert init[a].Some?;
        var l :| 0 <= l < n && init[l].Some? && init[l].value.price == LoPrice(init);
        var h :| 0 <= h < n && init[h].Some? && init[h].value.price == HiPrice(init);
        assert slots[l].value.price == LoPrice(init) && slots[h].value.price == HiPrice(init);
      } else {
        EmptyRange(init);
      }
    }
  }

  lemma {:induction false} EmptyRange(slots: seq<Option<SignedQuote>>)
    requires forall i :: 0 <= i < |slots| ==> slots[i].None?
    ensures LoPrice(slots) == U32_MAX && HiPrice(slots) == 0
  {
    if slots != [] {
      EmptyRange(slots[..|slots| - 1]);
    }
  }
}
