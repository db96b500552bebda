/**
 * The leverage game: an integer state machine over `gameState`.
 *
 * The player picks a leverage multiplier whose cost must leave capital
 * positive, opens the market, whose interval draws random valuations up to
 * capital minus cost, and catches the current valuation; capital becomes
 * that valuation times the leverage. Timers become explicit steps: `Tick` is
 * one firing of the market interval and `ReturnToSelection` the delayed
 * return to the leverage choice.
 */
module LeverageGame {
  import opened Wrappers

  /** `LEVERAGE_OPTIONS`: multiplier to cost. */
  const LeverageOptions: map<nat, int> := map[2 := 100, 3 := 200, 4 := 300, 5 := 400, 6 := 500, 7 := 600, 8 := 700]

  /** The multipliers in the order `Object.keys` lists them. */
  const Multipliers: seq<nat> := [2, 3, 4, 5, 6, 7, 8]

  /** The capital a game starts and restarts with. */
  const StartingCapital: int := 1000

  /** Each multiplier k from 2 to 8, and no other, costs 100 * (k - 1). */
  lemma LeverageTable()
    ensures forall k :: k in LeverageOptions <==> k in Multipliers
    ensures forall k :: k in LeverageOptions <==> 2 <= k <= 8
    ensures forall k :: k in LeverageOptions ==> LeverageOptions[k] == 100 * (k - 1)
  {
    forall k | 2 <= k <= 8 ensures k in Multipliers {
      assert Multipliers[k - 2] == k;
    }
  }

  /** `Object.values(LEVERAGE_OPTIONS)`, in key order. */
  function Costs(): (cs: seq<int>)
    ensures cs == [100, 200, 300, 400, 500, 600, 700]
  {
    seq(|Multipliers|, i requires 0 <= i < |Multipliers| => LeverageOptions[Multipliers[i]])
  }

  /** `Math.min(first, ...rest)`. */
  function Min(first: int, rest: seq<int>): (m: int)
    ensures m == first || m in rest
    ensures m <= first && forall x :: x in rest ==> m <= x
    decreases |rest|
  {
    if rest == [] then first
    else
      var m := Min(rest[0], rest[1..]);
      assert forall x :: x in rest ==> x == rest[0] || x in rest[1..] by {
        assert rest == [rest[0]] + rest[1..];
      }
      if first <= m then first else m
  }

  /** `Math.min(...Object.values(LEVERAGE_OPTIONS))`: the cheapest leverage, 100. */
  function MinimumCost(): (m: int)
    ensures m in LeverageOptions.Values
    ensures forall k :: k in LeverageOptions ==> m <= LeverageOptions[k]
    ensures m == 100
  {
    var cs := Costs();
    LeverageTable();
    var m := Min(cs[0], cs[1..]);
    assert m == 100 by {
      assert cs[1..] == [200, 300, 400, 500, 600, 700];
    }
    assert LeverageOptions[2] == 100;
    m
  }

  /** The affordability rule shared by `selectLeverage` and the orb display. */
  predicate CanAfford(capital: int, multiplier: nat)
    requires multiplier in LeverageOptions
  {
    capital - LeverageOptions[multiplier] > 0
  }

  /**
   * Multiplier k is affordable exactly when capital exceeds 100 * (k - 1),
   * and affording any leverage means capital exceeds the cheapest cost.
   */
  lemma AffordabilityRule(capital: int, multiplier: nat)
    requires multiplier in LeverageOptions
    ensures CanAfford(capital, multiplier) <==> capital > 100 * (multiplier - 1)
    ensures CanAfford(capital, multiplier) ==> capital > MinimumCost()
  {
    LeverageTable();
  }

  /** With exactly the minimum cost left the player is solvent, yet nothing is affordable. */
  lemma SolventButStuck()
    ensures !(100 < MinimumCost())
    ensures forall k :: k in LeverageOptions ==> !CanAfford(100, k)
  {
    LeverageTable();
  }

  /**
   * `updateLeverageOrbs`: whether each orb, in key order, is shown as
   * affordable; it agrees with the rule `selectLeverage` applies.
   */
  method LeverageOrbs(capital: int) returns (affordable: seq<bool>)
    ensures |affordable| == |Multipliers|
    ensures forall i :: 0 <= i < |Multipliers| ==>
      Multipliers[i] in LeverageOptions && affordable[i] == CanAfford(capital, Multipliers[i])
  {
    affordable := [];
    var i := 0;
    while i < |Multipliers|
      invariant 0 <= i <= |Multipliers|
      invariant |affordable| == i
      invariant forall j :: 0 <= j < i ==> Multipliers[j] in LeverageOptions && affordable[j] == CanAfford(capital, Multipliers[j])
    {
      var multiplier := Multipliers[i];
      var cost := LeverageOptions[multiplier];
      affordable := affordable + [capital - cost > 0];
      i := i + 1;
    }
  }

  /**
   * `Math.floor(Math.random() * (maxValue + 1))` with `random` the draw in
   * [0, 1): a whole number from 0 to `maxValue` when `maxValue` is not negative.
   */
  function Valuation(maxValue: int, random: real): (v: int)
    requires 0.0 <= random < 1.0
    ensures maxValue >= 0 ==> 0 <= v <= maxValue
  {
    var scaled := random * (maxValue + 1) as real;
    if maxValue >= 0 then
      assert scaled < (maxValue + 1) as real by {
        var n := (maxValue + 1) as real;
        assert (1.0 - random) * n > 0.0;
        assert (1.0 - random) * n == n - random * n;
      }
      assert 0.0 <= scaled by {
        assert 0.0 <= random && 0.0 < (maxValue + 1) as real;
      }
      scaled.Floor
    else
      scaled.Floor
  }

  /** The value of `value * leverage` when `leverage` is null (which JavaScript multiplies as 0). */
  function Multiplier(leverage: Option<nat>): (m: nat)
    ensures leverage.None? ==> m == 0
    ensures leverage.Some? ==> m == leverage.value
    ensures leverage.Some? && leverage.value in LeverageOptions ==> 2 <= m <= 8
  {
    LeverageTable();
    if leverage.Some? then leverage.value else 0
  }

  /** One `history` record: `{ leverage, cost, lockedValue, result, oldCapital }`. */
  datatype Round = Round(leverage: Option<nat>, cost: Option<int>, lockedValue: int, result: int, oldCapital: int)

  /** `gameState`, with the market interval's captured bound and the pending return timers. */
  class Game {
    var capital: int
    var insolvent: bool
    var marketOpen: bool
    var currentValuation: int
    var selectedLeverage: Option<nat>
    var history: seq<Round>
    /** `maxValue` captured by the market interval of the last `startMarket`. */
    var marketMax: int
    /** Return-to-selection timers scheduled by `catchValue` that have not fired. */
    var pendingReturns: nat
    /** Whether the current valuation was set, by a draw or by a reset, since the market opened. */
    ghost var valuationSinceOpen: bool

    /** A leverage is selected and no catch result is pending or final. */
    ghost predicate Settled()
      reads this
    {
      selectedLeverage.Some? && pendingReturns == 0 && !insolvent
    }

    ghost predicate Valid()
      reads this
    {
      && (selectedLeverage.Some? ==> selectedLeverage.value in LeverageOptions)
      && (Settled() ==> CanAfford(capital, selectedLeverage.value))
      && (marketOpen && Settled() ==> marketMax == capital - LeverageOptions[selectedLeverage.value])
      && (marketOpen && valuationSinceOpen && marketMax >= 0 ==> 0 <= currentValuation <= marketMax)
    }

    constructor ()
      ensures Valid()
      ensures capital == StartingCapital && !insolvent && !marketOpen && currentValuation == 0
      ensures selectedLeverage == None && history == [] && pendingReturns == 0
    {
      capital := StartingCapital;
      insolvent := false;
      marketOpen := false;
      currentValuation := 0;
      selectedLeverage := None;
      history := [];
      marketMax := 0;
      pendingReturns := 0;
      valuationSinceOpen := false;
    }

    /**
     * `selectLeverage`: refused, changing nothing, when the cost would leave
     * no capital; otherwise selects the multiplier and closes the market.
     */
    method SelectLeverage(multiplier: nat)
      requires Valid() && multiplier in LeverageOptions
      modifies this
      ensures Valid()
      ensures !CanAfford(old(capital), multiplier) ==> unchanged(this)
      ensures CanAfford(old(capital), multiplier) ==>
        selectedLeverage == Some(multiplier) && !marketOpen
        && capital == old(capital) && insolvent == old(insolvent) && history == old(history)
        && currentValuation == old(currentValuation) && pendingReturns == old(pendingReturns)
    {
      var cost := LeverageOptions[multiplier];
      var remaining := capital - cost;
      if remaining <= 0 {
        return;
      }
      selectedLeverage := Some(multiplier);
      marketOpen := false;
    }

    /**
     * `startMarket`: nothing without a selection; otherwise the market opens
     * and its interval will draw valuations up to capital minus cost.
     * The current valuation is not reset.
     */
    method StartMarket()
      requires Valid()
      modifies this
      ensures Valid()
      ensures old(selectedLeverage).None? ==> unchanged(this)
      ensures old(selectedLeverage).Some? ==>
        marketOpen && marketMax == old(capital) - LeverageOptions[old(selectedLeverage).value]
        && !valuationSinceOpen && currentValuation == old(currentValuation)
        && capital == old(capital) && selectedLeverage == old(selectedLeverage) && insolvent == old(insolvent)
        && history == old(history) && pendingReturns == old(pendingReturns)
    {
      if selectedLeverage.None? {
        return;
      }
      marketOpen := true;
      var cost := LeverageOptions[selectedLeverage.value];
      marketMax := capital - cost;
      valuationSinceOpen := false;
    }

    /**
     * `startMarket` as evidently intended: the same, except that opening the
     * market also resets the current valuation, so a catch before the first
     * draw locks 0 rather than the previous round's value.
     */
    method StartMarketReset()
      requires Valid()
      modifies this
      ensures Valid()
      ensures old(selectedLeverage).None? ==> unchanged(this)
      ensures old(selectedLeverage).Some? ==>
        marketOpen && marketMax == old(capital) - LeverageOptions[old(selectedLeverage).value]
        && valuationSinceOpen && currentValuation == 0
        && capital == old(capital) && selectedLeverage == old(selectedLeverage) && insolvent == old(insolvent)
        && history == old(history) && pendingReturns == old(pendingReturns)
    {
      if selectedLeverage.None? {
        return;
      }
      marketOpen := true;
      var cost := LeverageOptions[selectedLeverage.value];
      marketMax := capital - cost;
      currentValuation := 0;
      valuationSinceOpen := true;
    }

    /**
     * One firing of the market interval with `random` from `Math.random()`:
     * while the market is open it draws a new valuation, bounded by the
     * captured maximum; once closed, the interval stops and changes nothing.
     */
    method Tick(random: real)
      requires Valid() && 0.0 <= random < 1.0
      modifies this
      ensures Valid()
      ensures !old(marketOpen) ==> unchanged(this)
      ensures old(marketOpen) ==>
        currentValuation == Valuation(marketMax, random) && valuationSinceOpen
        && (marketMax >= 0 ==> 0 <= currentValuation <= marketMax)
        && marketOpen && marketMax == old(marketMax) && capital == old(capital)
        && selectedLeverage == old(selectedLeverage) && insolvent == old(insolvent)
        && history == old(history) && pendingReturns == old(pendingReturns)
    {
      if !marketOpen {
        return;
      }
      currentValuation := Valuation(marketMax, random);
      valuationSinceOpen := true;
      assert marketMax >= 0 ==> 0 <= currentValuation <= marketMax;
    }

    /**
     * `catchValue`: nothing while the market is closed. Otherwise the
     * market closes, capital becomes the locked valuation times the leverage,
     * one history record is appended, and the player becomes insolvent when
     * the new capital is below the cheapest leverage; when not, a return to
     * the leverage choice is scheduled. With a leverage selected, no
     * return pending and the player solvent, after a draw in a freshly
     * opened market (or one opened by `StartMarketReset`), the new capital
     * is at most (old capital - cost) * leverage, since the cost is recorded
     * but never deducted. While a return is pending, the selection survives
     * and the bound can fail; the page hides the start button then
     * (game.js:279), and only `selectLeverage` shows it again (game.js:261).
     */
    method CatchValue()
      requires Valid()
      modifies this
      ensures Valid()
      ensures !old(marketOpen) ==> unchanged(this)
      ensures old(marketOpen) ==>
        && !marketOpen
        && capital == old(currentValuation) * Multiplier(old(selectedLeverage))
        && history == old(history) + [Round(
             old(selectedLeverage),
             if old(selectedLeverage).Some? then Some(LeverageOptions[old(selectedLeverage).value]) else None,
             old(currentValuation), capital, old(capital))]
        && insolvent == (old(insolvent) || capital < MinimumCost())
        && pendingReturns == old(pendingReturns) + (if capital < MinimumCost() then 0 else 1)
        && selectedLeverage == old(selectedLeverage) && currentValuation == old(currentValuation)
      ensures old(marketOpen) && old(Settled()) && old(valuationSinceOpen) ==>
        capital <= (old(capital) - LeverageOptions[old(selectedLeverage).value]) * old(selectedLeverage).value
    {
      if !marketOpen {
        return;
      }
      marketOpen := false;
      var leverage := selectedLeverage;
      var cost := if leverage.Some? then Some(LeverageOptions[leverage.value]) else None;
      var lockedValue := currentValuation;
      var newCapital := lockedValue * Multiplier(leverage);
      var oldCapital := capital;
      history := history + [Round(leverage, cost, lockedValue, newCapital, oldCapital)];
      capital := newCapital;
      if old(Settled()) && old(valuationSinceOpen) {
        BoundedProduct(lockedValue, marketMax, leverage.value);
      }
      var minCost := MinimumCost();
      if capital < minCost {
        insolvent := true;
      } else {
        pendingReturns := pendingReturns + 1;
      }
    }

    /** The delayed return after a solvent catch: the selection is cleared. */
    method ReturnToSelection()
      requires Valid() && pendingReturns > 0
      modifies this
      ensures Valid()
      ensures pendingReturns == old(pendingReturns) - 1 && selectedLeverage == None
      ensures capital == old(capital) && insolvent == old(insolvent) && history == old(history)
      ensures marketOpen == old(marketOpen) && currentValuation == old(currentValuation)
    {
      pendingReturns := pendingReturns - 1;
      selectedLeverage := None;
    }

    /** `goBack`: the market closes and the selection is cleared; nothing else changes. */
    method GoBack()
      requires Valid()
      modifies this
      ensures Valid()
      ensures !marketOpen && selectedLeverage == None
      ensures capital == old(capital) && history == old(history) && insolvent == old(insolvent)
      ensures currentValuation == old(currentValuation) && pendingReturns == old(pendingReturns)
    {
      marketOpen := false;
      selectedLeverage := None;
    }

    /** `restartGame`: back to the starting capital with no history. */
    method RestartGame()
      requires Valid()
      modifies this
      ensures Valid()
      ensures capital == StartingCapital && !insolvent && !marketOpen && currentValuation == 0
      ensures selectedLeverage == None && history == []
      ensures pendingReturns == old(pendingReturns)
    {
      capital := StartingCapital;
      insolvent := false;
      marketOpen := false;
      currentValuation := 0;
      selectedLeverage := None;
      history := [];
    }
  }

  /** A value at most `bound`, times a positive leverage, is at most `bound` times it. */
  lemma BoundedProduct(value: int, bound: int, leverage: nat)
    requires value <= bound && leverage > 0
    ensures value * leverage <= bound * leverage
  {
    assert (bound - value) * leverage >= 0;
  }

  /**
   * Because `startMarket` does not reset the current valuation, a catch
   * before the interval's first draw locks the previous round's value,
   * which can exceed capital minus cost: with capital 1000, x2 caught at
   * 450 gives 900; then x8 (cost 700) caught at once locks 450 > 200 and
   * yields 3600 > (900 - 700) * 8.
   */
  method StaleValuationExample() returns (lockedValue: int, maxValue: int, newCapital: int)
    ensures lockedValue == 450 && maxValue == 200 && newCapital == 3600
    ensures lockedValue > maxValue && newCapital > maxValue * 8
  {
    LeverageTable();
    var g := new Game();
    g.SelectLeverage(2);
    assert g.selectedLeverage == Some(2) && g.capital == 1000;
    g.StartMarket();
    assert g.marketOpen && g.marketMax == 900;
    g.Tick(0.5);
    assert g.currentValuation == 450;
    g.CatchValue();
    assert g.capital == 900 && g.pendingReturns == 1;
    g.ReturnToSelection();
    g.SelectLeverage(8);
    assert g.selectedLeverage == Some(8) && g.capital == 900;
    g.StartMarket();
    assert g.marketOpen && g.marketMax == 200;
    maxValue := g.marketMax;
    g.CatchValue();
    lockedValue := g.history[1].lockedValue;
    newCapital := g.capital;
  }

  /**
   * The same rounds with the corrected opening: the second catch locks at
   * most capital minus cost, and the new capital stays within that bound
   * times the leverage.
   */
  method StaleValuationCorrected() returns (lockedValue: int, maxValue: int, newCapital: int)
    ensures maxValue == 200
    ensures lockedValue <= maxValue && newCapital <= maxValue * 8
  {
    LeverageTable();
    var g := new Game();
    g.SelectLeverage(2);
    assert g.selectedLeverage == Some(2) && g.capital == 1000;
    g.StartMarketReset();
    assert g.marketOpen && g.marketMax == 900;
    g.Tick(0.5);
    assert g.currentValuation == 450;
    g.CatchValue();
    assert g.capital == 900 && g.pendingReturns == 1;
    g.ReturnToSelection();
    g.SelectLeverage(8);
    assert g.selectedLeverage == Some(8) && g.capital == 900;
    g.StartMarketReset();
    assert g.marketOpen && g.marketMax == 200;
    maxValue := g.marketMax;
    g.CatchValue();
    lockedValue := g.history[1].lockedValue;
    newCapital := g.capital;
  }
}
