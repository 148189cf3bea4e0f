/** The mock option chain's max-pain search: a scan of the listed strikes that solves a problem over all prices. */
module MaxPain {
  import opened Common

  datatype Contract = Contract(strike: real, optionType: string, oi: int)

  predicate IsCall(c: Contract) { c.optionType == "CE" || c.optionType == "C" }

  function Intrinsic(c: Contract, price: real): real
  {
    if IsCall(c) then RMax(0.0, price - c.strike) else RMax(0.0, c.strike - price)
  }

  function Payout(c: Contract, price: real): real
  {
    Intrinsic(c, price) * c.oi as real
  }

  // What option buyers would collect if the underlying settled at `price`.
  function Pain(cs: seq<Contract>, price: real): real
  {
    if |cs| == 0 then 0.0 else Pain(cs[..|cs| - 1], price) + Payout(cs[|cs| - 1], price)
  }

  function StrikesOf(cs: seq<Contract>): seq<real>
  {
    seq(|cs|, k requires 0 <= k < |cs| => cs[k].strike)
  }

  ghost predicate OpenInterestNonNegative(cs: seq<Contract>)
  {
    forall k :: 0 <= k < |cs| ==> cs[k].oi >= 0
  }

  ghost predicate IsStrike(cs: seq<Contract>, x: real)
  {
    exists k :: 0 <= k < |cs| && cs[k].strike == x
  }

  // x is a listed strike, no listed strike costs buyers less, and every cheaper strike costs strictly more.
  ghost predicate SmallestBestStrike(cs: seq<Contract>, x: real)
  {
    && IsStrike(cs, x)
    && (forall k :: 0 <= k < |cs| ==> Pain(cs, x) <= Pain(cs, cs[k].strike))
    && (forall k :: 0 <= k < |cs| && cs[k].strike < x ==> Pain(cs, x) < Pain(cs, cs[k].strike))
  }

  // v is the value at x of the line through (lo, vl) and (hi, vh).
  ghost predicate OnLine(lo: real, x: real, hi: real, vl: real, v: real, vh: real)
  {
    v * (hi - lo) == vl * (hi - x) + vh * (x - lo)
  }

  lemma LineSum(lo: real, x: real, hi: real, ul: real, u: real, uh: real, vl: real, v: real, vh: real)
    requires OnLine(lo, x, hi, ul, u, uh) && OnLine(lo, x, hi, vl, v, vh)
    ensures OnLine(lo, x, hi, ul + vl, u + v, uh + vh)
  {
  }

  lemma LineScale(lo: real, x: real, hi: real, vl: real, v: real, vh: real, k: real)
    requires OnLine(lo, x, hi, vl, v, vh)
    ensures OnLine(lo, x, hi, vl * k, v * k, vh * k)
  {
    calc {
      (v * k) * (hi - lo);
      (v * (hi - lo)) * k;
      (vl * (hi - x) + vh * (x - lo)) * k;
      (vl * k) * (hi - x) + (vh * k) * (x - lo);
    }
  }

  lemma LineThroughPrice(lo: real, x: real, hi: real, strike: real)
    ensures OnLine(lo, x, hi, lo - strike, x - strike, hi - strike)
    ensures OnLine(lo, x, hi, strike - lo, strike - x, strike - hi)
    ensures OnLine(lo, x, hi, 0.0, 0.0, 0.0)
  {
  }

  lemma PayoutAffineBetween(c: Contract, lo: real, x: real, hi: real)
    requires lo <= x <= hi
    requires c.strike <= lo || c.strike >= hi
    ensures OnLine(lo, x, hi, Payout(c, lo), Payout(c, x), Payout(c, hi))
  {
    LineThroughPrice(lo, x, hi, c.strike);
    assert OnLine(lo, x, hi, Intrinsic(c, lo), Intrinsic(c, x), Intrinsic(c, hi));
    LineScale(lo, x, hi, Intrinsic(c, lo), Intrinsic(c, x), Intrinsic(c, hi), c.oi as real);
  }

  // Between two prices with no strike strictly inside, pain is affine (for any open interest, even negative).
  lemma {:induction false} PainAffineBetween(cs: seq<Contract>, lo: real, x: real, hi: real)
    requires lo <= x <= hi
    requires forall k :: 0 <= k < |cs| ==> cs[k].strike <= lo || cs[k].strike >= hi
    ensures OnLine(lo, x, hi, Pain(cs, lo), Pain(cs, x), Pain(cs, hi))
  {
    if |cs| == 0 {
      LineThroughPrice(lo, x, hi, 0.0);
    } else {
      var rest, c := cs[..|cs| - 1], cs[|cs| - 1];
      PainAffineBetween(rest, lo, x, hi);
      PayoutAffineBetween(c, lo, x, hi);
      LineSum(lo, x, hi, Pain(rest, lo), Pain(rest, x), Pain(rest, hi), Payout(c, lo), Payout(c, x), Payout(c, hi));
    }
  }

  // ----- Which way pain moves -----

  ghost predicate CallsOnly(cs: seq<Contract>)
  {
    forall k :: 0 <= k < |cs| ==> cs[k].optionType in {"CE", "C"}
  }

  ghost predicate PutsOnly(cs: seq<Contract>)
  {
    forall k :: 0 <= k < |cs| ==> cs[k].optionType !in {"CE", "C"}
  }

  // Open interest of the calls struck at or below a price, and of the other contracts struck at or above it.
  function CallInterest(cs: seq<Contract>, price: real): int
  {
    if |cs| == 0 then 0
    else
      var c := cs[|cs| - 1];
      CallInterest(cs[..|cs| - 1], price) + (if c.optionType in {"CE", "C"} && c.strike <= price then c.oi else 0)
  }

  function PutInterest(cs: seq<Contract>, price: real): int
  {
    if |cs| == 0 then 0
    else
      var c := cs[|cs| - 1];
      PutInterest(cs[..|cs| - 1], price) + (if c.optionType !in {"CE", "C"} && c.strike >= price then c.oi else 0)
  }

  // Between two prices with no strike strictly inside, pain rises by their distance times the open interest of the
  // calls struck at or below, less that of the puts struck at or above.
  lemma {:induction false} PainSlope(cs: seq<Contract>, lo: real, hi: real)
    requires lo < hi && forall k :: 0 <= k < |cs| ==> cs[k].strike <= lo || cs[k].strike >= hi
    ensures Pain(cs, hi) - Pain(cs, lo) == Times(hi - lo, (CallInterest(cs, lo) - PutInterest(cs, hi)) as real)
  {
    if |cs| > 0 {
      var rest, c := cs[..|cs| - 1], cs[|cs| - 1];
      PainSlope(rest, lo, hi);
      PayoutSlope(c, lo, hi);
      AddSlopes(hi - lo, CallInterest(rest, lo) - PutInterest(rest, hi), OwnSlope(c, lo, hi));
    }
  }

  // What one contract adds to the slope.
  function OwnSlope(c: Contract, lo: real, hi: real): int
  {
    if c.optionType in {"CE", "C"} then (if c.strike <= lo then c.oi else 0) else if c.strike >= hi then -c.oi else 0
  }

  lemma PayoutSlope(c: Contract, lo: real, hi: real)
    requires lo < hi && (c.strike <= lo || c.strike >= hi)
    ensures Payout(c, hi) - Payout(c, lo) == Times(hi - lo, OwnSlope(c, lo, hi) as real)
  {
    var oi := c.oi as real;
    assert (hi - c.strike) * oi - (lo - c.strike) * oi == (hi - lo) * oi;
    assert (c.strike - hi) * oi - (c.strike - lo) * oi == (hi - lo) * -oi;
  }

  lemma AddSlopes(width: real, x: int, y: int)
    ensures Times(width, (x + y) as real) == Times(width, x as real) + Times(width, y as real)
  {
    assert (x + y) as real == x as real + y as real;
  }

  // With calls alone pain never falls with price and starts at 0; with puts alone it never rises and ends at 0.
  lemma {:induction false} OneSidedPain(cs: seq<Contract>, x: real, y: real)
    requires OpenInterestNonNegative(cs) && x <= y
    ensures CallsOnly(cs) ==> 0.0 <= Pain(cs, x) <= Pain(cs, y)
    ensures PutsOnly(cs) ==> 0.0 <= Pain(cs, y) <= Pain(cs, x)
    ensures CallsOnly(cs) && (forall k :: 0 <= k < |cs| ==> y <= cs[k].strike) ==> Pain(cs, y) == 0.0
    ensures PutsOnly(cs) && (forall k :: 0 <= k < |cs| ==> cs[k].strike <= x) ==> Pain(cs, x) == 0.0
  {
    if |cs| > 0 {
      var c := cs[|cs| - 1];
      OneSidedPain(cs[..|cs| - 1], x, y);
      OneSidedPayout(c, x, y);
    }
  }

  lemma OneSidedPayout(c: Contract, x: real, y: real)
    requires c.oi >= 0 && x <= y
    ensures c.optionType in {"CE", "C"} ==>
      0.0 <= Payout(c, x) <= Payout(c, y) && (y <= c.strike ==> Payout(c, y) == 0.0)
    ensures c.optionType !in {"CE", "C"} ==>
      0.0 <= Payout(c, y) <= Payout(c, x) && (x >= c.strike ==> Payout(c, x) == 0.0)
  {
    if c.optionType in {"CE", "C"} {
      ScaleLe(Intrinsic(c, x), Intrinsic(c, y), c.oi as real);
      ScaleLe(0.0, Intrinsic(c, x), c.oi as real);
    } else {
      ScaleLe(Intrinsic(c, y), Intrinsic(c, x), c.oi as real);
      ScaleLe(0.0, Intrinsic(c, y), c.oi as real);
    }
  }

  // With calls alone the search ends at the lowest strike.
  lemma CallsAloneSettleLowest(cs: seq<Contract>, best: real)
    requires OpenInterestNonNegative(cs) && CallsOnly(cs) && SmallestBestStrike(cs, best)
    ensures forall k :: 0 <= k < |cs| ==> best <= cs[k].strike
  {
    var s := SortedDistinct(StrikesOf(cs));
    forall k | 0 <= k < |cs| ensures s[0] <= cs[k].strike { StrikeListed(cs, k); }
    ListedIsStrike(cs, 0);
    OneSidedPain(cs, s[0], s[0]);
    OneSidedPain(cs, best, best);
  }

  lemma PayoutOutside(c: Contract, edge: real, x: real)
    requires c.oi >= 0
    requires x <= edge <= c.strike || c.strike <= edge <= x
    ensures Payout(c, edge) <= Payout(c, x)
  {
    ScaleLe(Intrinsic(c, edge), Intrinsic(c, x), c.oi as real);
  }

  // Outside the listed range, moving back to the nearest listed strike never raises pain.
  lemma {:induction false} PainOutside(cs: seq<Contract>, edge: real, x: real)
    requires OpenInterestNonNegative(cs)
    requires (x <= edge && forall k :: 0 <= k < |cs| ==> edge <= cs[k].strike) ||
      (x >= edge && forall k :: 0 <= k < |cs| ==> cs[k].strike <= edge)
    ensures Pain(cs, edge) <= Pain(cs, x)
  {
    if |cs| > 0 {
      var rest, c := cs[..|cs| - 1], cs[|cs| - 1];
      PainOutside(rest, edge, x);
      PayoutOutside(c, edge, x);
    }
  }

  lemma AboveTheLowerEnd(lo: real, x: real, hi: real, vl: real, v: real, vh: real, m: real)
    requires lo <= x < hi && m <= vl && m <= vh
    requires OnLine(lo, x, hi, vl, v, vh)
    ensures m <= v
  {
    ScaleLe(m, vl, hi - x);
    ScaleLe(m, vh, x - lo);
    assert m * (hi - x) + m * (x - lo) == m * (hi - lo);
    DivideOut(m, v, hi - lo);
  }

  lemma DivideOut(a: real, b: real, w: real)
    requires a * w <= b * w && w > 0.0
    ensures a <= b
  {
    assert (b - a) * w >= 0.0;
  }

  // On a ladder that holds every strike, inside its range, the least of its values is a lower bound.
  lemma AboveBestInside(cs: seq<Contract>, s: seq<real>, least: real, x: real)
    requires StrictlySorted(s) && |s| > 0 && s[0] <= x < s[|s| - 1]
    requires forall k :: 0 <= k < |cs| ==> cs[k].strike in s
    requires forall j :: 0 <= j < |s| ==> least <= Pain(cs, s[j])
    ensures least <= Pain(cs, x)
  {
    var i := FindCell(s, x);
    PainAffineBetween(cs, s[i], x, s[i + 1]);
    AboveTheLowerEnd(s[i], x, s[i + 1], Pain(cs, s[i]), Pain(cs, x), Pain(cs, s[i + 1]), least);
  }

  lemma AboveBestOutside(cs: seq<Contract>, s: seq<real>, least: real, x: real)
    requires OpenInterestNonNegative(cs) && StrictlySorted(s) && |s| > 0 && (x < s[0] || x >= s[|s| - 1])
    requires forall k :: 0 <= k < |cs| ==> cs[k].strike in s
    requires least <= Pain(cs, s[0]) && least <= Pain(cs, s[|s| - 1])
    ensures least <= Pain(cs, x)
  {
    PainOutside(cs, if x < s[0] then s[0] else s[|s| - 1], x);
  }

  // A strike that is best among strikes is best among all real settlement prices.
  lemma BestStrikeIsGlobal(cs: seq<Contract>, m: real, x: real)
    requires OpenInterestNonNegative(cs) && SmallestBestStrike(cs, m)
    ensures Pain(cs, m) <= Pain(cs, x)
  {
    var s := SortedDistinct(StrikesOf(cs));
    forall k | 0 <= k < |cs| ensures cs[k].strike in s { StrikeListed(cs, k); }
    forall j | 0 <= j < |s| ensures Pain(cs, m) <= Pain(cs, s[j]) { ListedIsStrike(cs, j); }
    assert |s| > 0;
    if s[0] <= x < s[|s| - 1] {
      AboveBestInside(cs, s, Pain(cs, m), x);
    } else {
      AboveBestOutside(cs, s, Pain(cs, m), x);
    }
  }

  lemma StrikeListed(cs: seq<Contract>, k: nat)
    requires k < |cs|
    ensures var s := SortedDistinct(StrikesOf(cs)); exists j :: 0 <= j < |s| && s[j] == cs[k].strike
  {
    var strikes := StrikesOf(cs);
    assert strikes[k] in strikes;
    assert cs[k].strike in SortedDistinct(strikes);
  }

  lemma ListedIsStrike(cs: seq<Contract>, j: nat)
    requires j < |SortedDistinct(StrikesOf(cs))|
    ensures exists k :: 0 <= k < |cs| && cs[k].strike == SortedDistinct(StrikesOf(cs))[j]
  {
    var s := SortedDistinct(StrikesOf(cs));
    assert s[j] in StrikesOf(cs);
  }

  // A listed strike that comes first among the best of the sorted list is the smallest best strike of the contracts.
  lemma BestOfTheListed(contracts: seq<Contract>, at: nat)
    requires contracts != [] && at < |SortedDistinct(StrikesOf(contracts))|
    requires var strikes := SortedDistinct(StrikesOf(contracts));
      && (forall j :: 0 <= j < |strikes| ==> Pain(contracts, strikes[at]) <= Pain(contracts, strikes[j]))
      && (forall j :: 0 <= j < |strikes| && strikes[j] < strikes[at] ==>
            Pain(contracts, strikes[at]) < Pain(contracts, strikes[j]))
    ensures var best := SortedDistinct(StrikesOf(contracts))[at];
      && SmallestBestStrike(contracts, best)
      && (OpenInterestNonNegative(contracts) ==> forall x: real :: Pain(contracts, best) <= Pain(contracts, x))
  {
    var strikes := SortedDistinct(StrikesOf(contracts));
    ListedIsStrike(contracts, at);
    forall k | 0 <= k < |contracts|
      ensures exists j :: 0 <= j < |strikes| && strikes[j] == contracts[k].strike
    {
      StrikeListed(contracts, k);
    }
    if OpenInterestNonNegative(contracts) {
      forall x: real ensures Pain(contracts, strikes[at]) <= Pain(contracts, x) {
        BestStrikeIsGlobal(contracts, strikes[at], x);
      }
    }
  }

  method ComputeMaxPain(contracts: seq<Contract>, spot: real) returns (best: real)
    ensures contracts == [] ==> best == spot
    ensures contracts != [] ==> SmallestBestStrike(contracts, best)
    ensures contracts != [] && OpenInterestNonNegative(contracts) ==>
      forall x: real :: Pain(contracts, best) <= Pain(contracts, x)
    ensures contracts != [] && OpenInterestNonNegative(contracts) && CallsOnly(contracts) ==>
      forall k :: 0 <= k < |contracts| ==> best <= contracts[k].strike
  {
    var strikes := SortedDistinct(StrikesOf(contracts));
    var minPain: Option<real> := None;
    best := spot;
    for i := 0 to |strikes|
      invariant i == 0 ==> minPain == None && best == spot
      invariant i > 0 ==> minPain == Some(Pain(contracts, best)) && exists j :: 0 <= j < i && strikes[j] == best
      invariant i > 0 ==> forall j :: 0 <= j < i ==> Pain(contracts, best) <= Pain(contracts, strikes[j])
      invariant i > 0 ==> forall j :: 0 <= j < i && strikes[j] < best ==>
        Pain(contracts, best) < Pain(contracts, strikes[j])
    {
      var test, totalPain := strikes[i], 0.0;
      for k := 0 to |contracts|
        invariant totalPain == Pain(contracts[..k], test)
      {
        var c := contracts[k];
        assert contracts[..k + 1][..k] == contracts[..k];
        totalPain := totalPain + Payout(c, test);
      }
      assert contracts[..|contracts|] == contracts;
      if minPain == None || totalPain < minPain.value {
        minPain, best := Some(totalPain), test;
      }
    }
    if contracts != [] {
      StrikeListed(contracts, 0);
      var at :| 0 <= at < |strikes| && strikes[at] == best;
      BestOfTheListed(contracts, at);
      if OpenInterestNonNegative(contracts) && CallsOnly(contracts) { CallsAloneSettleLowest(contracts, best); }
    }
  }
}
