/** The strike window of a US option chain: grouping of quotes by strike, the window around spot, and its ATM strike. */
module OptionWindow {
  import opened Common

  // One provider row; `quote` stands for the normalized leg built from it.
  datatype Quote = Quote(strike: real, isCall: bool, quote: int)

  datatype Legs = Legs(ce: Option<int>, pe: Option<int>)

  const EMPTY_LEGS := Legs(None, None)

  function Put(grouped: map<real, Legs>, q: Quote): map<real, Legs>
  {
    var legs := if q.strike in grouped then grouped[q.strike] else EMPTY_LEGS;
    grouped[q.strike := if q.isCall then legs.(ce := Some(q.quote)) else legs.(pe := Some(q.quote))]
  }

  function Grouped(rows: seq<Quote>): map<real, Legs>
  {
    if |rows| == 0 then map[] else Put(Grouped(rows[..|rows| - 1]), rows[|rows| - 1])
  }

  // The last row quoting a leg, if any.
  function LastQuote(rows: seq<Quote>, strike: real, isCall: bool): Option<int>
  {
    if |rows| == 0 then None
    else if rows[|rows| - 1].strike == strike && rows[|rows| - 1].isCall == isCall then Some(rows[|rows| - 1].quote)
    else LastQuote(rows[..|rows| - 1], strike, isCall)
  }

  // Grouping keeps exactly the quoted strikes, and for each leg the row that came last.
  lemma {:induction false} LastRowWins(rows: seq<Quote>, strike: real)
    ensures strike in Grouped(rows) <==> exists i :: 0 <= i < |rows| && rows[i].strike == strike
    ensures strike in Grouped(rows) ==>
      Grouped(rows)[strike] == Legs(LastQuote(rows, strike, true), LastQuote(rows, strike, false))
    ensures strike !in Grouped(rows) ==> LastQuote(rows, strike, true) == None && LastQuote(rows, strike, false) == None
  {
    if |rows| > 0 {
      LastRowWins(rows[..|rows| - 1], strike);
    }
  }

  function StrikesOf(rows: seq<Quote>): seq<real>
  {
    seq(|rows|, i requires 0 <= i < |rows| => rows[i].strike)
  }

  function Distance(x: real, spot: real): real { RAbs(x - spot) }

  // min(range(len(s)), key=distance): the first index at minimal distance.
  function Nearest(s: seq<real>, spot: real): (k: nat)
    requires |s| > 0
    ensures k < |s|
    ensures forall j :: 0 <= j < |s| ==> Distance(s[k], spot) <= Distance(s[j], spot)
    ensures forall j :: 0 <= j < k ==> Distance(s[k], spot) < Distance(s[j], spot)
  {
    if |s| == 1 then 0
    else
      var k := Nearest(s[..|s| - 1], spot);
      if Distance(s[|s| - 1], spot) < Distance(s[k], spot) then |s| - 1 else k
  }

  function FindAtm(s: seq<real>, spot: real): real
  {
    if |s| == 0 then 0.0 else s[Nearest(s, spot)]
  }

  function Left(s: seq<real>, spot: real, range: int): nat
    requires |s| > 0
  {
    if Nearest(s, spot) < range then 0 else if range < 0 then Nearest(s, spot) else Nearest(s, spot) - range
  }

  function Right(s: seq<real>, spot: real, range: int): nat
    requires |s| > 0 && range > 0
  {
    if |s| < Nearest(s, spot) + range + 1 then |s| else Nearest(s, spot) + range + 1
  }

  function Window(s: seq<real>, spot: real, range: int): seq<real>
  {
    if |s| > 0 && range > 0 then s[Left(s, spot, range)..Right(s, spot, range)] else s
  }

  // On a sorted ladder, distance to spot falls up to the nearest strike and rises after it.
  lemma DistanceIsUnimodal(s: seq<real>, spot: real, j: nat, k: nat)
    requires StrictlySorted(s) && j < |s| && k < |s|
    requires j <= k <= Nearest(s, spot) || Nearest(s, spot) <= k <= j
    ensures Distance(s[k], spot) <= Distance(s[j], spot)
  {
    var idx := Nearest(s, spot);
    assert Distance(s[idx], spot) <= Distance(s[j], spot);
    assert j != k && k != idx ==> (s[j] < s[k] < s[idx] || s[idx] < s[k] < s[j]);
  }

  // No listed strike is nearer to spot than atm, and of two equally near strikes atm is the lower.
  ghost predicate ClosestTo(spot: real, atm: real, strikes: set<real>)
  {
    && (atm <= spot ==> forall x :: x in strikes ==> x <= atm || x >= spot + (spot - atm))
    && (atm > spot ==> forall x :: x in strikes ==> x >= atm || x < spot - (atm - spot))
  }

  lemma AtmIsClosest(s: seq<real>, spot: real)
    requires StrictlySorted(s) && |s| > 0
    ensures FindAtm(s, spot) in s && ClosestTo(spot, FindAtm(s, spot), set x <- s)
  {
    var k := Nearest(s, spot);
    forall x | x in s
      ensures s[k] <= spot ==> x <= s[k] || x >= spot + (spot - s[k])
      ensures s[k] > spot ==> x >= s[k] || x < spot - (s[k] - spot)
    {
      var j :| 0 <= j < |s| && s[j] == x;
      assert Distance(s[k], spot) <= Distance(s[j], spot);
      assert j < k ==> Distance(s[k], spot) < Distance(s[j], spot);
    }
  }

  // The window is a slice around the ATM strike, with `range` strikes on each side or all there are; its ATM strike is
  // that of the full chain under the same tie rule, and no strike left out on a side is closer to spot than a kept
  // strike between it and the ATM strike.
  lemma WindowKeepsTheClosest(s: seq<real>, spot: real, range: int)
    requires StrictlySorted(s) && |s| > 0 && range > 0
    ensures var w := Window(s, spot, range); var left, right := Left(s, spot, range), Right(s, spot, range);
      && left <= Nearest(s, spot) < right <= |s|
      && w == s[left..right] && |w| <= 2 * range + 1
      && Nearest(s, spot) - left <= range && (left == 0 || Nearest(s, spot) - left == range)
      && right - 1 - Nearest(s, spot) <= range && (right == |s| || right - 1 - Nearest(s, spot) == range)
      && FindAtm(w, spot) == FindAtm(s, spot)
      && (forall j, k :: 0 <= j < left <= k <= Nearest(s, spot) ==> Distance(s[k], spot) <= Distance(s[j], spot))
      && (forall j, k :: Nearest(s, spot) <= k < right <= j < |s| ==> Distance(s[k], spot) <= Distance(s[j], spot))
  {
    SliceAtm(s, spot, Left(s, spot, range), Right(s, spot, range));
    SidesAreFarther(s, spot, Left(s, spot, range), Right(s, spot, range));
  }

  // k is the first index at minimal distance.
  ghost predicate FirstNearest(s: seq<real>, spot: real, k: nat)
  {
    && k < |s| && (forall j :: 0 <= j < |s| ==> Distance(s[k], spot) <= Distance(s[j], spot))
    && (forall j :: 0 <= j < k ==> Distance(s[k], spot) < Distance(s[j], spot))
  }

  lemma FirstInSlice(s: seq<real>, spot: real, left: nat, right: nat, idx: nat, at: nat)
    requires left <= idx < right <= |s| && FirstNearest(s, spot, idx) && FirstNearest(s[left..right], spot, at)
    ensures left + at == idx
  {
    var w := s[left..right];
    assert w[idx - left] == s[idx] && w[at] == s[left + at];
  }

  lemma SliceAtm(s: seq<real>, spot: real, left: nat, right: nat)
    requires |s| > 0 && left <= Nearest(s, spot) < right <= |s|
    ensures FindAtm(s[left..right], spot) == FindAtm(s, spot)
  {
    FirstInSlice(s, spot, left, right, Nearest(s, spot), Nearest(s[left..right], spot));
  }

  lemma SidesAreFarther(s: seq<real>, spot: real, left: nat, right: nat)
    requires StrictlySorted(s) && |s| > 0
    requires left <= Nearest(s, spot) < right <= |s|
    ensures forall j, k :: 0 <= j < left <= k <= Nearest(s, spot) ==> Distance(s[k], spot) <= Distance(s[j], spot)
    ensures forall j, k :: Nearest(s, spot) <= k < right <= j < |s| ==> Distance(s[k], spot) <= Distance(s[j], spot)
  {
    var idx := Nearest(s, spot);
    forall j, k | 0 <= j < left <= k <= idx
      ensures Distance(s[k], spot) <= Distance(s[j], spot)
    {
      DistanceIsUnimodal(s, spot, j, k);
    }
    forall j, k | idx <= k < right <= j < |s|
      ensures Distance(s[k], spot) <= Distance(s[j], spot)
    {
      DistanceIsUnimodal(s, spot, j, k);
    }
  }

  method GroupByStrike(rows: seq<Quote>) returns (grouped: map<real, Legs>)
    ensures grouped == Grouped(rows)
  {
    grouped := map[];
    for i := 0 to |rows|
      invariant grouped == Grouped(rows[..i])
    {
      var q := rows[i];
      assert rows[..i + 1][..i] == rows[..i];
      if q.strike !in grouped {
        grouped := grouped[q.strike := EMPTY_LEGS];
      }
      var legs := grouped[q.strike];
      grouped := grouped[q.strike := if q.isCall then legs.(ce := Some(q.quote)) else legs.(pe := Some(q.quote))];
      assert grouped == Put(Grouped(rows[..i]), q);
    }
    assert rows[..|rows|] == rows;
  }

  // The whole normalization: among all quoted strikes the ATM strike reported is a closest one to spot.
  method NormalizeChain(rows: seq<Quote>, spot: real, range: int)
      returns (grouped: map<real, Legs>, strikes: seq<real>, atm: real)
    ensures grouped == Grouped(rows)
    ensures strikes == Window(SortedDistinct(StrikesOf(rows)), spot, range)
    ensures atm == FindAtm(SortedDistinct(StrikesOf(rows)), spot)
    ensures rows == [] ==> atm == 0.0
    ensures rows != [] ==> atm in grouped && ClosestTo(spot, atm, grouped.Keys)
  {
    grouped := GroupByStrike(rows);
    var ladder := SortedDistinct(StrikesOf(rows));
    KeysAreLadder(rows);
    strikes := ladder;
    if |strikes| > 0 && range > 0 {
      strikes := ladder[Left(ladder, spot, range)..Right(ladder, spot, range)];
      WindowKeepsTheClosest(ladder, spot, range);
    }
    atm := FindAtm(strikes, spot);
    ChainAtm(rows, spot);
  }

  lemma KeysAreLadder(rows: seq<Quote>)
    ensures forall x :: x in Grouped(rows) <==> x in SortedDistinct(StrikesOf(rows))
    ensures rows != [] ==> rows[0].strike in Grouped(rows) && |SortedDistinct(StrikesOf(rows))| > 0
  {
    var strikes := StrikesOf(rows);
    forall x ensures x in Grouped(rows) <==> x in strikes {
      LastRowWins(rows, x);
      if x in Grouped(rows) {
        var i :| 0 <= i < |rows| && rows[i].strike == x;
        assert strikes[i] == x;
      }
    }
    if rows != [] {
      assert strikes[0] in strikes;
      assert strikes[0] in SortedDistinct(strikes);
    }
  }

  lemma ChainAtm(rows: seq<Quote>, spot: real)
    ensures var atm := FindAtm(SortedDistinct(StrikesOf(rows)), spot);
      if rows == [] then atm == 0.0 else atm in Grouped(rows) && ClosestTo(spot, atm, Grouped(rows).Keys)
  {
    var ladder := SortedDistinct(StrikesOf(rows));
    KeysAreLadder(rows);
    if rows == [] {
      assert StrikesOf(rows) == [];
    } else {
      AtmIsClosest(ladder, spot);
      assert Grouped(rows).Keys == set x <- ladder;
    }
  }
}
