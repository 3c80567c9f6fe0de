/** The managing company: a cash balance and an ordered list of market
    properties that it buys, sells and revalues, keeping the list ordered from
    the highest current valuation to the lowest after every purchase and every
    revaluation. */
module Management {
  import opened Properties
  import opened Market

  /** Non-increasing order of current valuation, the order the re-sort establishes. */
  ghost predicate SortedByValuation(s: seq<MarketProperty>)
    reads s
  {
    forall i, j :: 0 <= i < j < |s| ==> s[i].currentValuation >= s[j].currentValuation
  }

  /** The list with position `k` taken out and the other elements in their order. */
  function RemoveAt<T>(s: seq<T>, k: nat): (r: seq<T>)
    requires k < |s|
    ensures |r| == |s| - 1
    ensures forall i :: 0 <= i < k ==> r[i] == s[i]
    ensures forall i :: k <= i < |r| ==> r[i] == s[i + 1]
  {
    s[..k] + s[k + 1..]
  }

  /** Taking out one position removes exactly one copy of its element. */
  lemma RemoveAtMultiset<T>(s: seq<T>, k: nat)
    requires k < |s|
    ensures multiset(RemoveAt(s, k)) == multiset(s) - multiset{s[k]}
  {
    assert s == s[..k] + [s[k]] + s[k + 1..];
  }

  /** Taking out one position keeps a valuation-ordered list ordered. */
  lemma RemoveAtKeepsSorted(s: seq<MarketProperty>, k: nat)
    requires k < |s| && SortedByValuation(s)
    ensures SortedByValuation(RemoveAt(s, k))
  {
  }

  /** The position of the first occurrence of `x`, compared by identity. */
  ghost function FirstIndex<T>(s: seq<T>, x: T): (k: nat)
    requires x in s
    ensures k < |s| && s[k] == x && x !in s[..k]
  {
    if s[0] == x then 0
    else
      var k' := FirstIndex(s[1..], x);
      assert s[..k' + 1] == [s[0]] + s[1..][..k'];
      k' + 1
  }

  /** The list's own search: -1 for an absent element, otherwise its first position. */
  method IndexOf<T(==)>(s: seq<T>, x: T) returns (k: int)
    ensures x !in s ==> k == -1
    ensures x in s ==> k == FirstIndex(s, x)
  {
    k := 0;
    while k < |s|
      invariant 0 <= k <= |s|
      invariant x !in s[..k]
    {
      if s[k] == x {
        return;
      }
      assert s[..k + 1] == s[..k] + [s[k]];
      k := k + 1;
    }
    assert s[..k] == s;
    k := -1;
  }

  /** Where a property of valuation `v` goes so that the list stays ordered and
      it comes after every element of equal valuation. */
  method InsertionPoint(s: seq<MarketProperty>, v: real) returns (k: nat)
    ensures k <= |s|
    ensures forall i :: 0 <= i < k ==> s[i].currentValuation >= v
    ensures k < |s| ==> s[k].currentValuation < v
  {
    k := 0;
    while k < |s| && s[k].currentValuation >= v
      invariant k <= |s|
      invariant forall i :: 0 <= i < k ==> s[i].currentValuation >= v
    {
      k := k + 1;
    }
  }

  /** Inserting at the insertion point keeps a valuation-ordered list ordered. */
  lemma InsertKeepsSorted(s: seq<MarketProperty>, k: nat, m: MarketProperty)
    requires SortedByValuation(s) && k <= |s|
    requires forall i :: 0 <= i < k ==> s[i].currentValuation >= m.currentValuation
    requires k < |s| ==> s[k].currentValuation < m.currentValuation
    ensures SortedByValuation(s[..k] + [m] + s[k..])
  {
  }

  /** Inserting adds exactly one copy of the inserted element. */
  lemma InsertMultiset<T>(s: seq<T>, k: nat, m: T)
    requires k <= |s|
    ensures multiset(s[..k] + [m] + s[k..]) == multiset(s) + multiset{m}
  {
    assert s == s[..k] + s[k..];
  }

  /** The sort the company applies: an insertion sort, descending by current
      valuation, whose result is a permutation of its input. */
  method SortByValuation(s: seq<MarketProperty>) returns (r: seq<MarketProperty>)
    ensures SortedByValuation(r)
    ensures multiset(r) == multiset(s)
  {
    r := [];
    var i := 0;
    while i < |s|
      invariant i <= |s|
      invariant SortedByValuation(r)
      invariant multiset(r) == multiset(s[..i])
    {
      var m := s[i];
      var k := InsertionPoint(r, m.currentValuation);
      InsertKeepsSorted(r, k, m);
      InsertMultiset(r, k, m);
      assert s[..i + 1] == s[..i] + [m];
      r := r[..k] + [m] + r[k..];
      i := i + 1;
    }
    assert s[..i] == s;
  }

  /** How many elements of `s` have a valuation in the closed interval [lower, upper]. */
  function InRangeCount(s: seq<MarketProperty>, lower: real, upper: real): (n: nat)
    reads s
    ensures n <= |s|
  {
    if s == [] then 0
    else
      var last := s[|s| - 1];
      InRangeCount(s[..|s| - 1], lower, upper)
        + (if lower <= last.currentValuation <= upper then 1 else 0)
  }

  /** The positions of `s` whose valuation lies in [lower, upper]. */
  ghost function InRangePositions(s: seq<MarketProperty>, lower: real, upper: real): set<nat>
    reads s
  {
    set i: nat | i < |s| && lower <= s[i].currentValuation <= upper
  }

  /** The count is the number of positions in range. */
  lemma {:induction false} InRangeCountIsPositionCount(s: seq<MarketProperty>, lower: real, upper: real)
    ensures InRangeCount(s, lower, upper) == |InRangePositions(s, lower, upper)|
  {
    if s != [] {
      var p := s[..|s| - 1];
      var last := |s| - 1;
      InRangeCountIsPositionCount(p, lower, upper);
      if lower <= s[last].currentValuation <= upper {
        assert InRangePositions(s, lower, upper) == InRangePositions(p, lower, upper) + {last};
      } else {
        assert InRangePositions(s, lower, upper) == InRangePositions(p, lower, upper);
      }
    }
  }

  /** The valuation that `o`, worth `v` beforehand, has after a revaluation
      pass has visited `s[..n]`: one step, with that position's draw, for every
      position at which `o` is held. */
  function RevaluedByPass(v: real, s: seq<MarketProperty>, o: MarketProperty, n: nat,
                          inflationRate: real, shocks: seq<real>): real
    requires n <= |s| && |shocks| == |s|
  {
    if n == 0 then v
    else
      var w := RevaluedByPass(v, s, o, n - 1, inflationRate, shocks);
      if s[n - 1] == o then Revalued(w, inflationRate, shocks[n - 1]) else w
  }

  /** A property held at a single position takes exactly the step drawn for that
      position, once the pass has reached it. */
  lemma {:induction false} SingleHoldingRevaluation(v: real, s: seq<MarketProperty>, k: nat, n: nat,
                                                    inflationRate: real, shocks: seq<real>)
    requires k < |s| && n <= |s| && |shocks| == |s|
    requires forall j :: 0 <= j < |s| && j != k ==> s[j] != s[k]
    ensures RevaluedByPass(v, s, s[k], n, inflationRate, shocks)
            == if k < n then Revalued(v, inflationRate, shocks[k]) else v
  {
    if n > 0 {
      SingleHoldingRevaluation(v, s, k, n - 1, inflationRate, shocks);
    }
  }

  class PropertyManagementCompany {
    var name: string
    /** The cash the company holds. */
    var liquidity: real
    /** The holdings, in list order. */
    var portfolio: seq<MarketProperty>

    /** A company with no cash and no holdings. */
    constructor (name: string)
      ensures this.name == name && liquidity == 0.0 && portfolio == []
    {
      this.name := name;
      liquidity := 0.0;
      portfolio := [];
    }

    /** A company with no cash that holds a copy of the given list, in its order. */
    constructor WithPortfolio(name: string, portfolio: seq<MarketProperty>)
      ensures this.name == name && liquidity == 0.0 && this.portfolio == portfolio
    {
      this.name := name;
      liquidity := 0.0;
      this.portfolio := portfolio;
    }

    /** Re-establishes the descending-valuation order of the holdings. */
    method SortPortfolioByValuation()
      modifies this`portfolio
      ensures SortedByValuation(portfolio)
      ensures multiset(portfolio) == multiset(old(portfolio))
    {
      portfolio := SortByValuation(portfolio);
    }

    /** Buys `property` at `price` when the cash covers it: the argument is given
        the id `freshId`, and a new market property with that id, the argument's
        type and size and `price` as its cost basis joins the holdings; the cash
        drops by `price` and the holdings are re-sorted. Otherwise nothing changes.
        `bought` names the new holding, or is null when nothing was bought. */
    method BuyProperty(property: MarketProperty, price: real, freshId: Int32)
      returns (ghost bought: MarketProperty?)
      modifies this`portfolio, this`liquidity, property.base`id
      ensures old(liquidity) >= price ==>
        bought != null && fresh(bought) && fresh(bought.base) &&
        property.base.id == freshId && bought.base.id == freshId &&
        bought.base.kind == old(property.base.kind) && bought.base.size == old(property.base.size) &&
        bought.initialPrice == price && bought.currentValuation == price &&
        liquidity == old(liquidity) - price &&
        |portfolio| == |old(portfolio)| + 1 &&
        multiset(portfolio) == multiset(old(portfolio)) + multiset{bought} &&
        SortedByValuation(portfolio)
      ensures old(liquidity) < price ==>
        bought == null && liquidity == old(liquidity) && portfolio == old(portfolio) &&
        unchanged(property.base)
      ensures forall o :: o in old(portfolio) ==> o.currentValuation == old(o.currentValuation)
      ensures property.base.kind == old(property.base.kind) && property.base.size == old(property.base.size)
    {
      bought := null;
      if liquidity >= price {
        property.base.SetId(freshId);
        var m := new MarketProperty(property.base.id, property.base.kind, property.base.size, price);
        portfolio := portfolio + [m];
        liquidity := liquidity - price;
        SortPortfolioByValuation();
        assert |multiset(portfolio)| == |portfolio|;
        bought := m;
      }
    }

    /** Sells `property` if it is held (by identity): its first occurrence leaves
        the holdings, the others keep their order, and its current valuation is
        added to the cash. Otherwise nothing changes. */
    method SellProperty(property: MarketProperty)
      modifies this`portfolio, this`liquidity
      ensures property !in old(portfolio) ==>
        portfolio == old(portfolio) && liquidity == old(liquidity)
      ensures property in old(portfolio) ==>
        portfolio == RemoveAt(old(portfolio), FirstIndex(old(portfolio), property)) &&
        multiset(portfolio) == multiset(old(portfolio)) - multiset{property} &&
        liquidity == old(liquidity) + property.currentValuation
      ensures old(SortedByValuation(portfolio)) ==> SortedByValuation(portfolio)
    {
      var k := IndexOf(portfolio, property);
      if k >= 0 {
        var saleProceeds := property.currentValuation;
        RemoveAtMultiset(portfolio, k);
        if SortedByValuation(portfolio) {
          RemoveAtKeepsSorted(portfolio, k);
        }
        portfolio := RemoveAt(portfolio, k);
        liquidity := liquidity + saleProceeds;
      }
    }

    /** The profit `property` would realise if sold now; it need not be held. */
    function PotentialProfit(property: MarketProperty): (profit: real)
      reads property
      ensures property.initialPrice + profit == property.currentValuation
    {
      property.TotalProfit()
    }

    /** The number of holdings. */
    function CountProperties(): nat
      reads this
    {
      |portfolio|
    }

    /** Counts the holdings whose valuation lies in the closed interval
        [lowerBound, upperBound]. */
    method CountPropertiesWithinRange(lowerBound: real, upperBound: real) returns (count: nat)
      ensures count == InRangeCount(portfolio, lowerBound, upperBound)
      ensures count == |InRangePositions(portfolio, lowerBound, upperBound)|
      ensures count <= CountProperties()
    {
      count := 0;
      var i := 0;
      while i < |portfolio|
        invariant i <= |portfolio|
        invariant count == InRangeCount(portfolio[..i], lowerBound, upperBound)
      {
        var currentValuation := portfolio[i].currentValuation;
        if currentValuation >= lowerBound && currentValuation <= upperBound {
          count := count + 1;
        }
        assert portfolio[..i + 1][..i] == portfolio[..i];
        i := i + 1;
      }
      assert portfolio[..i] == portfolio;
      InRangeCountIsPositionCount(portfolio, lowerBound, upperBound);
    }

    /** The revaluation pass itself: position by position, the holding at
        position `i` takes one step with the draw `shocks[i]`. */
    method RevalueEachHolding(inflationRate: real, shocks: seq<real>)
      requires |shocks| == |portfolio|
      modifies portfolio
      ensures forall k :: 0 <= k < |portfolio| ==>
        portfolio[k].currentValuation
          == RevaluedByPass(old(portfolio[k].currentValuation), portfolio, portfolio[k], |portfolio|, inflationRate, shocks)
    {
      var i := 0;
      while i < |portfolio|
        invariant i <= |portfolio|
        invariant forall k :: 0 <= k < |portfolio| ==>
          portfolio[k].currentValuation
            == RevaluedByPass(old(portfolio[k].currentValuation), portfolio, portfolio[k], i, inflationRate, shocks)
      {
        portfolio[i].UpdateValuation(inflationRate, shocks[i]);
        i := i + 1;
      }
    }

    /** Revalues every holding with the draw `shocks[i]` for position `i`, then
        re-sorts. Cash and membership do not change; a property held at several
        positions takes one step per position. */
    method UpdateAllValuations(inflationRate: real, shocks: seq<real>)
      requires |shocks| == |portfolio|
      modifies this`portfolio, portfolio
      ensures liquidity == old(liquidity)
      ensures multiset(portfolio) == multiset(old(portfolio))
      ensures SortedByValuation(portfolio)
      ensures forall o :: o in old(portfolio) ==>
        o.currentValuation
          == RevaluedByPass(old(o.currentValuation), old(portfolio), o, |old(portfolio)|, inflationRate, shocks)
      ensures forall o :: o in old(portfolio) ==> unchanged(o.base)
    {
      ghost var held := portfolio;
      RevalueEachHolding(inflationRate, shocks);
      forall o | o in held
        ensures o.currentValuation
          == RevaluedByPass(old(o.currentValuation), held, o, |held|, inflationRate, shocks)
      {
        var k :| 0 <= k < |held| && held[k] == o;
      }
      SortPortfolioByValuation();
    }
  }

  /** Two holdings of different valuations, once sorted, stand dearest first. */
  lemma OrderOfTwoHoldings(p: seq<MarketProperty>, cheaper: MarketProperty, dearer: MarketProperty)
    requires multiset(p) == multiset{cheaper, dearer} && SortedByValuation(p)
    requires cheaper.currentValuation < dearer.currentValuation
    ensures p == [dearer, cheaper]
  {
  }

  /** The demonstration flow buys before the company holds any cash, so both
      purchases leave the company and the listings as they were. */
  method UnfundedPurchasesChangeNothing()
  {
    var apartment := new MarketProperty(4, "Apartment", 80.0, 200000.0);
    var house := new MarketProperty(5, "House", 150.0, 500000.0);
    var company := new PropertyManagementCompany("ABC Property Management");
    ghost var first := company.BuyProperty(apartment, 200000.0, 7);
    ghost var second := company.BuyProperty(house, 500000.0, 8);
    assert first == null && second == null;
    assert company.liquidity == 0.0 && company.portfolio == [];
    assert apartment.base.id == 4 && house.base.id == 5;
  }

  /** Funds a company by selling a holding worth 700000. */
  method FundedBySale() returns (company: PropertyManagementCompany)
    ensures fresh(company) && company.liquidity == 700000.0 && company.portfolio == []
  {
    var holding := new MarketProperty(1, "Office", 300.0, 700000.0);
    company := new PropertyManagementCompany.WithPortfolio("ABC Property Management", [holding]);
    company.SellProperty(holding);
  }

  /** Buying at 200000 and 500000 with 700000 in cash spends all of it and orders
      the two new holdings by valuation, dearest first. */
  method FundedPurchasesSpendAllCash()
  {
    var company := FundedBySale();
    var apartment := new MarketProperty(4, "Apartment", 80.0, 200000.0);
    var house := new MarketProperty(5, "House", 150.0, 500000.0);
    ghost var first := company.BuyProperty(apartment, 200000.0, 10);
    assert multiset(company.portfolio) == multiset{first};
    ghost var second := company.BuyProperty(house, 500000.0, 11);
    assert company.liquidity == 0.0 && company.CountProperties() == 2;
    OrderOfTwoHoldings(company.portfolio, first, second);
    assert company.portfolio == [second, first];
  }
}
