# Property portfolio bookkeeping, modelled in Dafny

This project models the core of a small Java program that keeps a property
portfolio. It has three parts, one Dafny module per Java class:

- `Properties` (`property.dfy`) models `Property`. A property has an id, a type
  (`kind` here, because `type` is a Dafny keyword) and a size. Each field has
  one setter, and each setter changes only that field. Ids are Java `int`s, so
  they are the 32-bit `Int32` newtype.
- `Market` (`market.dfy`) models `MarketProperty`. The Java class extends
  `Property`; the model composes instead, holding a `base: Property` that the
  constructor allocates fresh. The price the property was bought at is a
  `const`, so no method can change it. The current valuation moves by
  one multiplicative random-walk step, `Revalued(v, inflationRate, shock)`.
  Total profit and relative profit are computed from the two prices.
- `Management` (`management.dfy`) models `PropertyManagementCompany`. It holds
  a name, a cash balance (`liquidity`) and the holdings (`portfolio`). The
  holdings are a `seq<MarketProperty>`: references in list order, compared by
  identity. The company buys a property when its cash covers the price, sells
  a held property at its current valuation, counts its holdings, counts those
  whose valuation is in a closed interval, and revalues every holding. After a
  purchase and after a revaluation it re-sorts the holdings, highest valuation
  first. `CountProperties` is the list length and has no contract of its own.
  `CountPropertiesWithinRange` is bounded by it.

Money and sizes are `real`, not IEEE doubles. Two methods with no contract
replay concrete flows through the public operations:

- `UnfundedPurchasesChangeNothing`: the demonstration driver buys while the
  company has no cash, so both purchases change nothing.
- `FundedPurchasesSpendAllCash`: the company is funded with 700000 by selling a
  holding. It then buys at 200000 and 500000, which leaves no cash and two
  holdings, the 500000 one first.

Some behaviour of the code is easy to misread. The model follows the code:

- Nothing keeps the holdings free of repeats. The list constructor copies any
  list, so a property can be held at several positions. A revaluation pass
  then steps it once per position (`RevaluedByPass`), and a sale removes only
  its first occurrence.
- `sellProperty` does not re-sort, and the list constructor does not sort.
  The model proves that a sale keeps an ordered list ordered. An unsorted list
  from the constructor is not re-sorted until the next purchase or revaluation.
- The code's comments call the id a "unique identifier"
  (`Property.java`, line 8) and say `generateUniqueId` "generates a unique ID"
  (`PropertyManagementCompany.java`, line 146). The code casts the wall clock
  to `int`, which does not guarantee that. The model injects the id and claims
  no uniqueness.
- Nothing checks that an initial price is non-negative, in the code or in the
  model.

## Model

| member | source | states |
|---|---|---|
| `Properties.Property.constructor` | PropertyManagementCompany/src/pms/Property.java:19-23 | the new property holds exactly the given id, type and size, which the getters return |
| `Properties.Property.SetId` | PropertyManagementCompany/src/pms/Property.java:57-59 | the id becomes the argument; type and size are unchanged |
| `Properties.Property.SetKind` | PropertyManagementCompany/src/pms/Property.java:66-68 | the type becomes the argument; id and size are unchanged |
| `Properties.Property.SetSize` | PropertyManagementCompany/src/pms/Property.java:75-77 | the size becomes the argument; id and type are unchanged |
| `Market.MarketProperty.constructor` | PropertyManagementCompany/src/pms/MarketProperty.java:21-25 | a fresh base property with the given id, type and size; the initial price is the argument, the current valuation equals it, so total profit is 0 |
| `Market.MarketProperty.UpdateValuation` | PropertyManagementCompany/src/pms/MarketProperty.java:51-55 | the new valuation is the old one times (1 + inflation rate + scaled draw); the initial price (a const) and the base property's id, type and size are unchanged |
| `Market.NegativeFactorMakesValuationNegative` | PropertyManagementCompany/src/pms/MarketProperty.java:54 | nothing clamps the step: a positive valuation times a negative multiplier becomes negative |
| `Market.ValuationIsNotClamped` | PropertyManagementCompany/src/pms/MarketProperty.java:54 | for every positive valuation and every inflation rate, some draw makes the stepped valuation negative |
| `Market.MarketProperty.TotalProfit` | PropertyManagementCompany/src/pms/MarketProperty.java:62-64 | initial price plus total profit is the current valuation; the profit is positive, or zero, exactly when the valuation is above, or equal to, the initial price |
| `Market.MarketProperty.RelativeProfit` | PropertyManagementCompany/src/pms/MarketProperty.java:71-73 | for a non-zero initial price, relative profit times initial price is the total profit; for a positive initial price, it is positive exactly when the valuation has risen |
| `Management.PropertyManagementCompany.constructor` | PropertyManagementCompany/src/pms/PropertyManagementCompany.java:20-24 | a new company has the given name, no cash and no holdings |
| `Management.PropertyManagementCompany.WithPortfolio` | PropertyManagementCompany/src/pms/PropertyManagementCompany.java:32-36 | a new company has the given name, no cash and a copy of the given list, in the same order |
| `Management.PropertyManagementCompany.BuyProperty` | PropertyManagementCompany/src/pms/PropertyManagementCompany.java:72-80 | if cash >= price: the argument gets the fresh id, keeping its type and size; a fresh property with that id, the argument's type and size, and initial price = valuation = price is added (one more holding, multiset grows by exactly it); cash drops by price; holdings are sorted. Otherwise cash, holdings and the argument's id are unchanged. Existing holdings keep their valuations |
| `Management.PropertyManagementCompany.SellProperty` | PropertyManagementCompany/src/pms/PropertyManagementCompany.java:87-93 | a held property loses its first occurrence (the rest keep their order, the multiset loses exactly it) and cash grows by its current valuation; a property not held changes nothing; an ordered list stays ordered |
| `Management.IndexOf` | PropertyManagementCompany/src/pms/PropertyManagementCompany.java:88-90 | -1 exactly when the element is not in the list, otherwise the position of its first occurrence |
| `Management.FirstIndex` | PropertyManagementCompany/src/pms/PropertyManagementCompany.java:90 | the position of a held element is in range, holds the element, and no earlier position holds it |
| `Management.RemoveAt` | PropertyManagementCompany/src/pms/PropertyManagementCompany.java:90 | removal shortens the list by one; earlier elements keep their positions and later ones move up by one |
| `Management.RemoveAtMultiset` | PropertyManagementCompany/src/pms/PropertyManagementCompany.java:90 | removal takes away exactly one copy of the removed element |
| `Management.RemoveAtKeepsSorted` | PropertyManagementCompany/src/pms/PropertyManagementCompany.java:87-93 | removing any position from a list ordered by descending valuation leaves it ordered |
| `Management.PropertyManagementCompany.PotentialProfit` | PropertyManagementCompany/src/pms/PropertyManagementCompany.java:101-103 | the potential profit plus the property's initial price is its current valuation, for any property, held or not |
| `Management.PropertyManagementCompany.CountPropertiesWithinRange` | PropertyManagementCompany/src/pms/PropertyManagementCompany.java:121-130 | the count equals the number of positions whose valuation v has lower <= v <= upper, and is at most the number of holdings (countProperties, lines 110-112) |
| `Management.InRangeCount` | PropertyManagementCompany/src/pms/PropertyManagementCompany.java:121-130 | the in-range count of a list is at most its length |
| `Management.InRangeCountIsPositionCount` | PropertyManagementCompany/src/pms/PropertyManagementCompany.java:121-130 | the recursive count equals the size of the set of positions in range |
| `Management.PropertyManagementCompany.UpdateAllValuations` | PropertyManagementCompany/src/pms/PropertyManagementCompany.java:138-143 | cash and the multiset of holdings are unchanged (so length and membership are too); every held property's valuation is its old one stepped once per position at which it is held, with that position's draw; base attributes are unchanged; holdings end sorted |
| `Management.PropertyManagementCompany.RevalueEachHolding` | PropertyManagementCompany/src/pms/PropertyManagementCompany.java:139-141 | after the loop, the property at each position has its old valuation stepped at every position holding it |
| `Management.SingleHoldingRevaluation` | PropertyManagementCompany/src/pms/PropertyManagementCompany.java:139-141 | a property held at one position only takes exactly one step, with that position's draw |
| `Management.PropertyManagementCompany.SortPortfolioByValuation` | PropertyManagementCompany/src/pms/PropertyManagementCompany.java:157-159 | the holdings become ordered by descending valuation and are a permutation of what they were |
| `Management.SortByValuation` | PropertyManagementCompany/src/pms/PropertyManagementCompany.java:157-159 | the result is ordered by descending valuation and is a permutation of the input |
| `Management.InsertionPoint` | PropertyManagementCompany/src/pms/PropertyManagementCompany.java:158 | every element before the point is valued at least v; the element at the point, if any, is valued below v |
| `Management.InsertKeepsSorted` | PropertyManagementCompany/src/pms/PropertyManagementCompany.java:158 | inserting at the insertion point keeps a descending list descending |
| `Management.InsertMultiset` | PropertyManagementCompany/src/pms/PropertyManagementCompany.java:158 | inserting adds exactly one copy of the inserted element |
| `Management.OrderOfTwoHoldings` | PropertyManagementCompany/src/pms/PropertyManagementCompany.java:157-159 | two holdings of different valuations, once sorted, stand dearer first |

## Left out

- Random draws: `updateValuation` draws a standard-normal sample and scales it by the square root of the volatility coefficient. The model takes the scaled draw as the parameter `shock`, because random numbers and the floating-point square root are outside the model.
- `Management.PropertyManagementCompany.UpdateAllValuations`: takes one draw per holding position in `shocks`, and requires exactly as many draws as positions; the Java method draws them itself.
- Id generation: `generateUniqueId` casts the wall clock to `int`. `BuyProperty` takes the id as the parameter `freshId`, and nothing about uniqueness is claimed.
- Floating point: NaN, infinities, signed zero and rounding are not modelled; money and sizes are exact reals.
- `Market.MarketProperty.RelativeProfit`: requires a non-zero initial price. Java divides by zero and yields an infinity or NaN, which reals cannot express.
- Sort stability: `Collections.sort` is stable, and the insertion sort places a property after those of equal valuation. Stability is not proved, only ordering and permutation.
- Aliasing through `getPortfolio`: the Java getter hands out the internal list, so callers can change it. The model keeps the holdings as a sequence value, so reading them hands out a copy, not the list. The field itself is an ordinary `var`, and any code whose frame includes the company can assign it. Such an assignment can leave the holdings unsorted or add a repeat, much as a Java caller editing the returned list could.
- `CountProperties` (`countProperties`, `PropertyManagementCompany.java` lines 110-112) is the length of the holdings and has no contract of its own; it serves as the bound in `CountPropertiesWithinRange`. Plain getters (`getName`, `getLiquidity`, `getPortfolio`, `getId`, `getType`, `getSize`, `getInitialPrice`, `getCurrentValuation`) are direct field reads in the model.
- The console driver (`Controller.java`) drives fixed calls (setters, one revaluation, two purchases, a revaluation of all holdings, and a sale guarded by a non-empty portfolio, never reached as written because both purchases change nothing) and prints the results. Its two unfunded purchases are replayed in `UnfundedPurchasesChangeNothing`; the rest of the driver and all output are not modelled.
- Concurrency: the program is single-threaded; no interleavings are modelled.
- Integer width of counts: `countProperties` and `countPropertiesWithinRange` return Java `int`s. The model uses `nat`, because a list cannot reach 2^31 elements here.
- Null references: every property in the model is a non-null reference. In Java, `buyProperty(null, price)` with enough cash throws a `NullPointerException` at line 74. The list constructor (line 35) copies null elements. When the list holds a null, `sellProperty(null)` finds it and throws at line 89; otherwise it does nothing. A held null also makes `updateAllValuations` throw at line 140, the sort throw at line 158 and the range count throw at line 124. `new PropertyManagementCompany(name, null)` throws at line 35; the model's sequence parameter rules that call out. None of these paths are modelled. Null `type` and `name` strings, which the code only stores and returns, are not modelled either.
