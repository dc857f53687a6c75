# Pharmacy pricing, rewards and catalog — a Dafny model

This project models the core of a small pharmacy ordering program,
`ProgFunA2.py`:

- **Customers.** Customers come in two tiers. A Basic customer earns reward points at a rate shared by every Basic customer. A VIP customer has a discount rate of their own and earns points at a rate shared by every VIP customer.
- **Products and bundles.** The catalog holds regular products and bundles. A bundle's price is 80% of the prices of its components that are found by ID, rounded to cents. It needs a prescription when a found component does.
- **Records.** The in-memory records are an ordered customer list and an insertion-ordered product dictionary keyed by ID. Lookups by name or ID are first-match scans on the stripped token.
- **New IDs.** A new product, or a customer registered at the till, gets the smallest positive number that no existing ID uses as its numeric suffix.
- **Product updates.** An update overwrites a product's price and prescription flag. It then recalculates every bundle that lists the product's ID.
- **Purchases.** A purchase prices the lines and applies the VIP discount. It redeems reward points (10 off per 100 points, never more than the whole part of the discounted cost), credits the reward, and appends an order snapshot to the customer's history.

Modules (one per file):

| file | module | contents |
|---|---|---|
| Wrappers.dfy | `Wrappers` | `Option` |
| Money.dfy | `Money` | Python `round` (half to even), `round(x, 2)`, `int(x)`, `min` on exact reals |
| Text.dfy | `Text` | `strip`, `isdigit`, `isalpha`, `int(s)`, `str(n)`, the y/n check |
| Identifiers.dfy | `Identifiers` | numeric suffixes of IDs, smallest free number, freshness of the new ID |
| Customers.dfy | `Customers` | tiers, order lines and orders, reward functions, `TierConfig`, `Customer` |
| Products.dfy | `Products` | products and bundles, derived bundle fields, recalculation and cascade, lookup |
| Catalog.dfy | `Catalog` | `Records` with its lookups and the two bundle recalculations |
| Pricing.dfy | `Pricing` | purchase arithmetic, `compute_cost`, the prescription filter |
| Operations.dfy | `Operations` | `Shop`: add/update product, bundle cascade, purchase, customer registration |

Money and rates are exact `real`s, and point balances are `int`s. Customers and the two tier rates are objects that are updated in place (`Customer`, `TierConfig`). Products are values held in `Records.products`, a sequence kept in dictionary insertion order with the key stored as `id`.

## Model

| member | source | states |
|---|---|---|
| Money.Round | ProgFunA2.py:65-67 | `round(x)`: an integer within one half of x; on a tie the even neighbour |
| Money.RoundUnique | ProgFunA2.py:65-67 | any integer within one half of x, even on a tie, is `round(x)` |
| Money.RoundMonotone | ProgFunA2.py:110-114 | rounding preserves order |
| Money.Round2 | ProgFunA2.py:192 | `round(x, 2)`: within half a cent of x and a whole number of cents |
| Money.Trunc | ProgFunA2.py:709 | `int(x)`: truncation toward zero, bounds on both signs |
| Money.Min | ProgFunA2.py:709 | `min`: below both arguments and equal to one of them |
| Text.IsDigitString | ProgFunA2.py:594 | `isdigit()`: non-empty and all ASCII digits (a predicate; used by `LooksLikeCustomerId` and `ParseInt`) |
| Text.IsAlphaString | ProgFunA2.py:597-600 | `isalpha()`: non-empty and all ASCII letters (a predicate; `AlphabeticIsNotCustomerId` relates it to the ID shape) |
| Text.Strip | ProgFunA2.py:312-314 | the stripped token has no whitespace at either end |
| Text.StripIdempotent | ProgFunA2.py:590-591 | stripping an already stripped identifier changes nothing |
| Text.NatToString | ProgFunA2.py:432 | `str(n)`: a non-empty digit string without a leading zero |
| Text.DigitsValueOfNatToString | ProgFunA2.py:432 | the digits of `str(n)` denote n |
| Text.ParseIntOfNatToString | ProgFunA2.py:428-432 | `int(str(n)) == n`: a number written into an ID reads back as itself |
| Text.ParseYesNo | ProgFunA2.py:433-436 | accepts exactly y/Y (yes) and n/N (no), the answers whose `.lower()` is in `['y', 'n']` |
| Text.ParseInt | ProgFunA2.py:428 | `int(s)`: a blank string is an error (None); a digit string reads as the number it denotes; `ParseIntOfNatToString` gives the round trip |
| Identifiers.Suffix | ProgFunA2.py:428 | `ID[1:]`: the prefix followed by the suffix is the ID |
| Identifiers.SuffixNumber | ProgFunA2.py:428 | `int(ID[1:])` (also at :601), None for a ValueError; `ParseIntOfNatToString` gives the round trip on an ID built as prefix + `str(n)` |
| Identifiers.AllPresent | ProgFunA2.py:428 | a value list exists iff no entry is missing; it holds the entries in order |
| Identifiers.SuffixNumbers | ProgFunA2.py:428 | the suffix numbers exist iff every ID's suffix parses, in order, one per ID |
| Identifiers.MaxOf | ProgFunA2.py:429-430 | an upper bound of the numbers in use |
| Identifiers.SmallestFree | ProgFunA2.py:429-431 | the result is positive, not in use, and every smaller positive number is in use |
| Identifiers.FreshId | ProgFunA2.py:428-431 | None iff some existing suffix is not an integer; otherwise prefix + `str(n)` for the smallest free n, not an existing ID |
| Identifiers.FreshIdUnused | ProgFunA2.py:427-431 | prefix + `str(n)` for an unused n is not an existing ID |
| Customers.BasicReward | ProgFunA2.py:65-67 | Basic reward is spend × Basic rate, rounded |
| Customers.VipDiscount | ProgFunA2.py:106-108 | VIP discount is spend × discount rate, rounded |
| Customers.VipReward | ProgFunA2.py:110-114 | VIP reward is (spend − spend × discount rate) × VIP rate, rounded; the discount unrounded |
| Customers.Reward | ProgFunA2.py:65-114 | `get_reward` dispatched on the tier; `RewardMonotone` and `RewardNonNegative` state its properties |
| Customers.VipBaseMonotone | ProgFunA2.py:110-113 | with a discount rate ≤ 1 and a rate ≥ 0 the amount rounded grows with the spend |
| Customers.RewardMonotone | ProgFunA2.py:110-114 | for either tier, a larger spend never earns fewer points |
| Customers.RewardNonNegative | ProgFunA2.py:110-114 | rates ≥ 0, spend ≥ 0 and discount rate ≤ 1 give a reward ≥ 0 |
| Customers.VipRewardUsesExactDiscount | ProgFunA2.py:106-114 | spend 10, rate 0.04, VIP rate 2: 19 points, not the 20 the rounded discount would give |
| Customers.TierConfig.constructor | ProgFunA2.py:60-87 | both tier rates start at 1.0 |
| Customers.TierConfig.SetBasicRate | ProgFunA2.py:77-80 | new Basic rate, returned; every Basic customer's next reward uses it; VIP rate unchanged |
| Customers.TierConfig.SetVipRate | ProgFunA2.py:123-125 | new VIP rate; every VIP customer's next reward uses it; Basic rate unchanged |
| Customers.Customer.constructor | ProgFunA2.py:17-22 | ID, name, tier and balance as given, empty order history |
| Customers.Customer.GetReward | ProgFunA2.py:65-114 | a customer's `get_reward` with the current tier-wide rates; the setters' ensures state how a rate change shows in it |
| Customers.Customer.UpdateReward | ProgFunA2.py:69-71 | balance increases by the signed value |
| Customers.Customer.SetDiscountRate | ProgFunA2.py:133-134 | a VIP customer's discount rate becomes the value |
| Products.IdIndex | ProgFunA2.py:188-190 | `products.get(key)`: the entry stored under key, None iff no entry has that key |
| Products.GetById | ProgFunA2.py:189 | `products.get(key)`: the entry at the position `IdIndex` finds, which carries the key; None only when no entry has that key |
| Products.FoundTotal | ProgFunA2.py:186-191 | no component found gives a total of 0 |
| Products.BundlePrice | ProgFunA2.py:186-192 | `round(total_price * 0.8, 2)` of the found total; `Round2`'s contract makes it within half a cent of 80% of that total and a whole number of cents |
| Products.AnyPrescription | ProgFunA2.py:195-203 | true iff some found component needs a prescription |
| Products.BundleExample | ProgFunA2.py:186-203 | components $10 (no prescription) and $5 (prescription) give 12.00, prescription needed |
| Products.BundleOfMissingComponents | ProgFunA2.py:186-203 | a bundle with no component found costs 0.00 and needs no prescription |
| Products.FoundTotalNonNegative | ProgFunA2.py:186-192 | with prices ≥ 0, a bundle's total and price are ≥ 0 |
| Products.IdIndexFrom | ProgFunA2.py:188-190 | the first entry from a position on stored under key, None iff none from there is |
| Products.IdIndexOfSameIds | ProgFunA2.py:188-190 | catalogs with the same keys in the same order find a key at the same position |
| Products.DerivedFieldsFrame | ProgFunA2.py:186-203 | a bundle's total and flag depend only on what its components resolve to |
| Products.SameResolutionAwayFrom | ProgFunA2.py:186-203 | changing only a bundle itself leaves its components' lookups alone |
| Products.WithPrice | ProgFunA2.py:186-192 | the bundle at position j gets price `BundlePrice` of its components; every other field and every other entry is unchanged |
| Products.WithPrescription | ProgFunA2.py:195-203 | the bundle at position j gets flag `AnyPrescription` of its components; every other field and every other entry is unchanged |
| Products.RecalculationIdempotent | ProgFunA2.py:186-203 | for a bundle that does not list itself, recalculating it twice gives the same price and flag as once |
| Products.PriceIdempotent | ProgFunA2.py:186-192 | for a bundle that does not list itself, recalculating its price twice is recalculating it once |
| Products.PrescriptionIdempotent | ProgFunA2.py:195-203 | for a bundle that does not list itself, recalculating its flag twice is recalculating it once |
| Products.Overwritten | ProgFunA2.py:444-446 | a regular product shows the new price and flag; a bundle keeps its visible price and flag, and only its inherited fields change |
| Products.Lists | ProgFunA2.py:453 | `isinstance(bundle, Bundle) and product_ID in bundle.component`: the test deciding which entries `CascadeStep` recalculates (a predicate) |
| Products.CascadeStep | ProgFunA2.py:452-455 | one loop step changes only its own position, and there only the price and flag of a bundle listing the ID |
| Products.CascadeUpTo | ProgFunA2.py:451-455 | the catalog after the loop has visited n entries, of unchanged size; `CascadeFrame` and `CascadeSettled` state its properties |
| Products.Cascade | ProgFunA2.py:451-455 | `update_bundles(pid)`: keys kept in place, entries not listing pid unchanged, bundles listing pid changed only in price and flag |
| Products.CascadeFrame | ProgFunA2.py:451-455 | the loop keeps every key, leaves every entry not listing the ID unchanged, and touches only the price and flag of the bundles that list it |
| Products.CascadeSettled | ProgFunA2.py:451-455 | an entry the loop has passed does not change afterwards |
| Products.CascadeRecalculates | ProgFunA2.py:451-455 | a bundle with only regular components ends up priced and flagged from the catalog the cascade started from |
| Products.RegularEntriesKept | ProgFunA2.py:451-455 | a cascade keeps every regular product, so components that are regular resolve alike |
| Products.ProductIndex | ProgFunA2.py:320-326 | the first entry in insertion order whose name or ID is the token; None iff none is |
| Products.ProductIndexFrom | ProgFunA2.py:320-326 | the scan from a position on: the first match from there, None iff none from there matches |
| Products.DistinctIdsOfSameIds | ProgFunA2.py:186-203 | recalculating a bundle keeps every key in place, so the keys stay distinct |
| Products.KeyAdded | ProgFunA2.py:436-437 | inserting a product under a key not yet used keeps the keys distinct |
| Products.Ids | ProgFunA2.py:428 | the keys of the catalog in insertion order |
| Products.ComponentList | ProgFunA2.py:182-183 | `', '.join`: empty for no components; length is the parts plus the separators; ends with the last component |
| Catalog.CustomerIndex | ProgFunA2.py:312-317 | the first customer in list order whose name or ID is the token; None iff none is |
| Catalog.CustomerIndexFrom | ProgFunA2.py:312-317 | the scan from a position on: the first match from there, None iff none from there matches |
| Catalog.CustomerIds | ProgFunA2.py:601 | the customer IDs in list order |
| Catalog.Records.constructor | ProgFunA2.py:246-248 | no customers, no products |
| Catalog.Records.FindCustomer | ProgFunA2.py:312-317 | the first customer matching the stripped token, None iff none matches; nothing changes |
| Catalog.Records.FindProduct | ProgFunA2.py:320-326 | the first product matching the stripped token, None iff none matches; nothing changes |
| Catalog.Records.RecalcBundlePrice | ProgFunA2.py:186-192 | the bundle's price becomes round(0.8 × found total, 2); nothing else changes |
| Catalog.Records.RecalcBundlePrescription | ProgFunA2.py:195-203 | the bundle's flag becomes "some found component needs one"; nothing else changes |
| Pricing.TotalAppend | ProgFunA2.py:701-702 | each line adds its unit price × quantity to the original cost |
| Pricing.LineCost | ProgFunA2.py:701 | `cost = product.unit_price * quantity`; `TotalAppend` adds it to the running cost |
| Pricing.Total | ProgFunA2.py:694-702 | the running `original_total_cost`; `TotalAppend` and `TotalNonNegative` state its properties |
| Pricing.TotalNonNegative | ProgFunA2.py:699-702 | prices and quantities ≥ 0 give an original cost ≥ 0 |
| Pricing.ZipLength | ProgFunA2.py:699 | `zip` stops at the shorter list |
| Pricing.Snapshot | ProgFunA2.py:704 | the `(product_name, unit_price, quantity)` tuple recorded for a line; `ResolveUpTo` and `Resolve` state that each line is the snapshot of its product |
| Pricing.LookupName | ProgFunA2.py:700 | `find_product(name)`: the first catalog product matching the stripped name, None iff none matches |
| Pricing.Lookups | ProgFunA2.py:699-700 | helper shared by `Resolve` and the filter: one `find_product` per name, in order |
| Pricing.ResolveUpTo | ProgFunA2.py:699-704 | lines exist iff every name is found; then one (name, unit price, quantity) snapshot per pair, in input order |
| Pricing.ValidQuantities | ProgFunA2.py:667 | the quantity check: one quantity per product, each > 0 (a predicate; `OriginalCostNonNegative` assumes it) |
| Pricing.Resolve | ProgFunA2.py:699-704 | lines exist iff every zipped name is found; then one snapshot of the first match per zipped pair, in input order |
| Pricing.OriginalCostNonNegative | ProgFunA2.py:652-668 | names that all name catalog products, valid quantities (one per name, all > 0) and prices ≥ 0 always resolve, to one line per name, with an original cost ≥ 0 |
| Pricing.PriceOrder | ProgFunA2.py:705-721 | Basic has no discount; a VIP's discount is original × discount rate, unrounded; charged total + redemption + discount = original; the redemption is one of the two caps of `min`; reward = `get_reward(original)`; balance change = reward − 10 × redemption |
| Pricing.RedemptionBounds | ProgFunA2.py:705-720 | redemption ≤ balance // 100 × 10 and ≤ int(original − discount); with balance ≥ 0 and original − discount ≥ 0, 0 ≤ charged total ≤ original − discount, below 1 when the cost caps it |
| Pricing.BalanceStaysNonNegative | ProgFunA2.py:705-722 | a balance ≥ 0 and a reward ≥ 0 leave a balance ≥ 0 after the purchase |
| Pricing.BasicPurchaseExample | ProgFunA2.py:714-722 | Basic, rate 1.0, balance 0, $50: charged 50, earns 50, balance 50 |
| Pricing.VipPurchaseExample | ProgFunA2.py:705-713 | VIP 0.08, balance 250, $100: discount 8, redeem 20, charged 72, earns 92, balance 142 |
| Pricing.ComputeCost | ProgFunA2.py:229-243 | original = unit price × quantity; final + discount = original; Basic has no discount; a VIP's discount is original × discount rate; reward from the tier on the original cost |
| Pricing.ComputeCostMatchesPurchase | ProgFunA2.py:229-243 | `compute_cost` for one line agrees with the purchase arithmetic when no points can be redeemed |
| Pricing.FilterUpTo | ProgFunA2.py:684-691 | a result exists iff every name is found; kept names and quantities pair up |
| Pricing.FilterNoPrescription | ProgFunA2.py:684-691 | a result exists iff every zipped name is found; then as many kept names as kept quantities |
| Pricing.FilterKeepsOnlyOverTheCounter | ProgFunA2.py:684-691 | every kept pair is an input pair whose product needs no prescription |
| Pricing.FilterKeepsOverTheCounter | ProgFunA2.py:684-691 | every input pair whose product needs no prescription is kept with its quantity |
| Pricing.KeptPositions | ProgFunA2.py:684-691 | the positions of the pairs needing no prescription: increasing, each such position present |
| Pricing.FilterSelectsInOrder | ProgFunA2.py:684-691 | the k-th kept pair is the input pair at the k-th position needing no prescription: each once, in input order |
| Operations.Shop.AddProduct | ProgFunA2.py:427-438 | error on an unparsable existing ID; otherwise no change on a bad price or flag; otherwise appends a regular product whose new ID "P"+n uses the smallest free n, is not an existing key and keeps keys distinct |
| Operations.Shop.UpdateProduct | ProgFunA2.py:440-448 | no change when not found or when the price or flag is bad; otherwise the product is overwritten and the bundles listing its ID are recalculated |
| Operations.Shop.UpdateBundles | ProgFunA2.py:451-455 | the catalog becomes the cascade over the bundles listing the ID, visited in insertion order |
| Operations.Shop.PriceLines | ProgFunA2.py:699-704 | the lines are the snapshots of the zipped pairs and the original cost is their total; None iff a name is not found |
| Operations.Shop.Commit | ProgFunA2.py:705-733 | balance changes by reward − 10 × redemption; one order is appended with the charged total and the gross reward |
| Operations.Shop.Purchase | ProgFunA2.py:693-733 | fails with no change iff a name is not found; otherwise the balance and history change as Commit states |
| Operations.AlphabeticIsNotCustomerId | ProgFunA2.py:594-598 | an alphabetic identifier never takes the "no such customer ID" branch |
| Operations.LooksLikeCustomerId | ProgFunA2.py:594 | `startswith(('B', 'V')) and [1:].isdigit()` (a predicate used in `IdentifyCustomer`'s contract) |
| Operations.Shop.IdentifyCustomer | ProgFunA2.py:590-615 | known customer; an unknown B/V-and-digits ID; a non-alphabetic name; or a new customer is registered |
| Operations.Shop.RegisterCustomer | ProgFunA2.py:601-609 | a new Basic customer "B"+n (smallest free n over all customer IDs) with no points is appended and is not an existing ID |

## Left out

- File reading and writing (`read_*`, `save_*`), the menu, prompts and re-prompt loops, the receipt and listings, and all printing are console and file I/O.
- `Bundle.__init__` (ProgFunA2.py:164-165) passes `dr_prescription` to `Product.__init__` in the `unit_price` position, so the inherited fields start as `False` and `False`. The bundle's own flag is first set by `bundle_prescription`. Only loading constructs bundles, so construction is not part of this model. Bundles here start out as `read_products` leaves them, after their price and flag have been calculated; the inherited fields are whatever the datatype holds.
- The order timestamp `datetime.now()` is a `time` parameter. `sys.argv` and `sys.exit` are process plumbing.
- Money is exact. Python's binary floating-point artefacts (e.g. `0.1 + 0.2`) are not modelled.
- `int(s)` accepts ASCII digits with an optional sign and surrounding whitespace. Python's underscores between digits and non-ASCII digits are not modelled. `isdigit` and `isalpha` are restricted to ASCII.
- Prices and rates come in already converted from text (`float(price)` on a token is input parsing).
- The per-line `reward = customer.get_reward(cost)` in the purchase loop is overwritten before use, so it is not modelled.
- The unused exception classes and the empty base-class methods of `Customer` are not modelled.
- `add_update_products` processes several products and can fail midway, leaving the earlier ones added. That is the interactive loop, not modelled. Each product's add or update is modelled.
- The rate checks `new_rate <= 0` of the adjustment dialogs belong to those dialogs. `SetBasicRate`, `SetVipRate` and `SetDiscountRate` accept any value, as the setters do.
- Bundles nested in bundles: `CascadeRecalculates` is stated for bundles whose found components are regular products. `CascadeUpTo` states the general case, where a bundle sees the values already recalculated for earlier bundles.
- The VIP reward is computed from the unrounded discount, as the code does (`VipReward`). Rounding the discount before subtracting it would give a different reward: `VipRewardUsesExactDiscount` shows spend 10, discount rate 0.04 and VIP rate 2 earning 19 points, where a rounded discount would give 20.
