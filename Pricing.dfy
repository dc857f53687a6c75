/**
 * The arithmetic of a purchase: the original cost of the lines, the VIP
 * discount, the redemption of reward points (every 100 points take 10 off,
 * never more than the discounted cost), the charged total, the reward earned
 * and the net change of the point balance.  Also the single-line variant
 * `Order.compute_cost` and the removal of prescription-only lines.
 */
module Pricing {
  import opened Wrappers
  import opened Money
  import opened Text
  import opened Customers
  import opened Products

  /** What a line costs: unit price times quantity. */
  function LineCost(l: Line): real
  {
    l.unitPrice * l.quantity as real
  }

  /** The running `original_total_cost`: line costs summed in input order. */
  function Total(lines: seq<Line>): real
  {
    if |lines| == 0 then 0.0 else Total(lines[..|lines| - 1]) + LineCost(lines[|lines| - 1])
  }

  /** Adding a line to the order adds its cost to the original cost. */
  lemma TotalAppend(lines: seq<Line>, l: Line)
    ensures Total(lines + [l]) == Total(lines) + LineCost(l)
  {
    assert (lines + [l])[..|lines|] == lines;
  }

  /** With prices and quantities that are not negative, the original cost is not negative. */
  lemma {:induction false} TotalNonNegative(lines: seq<Line>)
    requires forall k :: 0 <= k < |lines| ==> lines[k].unitPrice >= 0.0 && lines[k].quantity >= 0
    ensures Total(lines) >= 0.0
  {
    if |lines| > 0 {
      var front := lines[..|lines| - 1];
      assert forall k :: 0 <= k < |front| ==> front[k] == lines[k];
      TotalNonNegative(front);
    }
  }

  /** The `(product_name, unit_price, quantity)` snapshot of a purchased product. */
  function Snapshot(p: Product, quantity: int): Line
  {
    Line(p.name, p.price, quantity)
  }

  /** The number of pairs `zip(names, quantities)` yields. */
  function ZipLength(names: seq<string>, quantities: seq<int>): (n: nat)
    ensures n <= |names| && n <= |quantities|
    ensures n == |names| || n == |quantities|
  {
    if |names| <= |quantities| then |names| else |quantities|
  }

  /**
   * `find_product(name)`: the first catalog product whose name or id is the
   * stripped name, or None.
   */
  function LookupName(ps: seq<Product>, name: string): (r: Option<Product>)
    ensures r.Some? ==> r.value in ps && (r.value.name == Strip(name) || r.value.id == Strip(name))
    ensures r.Some? ==>
      exists i :: 0 <= i < |ps| && ps[i] == r.value &&
        forall j :: 0 <= j < i ==> ps[j].name != Strip(name) && ps[j].id != Strip(name)
    ensures r.None? ==> forall j :: 0 <= j < |ps| ==> ps[j].name != Strip(name) && ps[j].id != Strip(name)
  {
    match ProductIndex(ps, Strip(name))
    case None => None
    case Some(j) => Some(ps[j])
  }

  /** The lookup of every name, in input order. */
  function Lookups(ps: seq<Product>, names: seq<string>): (r: seq<Option<Product>>)
    ensures |r| == |names|
    ensures forall k :: 0 <= k < |names| ==> r[k] == LookupName(ps, names[k])
  {
    seq(|names|, k requires 0 <= k < |names| => LookupName(ps, names[k]))
  }

  /**
   * The snapshots of the first n looked-up products with their quantities,
   * or None when a lookup failed (the program fails on it before changing
   * anything).
   */
  function ResolveUpTo(found: seq<Option<Product>>, quantities: seq<int>, n: nat): (r: Option<seq<Line>>)
    requires n <= |found| && n <= |quantities|
    ensures r.Some? <==> forall k :: 0 <= k < n ==> found[k].Some?
    ensures r.Some? ==> |r.value| == n
    ensures r.Some? ==> forall k :: 0 <= k < n ==> r.value[k] == Snapshot(found[k].value, quantities[k])
  {
    if n == 0 then Some([])
    else
      match ResolveUpTo(found, quantities, n - 1)
      case None => None
      case Some(front) =>
        if found[n - 1].Some? then Some(front + [Snapshot(found[n - 1].value, quantities[n - 1])])
        else None
  }

  /** A found product extends the resolved lines by its snapshot. */
  lemma ResolveStep(found: seq<Option<Product>>, quantities: seq<int>, i: nat, lines: seq<Line>, p: Product)
    requires i < |found| && i < |quantities|
    requires ResolveUpTo(found, quantities, i) == Some(lines) && found[i] == Some(p)
    ensures ResolveUpTo(found, quantities, i + 1) == Some(lines + [Line(p.name, p.price, quantities[i])])
  {
  }

  /** A lookup that failed makes the whole resolution fail. */
  lemma ResolveFails(found: seq<Option<Product>>, quantities: seq<int>, i: nat, n: nat)
    requires i < n <= |found| && n <= |quantities| && found[i].None?
    ensures ResolveUpTo(found, quantities, n).None?
  {
  }

  /**
   * The order lines of a purchase: one snapshot per zipped pair, in input
   * order, or None when some zipped name is not found.
   */
  function Resolve(ps: seq<Product>, names: seq<string>, quantities: seq<int>): (r: Option<seq<Line>>)
    ensures r.Some? <==> forall k :: 0 <= k < ZipLength(names, quantities) ==> LookupName(ps, names[k]).Some?
    ensures r.Some? ==> |r.value| == ZipLength(names, quantities)
    ensures r.Some? ==> forall k :: 0 <= k < |r.value| ==>
      r.value[k] == Snapshot(LookupName(ps, names[k]).value, quantities[k])
  {
    ResolveUpTo(Lookups(ps, names), quantities, ZipLength(names, quantities))
  }

  /** The quantity check of `get_valid_quantity`: one positive quantity per product. */
  predicate ValidQuantities(quantities: seq<int>, count: nat)
  {
    |quantities| == count && forall k :: 0 <= k < |quantities| ==> quantities[k] > 0
  }

  /**
   * Names that all name catalog products (what `get_valid_product_name`
   * accepts), valid quantities and prices that are not negative resolve to
   * one line per name with an original cost that is not negative.
   */
  lemma OriginalCostNonNegative(ps: seq<Product>, names: seq<string>, quantities: seq<int>)
    requires forall j :: 0 <= j < |ps| ==> ps[j].price >= 0.0
    requires forall k :: 0 <= k < |names| ==> LookupName(ps, names[k]).Some?
    requires ValidQuantities(quantities, |names|)
    ensures Resolve(ps, names, quantities).Some?
    ensures |Resolve(ps, names, quantities).value| == |names|
    ensures Total(Resolve(ps, names, quantities).value) >= 0.0
  {
    var found := Lookups(ps, names);
    assert forall k :: 0 <= k < |names| ==> found[k].Some?;
    var lines := Resolve(ps, names, quantities).value;
    forall k | 0 <= k < |lines| ensures lines[k].unitPrice >= 0.0 && lines[k].quantity >= 0 {
      assert lines[k] == Snapshot(found[k].value, quantities[k]);
      assert found[k].value in ps;
    }
    TotalNonNegative(lines);
  }

  /** The figures a purchase works out. */
  datatype Quote = Quote(discount: real, deduction: int, total: real, reward: int, delta: int)

  /**
   * `Operations.purchase` after the lines are priced: the discount (VIP
   * only, unrounded), the point redemption
   * `min(balance // 100 * 10, int(original - discount))`, the charged total,
   * the gross reward `get_reward(original)` and the net balance change
   * `reward - deduction * 10`.  Integer division by a positive divisor in
   * Dafny is floor division, as `//` is in Python.
   */
  function PriceOrder(tier: Tier, balance: int, original: real, basicRate: real, vipRate: real): (q: Quote)
    ensures tier.Basic? ==> q.discount == 0.0
    ensures tier.VIP? ==> q.discount == original * tier.discountRate
    ensures q.total + q.deduction as real + q.discount == original
    ensures q.deduction == balance / 100 * 10 || q.deduction == Trunc(original - q.discount)
    ensures q.reward == Reward(tier, basicRate, vipRate, original)
    ensures q.delta + q.deduction * 10 == q.reward
  {
    var discount := if tier.VIP? then original * tier.discountRate else 0.0;
    var deduction := Min(balance / 100 * 10, Trunc(original - discount));
    var reward := Reward(tier, basicRate, vipRate, original);
    Quote(discount, deduction, original - discount - deduction as real, reward, reward - deduction * 10)
  }

  /**
   * The redemption never exceeds what the balance buys nor the whole part of
   * the discounted cost; with a balance and a discounted cost that are not
   * negative it is not negative either and the charged total lies between 0
   * and the discounted cost, below 1 when the cap applies.
   */
  lemma RedemptionBounds(tier: Tier, balance: int, original: real, basicRate: real, vipRate: real)
    ensures var q := PriceOrder(tier, balance, original, basicRate, vipRate);
      q.deduction <= balance / 100 * 10 && q.deduction <= Trunc(original - q.discount)
    ensures var q := PriceOrder(tier, balance, original, basicRate, vipRate);
      balance >= 0 && original - q.discount >= 0.0 ==>
        0 <= q.deduction && 0.0 <= q.total <= original - q.discount
        && (q.deduction < balance / 100 * 10 ==> q.total < 1.0)
  {
  }

  /**
   * Points redeemed are paid for by the balance: with a balance that is not
   * negative and a reward that is not negative, the new balance is not negative.
   */
  lemma BalanceStaysNonNegative(tier: Tier, balance: int, original: real, basicRate: real, vipRate: real)
    requires balance >= 0
    requires PriceOrder(tier, balance, original, basicRate, vipRate).reward >= 0
    ensures balance + PriceOrder(tier, balance, original, basicRate, vipRate).delta >= 0
  {
    var q := PriceOrder(tier, balance, original, basicRate, vipRate);
    assert q.deduction * 10 <= balance / 100 * 100;
    assert balance / 100 * 100 <= balance;
  }

  /** Basic customer, rate 1.0, balance 0, buying 50 worth: 50 charged, 50 earned, new balance 50. */
  lemma BasicPurchaseExample()
    ensures var q := PriceOrder(Basic, 0, 50.0, 1.0, 1.0);
      q.discount == 0.0 && q.deduction == 0 && q.total == 50.0 && q.reward == 50 && 0 + q.delta == 50
  {
    RoundOfInt(50);
  }

  /**
   * VIP customer, discount rate 0.08, VIP rate 1.0, balance 250, buying 100
   * worth: discount 8, redemption 20, 72 charged, 92 earned, new balance 142.
   */
  lemma VipPurchaseExample()
    ensures var q := PriceOrder(VIP(0.08), 250, 100.0, 1.0, 1.0);
      q.discount == 8.0 && q.deduction == 20 && q.total == 72.0 && q.reward == 92 && 250 + q.delta == 142
  {
    assert VipBase(0.08, 1.0, 100.0) == 92.0;
    RoundOfInt(92);
  }

  /** The figures of `Order.compute_cost`. */
  datatype Costs = Costs(original: real, discount: real, final: real, reward: int)

  /**
   * `Order.compute_cost`: one product and quantity, the VIP discount
   * unrounded, the reward from the tier on the original cost; no redemption.
   */
  function ComputeCost(tier: Tier, unitPrice: real, quantity: int, basicRate: real, vipRate: real): (c: Costs)
    ensures c.original == LineCost(Line("", unitPrice, quantity))
    ensures c.final + c.discount == c.original
    ensures tier.Basic? ==> c.discount == 0.0 && c.final == c.original
    ensures tier.VIP? ==> c.discount == c.original * tier.discountRate
    ensures c.reward == Reward(tier, basicRate, vipRate, c.original)
  {
    var original := unitPrice * quantity as real;
    var discount := if tier.VIP? then original * tier.discountRate else 0.0;
    Costs(original, discount, original - discount, Reward(tier, basicRate, vipRate, original))
  }

  /**
   * `compute_cost` is the purchase arithmetic of a single line when the
   * balance is too small to redeem anything.
   */
  lemma ComputeCostMatchesPurchase(tier: Tier, name: string, unitPrice: real, quantity: int,
                                   balance: int, basicRate: real, vipRate: real)
    requires 0 <= balance < 100
    requires ComputeCost(tier, unitPrice, quantity, basicRate, vipRate).final >= 0.0
    ensures var c := ComputeCost(tier, unitPrice, quantity, basicRate, vipRate);
      var q := PriceOrder(tier, balance, Total([Line(name, unitPrice, quantity)]), basicRate, vipRate);
      c.original == Total([Line(name, unitPrice, quantity)])
      && q.discount == c.discount && q.deduction == 0 && q.total == c.final
      && q.reward == c.reward && q.delta == c.reward
  {
    var lines := [Line(name, unitPrice, quantity)];
    assert lines[..0] == [];
    assert Total(lines) == unitPrice * quantity as real;
    assert balance / 100 * 10 == 0;
  }

  /**
   * `filter_products_need_prescription` over the first n zipped pairs:
   * the names and quantities of the products that need no prescription, in
   * order, or None when a lookup failed (the program fails on it).
   */
  function FilterUpTo(found: seq<Option<Product>>, names: seq<string>, quantities: seq<int>, n: nat)
    : (r: Option<(seq<string>, seq<int>)>)
    requires n <= |found| && n <= |names| && n <= |quantities|
    ensures r.Some? <==> forall k :: 0 <= k < n ==> found[k].Some?
    ensures r.Some? ==> |r.value.0| == |r.value.1| <= n
  {
    if n == 0 then Some(([], []))
    else
      match FilterUpTo(found, names, quantities, n - 1)
      case None => None
      case Some((keptNames, keptQuantities)) =>
        if found[n - 1].None? then None
        else if found[n - 1].value.prescription then Some((keptNames, keptQuantities))
        else Some((keptNames + [names[n - 1]], keptQuantities + [quantities[n - 1]]))
  }

  /**
   * `filter_products_need_prescription(product_names, quantities)`: None
   * when some zipped name is not found; otherwise as many names as quantities.
   */
  function FilterNoPrescription(ps: seq<Product>, names: seq<string>, quantities: seq<int>)
    : (r: Option<(seq<string>, seq<int>)>)
    ensures r.Some? <==> forall k :: 0 <= k < ZipLength(names, quantities) ==> LookupName(ps, names[k]).Some?
    ensures r.Some? ==> |r.value.0| == |r.value.1| <= ZipLength(names, quantities)
  {
    FilterUpTo(Lookups(ps, names), names, quantities, ZipLength(names, quantities))
  }

  /** The pair at position i was found and its product needs no prescription. */
  predicate OverTheCounter(found: seq<Option<Product>>, i: int)
  {
    0 <= i < |found| && found[i].Some? && !found[i].value.prescription
  }

  /** Every kept pair is an input pair whose product needs no prescription. */
  lemma {:induction false} FilterKeepsOnlyOverTheCounter(found: seq<Option<Product>>, names: seq<string>, quantities: seq<int>, n: nat, k: nat)
    requires n <= |found| && n <= |names| && n <= |quantities|
    requires FilterUpTo(found, names, quantities, n).Some?
    requires k < |FilterUpTo(found, names, quantities, n).value.0|
    ensures var kept := FilterUpTo(found, names, quantities, n).value;
      exists i :: 0 <= i < n && OverTheCounter(found, i) && kept.0[k] == names[i] && kept.1[k] == quantities[i]
  {
    var kept := FilterUpTo(found, names, quantities, n).value;
    var before := FilterUpTo(found, names, quantities, n - 1).value;
    if k < |before.0| {
      FilterKeepsOnlyOverTheCounter(found, names, quantities, n - 1, k);
      var i :| 0 <= i < n - 1 && OverTheCounter(found, i) && before.0[k] == names[i] && before.1[k] == quantities[i];
      assert kept.0[k] == names[i] && kept.1[k] == quantities[i];
    } else {
      assert OverTheCounter(found, n - 1);
      assert kept.0[k] == names[n - 1] && kept.1[k] == quantities[n - 1];
    }
  }

  /** Every input pair whose product needs no prescription is kept, with its own quantity. */
  lemma {:induction false} FilterKeepsOverTheCounter(found: seq<Option<Product>>, names: seq<string>, quantities: seq<int>, n: nat, i: nat)
    requires n <= |found| && n <= |names| && n <= |quantities|
    requires FilterUpTo(found, names, quantities, n).Some?
    requires i < n && OverTheCounter(found, i)
    ensures var kept := FilterUpTo(found, names, quantities, n).value;
      exists k :: 0 <= k < |kept.0| && kept.0[k] == names[i] && kept.1[k] == quantities[i]
  {
    var kept := FilterUpTo(found, names, quantities, n).value;
    var before := FilterUpTo(found, names, quantities, n - 1).value;
    if i < n - 1 {
      FilterKeepsOverTheCounter(found, names, quantities, n - 1, i);
      var k :| 0 <= k < |before.0| && before.0[k] == names[i] && before.1[k] == quantities[i];
      assert kept.0[k] == names[i] && kept.1[k] == quantities[i];
    } else {
      var k := |before.0|;
      assert kept.0[k] == names[i] && kept.1[k] == quantities[i];
    }
  }

  /** The input positions, in increasing order, of the first n pairs that need no prescription. */
  function KeptPositions(found: seq<Option<Product>>, n: nat): (pos: seq<nat>)
    requires n <= |found|
    ensures forall k :: 0 <= k < |pos| ==> pos[k] < n && OverTheCounter(found, pos[k])
    ensures forall k1, k2 :: 0 <= k1 < k2 < |pos| ==> pos[k1] < pos[k2]
    ensures forall i :: 0 <= i < n && OverTheCounter(found, i) ==> i in pos
  {
    if n == 0 then []
    else if OverTheCounter(found, n - 1) then KeptPositions(found, n - 1) + [n - 1]
    else KeptPositions(found, n - 1)
  }

  /**
   * The filter keeps exactly the pairs that need no prescription, each once
   * and in input order: the k-th kept pair is the input pair at the k-th
   * such position.
   */
  lemma {:induction false} FilterSelectsInOrder(found: seq<Option<Product>>, names: seq<string>, quantities: seq<int>, n: nat)
    requires n <= |found| && n <= |names| && n <= |quantities|
    requires FilterUpTo(found, names, quantities, n).Some?
    ensures var kept := FilterUpTo(found, names, quantities, n).value;
      var pos := KeptPositions(found, n);
      |kept.0| == |pos|
      && forall k :: 0 <= k < |pos| ==> kept.0[k] == names[pos[k]] && kept.1[k] == quantities[pos[k]]
  {
    if n > 0 {
      FilterSelectsInOrder(found, names, quantities, n - 1);
      var before := FilterUpTo(found, names, quantities, n - 1).value;
      var kept := FilterUpTo(found, names, quantities, n).value;
      if OverTheCounter(found, n - 1) {
        assert kept == (before.0 + [names[n - 1]], before.1 + [quantities[n - 1]]);
        assert KeptPositions(found, n) == KeptPositions(found, n - 1) + [n - 1];
      } else {
        assert kept == before;
        assert KeptPositions(found, n) == KeptPositions(found, n - 1);
      }
    }
  }
}
