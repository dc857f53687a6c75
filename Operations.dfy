/**
 * The shop operations that change the records: adding and updating
 * products (with the cascade into bundles), registering a new customer met
 * at the till, and committing a purchase to a customer.
 */
module Operations {
  import opened Wrappers
  import opened Money
  import opened Text
  import opened Identifiers
  import opened Customers
  import opened Products
  import opened Catalog
  import opened Pricing

  /** What `add_product` did. */
  datatype AddOutcome =
    | Added(id: string)
    | Rejected        // price not positive or flag not y/n: nothing inserted
    | BadExistingId   // some existing ID has a suffix `int` rejects: ValueError

  /** What `update_prodcut` did. */
  datatype UpdateOutcome = Updated | NotFound | Invalid

  /** How `make_purchase` settled the customer identifier. */
  datatype Identified =
    | Known(customer: Customer)
    | UnknownId         // looks like "B12" or "V3" but no such customer
    | NotAlphabetic     // not a valid name for a new customer
    | BadCustomerId     // some existing ID has a suffix `int` rejects: ValueError
    | Registered(customer: Customer)

  /** The identifier has the shape of a customer ID: a B or V followed by digits. */
  predicate LooksLikeCustomerId(t: string)
  {
    |t| >= 1 && (t[0] == 'B' || t[0] == 'V') && IsDigitString(t[1..])
  }

  /**
   * c is the customer registered under name among the existing customers:
   * Basic, no points, no orders, and the ID "B"+n for the smallest positive
   * n that is not the suffix number of an existing customer ID.
   */
  ghost predicate NewBasicCustomer(c: Customer, name: string, existing: seq<Customer>)
    reads c
  {
    c.name == name && c.tier == Basic && c.balance == 0 && c.history == []
    && c.id !in CustomerIds(existing)
    && SuffixNumbers(CustomerIds(existing)).Some?
    && exists n: nat :: IsSmallestFree(n, SuffixNumbers(CustomerIds(existing)).value) && c.id == "B" + NatToString(n)
  }

  /** An alphabetic name never has the shape of a customer ID. */
  lemma AlphabeticIsNotCustomerId(t: string)
    requires IsAlphaString(t)
    ensures !LooksLikeCustomerId(t)
  {
    if |t| >= 2 {
      assert !IsDigit(t[1..][0]);
    }
  }

  /** `Operations`: the records and the tier-wide reward rates the shop works on. */
  class Shop {
    const records: Records
    const config: TierConfig

    constructor (records: Records, config: TierConfig)
      ensures this.records == records && this.config == config
    {
      this.records := records;
      this.config := config;
    }

    /**
     * `add_product`: the smallest positive number that is not the suffix of
     * an existing product ID (bundles included) makes the ID "P"+n; a
     * product with a positive price and a y/n flag is inserted under it.
     */
    method AddProduct(name: string, price: real, flag: string) returns (outcome: AddOutcome)
      requires records.Valid()
      modifies records`products
      ensures records.Valid()
      ensures SuffixNumbers(Ids(old(records.products))).None? ==>
        outcome == BadExistingId && records.products == old(records.products)
      ensures SuffixNumbers(Ids(old(records.products))).Some? && (price <= 0.0 || ParseYesNo(flag).None?) ==>
        outcome == Rejected && records.products == old(records.products)
      ensures outcome.Added? <==>
        SuffixNumbers(Ids(old(records.products))).Some? && price > 0.0 && ParseYesNo(flag).Some?
      ensures outcome.Added? ==>
        outcome.id !in Ids(old(records.products))
        && (exists n: nat :: IsSmallestFree(n, SuffixNumbers(Ids(old(records.products))).value)
                             && outcome.id == "P" + NatToString(n))
        && records.products == old(records.products) + [Simple(outcome.id, name, price, ParseYesNo(flag).value)]
    {
      var id := FreshId('P', Ids(records.products));
      if id.None? {
        return BadExistingId;
      }
      var prescription := ParseYesNo(flag);
      if price <= 0.0 || prescription.None? {
        return Rejected;
      }
      ghost var before := records.products;
      records.products := records.products + [Simple(id.value, name, price, prescription.value)];
      KeyAdded(before, Simple(id.value, name, price, prescription.value));
      outcome := Added(id.value);
    }

    /**
     * `update_prodcut`: a product found by name or ID, given a positive
     * price and a y/n flag, has its price and flag overwritten, and then the
     * bundles listing its ID are recalculated.
     */
    method UpdateProduct(token: string, price: real, flag: string) returns (outcome: UpdateOutcome)
      requires records.Valid()
      modifies records`products
      ensures records.Valid()
      ensures ProductIndex(old(records.products), Strip(token)).None? ==>
        outcome == NotFound && records.products == old(records.products)
      ensures ProductIndex(old(records.products), Strip(token)).Some? && (price <= 0.0 || ParseYesNo(flag).None?) ==>
        outcome == Invalid && records.products == old(records.products)
      ensures outcome == Updated <==>
        ProductIndex(old(records.products), Strip(token)).Some? && price > 0.0 && ParseYesNo(flag).Some?
      ensures outcome == Updated ==>
        var j := ProductIndex(old(records.products), Strip(token)).value;
        var p := old(records.products)[j];
        records.products == Cascade(old(records.products)[j := Overwritten(p, price, ParseYesNo(flag).value)], p.id)
    {
      var found := records.FindProduct(token);
      if found.None? {
        return NotFound;
      }
      var prescription := ParseYesNo(flag);
      if price <= 0.0 || prescription.None? {
        return Invalid;
      }
      var j := found.value;
      var p := records.products[j];
      records.products := records.products[j := Overwritten(p, price, prescription.value)];
      UpdateBundles(p.id);
      outcome := Updated;
    }

    /**
     * `update_bundles`: every bundle listing pid, in insertion order,
     * has its price and then its prescription flag recalculated.
     */
    method UpdateBundles(pid: string)
      requires records.Valid()
      modifies records`products
      ensures records.Valid()
      ensures records.products == Cascade(old(records.products), pid)
    {
      var i := 0;
      while i < |records.products|
        invariant records.Valid()
        invariant |records.products| == |old(records.products)|
        invariant 0 <= i <= |records.products|
        invariant records.products == CascadeUpTo(old(records.products), pid, i)
      {
        if records.products[i].Bundle? && pid in records.products[i].components {
          records.RecalcBundlePrice(i);
          records.RecalcBundlePrescription(i);
        }
        i := i + 1;
      }
    }

    /**
     * The loop of `purchase`: each zipped name is looked up and snapshotted
     * with its quantity, and the line costs are summed in input order.  A
     * name no product matches fails there (`None.unit_price`).
     */
    method PriceLines(names: seq<string>, quantities: seq<int>) returns (lines: Option<seq<Line>>, original: real)
      ensures lines == Resolve(records.products, names, quantities)
      ensures lines.Some? ==> original == Total(lines.value)
    {
      var n := ZipLength(names, quantities);
      ghost var found := Lookups(records.products, names);
      var acc: seq<Line> := [];
      original := 0.0;
      var i := 0;
      while i < n
        invariant 0 <= i <= n
        invariant ResolveUpTo(found, quantities, i) == Some(acc)
        invariant original == Total(acc)
      {
        var idx := records.FindProduct(names[i]);
        assert found[i] == LookupName(records.products, names[i]);
        if idx.None? {
          ResolveFails(found, quantities, i, n);
          return None, original;
        }
        var p := records.products[idx.value];
        var line := Line(p.name, p.price, quantities[i]);
        ResolveStep(found, quantities, i, acc, p);
        var cost := LineCost(line);
        TotalAppend(acc, line);
        original := original + cost;
        acc := acc + [line];
        i := i + 1;
      }
      lines := Some(acc);
    }

    /**
     * The tail of `purchase` once the lines are priced: discount, point
     * redemption and charged total, then the balance change and the order
     * record with the gross reward.
     */
    method Commit(c: Customer, lines: seq<Line>, original: real, time: string)
      modifies c`balance, c`history
      ensures var q := PriceOrder(c.tier, old(c.balance), original, config.basicRate, config.vipRate);
        c.balance == old(c.balance) + q.delta
        && c.history == old(c.history) + [Order(lines, q.total, q.reward, time)]
    {
      var discount := if c.tier.VIP? then original * c.tier.discountRate else 0.0;
      var deduction := Min(c.balance / 100 * 10, Trunc(original - discount));
      var total := original - discount - deduction as real;
      var reward := c.GetReward(config, original);
      ghost var q := PriceOrder(c.tier, c.balance, original, config.basicRate, config.vipRate);
      assert q.discount == discount;
      assert q.deduction == deduction;
      assert q.total == total;
      assert q.reward == reward;
      c.UpdateReward(reward - deduction * 10);
      c.history := c.history + [Order(lines, total, reward, time)];
    }

    /**
     * `purchase`: the zipped names and quantities are priced in input
     * order; the customer's balance moves by the reward less ten points per
     * dollar redeemed and one order is appended.  A name no product matches
     * fails before anything changes.
     */
    method Purchase(c: Customer, names: seq<string>, quantities: seq<int>, time: string) returns (ok: bool)
      modifies c`balance, c`history
      ensures ok <==> Resolve(records.products, names, quantities).Some?
      ensures !ok ==> c.balance == old(c.balance) && c.history == old(c.history)
      ensures ok ==>
        var lines := Resolve(records.products, names, quantities).value;
        var q := PriceOrder(c.tier, old(c.balance), Total(lines), config.basicRate, config.vipRate);
        c.balance == old(c.balance) + q.delta
        && c.history == old(c.history) + [Order(lines, q.total, q.reward, time)]
    {
      var lines, original := PriceLines(names, quantities);
      if lines.None? {
        return false;
      }
      Commit(c, lines.value, original, time);
      ok := true;
    }

    /**
     * The customer step of `make_purchase`: a known name or ID finds the
     * customer; an unknown alphabetic name registers a new Basic customer
     * "B"+n with no points, n the smallest positive number that is not the
     * suffix of an existing customer ID (B and V alike).
     */
    method IdentifyCustomer(token: string) returns (outcome: Identified)
      modifies records`customers
      ensures CustomerIndex(old(records.customers), Strip(token)).Some? ==>
        outcome == Known(old(records.customers)[CustomerIndex(old(records.customers), Strip(token)).value])
      ensures CustomerIndex(old(records.customers), Strip(token)).None? && LooksLikeCustomerId(Strip(token)) ==>
        outcome == UnknownId
      ensures CustomerIndex(old(records.customers), Strip(token)).None? && !LooksLikeCustomerId(Strip(token))
              && !IsAlphaString(Strip(token)) ==>
        outcome == NotAlphabetic
      ensures CustomerIndex(old(records.customers), Strip(token)).None? && IsAlphaString(Strip(token))
              && SuffixNumbers(CustomerIds(old(records.customers))).None? ==>
        outcome == BadCustomerId
      ensures !outcome.Registered? ==> records.customers == old(records.customers)
      ensures outcome.Registered? <==>
        CustomerIndex(old(records.customers), Strip(token)).None? && IsAlphaString(Strip(token))
        && SuffixNumbers(CustomerIds(old(records.customers))).Some?
      ensures outcome.Registered? ==>
        fresh(outcome.customer)
        && records.customers == old(records.customers) + [outcome.customer]
        && NewBasicCustomer(outcome.customer, Strip(token), old(records.customers))
    {
      // `find_customer` strips the already stripped identifier again, which
      // changes nothing (Text.StripIdempotent), so it is given the token as read.
      var t := Strip(token);
      var known := records.FindCustomer(token);
      if known.Some? {
        return Known(known.value);
      }
      if LooksLikeCustomerId(t) {
        return UnknownId;
      }
      if !IsAlphaString(t) {
        return NotAlphabetic;
      }
      AlphabeticIsNotCustomerId(t);
      outcome := RegisterCustomer(t);
    }

    /**
     * The registration branch of `make_purchase`: a new Basic customer with
     * no points, ID "B"+n for the smallest positive n that is not the suffix
     * of an existing customer ID, appended to the customer list.
     */
    method RegisterCustomer(name: string) returns (outcome: Identified)
      modifies records`customers
      ensures SuffixNumbers(CustomerIds(old(records.customers))).None? ==>
        outcome == BadCustomerId && records.customers == old(records.customers)
      ensures SuffixNumbers(CustomerIds(old(records.customers))).Some? ==>
        outcome.Registered? && fresh(outcome.customer)
        && records.customers == old(records.customers) + [outcome.customer]
        && NewBasicCustomer(outcome.customer, name, old(records.customers))
    {
      var id := FreshId('B', CustomerIds(records.customers));
      if id.None? {
        return BadCustomerId;
      }
      var customer := new Customer(id.value, name, Basic, 0);
      records.customers := records.customers + [customer];
      outcome := Registered(customer);
    }
  }
}
