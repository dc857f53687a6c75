/**
 * The in-memory records: the ordered list of customers and the
 * insertion-ordered product dictionary, with the two lookups and the two
 * bundle recalculations that read the dictionary.
 */
module Catalog {
  import opened Wrappers
  import opened Money
  import opened Text
  import opened Customers
  import opened Products

  /** Position of the first customer from start on whose name or ID is token. */
  function CustomerIndexFrom(cs: seq<Customer>, token: string, start: nat): (r: Option<nat>)
    requires start <= |cs|
    decreases |cs| - start
    ensures r.Some? ==> start <= r.value < |cs| && (cs[r.value].name == token || cs[r.value].id == token)
    ensures r.Some? ==> forall j :: start <= j < r.value ==> cs[j].name != token && cs[j].id != token
    ensures r.None? ==> forall j :: start <= j < |cs| ==> cs[j].name != token && cs[j].id != token
  {
    if start == |cs| then None
    else if cs[start].name == token || cs[start].id == token then Some(start)
    else CustomerIndexFrom(cs, token, start + 1)
  }

  /** Position of the first customer, in list order, whose name or ID is token. */
  function CustomerIndex(cs: seq<Customer>, token: string): (r: Option<nat>)
    ensures r.Some? ==> r.value < |cs| && (cs[r.value].name == token || cs[r.value].id == token)
    ensures r.Some? ==> forall j :: 0 <= j < r.value ==> cs[j].name != token && cs[j].id != token
    ensures r.None? ==> forall j :: 0 <= j < |cs| ==> cs[j].name != token && cs[j].id != token
  {
    CustomerIndexFrom(cs, token, 0)
  }

  /** The IDs of a list of customers, in order. */
  function CustomerIds(cs: seq<Customer>): (r: seq<string>)
    ensures |r| == |cs| && forall j :: 0 <= j < |cs| ==> r[j] == cs[j].id
  {
    if |cs| == 0 then [] else [cs[0].id] + CustomerIds(cs[1..])
  }

  /** `Records`: customers in list order, products in dictionary insertion order. */
  class Records {
    var customers: seq<Customer>
    var products: seq<Product>

    /** The product dictionary has one entry per key. */
    ghost predicate Valid()
      reads this
    {
      DistinctIds(products)
    }

    constructor ()
      ensures Valid() && customers == [] && products == []
    {
      customers := [];
      products := [];
    }

    /**
     * `find_customer`: the first customer whose name or ID equals the
     * stripped token, or None; nothing changes.
     */
    method FindCustomer(token: string) returns (r: Option<Customer>)
      ensures CustomerIndex(customers, Strip(token)).None? ==> r.None?
      ensures CustomerIndex(customers, Strip(token)).Some? ==>
        r == Some(customers[CustomerIndex(customers, Strip(token)).value])
    {
      var t := Strip(token);
      var i := 0;
      while i < |customers|
        invariant 0 <= i <= |customers|
        invariant CustomerIndexFrom(customers, t, i) == CustomerIndex(customers, t)
      {
        if customers[i].name == t || customers[i].id == t {
          return Some(customers[i]);
        }
        i := i + 1;
      }
      return None;
    }

    /**
     * `find_product`: the position of the first product, in insertion
     * order, whose name or ID equals the stripped token, or None; nothing changes.
     */
    method FindProduct(token: string) returns (r: Option<nat>)
      ensures r == ProductIndex(products, Strip(token))
    {
      var t := Strip(token);
      var i := 0;
      while i < |products|
        invariant 0 <= i <= |products|
        invariant ProductIndexFrom(products, t, i) == ProductIndex(products, t)
      {
        if products[i].name == t || products[i].id == t {
          return Some(i);
        }
        i := i + 1;
      }
      return None;
    }

    /** `Bundle.calculate_price(record)` for the bundle at position j. */
    method RecalcBundlePrice(j: nat)
      requires Valid() && j < |products| && products[j].Bundle?
      modifies this`products
      ensures Valid()
      ensures products == WithPrice(old(products), j)
    {
      var ps := products;
      var comps := ps[j].components;
      var total := 0.0;
      var k := 0;
      while k < |comps|
        invariant 0 <= k <= |comps|
        invariant total == FoundTotal(ps, comps[..k])
      {
        FoundTotalStep(ps, comps, k);
        var found := GetById(ps, comps[k]);
        if found.Some? {
          total := total + found.value.price;
        }
        k := k + 1;
      }
      assert comps[..k] == comps;
      assert Round2(total * 0.8) == BundlePrice(ps, comps);
      products := ps[j := ps[j].(price := Round2(total * 0.8))];
      DistinctIdsOfSameIds(ps, products);
    }

    /** `Bundle.bundle_prescription(record)` for the bundle at position j. */
    method RecalcBundlePrescription(j: nat)
      requires Valid() && j < |products| && products[j].Bundle?
      modifies this`products
      ensures Valid()
      ensures products == WithPrescription(old(products), j)
    {
      var ps := products;
      var comps := ps[j].components;
      var needed := false;
      var k := 0;
      while k < |comps|
        invariant 0 <= k <= |comps|
        invariant needed == AnyPrescription(ps, comps[..k])
      {
        assert comps[..k + 1][..k] == comps[..k];
        var found := GetById(ps, comps[k]);
        if found.Some? && found.value.prescription {
          needed := true;
        }
        k := k + 1;
      }
      assert comps[..k] == comps;
      products := ps[j := ps[j].(prescription := needed)];
      DistinctIdsOfSameIds(ps, products);
    }
  }
}
