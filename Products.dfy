/**
 * Products and bundles.
 *
 * A regular product has its own price and prescription flag.  A bundle lists
 * the IDs of its components; its price is 80% of the prices of the
 * components found in the catalog, rounded to cents, and it needs a
 * prescription when a found component does.  Both are stored in the bundle
 * and only change when they are recalculated.
 *
 * The catalog is an insertion-ordered dictionary from ID to product; it is
 * modelled as the sequence of its values, each value carrying its key as `id`.
 */
module Products {
  import opened Wrappers
  import opened Money

  /**
   * A catalog entry.  A bundle also carries the two fields it inherits from
   * the regular product (`_Product__unit_price`, `_Product__dr_prescription`):
   * the bundle's own accessors hide them, so they never show in its visible
   * `price` and `prescription`.
   */
  datatype Product =
    | Simple(id: string, name: string, price: real, prescription: bool)
    | Bundle(id: string, name: string, components: seq<string>, price: real, prescription: bool,
             inheritedPrice: real, inheritedPrescription: bool)

  /** Position of the first entry from start on stored under key. */
  function IdIndexFrom(ps: seq<Product>, key: string, start: nat): (r: Option<nat>)
    requires start <= |ps|
    decreases |ps| - start
    ensures r.Some? ==> start <= r.value < |ps| && ps[r.value].id == key
    ensures r.Some? ==> forall j :: start <= j < r.value ==> ps[j].id != key
    ensures r.None? ==> forall j :: start <= j < |ps| ==> ps[j].id != key
  {
    if start == |ps| then None
    else if ps[start].id == key then Some(start)
    else IdIndexFrom(ps, key, start + 1)
  }

  /** Position of the entry stored under key, the position `products.get(key)` reads. */
  function IdIndex(ps: seq<Product>, key: string): (r: Option<nat>)
    ensures r.Some? ==> r.value < |ps| && ps[r.value].id == key
    ensures r.Some? ==> forall j :: 0 <= j < r.value ==> ps[j].id != key
    ensures r.None? ==> forall j :: 0 <= j < |ps| ==> ps[j].id != key
  {
    IdIndexFrom(ps, key, 0)
  }

  /** `products.get(key)`: the entry stored under key, or None when there is none. */
  function GetById(ps: seq<Product>, key: string): (r: Option<Product>)
    ensures r.Some? ==> r.value.id == key
    ensures r.None? ==> forall j :: 0 <= j < |ps| ==> ps[j].id != key
  {
    match IdIndex(ps, key)
    case None => None
    case Some(i) => Some(ps[i])
  }

  /** The visible price a looked-up component contributes: nothing when it is missing. */
  function FoundPrice(found: Option<Product>): real
  {
    match found
    case None => 0.0
    case Some(p) => p.price
  }

  /** A looked-up component that is present and needs a prescription. */
  predicate FoundNeedsPrescription(found: Option<Product>)
  {
    found.Some? && found.value.prescription
  }

  /** The running `total_price` of `calculate_price`: the sum of the prices of the components found. */
  function FoundTotal(ps: seq<Product>, comps: seq<string>): (r: real)
    ensures (forall k :: 0 <= k < |comps| ==> GetById(ps, comps[k]).None?) ==> r == 0.0
  {
    if |comps| == 0 then 0.0
    else FoundTotal(ps, comps[..|comps| - 1]) + FoundPrice(GetById(ps, comps[|comps| - 1]))
  }

  /** One more component adds the price of what it resolves to. */
  lemma FoundTotalStep(ps: seq<Product>, comps: seq<string>, k: nat)
    requires k < |comps|
    ensures FoundTotal(ps, comps[..k + 1]) == FoundTotal(ps, comps[..k]) + FoundPrice(GetById(ps, comps[k]))
  {
    assert comps[..k + 1][..k] == comps[..k];
  }

  /**
   * The price `calculate_price` stores in a bundle: `round(total_price * 0.8, 2)`,
   * 80% of the found total to the nearest cent.
   */
  function BundlePrice(ps: seq<Product>, comps: seq<string>): real
  {
    Round2(FoundTotal(ps, comps) * 0.8)
  }

  /** The flag `bundle_prescription` stores: some found component needs a prescription. */
  function AnyPrescription(ps: seq<Product>, comps: seq<string>): (r: bool)
    ensures r <==> exists k :: 0 <= k < |comps| && FoundNeedsPrescription(GetById(ps, comps[k]))
  {
    if |comps| == 0 then false
    else AnyPrescription(ps, comps[..|comps| - 1]) || FoundNeedsPrescription(GetById(ps, comps[|comps| - 1]))
  }

  /** A bundle none of whose components is in the catalog costs 0 and needs no prescription. */
  lemma BundleOfMissingComponents(ps: seq<Product>, comps: seq<string>)
    requires forall k :: 0 <= k < |comps| ==> GetById(ps, comps[k]).None?
    ensures BundlePrice(ps, comps) == 0.0
    ensures !AnyPrescription(ps, comps)
  {
    RoundOfInt(0);
  }

  /**
   * A bundle of a $10 product without prescription and a $5 product that
   * needs one costs round(0.8 * 15, 2) = 12.00 and needs a prescription.
   */
  lemma BundleExample()
    ensures var ps := [Simple("P1", "vitaminC", 10.0, false), Simple("P2", "cream", 5.0, true),
                       Bundle("B1", "kit", ["P1", "P2"], 0.0, false, 0.0, false)];
      BundlePrice(ps, ["P1", "P2"]) == 12.0 && AnyPrescription(ps, ["P1", "P2"])
  {
    var ps := [Simple("P1", "vitaminC", 10.0, false), Simple("P2", "cream", 5.0, true),
               Bundle("B1", "kit", ["P1", "P2"], 0.0, false, 0.0, false)];
    var comps := ["P1", "P2"];
    assert IdIndex(ps, "P1") == Some(0);
    assert IdIndex(ps, "P2") == Some(1);
    assert comps[..1] == ["P1"] && comps[..1][..0] == [];
    assert FoundTotal(ps, comps) == 15.0;
    RoundOfInt(1200);
    assert AnyPrescription(ps, comps);
  }

  /** With prices that are not negative, a bundle's price is not negative either. */
  lemma {:induction false} FoundTotalNonNegative(ps: seq<Product>, comps: seq<string>)
    requires forall j :: 0 <= j < |ps| ==> ps[j].price >= 0.0
    ensures FoundTotal(ps, comps) >= 0.0
    ensures BundlePrice(ps, comps) >= 0.0
  {
    if |comps| > 0 {
      FoundTotalNonNegative(ps, comps[..|comps| - 1]);
    }
    RoundMonotone(0.0, FoundTotal(ps, comps) * 0.8 * 100.0);
    RoundOfInt(0);
  }

  /** Two catalogs with the same keys in the same positions. */
  predicate SameIds(ps: seq<Product>, qs: seq<Product>)
  {
    |ps| == |qs| && forall j :: 0 <= j < |ps| ==> ps[j].id == qs[j].id
  }

  /** Catalogs with the same keys in the same positions find a key at the same position. */
  lemma IdIndexOfSameIds(ps: seq<Product>, qs: seq<Product>, key: string)
    requires SameIds(ps, qs)
    ensures IdIndex(ps, key) == IdIndex(qs, key)
  {
    IdIndexFromOfSameIds(ps, qs, key, 0);
  }

  lemma {:induction false} IdIndexFromOfSameIds(ps: seq<Product>, qs: seq<Product>, key: string, start: nat)
    requires SameIds(ps, qs) && start <= |ps|
    decreases |ps| - start
    ensures IdIndexFrom(ps, key, start) == IdIndexFrom(qs, key, start)
  {
    if start < |ps| {
      IdIndexFromOfSameIds(ps, qs, key, start + 1);
    }
  }

  /** Every component resolves to the same entry (or to nothing) in both catalogs. */
  predicate SameResolution(ps: seq<Product>, qs: seq<Product>, comps: seq<string>)
  {
    forall k :: 0 <= k < |comps| ==> GetById(ps, comps[k]) == GetById(qs, comps[k])
  }

  /** A bundle's derived price and flag depend only on what its components resolve to. */
  lemma {:induction false} DerivedFieldsFrame(ps: seq<Product>, qs: seq<Product>, comps: seq<string>)
    requires SameResolution(ps, qs, comps)
    ensures FoundTotal(ps, comps) == FoundTotal(qs, comps)
    ensures AnyPrescription(ps, comps) == AnyPrescription(qs, comps)
  {
    if |comps| > 0 {
      var front := comps[..|comps| - 1];
      assert SameResolution(ps, qs, front) by {
        forall k | 0 <= k < |front| ensures GetById(ps, front[k]) == GetById(qs, front[k]) {
          assert front[k] == comps[k];
        }
      }
      DerivedFieldsFrame(ps, qs, front);
      assert GetById(ps, comps[|comps| - 1]) == GetById(qs, comps[|comps| - 1]);
    }
  }

  /** Equal totals give equal bundle prices. */
  lemma BundlePriceFrame(ps: seq<Product>, qs: seq<Product>, comps: seq<string>)
    requires FoundTotal(ps, comps) == FoundTotal(qs, comps)
    ensures BundlePrice(ps, comps) == BundlePrice(qs, comps)
  {
  }

  /**
   * Two catalogs with the same keys, equal at every position except j,
   * resolve alike every component that is not the key of entry j.
   */
  lemma SameResolutionAwayFrom(ps: seq<Product>, qs: seq<Product>, j: nat, comps: seq<string>)
    requires SameIds(ps, qs) && j < |ps|
    requires forall i :: 0 <= i < |ps| && i != j ==> ps[i] == qs[i]
    requires ps[j].id !in comps
    ensures SameResolution(ps, qs, comps)
  {
    forall k | 0 <= k < |comps| ensures GetById(ps, comps[k]) == GetById(qs, comps[k]) {
      IdIndexOfSameIds(ps, qs, comps[k]);
    }
  }

  /**
   * `calculate_price` applied to the bundle at position j: its price becomes
   * the bundle price of its components; no other field or entry changes.
   */
  function WithPrice(ps: seq<Product>, j: nat): (r: seq<Product>)
    requires j < |ps| && ps[j].Bundle?
    ensures |r| == |ps| && r[j].Bundle?
    ensures r[j] == ps[j].(price := BundlePrice(ps, ps[j].components))
    ensures forall i :: 0 <= i < |ps| && i != j ==> r[i] == ps[i]
  {
    ps[j := ps[j].(price := BundlePrice(ps, ps[j].components))]
  }

  /**
   * `bundle_prescription` applied to the bundle at position j: its flag
   * becomes whether some found component needs a prescription; no other
   * field or entry changes.
   */
  function WithPrescription(ps: seq<Product>, j: nat): (r: seq<Product>)
    requires j < |ps| && ps[j].Bundle?
    ensures |r| == |ps| && r[j].Bundle?
    ensures r[j] == ps[j].(prescription := AnyPrescription(ps, ps[j].components))
    ensures forall i :: 0 <= i < |ps| && i != j ==> r[i] == ps[i]
  {
    ps[j := ps[j].(prescription := AnyPrescription(ps, ps[j].components))]
  }

  /**
   * Recalculating a bundle that does not list itself a second time changes
   * nothing: its price and flag depend only on other entries.
   */
  lemma RecalculationIdempotent(ps: seq<Product>, j: nat)
    requires j < |ps| && ps[j].Bundle? && ps[j].id !in ps[j].components
    ensures WithPrice(WithPrice(ps, j), j) == WithPrice(ps, j)
    ensures WithPrescription(WithPrescription(ps, j), j) == WithPrescription(ps, j)
  {
    PriceIdempotent(ps, j);
    PrescriptionIdempotent(ps, j);
  }

  lemma PriceIdempotent(ps: seq<Product>, j: nat)
    requires j < |ps| && ps[j].Bundle? && ps[j].id !in ps[j].components
    ensures WithPrice(WithPrice(ps, j), j) == WithPrice(ps, j)
  {
    var comps := ps[j].components;
    var qs := WithPrice(ps, j);
    assert qs[j].components == comps;
    assert forall i :: 0 <= i < |ps| && i != j ==> ps[i] == qs[i];
    SameResolutionAwayFrom(ps, qs, j, comps);
    DerivedFieldsFrame(ps, qs, comps);
    BundlePriceFrame(ps, qs, comps);
  }

  lemma PrescriptionIdempotent(ps: seq<Product>, j: nat)
    requires j < |ps| && ps[j].Bundle? && ps[j].id !in ps[j].components
    ensures WithPrescription(WithPrescription(ps, j), j) == WithPrescription(ps, j)
  {
    var comps := ps[j].components;
    var qs := WithPrescription(ps, j);
    assert qs[j].components == comps;
    assert forall i :: 0 <= i < |ps| && i != j ==> ps[i] == qs[i];
    SameResolutionAwayFrom(ps, qs, j, comps);
    DerivedFieldsFrame(ps, qs, comps);
  }

  /**
   * The two writes of `update_prodcut` to `_Product__unit_price` and
   * `_Product__dr_prescription`: a regular product shows the new price and
   * flag; a bundle only stores them in its inherited fields and keeps
   * reporting its own price and flag.
   */
  function Overwritten(p: Product, price: real, prescription: bool): (r: Product)
    ensures r.id == p.id && r.name == p.name && r.Bundle? == p.Bundle?
    ensures p.Simple? ==> r.price == price && r.prescription == prescription
    ensures p.Bundle? ==> r.price == p.price && r.prescription == p.prescription
    ensures p.Bundle? ==> r.components == p.components
    ensures p.Bundle? ==> r.inheritedPrice == price && r.inheritedPrescription == prescription
  {
    match p
    case Simple(id, name, _, _) => Simple(id, name, price, prescription)
    case Bundle(id, name, comps, ownPrice, ownPrescription, _, _) =>
      Bundle(id, name, comps, ownPrice, ownPrescription, price, prescription)
  }

  /** The bundle at position j is one that `update_bundles(pid)` recalculates. */
  predicate Lists(p: Product, pid: string)
  {
    p.Bundle? && pid in p.components
  }

  /** Only the stored price and flag of a bundle differ between p and q. */
  predicate DerivedOnlyChanged(p: Product, q: Product)
  {
    p.Bundle? && q == p.(price := q.price, prescription := q.prescription)
  }

  /**
   * One iteration of the `update_bundles` loop, at position j: a bundle
   * listing pid has its price and then its flag recalculated; no other
   * position changes.
   */
  function CascadeStep(ps: seq<Product>, pid: string, j: nat): (r: seq<Product>)
    requires j < |ps|
    ensures |r| == |ps|
    ensures forall i :: 0 <= i < |ps| && i != j ==> r[i] == ps[i]
    ensures !Lists(ps[j], pid) ==> r[j] == ps[j]
    ensures Lists(ps[j], pid) ==> DerivedOnlyChanged(ps[j], r[j])
  {
    if Lists(ps[j], pid) then WithPrescription(WithPrice(ps, j), j) else ps
  }

  /**
   * The catalog after the `update_bundles(pid)` loop has visited the first
   * n entries in insertion order.  A later bundle sees the values already
   * recalculated for earlier ones.
   */
  function CascadeUpTo(ps: seq<Product>, pid: string, n: nat): (r: seq<Product>)
    requires n <= |ps|
    ensures |r| == |ps|
  {
    if n == 0 then ps
    else CascadeStep(CascadeUpTo(ps, pid, n - 1), pid, n - 1)
  }

  /**
   * `update_bundles(pid)`: every entry visited once, in insertion order.  The
   * keys stay in place, an entry that does not list pid is unchanged, and a
   * bundle listing pid changes only in its stored price and flag.
   */
  function Cascade(ps: seq<Product>, pid: string): (r: seq<Product>)
    ensures SameIds(ps, r)
    ensures forall j :: 0 <= j < |ps| && !Lists(ps[j], pid) ==> r[j] == ps[j]
    ensures forall j :: 0 <= j < |ps| && Lists(ps[j], pid) ==> DerivedOnlyChanged(ps[j], r[j])
  {
    CascadeFrame(ps, pid, |ps|);
    CascadeUpTo(ps, pid, |ps|)
  }

  /**
   * The loop keeps every key in place, leaves alone every entry it has not
   * reached or that does not list pid, and changes only the stored price
   * and flag of the bundles listing pid.
   */
  lemma {:induction false} CascadeFrame(ps: seq<Product>, pid: string, n: nat)
    requires n <= |ps|
    ensures SameIds(ps, CascadeUpTo(ps, pid, n))
    ensures forall j :: 0 <= j < |ps| && (n <= j || !Lists(ps[j], pid)) ==> CascadeUpTo(ps, pid, n)[j] == ps[j]
    ensures forall j :: 0 <= j < n && Lists(ps[j], pid) ==> DerivedOnlyChanged(ps[j], CascadeUpTo(ps, pid, n)[j])
  {
    if n > 0 {
      CascadeFrame(ps, pid, n - 1);
      var s := CascadeUpTo(ps, pid, n - 1);
      var r := CascadeUpTo(ps, pid, n);
      assert r == CascadeStep(s, pid, n - 1);
      assert s[n - 1] == ps[n - 1];
      forall j | 0 <= j < |ps|
        ensures r[j].id == ps[j].id
        ensures (n <= j || !Lists(ps[j], pid)) ==> r[j] == ps[j]
        ensures j < n && Lists(ps[j], pid) ==> DerivedOnlyChanged(ps[j], r[j])
      {
        if j != n - 1 {
          assert r[j] == s[j];
        }
      }
    }
  }

  /** Once the loop has passed position j, the entry there no longer changes. */
  lemma {:induction false} CascadeSettled(ps: seq<Product>, pid: string, j: nat, m: nat)
    requires j < m <= |ps|
    ensures CascadeUpTo(ps, pid, m)[j] == CascadeUpTo(ps, pid, j + 1)[j]
  {
    if m > j + 1 {
      CascadeSettled(ps, pid, j, m - 1);
      var s := CascadeUpTo(ps, pid, m - 1);
      assert CascadeUpTo(ps, pid, m) == CascadeStep(s, pid, m - 1);
    }
  }

  /** Every component of a bundle that is found is a regular product. */
  predicate RegularComponents(ps: seq<Product>, comps: seq<string>)
  {
    forall k :: 0 <= k < |comps| ==> GetById(ps, comps[k]).None? || GetById(ps, comps[k]).value.Simple?
  }

  /**
   * The cascade recalculates a bundle listing pid from the catalog it
   * started from, when the bundle's found components are all regular products.
   */
  lemma CascadeRecalculates(ps: seq<Product>, pid: string, j: nat)
    requires j < |ps| && Lists(ps[j], pid)
    requires RegularComponents(ps, ps[j].components)
    ensures Cascade(ps, pid)[j].price == BundlePrice(ps, ps[j].components)
    ensures Cascade(ps, pid)[j].prescription == AnyPrescription(ps, ps[j].components)
  {
    var comps := ps[j].components;
    var s := CascadeUpTo(ps, pid, j);
    CascadeFrame(ps, pid, j);
    assert s[j] == ps[j];
    var t := WithPrice(s, j);
    CascadeSettled(ps, pid, j, |ps|);
    assert CascadeUpTo(ps, pid, j + 1) == WithPrescription(t, j);
    RegularEntriesKept(ps, s, comps);
    assert forall i :: 0 <= i < |ps| && i != j ==> t[i] == s[i];
    RegularEntriesKept(ps, t, comps);
    DerivedFieldsFrame(ps, s, comps);
    DerivedFieldsFrame(ps, t, comps);
    BundlePriceFrame(ps, s, comps);
    var r := Cascade(ps, pid);
    assert r[j] == WithPrescription(t, j)[j];
    assert r[j].price == t[j].price == BundlePrice(s, comps);
    assert r[j].prescription == AnyPrescription(t, comps);
  }

  /** A catalog that keeps every regular product resolves regular-only components alike. */
  lemma RegularEntriesKept(ps: seq<Product>, qs: seq<Product>, comps: seq<string>)
    requires SameIds(ps, qs)
    requires forall i :: 0 <= i < |ps| && ps[i].Simple? ==> qs[i] == ps[i]
    requires RegularComponents(ps, comps)
    ensures SameResolution(ps, qs, comps)
  {
    forall k | 0 <= k < |comps| ensures GetById(ps, comps[k]) == GetById(qs, comps[k]) {
      IdIndexOfSameIds(ps, qs, comps[k]);
    }
  }

  /** Position of the first entry from start on whose name or ID is token. */
  function ProductIndexFrom(ps: seq<Product>, token: string, start: nat): (r: Option<nat>)
    requires start <= |ps|
    decreases |ps| - start
    ensures r.Some? ==> start <= r.value < |ps| && (ps[r.value].name == token || ps[r.value].id == token)
    ensures r.Some? ==> forall j :: start <= j < r.value ==> ps[j].name != token && ps[j].id != token
    ensures r.None? ==> forall j :: start <= j < |ps| ==> ps[j].name != token && ps[j].id != token
  {
    if start == |ps| then None
    else if ps[start].name == token || ps[start].id == token then Some(start)
    else ProductIndexFrom(ps, token, start + 1)
  }

  /** Position of the first entry, in insertion order, whose name or ID is token. */
  function ProductIndex(ps: seq<Product>, token: string): (r: Option<nat>)
    ensures r.Some? ==> r.value < |ps| && (ps[r.value].name == token || ps[r.value].id == token)
    ensures r.Some? ==> forall j :: 0 <= j < r.value ==> ps[j].name != token && ps[j].id != token
    ensures r.None? ==> forall j :: 0 <= j < |ps| ==> ps[j].name != token && ps[j].id != token
  {
    ProductIndexFrom(ps, token, 0)
  }

  /** The keys of the catalog, in insertion order. */
  function Ids(ps: seq<Product>): (r: seq<string>)
    ensures |r| == |ps| && forall j :: 0 <= j < |ps| ==> r[j] == ps[j].id
  {
    if |ps| == 0 then [] else [ps[0].id] + Ids(ps[1..])
  }

  /** No two entries share a key, as in a dictionary. */
  predicate DistinctIds(ps: seq<Product>)
  {
    forall i, j :: 0 <= i < j < |ps| ==> ps[i].id != ps[j].id
  }

  /** Keeping every key in place keeps the keys distinct. */
  lemma DistinctIdsOfSameIds(ps: seq<Product>, qs: seq<Product>)
    requires SameIds(ps, qs) && DistinctIds(ps)
    ensures DistinctIds(qs)
  {
  }

  /** Inserting an entry under a new key keeps the keys distinct. */
  lemma KeyAdded(ps: seq<Product>, p: Product)
    requires DistinctIds(ps) && p.id !in Ids(ps)
    ensures DistinctIds(ps + [p])
  {
    assert forall i :: 0 <= i < |ps| ==> ps[i].id in Ids(ps);
  }

  /** Total number of characters in a list of strings. */
  function TotalLength(xs: seq<string>): nat
  {
    if |xs| == 0 then 0 else TotalLength(xs[..|xs| - 1]) + |xs[|xs| - 1]|
  }

  /** `Bundle.component_list`: `', '.join(components)`. */
  function ComponentList(comps: seq<string>): (r: string)
    ensures |comps| == 0 ==> r == ""
    ensures |comps| > 0 ==> |r| == TotalLength(comps) + 2 * (|comps| - 1)
    ensures |comps| > 0 ==> r[|r| - |comps[|comps| - 1]|..] == comps[|comps| - 1]
  {
    if |comps| == 0 then ""
    else if |comps| == 1 then comps[0]
    else ComponentList(comps[..|comps| - 1]) + ", " + comps[|comps| - 1]
  }
}
