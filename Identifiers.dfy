/**
 * Allocation of fresh identifiers.  Product IDs ("P3", and bundles' "B2")
 * and customer IDs ("B1", "V4") are a one-letter prefix followed by a
 * number; a new entity gets the smallest positive number that is not the
 * numeric suffix of any existing ID, whatever that ID's prefix.
 */
module Identifiers {
  import opened Wrappers
  import opened Text

  /** `ID[1:]`: the ID without its one-letter prefix. */
  function Suffix(id: string): (r: string)
    ensures |id| > 0 ==> [id[0]] + r == id
    ensures |id| == 0 ==> r == ""
  {
    if |id| == 0 then "" else id[1..]
  }

  /** `int(ID[1:])`, None when Python would raise ValueError. */
  function SuffixNumber(id: string): Option<int>
  {
    ParseInt(Suffix(id))
  }

  /** All the values when none is missing, in order; None as soon as one is. */
  function AllPresent(xs: seq<Option<int>>): (r: Option<seq<int>>)
    ensures r.Some? <==> forall i :: 0 <= i < |xs| ==> xs[i].Some?
    ensures r.Some? ==> |r.value| == |xs|
    ensures r.Some? ==> forall i :: 0 <= i < |xs| ==> xs[i] == Some(r.value[i])
  {
    if |xs| == 0 then Some([])
    else
      match AllPresent(xs[..|xs| - 1])
      case None => None
      case Some(ks) =>
        match xs[|xs| - 1]
        case None => None
        case Some(k) => Some(ks + [k])
  }

  /**
   * `[int(ID[1:]) for ID in ids]`: the numeric suffixes of all IDs, in
   * order, or None when some suffix is not an integer (Python raises
   * ValueError and nothing is allocated).
   */
  function SuffixNumbers(ids: seq<string>): (r: Option<seq<int>>)
    ensures r.Some? <==> forall i :: 0 <= i < |ids| ==> SuffixNumber(ids[i]).Some?
    ensures r.Some? ==> |r.value| == |ids|
    ensures r.Some? ==> forall i :: 0 <= i < |ids| ==> SuffixNumber(ids[i]) == Some(r.value[i])
  {
    var parsed := seq(|ids|, i requires 0 <= i < |ids| => SuffixNumber(ids[i]));
    assert forall i :: 0 <= i < |ids| ==> parsed[i] == SuffixNumber(ids[i]);
    AllPresent(parsed)
  }

  /** An upper bound on the numbers in use; it bounds the search loop below. */
  function MaxOf(used: seq<int>): (m: int)
    ensures forall k :: k in used ==> k <= m
  {
    if |used| == 0 then 0
    else
      var rest := MaxOf(used[1..]);
      assert used == [used[0]] + used[1..];
      if used[0] > rest then used[0] else rest
  }

  /** n is the smallest positive integer not in use. */
  predicate IsSmallestFree(n: int, used: seq<int>)
  {
    n >= 1 && n !in used && forall k :: 1 <= k < n ==> k in used
  }

  /**
   * The `while unique_number in existing_ids: unique_number += 1` loop:
   * the smallest positive integer not in use.
   */
  method SmallestFree(used: seq<int>) returns (n: int)
    ensures n >= 1 && n !in used
    ensures forall k :: 1 <= k < n ==> k in used
  {
    n := 1;
    while n in used
      invariant n >= 1
      invariant forall k :: 1 <= k < n ==> k in used
      decreases MaxOf(used) + 1 - n
    {
      n := n + 1;
    }
  }

  /** The ID built from a prefix and an unused number is not among the existing IDs. */
  lemma FreshIdUnused(prefix: char, ids: seq<string>, used: seq<int>, n: nat)
    requires SuffixNumbers(ids) == Some(used)
    requires n !in used
    ensures [prefix] + NatToString(n) !in ids
  {
    var id := [prefix] + NatToString(n);
    if id in ids {
      var i :| 0 <= i < |ids| && ids[i] == id;
      assert Suffix(id) == NatToString(n);
      ParseIntOfNatToString(n);
      assert false;
    }
  }

  /**
   * The ID allocation of `add_product` and of new-customer registration:
   * prefix + `str(n)` for the smallest positive n that is not the suffix
   * number of an existing ID, or None when some existing suffix is not an
   * integer (Python raises ValueError before allocating).
   */
  method FreshId(prefix: char, ids: seq<string>) returns (r: Option<string>)
    ensures r.None? <==> SuffixNumbers(ids).None?
    ensures r.Some? ==> r.value !in ids
    ensures r.Some? ==> exists n: nat :: IsSmallestFree(n, SuffixNumbers(ids).value) && r.value == [prefix] + NatToString(n)
  {
    var used := SuffixNumbers(ids);
    if used.None? {
      return None;
    }
    var n := SmallestFree(used.value);
    FreshIdUnused(prefix, ids, used.value, n);
    assert IsSmallestFree(n, used.value);
    r := Some([prefix] + NatToString(n));
  }
}
