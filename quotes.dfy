/**
 * The pricing snapshot handed to the decision engine: the on-demand price and
 * the ordered list of spot-pool quotes, together with the two searches the
 * engine runs over that list (find the current pool's quote; find the cheapest
 * quote).
 */
module Quotes {
  import opened Wrappers

  /** One entry of `pricing['spot_pools']`. */
  datatype Quote = Quote(poolId: string, price: real)

  /** `pricing`: `on_demand_price` and `spot_pools`, in input order. */
  datatype Pricing = Pricing(onDemandPrice: real, spotPools: seq<Quote>)

  /** `k` is the first position whose quote belongs to pool `id`. */
  ghost predicate IsFirstMatch(pools: seq<Quote>, id: string, k: int) {
    0 <= k < |pools| && pools[k].poolId == id &&
    forall j :: 0 <= j < k ==> pools[j].poolId != id
  }

  /**
   * The price of the first quote for pool `id`, or None if the list has no
   * quote for that pool: what the scan that stops at the first match finds.
   */
  function FindPrice(pools: seq<Quote>, id: string): (r: Option<real>)
    ensures r.None? <==> forall k :: 0 <= k < |pools| ==> pools[k].poolId != id
  {
    if |pools| == 0 then None
    else if pools[0].poolId == id then Some(pools[0].price)
    else FindPrice(pools[1..], id)
  }

  /** FindPrice returns the price of the first matching quote. */
  lemma {:induction false} FindPriceAt(pools: seq<Quote>, id: string, k: int)
    requires IsFirstMatch(pools, id, k)
    ensures FindPrice(pools, id) == Some(pools[k].price)
  {
    if k > 0 {
      assert pools[0].poolId != id;
      assert IsFirstMatch(pools[1..], id, k - 1) by {
        forall j | 0 <= j < k - 1 ensures pools[1..][j].poolId != id {
          assert pools[1..][j] == pools[j + 1];
        }
      }
      FindPriceAt(pools[1..], id, k - 1);
    }
  }

  /** Every price FindPrice returns is that of the first quote for the pool. */
  lemma {:induction false} FindPriceFirst(pools: seq<Quote>, id: string)
    requires FindPrice(pools, id).Some?
    ensures exists k :: IsFirstMatch(pools, id, k) && pools[k].price == FindPrice(pools, id).value
  {
    if pools[0].poolId == id {
      assert IsFirstMatch(pools, id, 0);
    } else {
      FindPriceFirst(pools[1..], id);
      var k :| IsFirstMatch(pools[1..], id, k) && pools[1..][k].price == FindPrice(pools[1..], id).value;
      assert pools[1..][k] == pools[k + 1];
      forall j | 0 <= j < k + 1 ensures pools[j].poolId != id {
        if j > 0 { assert pools[j] == pools[1..][j - 1]; }
      }
      assert IsFirstMatch(pools, id, k + 1);
    }
  }

  /**
   * The index of the quote that `min(spot_pools, key=price)` returns: a
   * cheapest quote, and the first one among equally cheap quotes.
   */
  function CheapestIndex(pools: seq<Quote>): (k: nat)
    requires |pools| > 0
    ensures k < |pools|
    ensures forall j :: 0 <= j < |pools| ==> pools[k].price <= pools[j].price
    ensures forall j :: 0 <= j < k ==> pools[j].price > pools[k].price
  {
    if |pools| == 1 then 0
    else
      var t := CheapestIndex(pools[1..]) + 1;
      assert pools[t] == pools[1..][t - 1];
      assert forall j :: 1 <= j < |pools| ==> pools[j] == pools[1..][j - 1];
      if pools[0].price <= pools[t].price then 0 else t
  }

  /** The instance's current pool and price after resolution. */
  datatype Current = Current(price: Option<real>, poolId: string)

  /**
   * Current-pool resolution: the price of the first quote for the recorded
   * pool; if there is none, or that price is zero (a falsy value), and the list
   * is not empty, the first quote stands in for both the price and the pool.
   */
  function ResolveCurrent(pools: seq<Quote>, recorded: string): (c: Current)
    ensures c.price.Some? <==> |pools| > 0
    ensures |pools| == 0 ==> c.poolId == recorded
  {
    var found := FindPrice(pools, recorded);
    if (found.None? || found.value == 0.0) && |pools| > 0 then
      Current(Some(pools[0].price), pools[0].poolId)
    else
      Current(found, recorded)
  }

  /** A matched non-zero price is kept, with the recorded pool id. */
  lemma ResolveKeepsMatch(pools: seq<Quote>, recorded: string, k: int)
    requires IsFirstMatch(pools, recorded, k) && pools[k].price != 0.0
    ensures ResolveCurrent(pools, recorded) == Current(Some(pools[k].price), recorded)
  {
    FindPriceAt(pools, recorded, k);
  }

  /**
   * A stale pool (no quote) or a matched zero price is replaced by the first
   * quote, pool id included.
   */
  lemma ResolveSubstitutes(pools: seq<Quote>, recorded: string)
    requires |pools| > 0
    requires (forall k :: 0 <= k < |pools| ==> pools[k].poolId != recorded)
          || (exists k :: IsFirstMatch(pools, recorded, k) && pools[k].price == 0.0)
    ensures ResolveCurrent(pools, recorded) == Current(Some(pools[0].price), pools[0].poolId)
  {
    if exists k :: IsFirstMatch(pools, recorded, k) && pools[k].price == 0.0 {
      var k :| IsFirstMatch(pools, recorded, k) && pools[k].price == 0.0;
      FindPriceAt(pools, recorded, k);
    }
  }

  /** Whenever a price is resolved, the pair (pool, price) is one of the quotes. */
  lemma ResolvedIsQuote(pools: seq<Quote>, recorded: string)
    requires ResolveCurrent(pools, recorded).price.Some?
    ensures var c := ResolveCurrent(pools, recorded);
      exists k :: 0 <= k < |pools| && pools[k] == Quote(c.poolId, c.price.value)
  {
    var found := FindPrice(pools, recorded);
    if (found.None? || found.value == 0.0) && |pools| > 0 {
      assert pools[0] == Quote(pools[0].poolId, pools[0].price);
    } else {
      FindPriceFirst(pools, recorded);
      var k :| IsFirstMatch(pools, recorded, k) && pools[k].price == found.value;
      assert pools[k] == Quote(recorded, found.value);
    }
  }
}
