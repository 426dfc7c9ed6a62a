/**
 * hooks/useTokenBalance.ts: the balance hook's state cells and its mock
 * balance generator. The chain id only re-runs the effect; nothing the
 * effect computes depends on it.
 */
module TokenBalance {
  import opened Wrappers
  import opened Js
  import opened Registry
  import opened Fetch

  const FailureMessage: string := "Failed to fetch token balances"

  /** `token.price || 1`: a zero price is replaced by 1. */
  function EffectivePrice(price: real): (p: real)
    ensures p != 0.0
    ensures price != 0.0 ==> p == price
    ensures price == 0.0 ==> p == 1.0
  {
    if price == 0.0 then 1.0 else price
  }

  /** One mock balance: (10r + 0.1) × (100 / (price || 1)) / 100. */
  function MockBalance(price: real, r: real): real {
    (r * 10.0 + 0.1) * (100.0 / EffectivePrice(price)) / 100.0
  }

  /** With a positive effective price p the balance lies in [0.1 / p, 10.1 / p). */
  lemma MockBalanceBounds(price: real, r: real)
    requires IsRandom(r) && EffectivePrice(price) > 0.0
    ensures var p := EffectivePrice(price);
            0.1 / p <= MockBalance(price, r) < 10.1 / p
  {
    var p := EffectivePrice(price);
    var m := r * 10.0 + 0.1;
    var inv := 100.0 / p;
    assert inv * p == 100.0;
    var b := m * inv / 100.0;
    assert b * p == m by {
      assert b * 100.0 == m * inv;
      assert b * 100.0 * p == m * inv * p;
    }
    var lo := 0.1 / p;
    var hi := 10.1 / p;
    assert lo * p == 0.1 && hi * p == 10.1;
    assert 0.1 <= m < 10.1;
    if b < lo {
      assert b * p < lo * p;
    }
    if b >= hi {
      assert b * p >= hi * p;
    }
  }

  /** A positive price gives a positive balance. */
  lemma MockBalancePositive(price: real, r: real)
    requires IsRandom(r) && price > 0.0
    ensures MockBalance(price, r) > 0.0
  {
    MockBalanceBounds(price, r);
    var p := EffectivePrice(price);
    assert 0.1 / p > 0.0;
  }

  /**
   * The record the generator fills: the tokens are visited in registry order,
   * each writing its address; a later token with the same address overwrites.
   */
  function MockBalances(tokens: seq<Token>, draws: seq<real>): map<string, real>
    requires |draws| == |tokens|
    decreases |tokens|
  {
    if tokens == [] then map[]
    else
      var n := |tokens| - 1;
      MockBalances(tokens[..n], draws[..n])[tokens[n].address := MockBalance(tokens[n].price, draws[n])]
  }

  /** The generator's `forEach` over the registry, filling the record in place. */
  method GenerateBalances(tokens: seq<Token>, draws: seq<real>) returns (balances: map<string, real>)
    requires |draws| == |tokens|
    ensures balances == MockBalances(tokens, draws)
  {
    balances := map[];
    for k := 0 to |tokens|
      invariant balances == MockBalances(tokens[..k], draws[..k])
    {
      var token := tokens[k];
      var randomMultiplier := draws[k] * 10.0 + 0.1;
      var inversePrice := 100.0 / EffectivePrice(token.price);
      var balance := (randomMultiplier * inversePrice) / 100.0;
      assert tokens[..k + 1][..k] == tokens[..k] && draws[..k + 1][..k] == draws[..k];
      assert tokens[..k + 1][k] == token && draws[..k + 1][k] == draws[k];
      assert balance == MockBalance(token.price, draws[k]);
      balances := balances[token.address := balance];
    }
    assert tokens[..|tokens|] == tokens && draws[..|draws|] == draws;
  }

  /** The keys of the record are exactly the registry's addresses. */
  lemma {:induction false} MockBalancesKeys(tokens: seq<Token>, draws: seq<real>)
    requires |draws| == |tokens|
    ensures MockBalances(tokens, draws).Keys == Addresses(tokens)
    decreases |tokens|
  {
    if tokens != [] {
      var n := |tokens| - 1;
      MockBalancesKeys(tokens[..n], draws[..n]);
      assert Addresses(tokens) == Addresses(tokens[..n]) + {tokens[n].address} by {
        forall x | x in Addresses(tokens) ensures x in Addresses(tokens[..n]) + {tokens[n].address} {
          var k :| 0 <= k < |tokens| && tokens[k].address == x;
          if k < n { assert tokens[..n][k] == tokens[k]; }
        }
        forall x | x in Addresses(tokens[..n]) ensures x in Addresses(tokens) {
          var k :| 0 <= k < n && tokens[..n][k].address == x;
          assert tokens[k] == tokens[..n][k];
        }
      }
    }
  }

  /** The entry of each address is the balance generated for the last token carrying it. */
  lemma {:induction false} MockBalancesValue(tokens: seq<Token>, draws: seq<real>, k: nat)
    requires |draws| == |tokens| && k < |tokens|
    requires forall j :: k < j < |tokens| ==> tokens[j].address != tokens[k].address
    ensures tokens[k].address in MockBalances(tokens, draws)
    ensures MockBalances(tokens, draws)[tokens[k].address] == MockBalance(tokens[k].price, draws[k])
    decreases |tokens|
  {
    var n := |tokens| - 1;
    if k < n {
      assert tokens[..n][k] == tokens[k] && draws[..n][k] == draws[k];
      MockBalancesValue(tokens[..n], draws[..n], k);
    }
  }

  /** With distinct addresses the record has one entry per registered token. */
  lemma {:induction false} MockBalancesSize(tokens: seq<Token>, draws: seq<real>)
    requires |draws| == |tokens| && DistinctAddresses(tokens)
    ensures |MockBalances(tokens, draws)| == |tokens|
    decreases |tokens|
  {
    if tokens != [] {
      var n := |tokens| - 1;
      assert DistinctAddresses(tokens[..n]);
      MockBalancesSize(tokens[..n], draws[..n]);
      MockBalancesKeys(tokens[..n], draws[..n]);
      assert tokens[n].address !in Addresses(tokens[..n]) by {
        forall k | 0 <= k < n
          ensures tokens[..n][k].address != tokens[n].address
        {
          assert tokens[..n][k] == tokens[k];
        }
      }
    }
  }

  /** With positive prices and draws from `Math.random()` every generated balance is positive. */
  lemma MockBalancesPositive(tokens: seq<Token>, draws: seq<real>)
    requires |draws| == |tokens| && AllRandom(draws)
    requires forall k :: 0 <= k < |tokens| ==> tokens[k].price > 0.0
    ensures forall a :: a in MockBalances(tokens, draws) ==> MockBalances(tokens, draws)[a] > 0.0
  {
    var m := MockBalances(tokens, draws);
    MockBalancesKeys(tokens, draws);
    forall a | a in m
      ensures m[a] > 0.0
    {
      var k :| 0 <= k < |tokens| && tokens[k].address == a;
      var last := LastWithAddress(tokens, a, k);
      MockBalancesValue(tokens, draws, last);
      MockBalancePositive(tokens[last].price, draws[last]);
    }
  }

  /** The last index from `k` on whose token carries address `a`. */
  function LastWithAddress(tokens: seq<Token>, a: string, k: nat): (last: nat)
    requires k < |tokens| && tokens[k].address == a
    ensures k <= last < |tokens| && tokens[last].address == a
    ensures forall j :: last < j < |tokens| ==> tokens[j].address != a
    decreases |tokens| - k
  {
    if exists j :: k < j < |tokens| && tokens[j].address == a then
      var j :| k < j < |tokens| && tokens[j].address == a;
      LastWithAddress(tokens, a, j)
    else k
  }

  /** The hook's state cells. */
  class TokenBalanceHook {
    var balances: map<string, real>
    var isLoading: bool
    var error: Option<FetchError>

    /** An error is only ever shown once loading has ended. */
    predicate Consistent()
      reads this
    {
      error.Some? ==> !isLoading
    }

    /** `{}`, loading, no error. */
    constructor ()
      ensures balances == map[] && isLoading && error == None
      ensures Consistent()
    {
      balances := map[];
      isLoading := true;
      error := None;
    }

    /**
     * The effect, run when the address or the chain id changes. Without an
     * address it clears the balances and stops loading, starting no fetch;
     * otherwise it starts a fetch: loading, error cleared.
     */
    method OnEffect(address: Option<string>, chainId: int) returns (started: bool)
      modifies this
      ensures started <==> Truthy(address)
      ensures !started ==> balances == map[] && !isLoading && error == old(error)
      ensures started ==> isLoading && error == None && balances == old(balances)
      ensures Consistent()
    {
      if !Truthy(address) {
        balances := map[];
        isLoading := false;
        return false;
      }
      isLoading := true;
      error := None;
      return true;
    }

    /** The fetch succeeded: the generated record replaces the balances; `finally` stops loading. */
    method Succeed(tokens: seq<Token>, draws: seq<real>)
      requires |draws| == |tokens|
      modifies this
      ensures balances == MockBalances(tokens, draws) && !isLoading && error == old(error)
      ensures Consistent()
    {
      var generated := GenerateBalances(tokens, draws);
      balances := generated;
      isLoading := false;
    }

    /** The fetch threw: the error is recorded, the balances are kept; `finally` stops loading. */
    method Fail(thrown: Thrown)
      modifies this
      ensures error == Some(Caught(thrown, FailureMessage)) && !isLoading && balances == old(balances)
      ensures Consistent()
    {
      error := Some(Caught(thrown, FailureMessage));
      isLoading := false;
    }
  }
}
