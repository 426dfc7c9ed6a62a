/**
 * app/providers.tsx, the provider file the layout imports: one transport
 * URL per supported chain, and the WalletConnect project-id fallback with
 * its warning.
 */
module AppProviders {
  import opened Wrappers
  import opened Js
  import opened Registry

  /**
   * The Alchemy URL when NEXT_PUBLIC_ALCHEMY_API_KEY is truthy, else the
   * chain's first default RPC URL. The contract is the source's ternary
   * itself; `Transports` and the lemmas after it say how the URLs are used.
   */
  function TransportUrl(chain: Chain, apiKey: Option<string>): (url: string)
    ensures Truthy(apiKey) ==> url == "https://" + chain.network + ".g.alchemy.com/v2/" + apiKey.value
    ensures !Truthy(apiKey) ==> url == chain.rpcUrl
  {
    if Truthy(apiKey) then "https://" + chain.network + ".g.alchemy.com/v2/" + apiKey.value
    else chain.rpcUrl
  }

  /** The ids of the supported chains. */
  function ChainIds(chains: seq<Chain>): (ids: set<int>)
    ensures forall k :: 0 <= k < |chains| ==> chains[k].id in ids
    ensures forall x :: x in ids ==> exists k :: 0 <= k < |chains| && chains[k].id == x
  {
    set k | 0 <= k < |chains| :: chains[k].id
  }

  /** The ids of a non-empty list: those of all but the last entry, plus the last entry's. */
  lemma ChainIdsSnoc(chains: seq<Chain>)
    requires chains != []
    ensures ChainIds(chains) == ChainIds(chains[..|chains| - 1]) + {chains[|chains| - 1].id}
  {
    var init := chains[..|chains| - 1];
    forall x | x in ChainIds(chains)
      ensures x in ChainIds(init) + {chains[|chains| - 1].id}
    {
      var k :| 0 <= k < |chains| && chains[k].id == x;
      if k < |chains| - 1 {
        assert init[k] == chains[k];
      }
    }
    forall x | x in ChainIds(init)
      ensures x in ChainIds(chains)
    {
      var k :| 0 <= k < |init| && init[k].id == x;
      assert chains[k] == init[k];
    }
  }

  /**
   * `Object.fromEntries(supportedChains.map(...))`: the entries are added in
   * list order, so a later chain with the same id replaces an earlier one.
   */
  function Transports(chains: seq<Chain>, apiKey: Option<string>): (m: map<int, string>)
    ensures m.Keys == ChainIds(chains)
  {
    if chains == [] then map[]
    else
      var init := chains[..|chains| - 1];
      var last := chains[|chains| - 1];
      ChainIdsSnoc(chains);
      Transports(init, apiKey)[last.id := TransportUrl(last, apiKey)]
  }

  /** The chain id of entry `k` maps to the URL of the last entry with that id. */
  lemma {:induction false} TransportOfLastWithId(chains: seq<Chain>, apiKey: Option<string>, k: nat)
    requires k < |chains|
    requires forall j :: k < j < |chains| ==> chains[j].id != chains[k].id
    ensures Transports(chains, apiKey)[chains[k].id] == TransportUrl(chains[k], apiKey)
    decreases |chains|
  {
    var init := chains[..|chains| - 1];
    if k < |chains| - 1 {
      assert init[k] == chains[k];
      forall j | k < j < |init|
        ensures init[j].id != init[k].id
      {
        assert init[j] == chains[j];
      }
      TransportOfLastWithId(init, apiKey, k);
    }
  }

  /** With pairwise distinct ids, there is one transport per chain, each for that chain's own URL. */
  lemma OneTransportPerChain(chains: seq<Chain>, apiKey: Option<string>)
    requires forall j, k :: 0 <= j < k < |chains| ==> chains[j].id != chains[k].id
    ensures |Transports(chains, apiKey)| == |chains|
    ensures forall k :: 0 <= k < |chains| ==> Transports(chains, apiKey)[chains[k].id] == TransportUrl(chains[k], apiKey)
  {
    forall k | 0 <= k < |chains|
      ensures Transports(chains, apiKey)[chains[k].id] == TransportUrl(chains[k], apiKey)
    {
      TransportOfLastWithId(chains, apiKey, k);
    }
    DistinctIdsCount(chains);
  }

  /** Pairwise distinct ids make as many ids as chains. */
  lemma {:induction false} DistinctIdsCount(chains: seq<Chain>)
    requires forall j, k :: 0 <= j < k < |chains| ==> chains[j].id != chains[k].id
    ensures |ChainIds(chains)| == |chains|
    decreases |chains|
  {
    if chains != [] {
      var init := chains[..|chains| - 1];
      var last := chains[|chains| - 1];
      forall j, k | 0 <= j < k < |init|
        ensures init[j].id != init[k].id
      {
        assert init[j] == chains[j] && init[k] == chains[k];
      }
      DistinctIdsCount(init);
      ChainIdsSnoc(chains);
      forall k | 0 <= k < |init|
        ensures init[k].id != last.id
      {
        assert init[k] == chains[k];
      }
    }
  }

  /** `NEXT_PUBLIC_WALLETCONNECT_PROJECT_ID || 'development'`. */
  function ProjectId(env: Option<string>): (id: string)
    ensures id != ""
    ensures Truthy(env) ==> id == env.value
    ensures !Truthy(env) ==> id == "development"
  {
    OrElse(env, "development")
  }

  /** The start-up warning about a missing project id. */
  predicate WarnsMissingProjectId(env: Option<string>) {
    !Truthy(env)
  }

  /** The warning is printed exactly when the fallback id is used in place of the variable's value. */
  lemma WarningMeansFallback(env: Option<string>)
    ensures WarnsMissingProjectId(env) <==> (env.None? || ProjectId(env) != env.value)
  {
  }
}
