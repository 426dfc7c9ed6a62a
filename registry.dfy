/**
 * The two registries the components read but whose definitions are not part
 * of this model: the token registry (`commonTokens`) and the supported chain
 * list (`supportedChains`, built from chain objects of the wallet library).
 * Both appear as sequences that callers pass in.
 */
module Registry {

  /** A registered token: its contract address, display names, decimals and unit price in USD. */
  datatype Token = Token(address: string, name: string, symbol: string, decimals: int, price: real)

  /** A supported chain: numeric id, display name, network slug and its first default HTTP RPC URL. */
  datatype Chain = Chain(id: int, name: string, network: string, rpcUrl: string)

  /** The set of addresses of the registered tokens. */
  function Addresses(tokens: seq<Token>): (a: set<string>)
    ensures forall k :: 0 <= k < |tokens| ==> tokens[k].address in a
    ensures forall x :: x in a ==> exists k :: 0 <= k < |tokens| && tokens[k].address == x
  {
    set k | 0 <= k < |tokens| :: tokens[k].address
  }

  /** No two registered tokens share an address. */
  predicate DistinctAddresses(tokens: seq<Token>) {
    forall j, k :: 0 <= j < k < |tokens| ==> tokens[j].address != tokens[k].address
  }
}
