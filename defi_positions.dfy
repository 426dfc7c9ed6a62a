/**
 * hooks/useDeFiPositions.ts: the DeFi position hook's state cells and its
 * hard-coded table of six positions.
 */
module DeFiPositions {
  import opened Wrappers
  import opened Js
  import opened Fetch

  const FailureMessage: string := "Failed to fetch DeFi positions"

  /** The three-valued `type` of a position. */
  datatype PositionType = Lending | Liquidity | Staking

  datatype Protocol = Protocol(name: string, icon: string, url: string)

  /** A position: `kind` is the source's `type` field; `value` is in USD and `apy` in percent. */
  datatype DeFiPosition = DeFiPosition(
    id: string, protocol: Protocol, kind: PositionType, asset: string,
    value: real, apy: real, chainId: int)

  const IconBase: string := "https://raw.githubusercontent.com/Uniswap/assets/master/blockchains/ethereum/assets/"
  const Aave: Protocol := Protocol("Aave", IconBase + "0x7Fc66500c84A76Ad7e9c93437bFc5Ac33E2DDaE9/logo.png", "https://aave.com")
  const Compound: Protocol := Protocol("Compound", IconBase + "0xc00e94Cb662C3520282E6f5717214004A7f26888/logo.png", "https://compound.finance")
  const Uniswap: Protocol := Protocol("Uniswap", IconBase + "0x1f9840a85d5aF5bf1D1762F925BDADdC4201F984/logo.png", "https://uniswap.org")
  const Lido: Protocol := Protocol("Lido", IconBase + "0x5A98FcBEA516Cf06857215779Fd812CA3beF1B32/logo.png", "https://lido.fi")
  const Sushiswap: Protocol := Protocol("Sushiswap", IconBase + "0x6B3595068778DD592e39A122f4f5a5cF09C90fE2/logo.png", "https://sushi.com")

  /** The table a successful fetch installs. */
  function MockPositions(): seq<DeFiPosition> {
    [ DeFiPosition("1", Aave, Lending, "USDC", 2543.67, 3.45, 1),
      DeFiPosition("2", Compound, Lending, "ETH", 1820.33, 1.87, 1),
      DeFiPosition("3", Uniswap, Liquidity, "ETH/USDC", 1205.88, 15.72, 137),
      DeFiPosition("4", Lido, Staking, "ETH", 835.42, 4.25, 1),
      DeFiPosition("5", Aave, Lending, "MATIC", 612.19, 2.86, 137),
      DeFiPosition("6", Sushiswap, Liquidity, "ETH/WBTC", 487.66, 12.34, 42161) ]
  }

  /** The ids of a list of positions, in order. */
  function Ids(ps: seq<DeFiPosition>): (ids: seq<string>)
    ensures |ids| == |ps| && forall k :: 0 <= k < |ps| ==> ids[k] == ps[k].id
  {
    seq(|ps|, k requires 0 <= k < |ps| => ps[k].id)
  }

  /** Six positions with ids "1" to "6" in order, so the ids are pairwise distinct. */
  lemma MockPositionsIds()
    ensures Ids(MockPositions()) == ["1", "2", "3", "4", "5", "6"]
    ensures forall j, k :: 0 <= j < k < |MockPositions()| ==> MockPositions()[j].id != MockPositions()[k].id
  {
  }

  /** Every mock position has a positive value and a positive APY. */
  lemma MockPositionsPositive()
    ensures forall k :: 0 <= k < |MockPositions()| ==> MockPositions()[k].value > 0.0 && MockPositions()[k].apy > 0.0
  {
  }

  /** The hook's state cells. */
  class DeFiPositionsHook {
    var positions: seq<DeFiPosition>
    var isLoading: bool
    var error: Option<FetchError>

    /** `[]`, loading, no error. */
    constructor ()
      ensures positions == [] && isLoading && error == None
    {
      positions := [];
      isLoading := true;
      error := None;
    }

    /**
     * The effect, run when the address or the chain id changes. Without an
     * address it clears the positions and stops loading, starting no fetch;
     * otherwise it starts a fetch: loading, error cleared.
     */
    method OnEffect(address: Option<string>, chainId: int) returns (started: bool)
      modifies this
      ensures started <==> Truthy(address)
      ensures !started ==> positions == [] && !isLoading && error == old(error)
      ensures started ==> isLoading && error == None && positions == old(positions)
    {
      if !Truthy(address) {
        positions := [];
        isLoading := false;
        return false;
      }
      isLoading := true;
      error := None;
      return true;
    }

    /** The fetch succeeded: the mock table replaces the positions; `finally` stops loading. */
    method Succeed()
      modifies this
      ensures positions == MockPositions() && !isLoading && error == old(error)
    {
      positions := MockPositions();
      isLoading := false;
    }

    /** The fetch threw: the error is recorded, the positions are kept; `finally` stops loading. */
    method Fail(thrown: Thrown)
      modifies this
      ensures error == Some(Caught(thrown, FailureMessage)) && !isLoading && positions == old(positions)
    {
      error := Some(Caught(thrown, FailureMessage));
      isLoading := false;
    }
  }
}
