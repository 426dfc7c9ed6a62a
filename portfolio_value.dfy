/**
 * hooks/usePortofolioValue.ts: the portfolio hook's state cells. Its total
 * and change are constants; no sum over balances or positions is computed.
 */
module PortfolioValue {
  import opened Wrappers
  import opened Js
  import opened Fetch

  const FailureMessage: string := "Failed to fetch portfolio value"

  /** The figures a successful fetch installs, whatever the address. */
  const MockTotalValue: real := 7510.5
  const MockPortfolioChange: real := 3.75

  /** The per-chain figures shown by the overview card: Ethereum, Polygon, Arbitrum, Base. */
  function PerChainFigures(): seq<real> {
    [4230.75, 1875.20, 921.30, 483.25]
  }

  function Sum(s: seq<real>): real
    decreases |s|
  {
    if s == [] then 0.0 else s[0] + Sum(s[1..])
  }

  /** The constant total agrees with the four per-chain figures. */
  lemma MockTotalMatchesPerChainFigures()
    ensures Sum(PerChainFigures()) == MockTotalValue
  {
    var f := PerChainFigures();
    assert Sum(f[3..]) == 483.25;
    assert Sum(f[2..]) == 921.30 + 483.25;
    assert Sum(f[1..]) == 1875.20 + 921.30 + 483.25;
  }

  /** The hook's state cells. */
  class PortfolioValueHook {
    var totalValue: real
    var portfolioChange: real
    var isLoading: bool
    var error: Option<FetchError>

    /** 0, 0, loading, no error. */
    constructor ()
      ensures totalValue == 0.0 && portfolioChange == 0.0 && isLoading && error == None
    {
      totalValue := 0.0;
      portfolioChange := 0.0;
      isLoading := true;
      error := None;
    }

    /**
     * The effect, run when the address or the chain id changes. Without an
     * address both figures drop to 0 and loading stops, starting no fetch;
     * otherwise it starts a fetch: loading, error cleared.
     */
    method OnEffect(address: Option<string>, chainId: int) returns (started: bool)
      modifies this
      ensures started <==> Truthy(address)
      ensures !started ==> totalValue == 0.0 && portfolioChange == 0.0 && !isLoading && error == old(error)
      ensures started ==> isLoading && error == None
      ensures started ==> totalValue == old(totalValue) && portfolioChange == old(portfolioChange)
    {
      if !Truthy(address) {
        totalValue := 0.0;
        portfolioChange := 0.0;
        isLoading := false;
        return false;
      }
      isLoading := true;
      error := None;
      return true;
    }

    /** The fetch succeeded: the two constants are installed; `finally` stops loading. */
    method Succeed()
      modifies this
      ensures totalValue == MockTotalValue && portfolioChange == MockPortfolioChange
      ensures !isLoading && error == old(error)
    {
      totalValue := MockTotalValue;
      portfolioChange := MockPortfolioChange;
      isLoading := false;
    }

    /** The fetch threw: the error is recorded, both figures are kept; `finally` stops loading. */
    method Fail(thrown: Thrown)
      modifies this
      ensures error == Some(Caught(thrown, FailureMessage)) && !isLoading
      ensures totalValue == old(totalValue) && portfolioChange == old(portfolioChange)
    {
      error := Some(Caught(thrown, FailureMessage));
      isLoading := false;
    }
  }
}
