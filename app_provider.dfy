/**
 * app/provider.tsx: the query retry predicate, the configured chain list
 * and the WalletConnect project-id fallback. (The layout imports the
 * sibling app/providers.tsx; this file is modelled for its logic alone.)
 */
module AppProvider {
  import opened Wrappers
  import opened Js

  /** The error handed to `retry`: possibly missing, with a possibly missing message. */
  datatype QueryError = QueryError(message: Option<string>)

  /** `error?.message?.includes('User rejected')`: false when the error or its message is missing. */
  predicate IsUserRejection(error: Option<QueryError>) {
    error.Some? && error.value.message.Some? && Includes(error.value.message.value, "User rejected")
  }

  const MaxRetries: int := 3

  /** The `retry` option: never after a user rejection, otherwise while fewer than three failures have been retried. */
  function ShouldRetry(failureCount: int, error: Option<QueryError>): (r: bool)
    ensures IsUserRejection(error) ==> !r
    ensures !IsUserRejection(error) ==> (r <==> failureCount < MaxRetries)
  {
    if IsUserRejection(error) then false
    else failureCount < MaxRetries
  }

  /** A missing error and an error without a message are treated alike: only the count decides. */
  lemma MissingMessageUsesCount(failureCount: int)
    ensures ShouldRetry(failureCount, None) == (failureCount < MaxRetries)
    ensures ShouldRetry(failureCount, Some(QueryError(None))) == (failureCount < MaxRetries)
  {
  }

  /**
   * The retries the query library grants for a run of consecutive failures
   * with the given errors, when the predicate is asked with the number of
   * failures already retried (0 on the first failure). At most one retry per
   * failure, and never more than the three the count rule leaves.
   */
  function RetriesGranted(errors: seq<Option<QueryError>>, failureCount: nat): (n: nat)
    ensures n <= |errors|
    ensures n <= if failureCount < MaxRetries then MaxRetries - failureCount else 0
    decreases |errors|
  {
    if errors == [] || !ShouldRetry(failureCount, errors[0]) then 0
    else 1 + RetriesGranted(errors[1..], failureCount + 1)
  }

  /** Four or more failures none of which is a user rejection get exactly three retries. */
  lemma {:induction false} ThreeRetriesWithoutRejection(errors: seq<Option<QueryError>>, failureCount: nat)
    requires failureCount <= MaxRetries && |errors| >= MaxRetries - failureCount + 1
    requires forall k :: 0 <= k < |errors| ==> !IsUserRejection(errors[k])
    ensures RetriesGranted(errors, failureCount) == MaxRetries - failureCount
    decreases |errors|
  {
    if failureCount < MaxRetries {
      assert !IsUserRejection(errors[0]);
      assert forall k :: 0 <= k < |errors[1..]| ==> !IsUserRejection(errors[1..][k]) by {
        forall k | 0 <= k < |errors[1..]|
          ensures !IsUserRejection(errors[1..][k])
        {
          assert errors[1..][k] == errors[k + 1];
        }
      }
      ThreeRetriesWithoutRejection(errors[1..], failureCount + 1);
    }
  }

  /** A user rejection on the first failure is never retried. */
  lemma RejectionStopsAtOnce(errors: seq<Option<QueryError>>, failureCount: nat)
    requires errors != [] && IsUserRejection(errors[0])
    ensures RetriesGranted(errors, failureCount) == 0
  {
  }

  /** The chains passed to the wallet configuration. */
  datatype ChainTag = Mainnet | Polygon | Arbitrum | Base | Sepolia

  /** The four mainnets, then Sepolia exactly when NEXT_PUBLIC_ENABLE_TESTNETS is the string "true". */
  function ConfiguredChains(enableTestnets: Option<string>): (r: seq<ChainTag>)
    ensures |r| >= 4 && r[..4] == [Mainnet, Polygon, Arbitrum, Base]
    ensures Sepolia in r <==> enableTestnets == Some("true")
    ensures |r| == 5 <==> enableTestnets == Some("true")
    ensures |r| <= 5
  {
    [Mainnet, Polygon, Arbitrum, Base] + (if enableTestnets == Some("true") then [Sepolia] else [])
  }

  /** `NEXT_PUBLIC_WALLETCONNECT_PROJECT_ID || 'demo-project-id'`. */
  function ProjectId(env: Option<string>): (id: string)
    ensures id != ""
    ensures Truthy(env) ==> id == env.value
    ensures !Truthy(env) ==> id == "demo-project-id"
  {
    OrElse(env, "demo-project-id")
  }
}
