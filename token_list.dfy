/**
 * TokenList.tsx: the case-insensitive token search, the balance shown per
 * row, the row value, the fraction-digit rule and the choice of what the
 * list area shows.
 */
module TokenList {
  import opened Wrappers
  import opened Js
  import opened Registry
  import opened Fetch
  import opened TokenBalance

  /** A token is listed when its lower-cased name or symbol includes the lower-cased query. */
  predicate Matches(token: Token, query: string) {
    Includes(ToLower(token.name), ToLower(query)) || Includes(ToLower(token.symbol), ToLower(query))
  }

  /** `filteredTokens`. */
  function FilterTokens(tokens: seq<Token>, query: string): (r: seq<Token>)
    ensures forall k :: 0 <= k < |r| ==> r[k] in tokens && Matches(r[k], query)
    ensures forall k :: 0 <= k < |tokens| && Matches(tokens[k], query) ==> tokens[k] in r
  {
    FilterMembers(tokens, (t: Token) => Matches(t, query));
    Filter(tokens, (t: Token) => Matches(t, query))
  }

  /**
   * A token record the registry repeats is listed as often as it occurs there
   * when it matches, and not at all otherwise.
   */
  lemma FilterTokensCount(tokens: seq<Token>, query: string, t: Token)
    ensures multiset(FilterTokens(tokens, query))[t] == if Matches(t, query) then multiset(tokens)[t] else 0
  {
    FilterMultiset(tokens, (u: Token) => Matches(u, query), t);
  }

  /** The empty query lists the whole registry, in registry order. */
  lemma FilterEmptyQuery(tokens: seq<Token>)
    ensures FilterTokens(tokens, "") == tokens
  {
    forall k | 0 <= k < |tokens|
      ensures Matches(tokens[k], "")
    {
      IncludesEmpty(ToLower(tokens[k].name));
    }
    FilterKeepsAll(tokens, (t: Token) => Matches(t, ""));
  }

  /** The filtered list keeps the registry's order, and filtering it again with the same query changes nothing. */
  lemma FilterOrderAndIdempotence(tokens: seq<Token>, query: string)
    ensures IsSubsequence(FilterTokens(tokens, query), tokens)
    ensures FilterTokens(FilterTokens(tokens, query), query) == FilterTokens(tokens, query)
  {
    FilterIsSubsequence(tokens, (t: Token) => Matches(t, query));
    FilterIdempotent(tokens, (t: Token) => Matches(t, query));
  }

  /** Matching ignores the case of the query: an upper-case query finds what its lower-case form finds. */
  lemma FilterIgnoresQueryCase(tokens: seq<Token>, query: string)
    ensures FilterTokens(tokens, ToLower(query)) == FilterTokens(tokens, query)
  {
    ToLowerIdempotent(query);
    FilterSamePredicate(tokens, (t: Token) => Matches(t, ToLower(query)), (t: Token) => Matches(t, query));
  }

  /** `balances[token.address] || 0`: an absent or zero balance shows 0. */
  function DisplayBalance(balances: map<string, real>, address: string): (b: real)
    ensures address !in balances ==> b == 0.0
    ensures address in balances ==> b == balances[address]
  {
    if address in balances && balances[address] != 0.0 then balances[address] else 0.0
  }

  /** `tokenValue`: the row's USD value. */
  function TokenValue(token: Token, balance: real): (v: real)
    ensures balance == 0.0 ==> v == 0.0
    ensures token.price >= 0.0 && balance >= 0.0 ==> v >= 0.0
  {
    token.price * balance
  }

  /** Amounts of tokens with more than six decimals get four fraction digits, others two. */
  function FractionDigits(decimals: int): (d: nat)
    ensures d == 2 || d == 4
    ensures d == 4 <==> decimals > 6
  {
    if decimals > 6 then 4 else 2
  }

  /** One row of the list. */
  datatype TokenRow = TokenRow(token: Token, balance: real, selected: bool)

  /** What the list area shows. */
  datatype TokenListBody = Spinner | LoadError | Rows(rows: seq<TokenRow>, noneFound: bool)

  /** The rows of the filtered tokens, with their balances and selection marks. */
  function RowsFor(filtered: seq<Token>, balances: map<string, real>, selected: Option<string>): (rows: seq<TokenRow>)
    ensures |rows| == |filtered|
    ensures forall k :: 0 <= k < |rows| ==>
              (rows[k].token == filtered[k]
               && rows[k].balance == DisplayBalance(balances, filtered[k].address)
               && (rows[k].selected <==> selected == Some(filtered[k].address)))
  {
    seq(|filtered|, k requires 0 <= k < |filtered| =>
      TokenRow(filtered[k], DisplayBalance(balances, filtered[k].address), selected == Some(filtered[k].address)))
  }

  /**
   * Loading outranks an error, an error outranks the list; the "No tokens
   * found" line appears exactly when the filtered list is empty.
   */
  function BodyFor(isLoading: bool, error: Option<FetchError>, tokens: seq<Token>,
                   balances: map<string, real>, query: string, selected: Option<string>): (b: TokenListBody)
    ensures isLoading <==> b == Spinner
    ensures b == LoadError <==> !isLoading && error.Some?
    ensures b.Rows? ==> |b.rows| == |FilterTokens(tokens, query)|
                        && (b.noneFound <==> FilterTokens(tokens, query) == [])
                        && forall k :: 0 <= k < |b.rows| ==> b.rows[k].token == FilterTokens(tokens, query)[k]
  {
    if isLoading then Spinner
    else if error.Some? then LoadError
    else
      var filtered := FilterTokens(tokens, query);
      Rows(RowsFor(filtered, balances, selected), filtered == [])
  }

  /**
   * In every state the balance hook keeps, a stored fetch error is what the
   * list area shows: the spinner never hides it.
   */
  lemma HookErrorIsShown(hook: TokenBalanceHook, tokens: seq<Token>, query: string, selected: Option<string>)
    requires hook.Consistent() && hook.error.Some?
    ensures BodyFor(hook.isLoading, hook.error, tokens, hook.balances, query, selected) == LoadError
  {
  }

  /** The search box's state cell. */
  class TokenSearch {
    var searchQuery: string

    /** The list the search currently shows. */
    function Visible(tokens: seq<Token>): seq<Token>
      reads this
    {
      FilterTokens(tokens, searchQuery)
    }

    /** Starts empty, so the whole registry is listed. */
    constructor ()
      ensures searchQuery == ""
      ensures forall tokens: seq<Token> {:trigger Visible(tokens)} :: Visible(tokens) == tokens
    {
      searchQuery := "";
      forall tokens: seq<Token> ensures FilterTokens(tokens, "") == tokens {
        FilterEmptyQuery(tokens);
      }
    }

    /** Typing into the search box replaces the query. */
    method OnInput(value: string)
      modifies this
      ensures searchQuery == value
    {
      searchQuery := value;
    }
  }
}
