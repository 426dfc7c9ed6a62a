/**
 * TransactionHistory.tsx: the chain-name and status-colour tables, the
 * icon colour per transaction type, the status label, the hard-coded list
 * of four transactions and the choice of what the card shows.
 */
module TransactionHistory {
  import opened Js

  /**
   * A transaction of the mock list. `kind` and `status` are the source's
   * free-form `type` and `status` strings; the timestamp is `now - ageMillis`.
   */
  datatype Transaction = Transaction(
    id: string, kind: string, description: string, ageMillis: int,
    status: string, value: real, chainId: int)

  /** `tx.timestamp`, for a clock reading `now` in milliseconds. */
  function Timestamp(tx: Transaction, now: int): int {
    now - tx.ageMillis
  }

  /** The chain ids `getChainName` knows. */
  const KnownChainIds: set<int> := {1, 137, 42161, 8453}

  /** `getChainName`. */
  function ChainName(chainId: int): (r: string)
    ensures r == "Unknown" <==> chainId !in KnownChainIds
  {
    if chainId == 1 then "Ethereum"
    else if chainId == 137 then "Polygon"
    else if chainId == 42161 then "Arbitrum"
    else if chainId == 8453 then "Base"
    else "Unknown"
  }

  /** The four known chains carry pairwise different names. */
  lemma ChainNamesDistinct(a: int, b: int)
    requires a in KnownChainIds && b in KnownChainIds && a != b
    ensures ChainName(a) != ChainName(b)
  {
  }

  /** `getStatusColor`: the three known statuses have their own colours; anything else is gray. */
  function StatusColor(status: string): (r: string)
    ensures r == "bg-gray-500" <==> status !in {"completed", "pending", "failed"}
  {
    if status == "completed" then "bg-green-500"
    else if status == "pending" then "bg-yellow-500"
    else if status == "failed" then "bg-red-500"
    else "bg-gray-500"
  }

  lemma StatusColors()
    ensures StatusColor("completed") == "bg-green-500"
    ensures StatusColor("pending") == "bg-yellow-500"
    ensures StatusColor("failed") == "bg-red-500"
  {
  }

  /** The icon background: three known types have their own colours; any other type is purple. */
  function TypeColor(kind: string): (r: string)
    ensures r == "bg-purple-500" <==> kind !in {"swap", "deposit", "withdraw"}
  {
    if kind == "swap" then "bg-blue-500"
    else if kind == "deposit" then "bg-green-500"
    else if kind == "withdraw" then "bg-orange-500"
    else "bg-purple-500"
  }

  lemma TypeColors()
    ensures TypeColor("swap") == "bg-blue-500"
    ensures TypeColor("deposit") == "bg-green-500"
    ensures TypeColor("withdraw") == "bg-orange-500"
    ensures TypeColor("claim") == "bg-purple-500"
  {
  }

  /** The status text: the first character upper-cased, the rest kept. */
  function StatusLabel(status: string): (r: string)
    ensures |r| == |status|
    ensures status != "" ==> r[0] == UpperChar(status[0]) && r[1..] == status[1..]
  {
    Capitalize(status)
  }

  lemma StatusLabels()
    ensures StatusLabel("completed") == "Completed"
    ensures StatusLabel("pending") == "Pending"
    ensures StatusLabel("") == ""
  {
  }

  const MinuteMillis: int := 1000 * 60
  const HourMillis: int := 1000 * 60 * 60

  /** The hard-coded list. */
  function MockTransactions(): seq<Transaction> {
    [ Transaction("0x1234...5678", "swap", "Swap 0.5 ETH for 1,200 USDC", MinuteMillis * 15, "completed", 850.0, 1),
      Transaction("0xabcd...ef01", "deposit", "Deposit 1,000 USDC to Aave", HourMillis * 2, "completed", 1000.0, 137),
      Transaction("0x2345...6789", "withdraw", "Withdraw 0.2 ETH from Compound", HourMillis * 5, "completed", 340.0, 42161),
      Transaction("0xefgh...ijkl", "claim", "Claim 25 UNI rewards", HourMillis * 24, "completed", 125.0, 8453) ]
  }

  /**
   * Four entries with pairwise distinct ids and chain ids, all completed,
   * each on a chain with a known name, ordered newest first.
   */
  lemma MockTransactionsFacts(now: int)
    ensures var txs := MockTransactions();
            |txs| == 4
            && (forall j, k :: 0 <= j < k < |txs| ==> txs[j].id != txs[k].id && txs[j].chainId != txs[k].chainId)
            && (forall k :: 0 <= k < |txs| ==> txs[k].status == "completed")
            && (forall k :: 0 <= k < |txs| ==> ChainName(txs[k].chainId) != "Unknown")
            && (forall j, k :: 0 <= j < k < |txs| ==> Timestamp(txs[j], now) > Timestamp(txs[k], now))
  {
  }

  /** The four shown chain names, in list order. */
  lemma MockChainNames()
    ensures var txs := MockTransactions();
            [ChainName(txs[0].chainId), ChainName(txs[1].chainId), ChainName(txs[2].chainId), ChainName(txs[3].chainId)]
            == ["Ethereum", "Polygon", "Arbitrum", "Base"]
  {
  }

  /** The card's loading flag never leaves its initial value. */
  const IsLoading: bool := false

  /** What the card shows. */
  datatype HistoryBody = Skeletons | NoTransactions | Rows(transactions: seq<Transaction>)

  /** Loading outranks the empty state; the empty message appears exactly when the list is empty. */
  function BodyFor(isLoading: bool, transactions: seq<Transaction>): (b: HistoryBody)
    ensures isLoading <==> b == Skeletons
    ensures b == NoTransactions <==> !isLoading && transactions == []
    ensures b.Rows? ==> b.transactions == transactions && transactions != []
  {
    if isLoading then Skeletons
    else if transactions == [] then NoTransactions
    else Rows(transactions)
  }

  /** As written, the card always lists the four mock transactions. */
  lemma MockBody()
    ensures BodyFor(IsLoading, MockTransactions()) == Rows(MockTransactions())
  {
  }
}
