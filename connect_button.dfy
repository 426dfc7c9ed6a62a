/**
 * components/ConnectButton.tsx: the text of the wallet button, chosen from
 * the wallet library's `isConnected`, `isConnecting`, `ensName` and `address`.
 */
module ConnectButton {
  import opened Wrappers
  import opened Js
  import opened Utils

  /**
   * `${address?.slice(0, 6)}...${address?.slice(-4)}`: an absent address
   * interpolates as "undefined" on both sides.
   */
  function ShortAddress(address: Option<string>): (r: string)
    ensures address.None? ==> r == "undefined...undefined"
    ensures address.Some? ==>
              var a := address.value;
              r == a[..Min(6, |a|)] + "..." + a[|a| - Min(4, |a|)..]
  {
    match address
    case None => "undefined" + "..." + "undefined"
    case Some(a) =>
      SlicePrefix(a, 6);
      SliceSuffix(a, 4);
      Slice(a, 0, 6) + "..." + SliceFrom(a, -4)
  }

  /** For a non-empty address the button shows what `truncateAddress` would. */
  lemma ShortAddressIsTruncation(address: string)
    requires address != ""
    ensures ShortAddress(Some(address)) == TruncateAddress(address)
  {
    SlicePrefix(address, 6);
    SliceSuffix(address, 4);
  }

  /** An empty address leaves only the ellipsis, where `truncateAddress` gives "". */
  lemma ShortEmptyAddress()
    ensures ShortAddress(Some("")) == "..."
    ensures TruncateAddress("") == ""
  {
  }

  /**
   * The button text. Connected wins over connecting: a connected wallet
   * shows its ENS name when that is truthy, else the shortened address.
   */
  function Label(isConnected: bool, isConnecting: bool, ensName: Option<string>, address: Option<string>): (r: string)
    ensures isConnected && Truthy(ensName) ==> r == ensName.value
    ensures isConnected && !Truthy(ensName) ==> r == ShortAddress(address)
    ensures !isConnected && isConnecting ==> r == "Connecting..."
    ensures !isConnected && !isConnecting ==> r == "Connect Wallet"
  {
    if isConnected then OrElse(ensName, ShortAddress(address))
    else if isConnecting then "Connecting..."
    else "Connect Wallet"
  }

  /** Whether the wallet is still connecting does not matter once it is connected. */
  lemma ConnectedOutranksConnecting(ensName: Option<string>, address: Option<string>)
    ensures Label(true, true, ensName, address) == Label(true, false, ensName, address)
  {
  }

  /**
   * A connected wallet without an ENS name but with a 42-character address
   * shows 13 characters: six, the ellipsis, four.
   */
  lemma ConnectedLabelLength(ensName: Option<string>, address: string)
    requires !Truthy(ensName) && |address| == 42
    ensures |Label(true, false, ensName, Some(address))| == 13
  {
    ShortAddressIsTruncation(address);
    TruncateFullAddress(address);
  }
}
