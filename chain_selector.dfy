/**
 * ChainSelector.tsx: the lookup of the chain shown on the button, the
 * highlight rule of the menu entries, and the open/closed state of the menu.
 * `switchChain` of the wallet library is a request the model records.
 */
module ChainSelector {
  import opened Wrappers
  import opened Js
  import opened Registry

  /** `chain.id === chainId`. */
  predicate HasId(chain: Chain, chainId: int) {
    chain.id == chainId
  }

  /**
   * `supportedChains.find(chain => chain.id === chainId) || supportedChains[0]`:
   * the first supported chain with the wallet's id, else the first chain.
   * The supported list is a four-entry literal, so it is never empty.
   */
  function CurrentChain(chains: seq<Chain>, chainId: int): (c: Chain)
    requires chains != []
    ensures c in chains
    ensures (exists k :: 0 <= k < |chains| && chains[k].id == chainId) ==> c.id == chainId
    ensures (forall k :: 0 <= k < |chains| ==> chains[k].id != chainId) ==> c == chains[0]
  {
    var found := Find(chains, (chain: Chain) => HasId(chain, chainId));
    if found.Some? then found.value else chains[0]
  }

  /** The chain shown is the first one with the wallet's id: no earlier entry has it. */
  lemma CurrentChainIsFirstMatch(chains: seq<Chain>, chainId: int, k: nat)
    requires k < |chains| && chains[k].id == chainId
    requires forall j :: 0 <= j < k ==> chains[j].id != chainId
    ensures CurrentChain(chains, chainId) == chains[k]
  {
    var p := (chain: Chain) => HasId(chain, chainId);
    assert p(chains[k]);
    var found := Find(chains, p);
    var i :| FirstMatch(chains, p, i) && chains[i] == found.value;
    assert i == k;
  }

  /** An entry of the open menu is highlighted when its id is the wallet's chain id. */
  predicate IsHighlighted(chain: Chain, chainId: int) {
    chain.id == chainId
  }

  /**
   * For a chain id that no supported chain has, the button shows the first
   * chain while no entry of the menu is highlighted.
   */
  lemma UnsupportedChainHighlightsNone(chains: seq<Chain>, chainId: int)
    requires chains != []
    requires forall k :: 0 <= k < |chains| ==> chains[k].id != chainId
    ensures CurrentChain(chains, chainId) == chains[0]
    ensures forall k :: 0 <= k < |chains| ==> !IsHighlighted(chains[k], chainId)
  {
  }

  /** For a supported chain id, the button's chain is highlighted in the menu. */
  lemma SupportedChainIsHighlighted(chains: seq<Chain>, chainId: int, k: nat)
    requires k < |chains| && chains[k].id == chainId
    ensures IsHighlighted(CurrentChain(chains, chainId), chainId)
  {
  }

  /** The menu's state cell, plus the switch requests sent to the wallet. */
  class ChainMenu {
    var isOpen: bool
    var switchRequests: seq<int>

    /** The entries rendered: all supported chains while open, none while closed. */
    function Entries(chains: seq<Chain>): (r: seq<Chain>)
      reads this
      ensures isOpen ==> r == chains
      ensures !isOpen ==> r == []
    {
      if isOpen then chains else []
    }

    /** Closed, and nothing requested. */
    constructor ()
      ensures !isOpen && switchRequests == []
    {
      isOpen := false;
      switchRequests := [];
    }

    /** A click on the button flips the menu; two clicks restore it. */
    method Toggle()
      modifies this
      ensures isOpen == !old(isOpen)
      ensures switchRequests == old(switchRequests)
    {
      isOpen := !isOpen;
    }

    /** A click on an entry requests a switch to that entry's chain and closes the menu. */
    method Choose(chain: Chain)
      modifies this
      ensures switchRequests == old(switchRequests) + [chain.id]
      ensures !isOpen
    {
      switchRequests := switchRequests + [chain.id];
      isOpen := false;
    }
  }
}
