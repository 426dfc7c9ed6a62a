/**
 * app/page.tsx: the page's `mounted` flag and the choice among its four
 * views from the wallet library's `isConnected` and `isConnecting`.
 */
module DashboardPage {

  /** The four things the page can render. */
  datatype View = Spinner | Landing | ConnectingView | Dashboard

  /**
   * The if-chain of the page: the spinner until mounted, then the landing
   * page when neither connected nor connecting, then the connecting screen
   * while connecting, and the dashboard otherwise.
   */
  function SelectView(mounted: bool, isConnected: bool, isConnecting: bool): (v: View)
    ensures v == Spinner <==> !mounted
    ensures v == Landing <==> mounted && !isConnected && !isConnecting
    ensures v == ConnectingView <==> mounted && isConnecting
    ensures v == Dashboard <==> mounted && isConnected && !isConnecting
  {
    if !mounted then Spinner
    else if !isConnected && !isConnecting then Landing
    else if isConnecting then ConnectingView
    else Dashboard
  }

  /** Before mount the wallet state is irrelevant. */
  lemma SpinnerIgnoresWallet(c1: bool, g1: bool, c2: bool, g2: bool)
    ensures SelectView(false, c1, g1) == SelectView(false, c2, g2) == Spinner
  {
  }

  /** Connecting outranks connected: both flags set shows the connecting screen. */
  lemma ConnectingOutranksConnected()
    ensures SelectView(true, true, true) == ConnectingView
  {
  }

  /** The page's state cell. */
  class Page {
    var mounted: bool

    /** What the page renders for the current wallet flags. */
    function View(isConnected: bool, isConnecting: bool): View
      reads this
    {
      SelectView(mounted, isConnected, isConnecting)
    }

    /** The first render happens unmounted. */
    constructor ()
      ensures !mounted
    {
      mounted := false;
    }

    /** The mount effect, with an empty dependency list: it sets the flag, which nothing clears. */
    method Mount()
      modifies this
      ensures mounted
    {
      mounted := true;
    }
  }
}
