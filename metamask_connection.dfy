/**
 * The wallet panel (`MetaMaskConnection` component): which status and button
 * labels and which boxes it shows for a session, its one piece of local
 * state, the `copied` flag, and the `shortenAddress` helper it defines. The
 * panel shows the full account address and never calls that helper.
 */
module MetaMaskConnection {
  import opened JsValues
  import opened UseMetaMask

  /**
   * `shortenAddress` (defined by the panel, not called by it): the first six
   * characters, `...`, the last four. Each
   * `substring` clamps its indices, so a short address is not cut: fewer
   * than six characters are all kept in front, fewer than four all kept
   * behind.
   */
  function ShortenAddress(address: string): (r: string)
    ensures r == (if |address| < 6 then address else address[..6]) + "..." +
                 (if |address| < 4 then address else address[|address| - 4..])
    ensures |address| >= 10 ==>
      |r| == 13 && r[..6] == address[..6] && r[6..9] == "..." && r[9..] == address[|address| - 4..]
  {
    Substring(address, 0, 6) + "..." + Substring(address, |address| - 4, |address|)
  }

  /** The text next to the status dot: connected first, then an error, then disconnected. */
  function StatusText(s: Session): (r: string)
    ensures r == "Connected" <==> s.isConnected
    ensures r == "Error" <==> !s.isConnected && Truthy(s.error)
    ensures r == "Disconnected" <==> !s.isConnected && !Truthy(s.error)
  {
    if s.isConnected then "Connected" else if Truthy(s.error) then "Error" else "Disconnected"
  }

  /** The colour of the status dot, chosen by the same conditions in the same order. */
  function IndicatorColour(s: Session): (r: string)
    ensures r == "bg-green-500" <==> StatusText(s) == "Connected"
    ensures r == "bg-red-500" <==> StatusText(s) == "Error"
    ensures r == "bg-neutral-300" <==> StatusText(s) == "Disconnected"
  {
    if s.isConnected then "bg-green-500" else if Truthy(s.error) then "bg-red-500" else "bg-neutral-300"
  }

  /** The connect button's text: connecting wins over connected. */
  function ConnectButtonText(s: Session): (r: string)
    ensures r == "Connecting..." <==> s.isConnecting
    ensures r == "Connected" <==> !s.isConnecting && s.isConnected
    ensures r == "Connect MetaMask" <==> !s.isConnecting && !s.isConnected
  {
    if s.isConnecting then "Connecting..." else if s.isConnected then "Connected" else "Connect MetaMask"
  }

  /** The connect button is disabled while connecting and once connected. */
  predicate ConnectButtonDisabled(s: Session) {
    s.isConnecting || s.isConnected
  }

  /** The account box (address and copy button) is shown for a connected session with an account. */
  predicate AccountPanelShown(s: Session) {
    s.isConnected && Truthy(s.account)
  }

  /** The error box is shown whenever there is an error text. */
  predicate ErrorPanelShown(s: Session) {
    Truthy(s.error)
  }

  /**
   * A connection attempt that fails from a disconnected session ends showing
   * "Error", with the connect button enabled again and no account box.
   */
  lemma FailedConnectShowsError(s: Session, hasEthereum: bool, req: AccountsReply, sw: SwitchReply, add: AddReply, read: BalanceRead)
    requires !s.isConnected && !ConnectReaches(req, sw, add)
    ensures var t := Connected(s, hasEthereum, req, sw, add, read);
      StatusText(t) == "Error" && ErrorPanelShown(t) && !AccountPanelShown(t) &&
      (hasEthereum ==> !ConnectButtonDisabled(t) && ConnectButtonText(t) == "Connect MetaMask")
  {
  }

  /**
   * A connection attempt that gets through ends showing "Connected", with
   * the button disabled and the account box shown for a non-empty account.
   */
  lemma SuccessfulConnectShowsAccount(s: Session, req: AccountsReply, sw: SwitchReply, add: AddReply, read: BalanceRead)
    requires ConnectReaches(req, sw, add)
    ensures var t := Connected(s, true, req, sw, add, read);
      StatusText(t) == "Connected" && ConnectButtonDisabled(t) && ConnectButtonText(t) == "Connected" &&
      (AccountPanelShown(t) <==> req.list[0] != "")
  {
  }

  /** After a disconnect the account box is gone and the button is enabled unless a connect is running. */
  lemma DisconnectHidesAccount(s: Session)
    ensures var t := Disconnected(s);
      !AccountPanelShown(t) && StatusText(t) != "Connected" &&
      (ConnectButtonDisabled(t) <==> s.isConnecting)
  {
  }

  /** The panel's own state hook. */
  class Component {
    var copied: bool

    constructor ()
      ensures !copied
    {
      copied := false;
    }

    /**
     * `handleCopyAddress`: with an account, asks the hook to copy it;
     * `copyToClipboard` reports whether the clipboard write succeeded, and
     * only then is `copied` raised.
     */
    method HandleCopyAddress(account: Option<string>, clipboardWriteSucceeded: bool)
      modifies this
      ensures copied == (old(copied) || (Truthy(account) && clipboardWriteSucceeded))
    {
      if Truthy(account) && clipboardWriteSucceeded {
        copied := true;
      }
    }

    /** The reset timer's callback. */
    method OnCopyResetTimer()
      modifies this
      ensures !copied
    {
      copied := false;
    }
  }
}
