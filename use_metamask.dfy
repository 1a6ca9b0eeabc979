/**
 * The wallet session kept by `MetaMaskProvider`: its state hooks, and the
 * transitions `connectWallet`, `disconnectWallet`, the `accountsChanged`
 * listener, `fetchNativeBalance`, `refreshBalances`, `addChainToMetaMask`
 * and the start-up check for an already connected account.
 *
 * The injected wallet is not called: whether it exists is `hasEthereum`, and
 * what each request answers is an argument. Each transition runs to
 * completion.
 */
module UseMetaMask {
  import opened JsValues

  /** Denomination and decimals of the chain's native coin. */
  const CoinDenom := "pSAGA"
  const CoinDecimals: nat := 6

  /** The wallet's error code for a chain it does not know yet. */
  const UnrecognizedChainCode: int := 4902

  const NotInstalledOnConnect := "MetaMask is not installed. Please install MetaMask to connect."
  const NotInstalledOnAdd := "MetaMask is not installed"
  const AddChainFallback := "Failed to add VERSUS Chainlet to MetaMask"
  const NoAccounts := "No accounts found"
  const ConnectFallback := "Failed to connect to MetaMask"
  const BalanceError := "Failed to fetch token balances"

  datatype TokenBalance = TokenBalance(symbol: string, balance: nat, formatted: string, decimals: nat)

  /**
   * The provider's state hooks. Of the ethers provider only its presence
   * matters to the transitions, so it is `hasProvider`.
   */
  datatype Session = Session(
    isConnected: bool,
    isConnecting: bool,
    account: Option<string>,
    chainId: Option<string>,
    error: Option<string>,
    hasProvider: bool,
    tokenBalances: seq<TokenBalance>,
    isLoadingBalances: bool)

  const InitialSession := Session(false, false, None, None, None, false, [], false)

  /** `getBalance(address)`: the balance and its `formatUnits` text, or a thrown error. */
  datatype BalanceRead = Balance(wei: nat, formatted: string) | BalanceFailed

  /** `eth_requestAccounts`: the accounts granted, or a thrown error. */
  datatype AccountsReply = Accounts(list: seq<string>) | RequestFailed(message: string)

  /** `wallet_switchEthereumChain`: done, or an error with its code. */
  datatype SwitchReply = Switched | SwitchFailed(code: int, message: string)

  /** `wallet_addEthereumChain`: done, or an error. */
  datatype AddReply = ChainAdded | AddFailed(message: string)

  /**
   * The start-up check: `listAccounts` throws, or lists accounts; then
   * `getNetwork` throws (`None`) or gives the chain id as text.
   */
  datatype StartupReply = ListFailed | Listed(accounts: seq<string>, network: Option<string>)

  /** The only balance entry the hook ever stores. */
  function NativeBalance(read: BalanceRead): (b: TokenBalance)
    requires read.Balance?
    ensures b.symbol == CoinDenom && b.decimals == CoinDecimals && b.balance == read.wei
  {
    TokenBalance(CoinDenom, read.wei, read.formatted, CoinDecimals)
  }

  /**
   * What holds whenever no transition is running: a connected session has an
   * account, and the balances are empty or the single native-coin entry.
   */
  predicate Consistent(s: Session) {
    (s.isConnected ==> s.account.Some?) &&
    |s.tokenBalances| <= 1 &&
    forall b :: b in s.tokenBalances ==> b.symbol == CoinDenom && b.decimals == CoinDecimals
  }

  /** Both busy flags are lowered. */
  predicate Settled(s: Session) {
    !s.isConnecting && !s.isLoadingBalances
  }

  /** The connection fields no balance fetch touches. */
  predicate SameConnection(s: Session, t: Session) {
    t.isConnected == s.isConnected && t.isConnecting == s.isConnecting &&
    t.account == s.account && t.chainId == s.chainId && t.hasProvider == s.hasProvider
  }

  /**
   * `fetchNativeBalance`: nothing for an empty address; otherwise the
   * balances become the one native-coin entry, or the error is recorded,
   * and the loading flag ends lowered.
   */
  function BalanceFetched(s: Session, address: string, read: BalanceRead): (t: Session)
    ensures address == "" ==> t == s
    ensures address != "" ==> !t.isLoadingBalances
    ensures address != "" && read.Balance? ==>
      t.tokenBalances == [NativeBalance(read)] && t.error == s.error
    ensures address != "" && read.BalanceFailed? ==>
      t.tokenBalances == s.tokenBalances && t.error == Some(BalanceError)
    ensures SameConnection(s, t)
    ensures Consistent(s) ==> Consistent(t)
    ensures Settled(s) ==> Settled(t)
  {
    if address == "" then s
    else match read
      case Balance(_, _) => s.(tokenBalances := [NativeBalance(read)], isLoadingBalances := false)
      case BalanceFailed => s.(error := Some(BalanceError), isLoadingBalances := false)
  }

  /** `refreshBalances`: needs an account and a provider, then fetches for that account. */
  function Refreshed(s: Session, read: BalanceRead): (t: Session)
    ensures !Truthy(s.account) || !s.hasProvider ==> t == s
    ensures Truthy(s.account) && s.hasProvider ==> t == BalanceFetched(s, s.account.value, read)
  {
    if !Truthy(s.account) || !s.hasProvider then s else BalanceFetched(s, s.account.value, read)
  }

  /**
   * The `accountsChanged` listener (registered only when a wallet is
   * injected): an empty list disconnects without touching the chain id; a
   * non-empty one connects its first account and, with a provider, fetches
   * its balance.
   */
  function AccountsChanged(s: Session, hasEthereum: bool, accounts: seq<string>, read: BalanceRead): (t: Session)
    ensures !hasEthereum ==> t == s
    ensures hasEthereum && accounts == [] ==>
      !t.isConnected && t.account == None && t.tokenBalances == [] &&
      t.chainId == s.chainId && t.error == s.error
    ensures hasEthereum && accounts != [] ==>
      t.isConnected && t.account == Some(accounts[0]) && t.chainId == s.chainId
    ensures hasEthereum && accounts != [] ==>
      t.tokenBalances ==
        (if s.hasProvider && accounts[0] != "" && read.Balance? then [NativeBalance(read)] else s.tokenBalances) &&
      t.error == (if s.hasProvider && accounts[0] != "" && read.BalanceFailed? then Some(BalanceError) else s.error)
    ensures hasEthereum ==>
      t.isConnecting == s.isConnecting && t.hasProvider == s.hasProvider &&
      t.isLoadingBalances ==
        (if accounts != [] && s.hasProvider && accounts[0] != "" then false else s.isLoadingBalances)
    ensures Consistent(s) ==> Consistent(t)
    ensures Settled(s) ==> Settled(t)
  {
    if !hasEthereum then s
    else if accounts == [] then s.(isConnected := false, account := None, tokenBalances := [])
    else
      var switched := s.(account := Some(accounts[0]), isConnected := true);
      if s.hasProvider then BalanceFetched(switched, accounts[0], read) else switched
  }

  /**
   * `addChainToMetaMask`: true exactly when a wallet is injected and the add
   * request succeeds; otherwise the error is recorded. Nothing else changes.
   */
  function ChainAddResult(s: Session, hasEthereum: bool, reply: AddReply): (r: (Session, bool))
    ensures r.1 <==> hasEthereum && reply.ChainAdded?
    ensures r.1 ==> r.0 == s
    ensures !r.1 ==> Truthy(r.0.error) && r.0 == s.(error := r.0.error)
  {
    if !hasEthereum then (s.(error := Some(NotInstalledOnAdd)), false)
    else match reply
      case ChainAdded => (s, true)
      case AddFailed(m) => (s.(error := Some(MessageOr(m, AddChainFallback))), false)
  }

  /** The requests of `connectWallet` succeed far enough to set `isConnected`. */
  predicate ConnectReaches(req: AccountsReply, sw: SwitchReply, add: AddReply) {
    req.Accounts? && req.list != [] &&
    (sw.Switched? || (sw.code == UnrecognizedChainCode && add.ChainAdded?))
  }

  /** After the chain switch: connected, with a provider, and the balance fetched. */
  function Joined(s: Session, address: string, read: BalanceRead): Session {
    BalanceFetched(s.(isConnected := true, hasProvider := true), address, read)
  }

  /** The `try` block of `connectWallet`, with every thrown error caught into `error`. */
  function ConnectAttempt(s: Session, req: AccountsReply, sw: SwitchReply, add: AddReply, read: BalanceRead): Session {
    match req
    case RequestFailed(m) => s.(error := Some(MessageOr(m, ConnectFallback)))
    case Accounts(list) =>
      if list == [] then s.(error := Some(NoAccounts))
      else
        var withAccount := s.(account := Some(list[0]));
        match sw
        case Switched => Joined(withAccount, list[0], read)
        case SwitchFailed(code, m) =>
          if code == UnrecognizedChainCode then
            var added := ChainAddResult(withAccount, true, add);
            if added.1 then Joined(added.0, list[0], read)
            else added.0.(error := Some(AddChainFallback))
          else withAccount.(error := Some(MessageOr(m, ConnectFallback)))
  }

  /**
   * `connectWallet`. Without a wallet only the error is set. Otherwise the
   * error is cleared and `isConnecting` raised at the start and lowered at
   * the end; the first granted account is stored even if the chain switch
   * then fails; `isConnected` is set only when the switch succeeds or the
   * chain was unknown (code 4902) and adding it succeeded; every failure
   * leaves a message in `error`. The chain id is never set here.
   */
  function Connected(s: Session, hasEthereum: bool, req: AccountsReply, sw: SwitchReply, add: AddReply, read: BalanceRead): (t: Session)
    ensures !hasEthereum ==> t == s.(error := Some(NotInstalledOnConnect))
    ensures hasEthereum ==> !t.isConnecting
    ensures hasEthereum ==> (t.isConnected <==> s.isConnected || ConnectReaches(req, sw, add))
    ensures hasEthereum && req.Accounts? && req.list != [] ==> t.account == Some(req.list[0])
    ensures hasEthereum && !(req.Accounts? && req.list != []) ==> t.account == s.account
    ensures hasEthereum && !ConnectReaches(req, sw, add) ==>
      Truthy(t.error) && t.tokenBalances == s.tokenBalances && t.hasProvider == s.hasProvider
    ensures hasEthereum && ConnectReaches(req, sw, add) ==>
      t.hasProvider &&
      t.error == (if req.list[0] != "" && read.BalanceFailed? then Some(BalanceError) else None) &&
      t.tokenBalances == (if req.list[0] != "" && read.Balance? then [NativeBalance(read)] else s.tokenBalances) &&
      t.isLoadingBalances == (if req.list[0] != "" then false else s.isLoadingBalances)
    ensures hasEthereum && !ConnectReaches(req, sw, add) ==> t.isLoadingBalances == s.isLoadingBalances
    ensures hasEthereum && req.RequestFailed? ==> t.error == Some(MessageOr(req.message, ConnectFallback))
    ensures hasEthereum && req.Accounts? && req.list == [] ==> t.error == Some(NoAccounts)
    ensures hasEthereum && req.Accounts? && req.list != [] && sw.SwitchFailed? && sw.code != UnrecognizedChainCode ==>
      t.error == Some(MessageOr(sw.message, ConnectFallback))
    ensures hasEthereum && req.Accounts? && req.list != [] && sw.SwitchFailed? && sw.code == UnrecognizedChainCode && add.AddFailed? ==>
      t.error == Some(AddChainFallback)
    ensures t.chainId == s.chainId
    ensures Consistent(s) ==> Consistent(t)
    ensures Settled(s) ==> Settled(t)
  {
    if !hasEthereum then s.(error := Some(NotInstalledOnConnect))
    else
      var started := s.(isConnecting := true, error := None);
      ConnectAttempt(started, req, sw, add, read).(isConnecting := false)
  }

  /**
   * `disconnectWallet`, a local reset only: not connected, no account, no
   * chain id, no balances; the error and both busy flags are left as they were.
   */
  function Disconnected(s: Session): (t: Session)
    ensures !t.isConnected && t.account == None && t.chainId == None && t.tokenBalances == []
    ensures t.error == s.error && t.isConnecting == s.isConnecting &&
      t.isLoadingBalances == s.isLoadingBalances && t.hasProvider == s.hasProvider
  {
    s.(isConnected := false, account := None, chainId := None, tokenBalances := [])
  }

  /**
   * The start-up check for an already connected wallet: the provider is kept
   * whenever a wallet is injected; a listed account connects the session;
   * the chain id and the balance follow only if `getNetwork` succeeds.
   * Thrown errors are only logged.
   */
  function Started(s: Session, hasEthereum: bool, reply: StartupReply, read: BalanceRead): (t: Session)
    ensures !hasEthereum ==> t == s
    ensures hasEthereum ==> t.hasProvider && (t.error == s.error || t.error == Some(BalanceError))
    ensures hasEthereum && reply.Listed? && reply.accounts != [] ==>
      t.isConnected && t.account == Some(reply.accounts[0]) &&
      t.chainId == (if reply.network.Some? then reply.network else s.chainId) &&
      t.tokenBalances ==
        (if reply.network.Some? && reply.accounts[0] != "" && read.Balance? then [NativeBalance(read)]
         else s.tokenBalances) &&
      t.error ==
        (if reply.network.Some? && reply.accounts[0] != "" && read.BalanceFailed? then Some(BalanceError)
         else s.error) &&
      t.isConnecting == s.isConnecting &&
      t.isLoadingBalances ==
        (if reply.network.Some? && reply.accounts[0] != "" then false else s.isLoadingBalances)
    ensures hasEthereum && !(reply.Listed? && reply.accounts != []) ==> t == s.(hasProvider := true)
    ensures Consistent(s) ==> Consistent(t)
    ensures Settled(s) ==> Settled(t)
  {
    if !hasEthereum then s
    else
      var withProvider := s.(hasProvider := true);
      match reply
      case ListFailed => withProvider
      case Listed(accounts, network) =>
        if accounts == [] then withProvider
        else
          var connected := withProvider.(account := Some(accounts[0]), isConnected := true);
          match network
          case None => connected
          case Some(id) => BalanceFetched(connected.(chainId := Some(id)), accounts[0], read)
  }

  /** One transition of the session, as the page or the wallet triggers it. */
  datatype WalletEvent =
    | Connect(req: AccountsReply, sw: SwitchReply, add: AddReply, read: BalanceRead)
    | Disconnect
    | AccountsEvent(accounts: seq<string>, read: BalanceRead)
    | Refresh(read: BalanceRead)

  function Apply(s: Session, hasEthereum: bool, e: WalletEvent): Session {
    match e
    case Connect(req, sw, add, read) => Connected(s, hasEthereum, req, sw, add, read)
    case Disconnect => Disconnected(s)
    case AccountsEvent(accounts, read) => AccountsChanged(s, hasEthereum, accounts, read)
    case Refresh(read) => Refreshed(s, read)
  }

  /**
   * Whatever happens after start-up, the session stays consistent and no
   * busy flag is left raised.
   */
  function Replay(s: Session, hasEthereum: bool, events: seq<WalletEvent>): (t: Session)
    ensures Consistent(s) ==> Consistent(t)
    ensures Settled(s) ==> Settled(t)
    decreases |events|
  {
    if events == [] then s
    else
      ApplyKeepsInvariant(s, hasEthereum, events[0]);
      Replay(Apply(s, hasEthereum, events[0]), hasEthereum, events[1..])
  }

  lemma ApplyKeepsInvariant(s: Session, hasEthereum: bool, e: WalletEvent)
    ensures Consistent(s) ==> Consistent(Apply(s, hasEthereum, e))
    ensures Settled(s) ==> Settled(Apply(s, hasEthereum, e))
  {
    match e
    case Connect(req, sw, add, read) =>
    case Disconnect =>
    case AccountsEvent(accounts, read) =>
    case Refresh(read) =>
  }

  /** The session as it is after mounting, whatever the start-up check finds. */
  lemma StartedSessionIsConsistent(hasEthereum: bool, reply: StartupReply, read: BalanceRead)
    ensures Consistent(Started(InitialSession, hasEthereum, reply, read))
    ensures Settled(Started(InitialSession, hasEthereum, reply, read))
  {
  }

  /** The provider: its state hooks as fields, its callbacks as methods. */
  class MetaMaskProvider {
    /** Whether `window.ethereum` is injected. */
    const hasEthereum: bool

    var isConnected: bool
    var isConnecting: bool
    var account: Option<string>
    var chainId: Option<string>
    var error: Option<string>
    var hasProvider: bool
    var tokenBalances: seq<TokenBalance>
    var isLoadingBalances: bool

    function State(): Session
      reads this
    {
      Session(isConnected, isConnecting, account, chainId, error, hasProvider, tokenBalances, isLoadingBalances)
    }

    constructor (hasEthereum: bool)
      ensures this.hasEthereum == hasEthereum && State() == InitialSession
    {
      this.hasEthereum := hasEthereum;
      isConnected, isConnecting := false, false;
      account, chainId, error := None, None, None;
      hasProvider := false;
      tokenBalances := [];
      isLoadingBalances := false;
    }

    method InitProvider(reply: StartupReply, read: BalanceRead)
      modifies this
      ensures State() == Started(old(State()), hasEthereum, reply, read)
    {
      if !hasEthereum {
        return;
      }
      hasProvider := true;
      match reply {
        case ListFailed =>
        case Listed(accounts, network) =>
          if accounts != [] {
            account := Some(accounts[0]);
            isConnected := true;
            match network {
              case None =>
              case Some(id) =>
                chainId := Some(id);
                FetchNativeBalance(accounts[0], read);
            }
          }
      }
    }

    method FetchNativeBalance(address: string, read: BalanceRead)
      modifies this
      ensures State() == BalanceFetched(old(State()), address, read)
    {
      if address == "" {
        return;
      }
      isLoadingBalances := true;
      match read {
        case Balance(wei, formatted) =>
          tokenBalances := [TokenBalance(CoinDenom, wei, formatted, CoinDecimals)];
        case BalanceFailed =>
          error := Some(BalanceError);
      }
      isLoadingBalances := false;
    }

    method RefreshBalances(read: BalanceRead)
      modifies this
      ensures State() == Refreshed(old(State()), read)
    {
      if !Truthy(account) || !hasProvider {
        return;
      }
      FetchNativeBalance(account.value, read);
    }

    method HandleAccountsChanged(accounts: seq<string>, read: BalanceRead)
      modifies this
      ensures State() == AccountsChanged(old(State()), hasEthereum, accounts, read)
    {
      if !hasEthereum {
        return;
      }
      if |accounts| == 0 {
        isConnected := false;
        account := None;
        tokenBalances := [];
      } else {
        account := Some(accounts[0]);
        isConnected := true;
        if hasProvider {
          FetchNativeBalance(accounts[0], read);
        }
      }
    }

    method AddChainToMetaMask(reply: AddReply) returns (added: bool)
      modifies this
      ensures (State(), added) == ChainAddResult(old(State()), hasEthereum, reply)
    {
      if !hasEthereum {
        error := Some(NotInstalledOnAdd);
        return false;
      }
      match reply {
        case ChainAdded =>
          added := true;
        case AddFailed(message) =>
          error := Some(MessageOr(message, AddChainFallback));
          added := false;
      }
    }

    method ConnectWallet(req: AccountsReply, sw: SwitchReply, add: AddReply, read: BalanceRead)
      modifies this
      ensures State() == Connected(old(State()), hasEthereum, req, sw, add, read)
    {
      if !hasEthereum {
        error := Some(NotInstalledOnConnect);
        return;
      }
      isConnecting := true;
      error := None;
      match req {
        case RequestFailed(message) =>
          error := Some(MessageOr(message, ConnectFallback));
        case Accounts(list) =>
          if |list| == 0 {
            error := Some(NoAccounts);
          } else {
            account := Some(list[0]);
            // `thrown` stands for an error thrown out of the switch block.
            var thrown: Option<string> := None;
            match sw {
              case Switched =>
              case SwitchFailed(code, message) =>
                if code == UnrecognizedChainCode {
                  var added := AddChainToMetaMask(add);
                  if !added {
                    thrown := Some(AddChainFallback);
                  }
                } else {
                  thrown := Some(MessageOr(message, ConnectFallback));
                }
            }
            if thrown.None? {
              isConnected := true;
              hasProvider := true;
              FetchNativeBalance(list[0], read);
            } else {
              error := thrown;
            }
          }
      }
      isConnecting := false;
    }

    method DisconnectWallet()
      modifies this
      ensures State() == Disconnected(old(State()))
    {
      isConnected := false;
      account := None;
      chainId := None;
      tokenBalances := [];
    }
  }
}
