/**
 * The staking panel (`GameStaking` component): the `GameState` record it
 * keeps, its three busy flags and the stake-amount field, how each handler
 * changes them, and which buttons are enabled.
 *
 * Wallet, provider and contract calls are not made here: what they answer is
 * an argument (a `ContractRead` for the three view calls, a `TxOutcome` for
 * a transaction sent and waited for). Each handler runs to completion.
 */
module GameStaking {
  import opened JsValues
  import opened StakeAmount

  type Address = string

  /** `ethers.ZeroAddress`: the winner the contract reports when there is none. */
  const ZeroAddress: Address := "0x0000000000000000000000000000000000000000"

  const FetchError := "Failed to fetch game data"
  const StakeFailedFallback := "Staking failed"

  /**
   * The `GameState` record. The two amounts are kept by the component as
   * decimal strings (`'0'` or a bigint's `toString()`) and read back through
   * `getBigInt` (and, for display only, `formatEthers`), so they are modelled
   * by their integer value.
   */
  datatype GameState = GameState(
    userStake: nat,
    totalStaked: nat,
    currentWinner: Option<Address>,
    isStaking: bool,
    error: Option<string>)

  /** Everything the component keeps between renders. */
  datatype Panel = Panel(
    stakeAmount: string,
    game: GameState,
    isEntering: bool,
    isSettingWinner: bool,
    isStartingNewSession: bool)

  const InitialPanel := Panel("0", GameState(0, 0, None, false, None), false, false, false)

  /** What the component reads from the wallet hook and from `window`. */
  datatype WalletView = WalletView(isConnected: bool, account: Option<string>, hasEthereum: bool)

  /** The guard `!isConnected || !account || !window.ethereum` lets the call through. */
  predicate CanTransact(w: WalletView) {
    w.isConnected && Truthy(w.account) && w.hasEthereum
  }

  /** The answer to `stakes(account)`, `totalStaked()` and `winner()`, or a thrown error. */
  datatype ContractRead = Snapshot(userStake: nat, totalStaked: nat, winner: Address) | ReadFailed

  /** A transaction sent and awaited: mined, or an error with its (possibly empty) message. */
  datatype TxOutcome = Confirmed | TxFailed(message: string)

  /** The zero address stands for "no winner". */
  function WinnerView(winner: Address): (r: Option<Address>)
    ensures r.None? <==> winner == ZeroAddress
    ensures r.Some? ==> r.value == winner
  {
    if winner == ZeroAddress then None else Some(winner)
  }

  /**
   * `fetchContractData`: without a connection it does nothing; a read
   * overwrites both amounts and the winner, the stake copied as the contract
   * reports it; a failed read only records the error.
   */
  function Fetched(g: GameState, w: WalletView, read: ContractRead): (h: GameState)
    ensures !CanTransact(w) ==> h == g
    ensures CanTransact(w) && read.Snapshot? ==>
      h.userStake == read.userStake && h.totalStaked == read.totalStaked &&
      h.currentWinner == WinnerView(read.winner) &&
      h.isStaking == g.isStaking && h.error == g.error
    ensures CanTransact(w) && read.ReadFailed? ==>
      h.error == Some(FetchError) &&
      h.userStake == g.userStake && h.totalStaked == g.totalStaked &&
      h.currentWinner == g.currentWinner && h.isStaking == g.isStaking
  {
    if !CanTransact(w) then g
    else match read
      case Snapshot(u, t, winner) => g.(userStake := u, totalStaked := t, currentWinner := WinnerView(winner))
      case ReadFailed => g.(error := Some(FetchError))
  }

  /** A fetch depends only on what the contract answers, not on what was shown before. */
  lemma FetchedIdempotent(g: GameState, w: WalletView, read: ContractRead)
    ensures Fetched(Fetched(g, w, read), w, read) == Fetched(g, w, read)
  {
  }

  /**
   * `handleStake`: refused without a connection or when the amount parses to
   * at most zero. Otherwise the busy flag is raised and the error cleared;
   * a mined transaction is followed by a refetch and the field is reset to
   * `'0'`, a failed one records its message. The busy flag always ends
   * lowered.
   */
  function Staked(p: Panel, w: WalletView, tx: TxOutcome, refetch: ContractRead): (q: Panel)
    requires WellFormed(p.stakeAmount)
    ensures !CanTransact(w) || ParsesNonPositive(p.stakeAmount) ==> q == p
    ensures CanTransact(w) && !ParsesNonPositive(p.stakeAmount) ==>
      !q.game.isStaking &&
      (q.stakeAmount == "0" <==> tx.Confirmed?) &&
      (tx.TxFailed? ==> q.stakeAmount == p.stakeAmount)
    ensures CanTransact(w) && !ParsesNonPositive(p.stakeAmount) && tx.Confirmed? ==>
      q.game.error == (if refetch.ReadFailed? then Some(FetchError) else None) &&
      (refetch.Snapshot? ==>
        q.game.userStake == refetch.userStake && q.game.totalStaked == refetch.totalStaked &&
        q.game.currentWinner == WinnerView(refetch.winner)) &&
      (refetch.ReadFailed? ==>
        q.game.userStake == p.game.userStake && q.game.totalStaked == p.game.totalStaked &&
        q.game.currentWinner == p.game.currentWinner)
    ensures CanTransact(w) && !ParsesNonPositive(p.stakeAmount) && tx.TxFailed? ==>
      Truthy(q.game.error) &&
      q.game.userStake == p.game.userStake && q.game.totalStaked == p.game.totalStaked &&
      q.game.currentWinner == p.game.currentWinner
    ensures q.isEntering == p.isEntering && q.isSettingWinner == p.isSettingWinner &&
      q.isStartingNewSession == p.isStartingNewSession
    ensures WellFormed(q.stakeAmount)
  {
    if !CanTransact(w) || ParsesNonPositive(p.stakeAmount) then p
    else
      var started := p.game.(isStaking := true, error := None);
      match tx
      case Confirmed =>
        assert Fraction("0") == [] && multiset("0")['.'] == 0;
        p.(game := Fetched(started, w, refetch).(isStaking := false), stakeAmount := "0")
      case TxFailed(m) =>
        p.(game := started.(error := Some(MessageOr(m, StakeFailedFallback))).(isStaking := false))
  }

  /**
   * `handleEnterGame`: checks only the connection and the stake (as a
   * bigint, `<= 0`), then marks the panel as entering.
   */
  function EnterRequested(p: Panel, w: WalletView): (q: Panel)
    ensures !w.isConnected || p.game.userStake <= 0 ==> q == p
    ensures w.isConnected && p.game.userStake > 0 ==> q.isEntering && q == p.(isEntering := true)
  {
    if !w.isConnected || p.game.userStake <= 0 then p else p.(isEntering := true)
  }

  /** The redirect timer's callback lowers the entering flag. */
  function RedirectFired(p: Panel): (q: Panel)
    ensures !q.isEntering && q.(isEntering := p.isEntering) == p
  {
    p.(isEntering := false)
  }

  /**
   * `handleSetWinner`: refused without a connection; otherwise a mined
   * transaction is followed by a refetch, a failure changes nothing in the
   * record, and `isSettingWinner` ends lowered either way.
   */
  function WinnerSet(p: Panel, w: WalletView, tx: TxOutcome, refetch: ContractRead): (q: Panel)
    ensures !CanTransact(w) ==> q == p
    ensures CanTransact(w) ==> !q.isSettingWinner
    ensures CanTransact(w) && tx.TxFailed? ==> q.game == p.game
    ensures CanTransact(w) && tx.Confirmed? && refetch.Snapshot? ==>
      q.game.userStake == refetch.userStake && q.game.totalStaked == refetch.totalStaked &&
      q.game.currentWinner == WinnerView(refetch.winner) && q.game.error == p.game.error
    ensures CanTransact(w) && tx.Confirmed? && refetch.ReadFailed? ==>
      q.game.error == Some(FetchError) &&
      q.game.userStake == p.game.userStake && q.game.totalStaked == p.game.totalStaked &&
      q.game.currentWinner == p.game.currentWinner
    ensures q.game.isStaking == p.game.isStaking
    ensures q.stakeAmount == p.stakeAmount && q.isEntering == p.isEntering &&
      q.isStartingNewSession == p.isStartingNewSession
  {
    if !CanTransact(w) then p
    else
      var game := if tx.Confirmed? then Fetched(p.game, w, refetch) else p.game;
      p.(game := game, isSettingWinner := false)
  }

  /**
   * `handleStartNewSession`: after the zero-winner transaction is mined the
   * view is first reset locally (no stake, no total, no winner) and then
   * refetched, so the reset survives only a failed refetch; a successful one
   * shows the stake the contract still reports. `isStartingNewSession` ends
   * lowered on every path.
   */
  function NewSessionStarted(p: Panel, w: WalletView, tx: TxOutcome, refetch: ContractRead): (q: Panel)
    ensures !CanTransact(w) ==> q == p
    ensures CanTransact(w) ==> !q.isStartingNewSession
    ensures CanTransact(w) && tx.TxFailed? ==> q.game == p.game
    ensures CanTransact(w) && tx.Confirmed? && refetch.ReadFailed? ==>
      q.game.userStake == 0 && q.game.totalStaked == 0 && q.game.currentWinner == None &&
      q.game.error == Some(FetchError)
    ensures CanTransact(w) && tx.Confirmed? && refetch.Snapshot? ==>
      q.game.userStake == refetch.userStake && q.game.totalStaked == refetch.totalStaked &&
      q.game.currentWinner == WinnerView(refetch.winner) && q.game.error == p.game.error
    ensures q.stakeAmount == p.stakeAmount && q.isEntering == p.isEntering &&
      q.isSettingWinner == p.isSettingWinner && q.game.isStaking == p.game.isStaking
  {
    if !CanTransact(w) then p
    else
      var game :=
        if tx.Confirmed? then Fetched(p.game.(userStake := 0, totalStaked := 0, currentWinner := None), w, refetch)
        else p.game;
      p.(game := game, isStartingNewSession := false)
  }

  // Button states, as the `disabled=` expressions and the conditional blocks compute them.

  predicate SetWinnerDisabled(p: Panel, w: WalletView) {
    !w.isConnected || p.isSettingWinner
  }

  predicate NewSessionShown(p: Panel) {
    Truthy(p.game.currentWinner)
  }

  predicate NewSessionDisabled(p: Panel, w: WalletView) {
    !w.isConnected || p.isStartingNewSession
  }

  predicate AmountInputDisabled(p: Panel, w: WalletView) {
    !w.isConnected || p.game.isStaking
  }

  predicate StakeDisabled(p: Panel, w: WalletView)
    requires WellFormed(p.stakeAmount)
  {
    !w.isConnected || p.game.isStaking || ParsesNonPositive(p.stakeAmount)
  }

  predicate EnterDisabled(p: Panel, w: WalletView) {
    !w.isConnected || p.game.userStake <= 0 || p.isEntering
  }

  /** With no handler running, the three action buttons follow the connection alone. */
  lemma ButtonsWhenIdle(p: Panel, w: WalletView)
    requires Idle(p)
    ensures SetWinnerDisabled(p, w) <==> !w.isConnected
    ensures NewSessionDisabled(p, w) <==> !w.isConnected
    ensures AmountInputDisabled(p, w) <==> !w.isConnected
  {
  }

  /** An amount whose digits are all `0` disables the stake button, and the handler ignores it. */
  lemma ZeroAmountBlocksStake(p: Panel, w: WalletView, tx: TxOutcome, refetch: ContractRead)
    requires WellFormed(p.stakeAmount) && HasDigit(p.stakeAmount) && DigitsAllZero(p.stakeAmount)
    ensures StakeDisabled(p, w)
    ensures Staked(p, w, tx, refetch) == p
  {
    ParsesNonPositiveExactly(p.stakeAmount);
  }

  /** No stake: the enter button is disabled and the handler ignores the click. */
  lemma NoStakeBlocksEntry(p: Panel, w: WalletView)
    requires p.game.userStake == 0
    ensures EnterDisabled(p, w) && EnterRequested(p, w) == p
  {
  }

  /** A zero winner hides the new-session button after a read; any other address shows it. */
  lemma NewSessionShownAfterRead(p: Panel, w: WalletView, u: nat, t: nat, winner: Address)
    requires CanTransact(w)
    ensures NewSessionShown(p.(game := Fetched(p.game, w, Snapshot(u, t, winner)))) <==>
      winner != ZeroAddress && winner != ""
  {
  }

  /** One user action or timer callback, with the wallet view it sees. */
  datatype Action =
    | Keystroke(raw: string)
    | Poll(read: ContractRead)
    | Stake(tx: TxOutcome, refetch: ContractRead)
    | Enter
    | Redirect
    | SetWinner(tx: TxOutcome, refetch: ContractRead)
    | StartNewSession(tx: TxOutcome, refetch: ContractRead)

  datatype Event = Event(wallet: WalletView, action: Action)

  function Step(p: Panel, e: Event): Panel
    requires WellFormed(p.stakeAmount)
  {
    match e.action
    case Keystroke(raw) => p.(stakeAmount := AfterKeystroke(p.stakeAmount, raw))
    case Poll(read) => p.(game := Fetched(p.game, e.wallet, read))
    case Stake(tx, refetch) => Staked(p, e.wallet, tx, refetch)
    case Enter => EnterRequested(p, e.wallet)
    case Redirect => RedirectFired(p)
    case SetWinner(tx, refetch) => WinnerSet(p, e.wallet, tx, refetch)
    case StartNewSession(tx, refetch) => NewSessionStarted(p, e.wallet, tx, refetch)
  }

  /** No handler is half-way through: every busy flag is lowered. */
  predicate Idle(p: Panel) {
    !p.game.isStaking && !p.isSettingWinner && !p.isStartingNewSession
  }

  /**
   * Any sequence of actions keeps the amount field well-formed and leaves no
   * busy flag raised; starting from the initial panel, both hold throughout.
   */
  function Run(p: Panel, events: seq<Event>): (q: Panel)
    requires WellFormed(p.stakeAmount)
    ensures WellFormed(q.stakeAmount)
    ensures Idle(p) ==> Idle(q)
    decreases |events|
  {
    if events == [] then p
    else
      StepKeepsInvariant(p, events[0]);
      Run(Step(p, events[0]), events[1..])
  }

  lemma StepKeepsInvariant(p: Panel, e: Event)
    requires WellFormed(p.stakeAmount)
    ensures WellFormed(Step(p, e).stakeAmount)
    ensures Idle(p) ==> Idle(Step(p, e))
  {
    match e.action
    case Keystroke(raw) =>
    case Poll(read) =>
    case Stake(tx, refetch) =>
    case Enter =>
    case Redirect =>
    case SetWinner(tx, refetch) =>
    case StartNewSession(tx, refetch) =>
  }

  /** The initial hooks: a well-formed field, no busy flag, and `'0'` keeps the stake button disabled. */
  lemma InitialPanelIsIdleAndWellFormed(w: WalletView)
    ensures WellFormed(InitialPanel.stakeAmount) && Idle(InitialPanel)
    ensures StakeDisabled(InitialPanel, w)
  {
    assert Fraction("0") == [] && multiset("0")['.'] == 0;
    assert HasDigit("0") && DigitsAllZero("0") by { assert IsDigit("0"[0]); }
    ParsesNonPositiveExactly("0");
  }

  /** The component itself: its state hooks as fields, its handlers as methods. */
  class Component {
    var stakeAmount: string
    var gameState: GameState
    var isEntering: bool
    var isSettingWinner: bool
    var isStartingNewSession: bool

    function State(): Panel
      reads this
    {
      Panel(stakeAmount, gameState, isEntering, isSettingWinner, isStartingNewSession)
    }

    predicate Valid()
      reads this
    {
      WellFormed(stakeAmount)
    }

    constructor ()
      ensures Valid() && State() == InitialPanel
    {
      stakeAmount := "0";
      gameState := GameState(0, 0, None, false, None);
      isEntering, isSettingWinner, isStartingNewSession := false, false, false;
      InitialPanelIsIdleAndWellFormed(WalletView(false, None, false));
    }

    method FetchContractData(w: WalletView, read: ContractRead)
      modifies this`gameState
      ensures gameState == Fetched(old(gameState), w, read)
    {
      if !w.isConnected || !Truthy(w.account) || !w.hasEthereum {
        return;
      }
      match read {
        case Snapshot(u, t, winner) =>
          gameState := gameState.(
            userStake := u,
            totalStaked := t,
            currentWinner := if winner == ZeroAddress then None else Some(winner));
        case ReadFailed =>
          gameState := gameState.(error := Some(FetchError));
      }
    }

    method HandleStakeAmountChange(raw: string)
      requires Valid()
      modifies this`stakeAmount
      ensures Valid()
      ensures stakeAmount == AfterKeystroke(old(stakeAmount), raw)
    {
      var value := Sanitize(raw);
      var parts := Split(value, '.');
      PassesPointChecksExactly(value);
      if |parts| > 2 {
        return;
      }
      if |parts| == 2 && |parts[1]| > MaxFractionDigits {
        return;
      }
      stakeAmount := value;
    }

    method HandleStake(w: WalletView, tx: TxOutcome, refetch: ContractRead)
      requires Valid()
      modifies this`gameState, this`stakeAmount
      ensures Valid()
      ensures State() == Staked(old(State()), w, tx, refetch)
    {
      if !w.isConnected || !Truthy(w.account) || !w.hasEthereum {
        return;
      }
      if ParsesNonPositive(stakeAmount) {
        return;
      }
      gameState := gameState.(isStaking := true, error := None);
      match tx {
        case Confirmed =>
          FetchContractData(w, refetch);
          stakeAmount := "0";
        case TxFailed(message) =>
          gameState := gameState.(error := Some(MessageOr(message, StakeFailedFallback)));
      }
      gameState := gameState.(isStaking := false);
    }

    method HandleEnterGame(w: WalletView)
      modifies this`isEntering
      ensures State() == EnterRequested(old(State()), w)
    {
      if !w.isConnected {
        return;
      }
      if gameState.userStake <= 0 {
        return;
      }
      isEntering := true;
    }

    method OnRedirectTimer()
      modifies this`isEntering
      ensures State() == RedirectFired(old(State()))
    {
      isEntering := false;
    }

    method HandleSetWinner(w: WalletView, tx: TxOutcome, refetch: ContractRead)
      modifies this`gameState, this`isSettingWinner
      ensures State() == WinnerSet(old(State()), w, tx, refetch)
    {
      if !w.isConnected || !Truthy(w.account) || !w.hasEthereum {
        return;
      }
      isSettingWinner := true;
      if tx.Confirmed? {
        FetchContractData(w, refetch);
      }
      isSettingWinner := false;
    }

    method HandleStartNewSession(w: WalletView, tx: TxOutcome, refetch: ContractRead)
      modifies this`gameState, this`isStartingNewSession
      ensures State() == NewSessionStarted(old(State()), w, tx, refetch)
    {
      if !w.isConnected || !Truthy(w.account) || !w.hasEthereum {
        return;
      }
      isStartingNewSession := true;
      if tx.Confirmed? {
        gameState := gameState.(userStake := 0, totalStaked := 0, currentWinner := None);
        FetchContractData(w, refetch);
      }
      isStartingNewSession := false;
    }
  }
}
