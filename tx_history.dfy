/**
 * The transaction history screen of an open wallet
 * (src/components/TxHistory/TxHistory.js): the work it starts when it mounts,
 * its local screen state, its event handlers and what it renders.
 */
module TxHistory {
  import opened Wrappers
  import opened SessionState
  import opened Actions

  /** The `currentFund` part of the wallet manager's fund-info answer. */
  datatype Fund = Fund(registrationStart: string, registrationEnd: string)

  /** How `walletManager.fetchFundInfo()` settled: it threw, or it returned a possibly missing current fund. */
  datatype FundFetch = FetchThrew | FetchReturned(currentFund: Option<Fund>)

  /** The registration window the screen keeps from the current fund. */
  datatype FundInfo = FundInfo(registrationStart: string, registrationEnd: string)

  /**
   * The local `fundInfo` once the fund-info step is over: a failure is
   * swallowed and leaves it null, and a value is recorded only for a wallet
   * that can vote and a non-null current fund, copying its registration window.
   */
  function FundInfoAfterFetch(canVote: bool, fetch: FundFetch): (r: Option<FundInfo>)
    ensures r.Some? <==> canVote && fetch.FetchReturned? && fetch.currentFund.Some?
    ensures r.Some? ==> r.value.registrationStart == fetch.currentFund.value.registrationStart
    ensures r.Some? ==> r.value.registrationEnd == fetch.currentFund.value.registrationEnd
  {
    if !canVote then None
    else match fetch
      case FetchThrew => None
      case FetchReturned(currentFund) =>
        if currentFund.Some? then
          Some(FundInfo(currentFund.value.registrationStart, currentFund.value.registrationEnd))
        else None
  }

  /** The position of each mount step in the sequence. */
  function StepRank(e: Effect): nat {
    match e
    case FetchAccountState => 0
    case UpdateHistory => 1
    case CheckForFlawedWallets => 2
    case FetchFundInfo => 3
    case _ => 4
  }

  /** Both awaited dispatches of the mount sequence resolved, so it ran to the end. */
  predicate MountCompletes(accountState: Outcome, history: Outcome) {
    accountState == Resolved && history == Resolved
  }

  /**
   * The external calls the mount sequence makes: account state, then history,
   * then the flawed-wallet check, then (for a wallet that can vote) fund info.
   * A rejected awaited dispatch throws out of the sequence and ends it.
   */
  function MountEffects(canVote: bool, accountState: Outcome, history: Outcome): (r: seq<Effect>)
    ensures r != [] && r[0] == FetchAccountState
    // each step at most once, in the order above
    ensures forall i, j :: 0 <= i < j < |r| ==> StepRank(r[i]) < StepRank(r[j])
    ensures forall i :: 0 <= i < |r| ==> StepRank(r[i]) < 4
    ensures UpdateHistory in r <==> accountState == Resolved
    ensures CheckForFlawedWallets in r <==> MountCompletes(accountState, history)
    ensures FetchFundInfo in r <==> MountCompletes(accountState, history) && canVote
  {
    if accountState != Resolved then [FetchAccountState]
    else if history != Resolved then [FetchAccountState, UpdateHistory]
    else if canVote then [FetchAccountState, UpdateHistory, CheckForFlawedWallets, FetchFundInfo]
    else [FetchAccountState, UpdateHistory, CheckForFlawedWallets]
  }

  /** What the screen does when its `beforeRemove` listener fires with the given route count. */
  function OnBeforeRemove(routeCount: nat): (r: seq<Effect>)
    // the removal always goes ahead, first
    ensures |r| >= 1 && r[0] == ForwardRemoveAction
    // the wallet is closed exactly when this was the only route
    ensures CloseWallet in r <==> routeCount == 1
    // nothing else happens, and nothing twice
    ensures |r| == (if routeCount == 1 then 2 else 1)
    ensures forall i :: 1 <= i < |r| ==> r[i] == CloseWallet
  {
    if routeCount == 1 then [ForwardRemoveAction, CloseWallet] else [ForwardRemoveAction]
  }

  datatype SyncErrorBanner = SyncErrorBanner(showRefresh: bool)
  datatype VotingBanner = VotingBanner(disabled: bool)
  datatype HistoryBody = NoTransactions | TransactionList

  /** What the screen renders. */
  datatype View =
    | Loading
    | Dashboard(
        syncErrorBanner: Option<SyncErrorBanner>,
        votingBanner: Option<VotingBanner>,
        flawedWalletModal: bool,
        body: HistoryBody,
        refreshing: bool,
        byronWarning: bool,
        insufficientFundsModal: bool)

  /**
   * One mounted history screen. `isByronWallet` and `canVote` are the
   * configuration tests on the open wallet's implementation id,
   * `routesAtMount` the navigator's route count when the `beforeRemove`
   * listener was registered (the listener keeps that value), and `effects`
   * the external calls the screen has made so far.
   */
  class TxHistoryScreen {
    const isByronWallet: bool
    const canVote: bool
    const routesAtMount: nat
    var showWarning: bool
    var showInsufficientFundsModal: bool
    var showCatalystBanner: bool
    var effects: seq<Effect>

    /** The screen as first rendered: the warning for Byron wallets, the voting banner for wallets that can vote. */
    constructor(isByronWallet: bool, canVote: bool, routesAtMount: nat)
      ensures this.isByronWallet == isByronWallet && this.canVote == canVote
      ensures this.routesAtMount == routesAtMount
      ensures showWarning == isByronWallet && !showInsufficientFundsModal
      ensures showCatalystBanner == canVote && effects == []
    {
      this.isByronWallet := isByronWallet;
      this.canVote := canVote;
      this.routesAtMount := routesAtMount;
      showWarning := isByronWallet;
      showInsufficientFundsModal := false;
      showCatalystBanner := canVote;
      effects := [];
    }

    /**
     * The mount sequence `run`. `registrationOpen` stands for
     * `isRegistrationOpen`, `nightly` and `dev` for the build flags. When it
     * completes, the voting banner shows for a wallet that can vote and an
     * open registration, and in every nightly or development build.
     */
    method Run(accountState: Outcome, history: Outcome, fundFetch: FundFetch,
               registrationOpen: Option<FundInfo> -> bool, nightly: bool, dev: bool)
      modifies this
      ensures effects == old(effects) + MountEffects(canVote, accountState, history)
      ensures showCatalystBanner == if MountCompletes(accountState, history)
        then (canVote && registrationOpen(FundInfoAfterFetch(canVote, fundFetch))) || nightly || dev
        else old(showCatalystBanner)
      ensures showWarning == old(showWarning) && showInsufficientFundsModal == old(showInsufficientFundsModal)
    {
      effects := effects + [FetchAccountState];
      if accountState == Rejected {
        return;
      }
      effects := effects + [UpdateHistory];
      if history == Rejected {
        return;
      }
      effects := effects + [CheckForFlawedWallets];
      var fundInfo: Option<FundInfo> := None;
      if canVote {
        effects := effects + [FetchFundInfo];
        match fundFetch {
          case FetchThrew =>
          case FetchReturned(currentFund) =>
            if currentFund.Some? {
              fundInfo := Some(FundInfo(currentFund.value.registrationStart, currentFund.value.registrationEnd));
            }
        }
      }
      showCatalystBanner := (canVote && registrationOpen(fundInfo)) || nightly || dev;
    }

    /**
     * Pressing the voting banner: below the minimum balance (in lovelace) the
     * insufficient-funds dialog opens and nothing else happens; otherwise the
     * Catalyst flow opens.
     */
    method PressVotingBanner(defaultBalance: int, minAda: int)
      modifies this
      ensures defaultBalance < minAda ==> showInsufficientFundsModal && effects == old(effects)
      ensures defaultBalance >= minAda ==>
        showInsufficientFundsModal == old(showInsufficientFundsModal) && effects == old(effects) + [NavigateToCatalyst]
      ensures showWarning == old(showWarning) && showCatalystBanner == old(showCatalystBanner)
    {
      if defaultBalance < minAda {
        showInsufficientFundsModal := true;
        return;
      }
      effects := effects + [NavigateToCatalyst];
    }

    /** The insufficient-funds dialog's close icon and back button. */
    method CloseInsufficientFundsModal()
      modifies this
      ensures !showInsufficientFundsModal
      ensures effects == old(effects) && showWarning == old(showWarning) && showCatalystBanner == old(showCatalystBanner)
    {
      showInsufficientFundsModal := false;
    }

    /** The Byron warning's close icon. */
    method DismissWarning()
      modifies this
      ensures !showWarning
      ensures effects == old(effects) && showInsufficientFundsModal == old(showInsufficientFundsModal)
      ensures showCatalystBanner == old(showCatalystBanner)
    {
      showWarning := false;
    }

    /** Pull to refresh, on either the empty view or the list. */
    method Refresh()
      modifies this
      ensures effects == old(effects) + [UpdateHistory]
      ensures showWarning == old(showWarning) && showInsufficientFundsModal == old(showInsufficientFundsModal)
      ensures showCatalystBanner == old(showCatalystBanner)
    {
      effects := effects + [UpdateHistory];
    }

    /** Either button of the flawed-wallet dialog goes back to wallet selection. */
    method LeaveFlawedWallet()
      modifies this
      ensures effects == old(effects) + [NavigateToWalletSelection]
      ensures showWarning == old(showWarning) && showInsufficientFundsModal == old(showInsufficientFundsModal)
      ensures showCatalystBanner == old(showCatalystBanner)
    {
      effects := effects + [NavigateToWalletSelection];
    }

    /** The `beforeRemove` listener, which sees the route count captured when it was registered. */
    method BeforeRemove()
      modifies this
      ensures effects == old(effects) + OnBeforeRemove(routesAtMount)
      ensures showWarning == old(showWarning) && showInsufficientFundsModal == old(showInsufficientFundsModal)
      ensures showCatalystBanner == old(showCatalystBanner)
    {
      effects := effects + [ForwardRemoveAction];
      if routesAtMount == 1 {
        effects := effects + [CloseWallet];
      }
    }

    /** What the screen renders for the given store. */
    function Render(s: State): (v: View)
      reads this
      // an uninitialised wallet shows only the loading view
      ensures v == Loading <==> !s.wallet.isInitialized
      // the sync error banner: online with a recorded error; refresh offered unless syncing
      ensures v.Dashboard? ==> (v.syncErrorBanner.Some? <==> s.isOnline && s.txHistory.lastSyncError.Some?)
      ensures v.Dashboard? && v.syncErrorBanner.Some? ==>
        (v.syncErrorBanner.value.showRefresh <==> !s.txHistory.isSynchronizing)
      // the voting banner follows the screen state and is disabled while account state loads
      ensures v.Dashboard? ==> (v.votingBanner.Some? <==> showCatalystBanner)
      ensures v.Dashboard? && v.votingBanner.Some? ==> (v.votingBanner.value.disabled <==> s.accountState.isFetching)
      ensures v.Dashboard? ==> (v.flawedWalletModal <==> s.isFlawedWallet)
      // the empty view exactly when there is no transaction
      ensures v.Dashboard? ==> (v.body == NoTransactions <==> s.wallet.transactions == map[])
      ensures v.Dashboard? ==> (v.refreshing <==> s.txHistory.isSynchronizing)
      // the Byron warning for a Byron wallet whose warning was not dismissed
      ensures v.Dashboard? ==> (v.byronWarning <==> isByronWallet && showWarning)
      ensures v.Dashboard? ==> (v.insufficientFundsModal <==> showInsufficientFundsModal)
    {
      if !s.wallet.isInitialized then Loading
      else
        Dashboard(
          syncErrorBanner :=
            if s.isOnline && s.txHistory.lastSyncError.Some?
            then Some(SyncErrorBanner(!s.txHistory.isSynchronizing)) else None,
          votingBanner := if showCatalystBanner then Some(VotingBanner(s.accountState.isFetching)) else None,
          flawedWalletModal := s.isFlawedWallet,
          body := if |s.wallet.transactions| == 0 then NoTransactions else TransactionList,
          refreshing := s.txHistory.isSynchronizing,
          byronWarning := isByronWallet && showWarning,
          insufficientFundsModal := showInsufficientFundsModal)
    }
  }
}
