/**
 * The Redux store shape of the wallet app (src/state.js) restricted to the
 * fields that the session gate, the wallet screen and the PIN setup read,
 * together with the initial store and the development-only mock store.
 */
module SessionState {
  import opened Wrappers

  /** Cached answer of the server-status poll. */
  datatype ServerStatusCache = ServerStatusCache(
    isServerOk: bool,
    isMaintenance: bool,
    serverTime: Option<int>)

  /** `NETWORK_REGISTRY.UNDEFINED`, the Haskell Shelley network, or any other registry entry. */
  datatype NetworkId = UndefinedNetwork | HaskellShelleyNetwork | OtherNetwork(id: int)

  /** The empty implementation id `''`, the Haskell Shelley implementation, or any other one. */
  datatype WalletImplementationId = NoImplementation | HaskellShelleyImplementation | OtherImplementation(name: string)

  /** The visual fingerprint of a wallet. */
  datatype WalletChecksum = WalletChecksum(imagePart: string, textPart: string)

  /** One entry of the wallet inventory. */
  datatype WalletMeta = WalletMeta(
    id: string,
    name: string,
    networkId: NetworkId,
    walletImplementationId: WalletImplementationId,
    isHW: bool,
    isEasyConfirmationEnabled: bool,
    checksum: WalletChecksum)

  /** A history transaction; only its identity matters to this model. */
  datatype Transaction = Transaction(id: string)

  /** The sub-store of the wallet that is currently open. */
  datatype ActiveWallet = ActiveWallet(
    name: string,
    isInitialized: bool,
    networkId: NetworkId,
    walletImplementationId: WalletImplementationId,
    isHW: bool,
    isReadOnly: bool,
    isEasyConfirmationEnabled: bool,
    transactions: map<string, Transaction>,
    internalAddresses: seq<string>,
    externalAddresses: seq<string>,
    rewardAddressHex: Option<string>,
    confirmationCounts: map<string, int>,
    isUsedAddressIndex: map<string, bool>,
    numReceiveAddresses: nat,
    canGenerateNewReceiveAddress: bool,
    checksum: WalletChecksum)

  /** History synchronisation status (`txHistory`). */
  datatype SyncStatus = SyncStatus(isSynchronizing: bool, lastSyncError: Option<string>)

  /** Status of a fetching sub-store (`balance`, `poolInfo`, `tokenInfo`). */
  datatype FetchStatus = FetchStatus(isFetching: bool, lastFetchingError: Option<string>)

  /** Delegation state of the open account; amounts are in lovelace. */
  datatype AccountState = AccountState(
    isFetching: bool,
    isDelegating: bool,
    lastFetchingError: Option<string>,
    totalDelegated: int,
    value: int,
    poolOperator: Option<string>)

  datatype AppSettings = AppSettings(
    acceptedTos: bool,
    installationId: Option<string>,
    languageCode: string,
    customPinHash: Option<string>,
    isSystemAuthEnabled: bool,
    isBiometricHardwareSupported: bool,
    sendCrashReports: bool,
    canEnableBiometricEncryption: bool,
    currentVersion: Option<string>)

  datatype State = State(
    wallets: map<string, WalletMeta>,
    wallet: ActiveWallet,
    txHistory: SyncStatus,
    balance: FetchStatus,
    accountState: AccountState,
    poolInfo: FetchStatus,
    tokenInfo: FetchStatus,
    isOnline: bool,
    isAppInitialized: bool,
    isAuthenticated: bool,
    isKeyboardOpen: bool,
    appSettings: AppSettings,
    isFlawedWallet: bool,
    serverStatus: ServerStatusCache,
    isMaintenance: bool)

  /** A sub-store that is not fetching and has recorded no error. */
  predicate Idle(f: FetchStatus) {
    !f.isFetching && f.lastFetchingError == None
  }

  /** The wallet sub-store before any wallet has been opened. */
  function EmptyWallet(): ActiveWallet {
    ActiveWallet(
      "", false, UndefinedNetwork, NoImplementation, false, false, false,
      map[], [], [], None, map[], map[], 0, false, WalletChecksum("", ""))
  }

  /** The store the app starts with. */
  function InitialState(): (s: State)
    // no wallet is known and none is open
    ensures s.wallets == map[]
    ensures !s.wallet.isInitialized && s.wallet.transactions == map[]
    ensures s.wallet.internalAddresses == [] && s.wallet.externalAddresses == []
    ensures s.wallet.numReceiveAddresses == 0 && !s.wallet.canGenerateNewReceiveAddress
    // the session has neither booted nor been unlocked
    ensures !s.isAppInitialized && !s.isAuthenticated
    // no unlock method is configured and the terms are not accepted; the language defaults to en-US
    ensures s.appSettings.customPinHash == None && !s.appSettings.isSystemAuthEnabled
    ensures !s.appSettings.acceptedTos && s.appSettings.languageCode == "en-US"
    ensures s.appSettings.installationId == None
    // the server is reachable and not in maintenance
    ensures !s.isMaintenance && !s.serverStatus.isMaintenance && s.serverStatus.isServerOk
    // every fetching sub-store is idle
    ensures !s.txHistory.isSynchronizing && s.txHistory.lastSyncError == None
    ensures Idle(s.balance) && Idle(s.poolInfo) && Idle(s.tokenInfo)
    ensures !s.accountState.isFetching && s.accountState.lastFetchingError == None
    ensures !s.accountState.isDelegating && s.accountState.totalDelegated == 0 && s.accountState.value == 0
    // online by default, no flawed wallet detected
    ensures s.isOnline && !s.isFlawedWallet
  {
    State(
      wallets := map[],
      wallet := EmptyWallet(),
      txHistory := SyncStatus(false, None),
      balance := FetchStatus(false, None),
      accountState := AccountState(false, false, None, 0, 0, None),
      poolInfo := FetchStatus(false, None),
      tokenInfo := FetchStatus(false, None),
      isOnline := true,
      isAppInitialized := false,
      isAuthenticated := false,
      isKeyboardOpen := false,
      appSettings := AppSettings(
        acceptedTos := false,
        installationId := None,
        languageCode := "en-US",
        customPinHash := None,
        isSystemAuthEnabled := false,
        isBiometricHardwareSupported := false,
        sendCrashReports := false,
        canEnableBiometricEncryption := false,
        currentVersion := None),
      isFlawedWallet := false,
      serverStatus := ServerStatusCache(true, false, None),
      isMaintenance := false)
  }

  /** The literal addresses and checksum that the mock wallet is filled with. */
  datatype MockWalletFixture = MockWalletFixture(
    internalAddresses: seq<string>,
    externalAddresses: seq<string>,
    usedAddresses: set<string>,
    checksum: WalletChecksum)

  /** The error `mockState` throws in a production build. */
  const ProductionBuildError: string := "calling mockState in a production build"

  /**
   * The store used by development screens: the initial store with an opened,
   * initialised Haskell Shelley wallet. Throws outside development builds.
   */
  function MockState(isDev: bool, fixture: MockWalletFixture): (r: Result<State, string>)
    ensures r.Failure? <==> !isDev
    ensures r.Failure? ==> r.error == ProductionBuildError
    // only the open wallet differs from the initial store
    ensures r.Success? ==> r.value.(wallet := EmptyWallet()) == InitialState()
    ensures r.Success? ==> r.value.wallet.isInitialized && r.value.wallet.name == "My wallet"
    ensures r.Success? ==> r.value.wallet.walletImplementationId == HaskellShelleyImplementation
    ensures r.Success? ==> r.value.wallet.networkId == HaskellShelleyNetwork
    ensures r.Success? ==> r.value.wallet.numReceiveAddresses == 4 && r.value.wallet.canGenerateNewReceiveAddress
    ensures r.Success? ==> r.value.wallet.transactions == map[]
    ensures r.Success? ==> r.value.wallet.isUsedAddressIndex.Keys == fixture.usedAddresses
    // the mock store is as locked and unbooted as the initial one
    ensures r.Success? ==> !r.value.isAppInitialized && !r.value.isAuthenticated && r.value.wallets == map[]
  {
    if !isDev then
      Failure(ProductionBuildError)
    else
      var wallet := ActiveWallet(
        name := "My wallet",
        isInitialized := true,
        networkId := HaskellShelleyNetwork,
        walletImplementationId := HaskellShelleyImplementation,
        isHW := false,
        isReadOnly := false,
        isEasyConfirmationEnabled := false,
        transactions := map[],
        internalAddresses := fixture.internalAddresses,
        externalAddresses := fixture.externalAddresses,
        rewardAddressHex := None,
        confirmationCounts := map[],
        isUsedAddressIndex := map a | a in fixture.usedAddresses :: true,
        numReceiveAddresses := 4,
        canGenerateNewReceiveAddress := true,
        checksum := fixture.checksum);
      Success(InitialState().(wallet := wallet))
  }
}
