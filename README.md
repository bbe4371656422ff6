# Session gate of the Yoroi mobile wallet, in Dafny

This project models the part of the Yoroi mobile wallet app that decides
which top-level screen set the app shows, and the small handlers that move a
session between those screens:

- **Session store** (`SessionState`, `state.dfy`): the Redux store shape
  restricted to the fields the gate and the wallet screen read, the initial
  store `InitialState()` and the development-only `MockState`.
- **Root navigator** (`AppNavigator`, `app_navigator.dfy`): `Resolve`, the
  first-match-wins choice between Splash, Maintenance, FirstRun, the debug
  index, the lock screen (PIN or biometric) and the wallet navigator; the
  biometric screen's `onSuccess`/`onFail` callbacks; and what a series of
  biometric attempts does to the session.
- **PIN setup** (`CustomPinScreen`, `custom_pin_screen.dfy`):
  `handlePinEntered` (store the PIN, sign in unless already signed in, call
  `onSuccess` if one was supplied).
- **Wallet history screen** (`TxHistory`, `tx_history.dfy`): a class for the
  mounted screen, with its local state (`showWarning`,
  `showInsufficientFundsModal`, `showCatalystBanner`). It covers the mount
  sequence `run`, the voting-banner press, the dialogs, pull to refresh, the
  `beforeRemove` listener, and what the screen renders.
- **Effects** (`Actions`, `actions.dfy`): every external call the handlers
  make becomes an `Effect` value in a returned or recorded sequence. `Apply`
  and `ApplyAll` state what those effects do to the store as the gate sees
  it. `signin` sets `isAuthenticated`. A resolved `encryptAndStoreCustomPin`
  saves the PIN hash, where `hashPin` stands for the encryption. Every other
  effect leaves the modelled store unchanged. The reducers themselves are
  not part of this model: this is the reading the gate relies on.

Oracles become parameters. These are the key-store answer "can biometric
encryption be enabled", the outcome of each awaited dispatch, the result of
`fetchFundInfo`, `isRegistrationOpen`, the build flags (`__DEV__`,
`isNightly()`, `CONFIG.DEBUG.START_WITH_INDEX_SCREEN`) and the configuration
tests `isByron`/`isHaskellShelley`.

Behaviour of the code worth knowing:

- The app does not tie authentication to owning a wallet. The PIN setup
  signs in during onboarding, and with an empty inventory `Resolve` opens
  the wallet list, not the PIN lock screen
  (`CustomPinScreen.FirstRunPinSetupUnlocksWithoutWallet`,
  `AppNavigator.NoWalletNeedsNoUnlock`).
- `onFail` awaits the key store's "can biometric encryption be enabled"
  query outside any `try`; if that query rejects, neither the keys are
  recreated nor the dialog is shown.
- `onFail` acts only on an invalid key. Every other rejection (cancelled,
  hardware unavailable, …) does nothing and shows no error.
- `languageCode` is a string that defaults to `en-US`. The onboarding branch
  fires only on the empty string. `customPinHash` counts as absent when it
  is null or the empty string (JavaScript truthiness).
- The mount steps are awaited one after another outside any `try`. If the
  account-state or history dispatch rejects, the rest of `run` does not
  happen: no flawed-wallet check, no fund fetch, and the voting banner keeps
  its initial value. Only the fund-info fetch is guarded.
- The `beforeRemove` listener is registered once, on mount. It sees the
  route count of that render (`routesAtMount`), not the current one.
- `isMaintenanceSelector` is read as the top-level `isMaintenance` field.
  `src/selectors.js` is not part of this model.

## Model

| member | source | states |
|---|---|---|
| SessionState.InitialState | src/state.js:109-185 | The initial store has no wallet and an uninitialised open wallet with no transactions, addresses or receive addresses. It is neither booted nor authenticated and has no unlock method or accepted terms. The language is en-US. It is not in maintenance at either level, and the server is marked OK. Every fetching sub-store is idle with no error. It is online and no wallet is flawed. |
| SessionState.MockState | src/state.js:187-230 | Outside development builds it fails with the production-build error. Otherwise it differs from the initial store only in the open wallet, which is initialised, named "My wallet", Haskell Shelley, with 4 receive addresses; the store stays unbooted and unauthenticated. |
| AppNavigator.HasAnyWallet | src/AppNavigator.js:44 | True exactly when some wallet id is in the inventory. |
| AppNavigator.LockScreens | src/AppNavigator.js:136-166 | The lock navigator registers exactly one unlock screen: PIN when system auth is off, biometric (keyed by the installation id) when it is on. |
| AppNavigator.Resolve | src/AppNavigator.js:64-204 | One if-and-only-if per mode. Splash iff not booted, whatever else holds. Maintenance iff booted and in maintenance, even over onboarding or a session. FirstRun iff also the language is empty, the terms are not accepted, or no unlock method is set. The debug index only after those three tests fail. Locked iff additionally not debug, some wallet exists and not authenticated, with the lock screens above. Otherwise Unlocked, always on the WALLET route, even without wallets. |
| AppNavigator.OnFail | src/AppNavigator.js:152-163 | At most one effect, and only for an invalid key. When the awaited key-store query answers, there is exactly one: the keys are recreated for the installation id if encryption can be enabled, otherwise the biometrics-off dialog is shown. If the query rejects, nothing happens. It never signs in. |
| AppNavigator.AttemptEffects | src/AppNavigator.js:148-163 | A successful attempt makes exactly the sign-in (`onSuccess`), a failed one exactly what `onFail` does; so it signs in iff it succeeded, and never stores a PIN. |
| AppNavigator.AttemptsEffectsSignIn | src/AppNavigator.js:148-163 | A series of attempts signs in iff one of them succeeded, and stores no PIN. |
| AppNavigator.BiometricLockScreenSession | src/AppNavigator.js:127-169 | A locked store with system auth shows exactly the biometric screen. A series of failed attempts, whatever key is recreated, leaves the store unchanged, so the same lock screen stays. Once an attempt succeeds, the wallet list opens. |
| AppNavigator.InitialStateShowsSplash | src/AppNavigator.js:76-86 | The initial store resolves to Splash. |
| AppNavigator.BootedInitialStateShowsFirstRun | src/AppNavigator.js:97-103 | The initial store, once booted, resolves to FirstRun. |
| AppNavigator.MaintenanceSuspendsSession | src/AppNavigator.js:87-96 | A store in maintenance resolves to Maintenance. If the same store without maintenance is unlocked, turning maintenance off brings back the wallet list without a new unlock. |
| AppNavigator.NoWalletNeedsNoUnlock | src/AppNavigator.js:192-203 | A booted, onboarded, unauthenticated store with no wallet resolves to the wallet list, not a lock screen. |
| CustomPinScreen.PinEnteredEffects | src/components/FirstRun/CustomPinScreen.js:41-45 | The PIN store comes first. A rejected store ends the handler. Sign-in happens iff the store resolved and the session was not authenticated. `onSuccess` is called iff the store resolved and the callback was supplied, and it is always the last step. No other effect happens and none happens twice. |
| CustomPinScreen.HandlePinEntered | src/components/FirstRun/CustomPinScreen.js:41-45 | The step-by-step handler makes exactly the effects above. |
| CustomPinScreen.PinEnteredState | src/components/FirstRun/CustomPinScreen.js:41-45 | After a resolved store the PIN hash is saved and the session is authenticated. A rejected store changes nothing. The wallet inventory is never touched. |
| CustomPinScreen.FirstRunPinSetupUnlocksWithoutWallet | src/components/FirstRun/CustomPinScreen.js:43 | An onboarding store with no wallet and no PIN resolves to FirstRun. After PIN setup it is authenticated with an empty inventory and resolves to the wallet list. |
| TxHistory.FundInfoAfterFetch | src/components/TxHistory/TxHistory.js:140-153 | Fund info is recorded iff the wallet can vote and the fetch returned a non-null current fund, and then it copies that fund's registration start and end. A thrown fetch leaves it null. |
| TxHistory.MountEffects | src/components/TxHistory/TxHistory.js:133-155 | Account state always comes first. Each step runs at most once, in the order account state, history, flawed-wallet check, fund info. History runs iff account state resolved. The flawed check runs iff both resolved. Fund info runs iff both resolved and the wallet can vote. |
| TxHistory.OnBeforeRemove | src/components/TxHistory/TxHistory.js:167-172 | The removal is always forwarded first. The wallet is closed iff the route stack has exactly one route. Nothing else happens. |
| TxHistory.TxHistoryScreen.constructor | src/components/TxHistory/TxHistory.js:122-130 | The warning starts shown iff the wallet is Byron. The insufficient-funds dialog starts closed. The voting banner starts equal to "can vote". |
| TxHistory.TxHistoryScreen.Run | src/components/TxHistory/TxHistory.js:132-155 | It records the mount effects. When the sequence completes, the banner becomes (can vote and registration open for the fetched fund info) or nightly or dev. Otherwise the banner is unchanged. The other screen state is untouched. |
| TxHistory.TxHistoryScreen.PressVotingBanner | src/components/TxHistory/TxHistory.js:202-208 | Below the minimum balance it opens the insufficient-funds dialog and does not navigate. Otherwise it navigates to the Catalyst root. |
| TxHistory.TxHistoryScreen.CloseInsufficientFundsModal | src/components/TxHistory/TxHistory.js:252-255 | Closes the dialog and changes nothing else. |
| TxHistory.TxHistoryScreen.DismissWarning | src/components/TxHistory/TxHistory.js:244 | Hides the Byron warning and changes nothing else. |
| TxHistory.TxHistoryScreen.Refresh | src/components/TxHistory/TxHistory.js:224 | Pull to refresh dispatches one history update. |
| TxHistory.TxHistoryScreen.LeaveFlawedWallet | src/components/TxHistory/TxHistory.js:213-218 | The flawed-wallet dialog navigates to wallet selection. |
| TxHistory.TxHistoryScreen.BeforeRemove | src/components/TxHistory/TxHistory.js:162-176 | The listener makes the effects of `OnBeforeRemove` for the route count captured at mount. |
| TxHistory.TxHistoryScreen.Render | src/components/TxHistory/TxHistory.js:180-247 | Loading iff the wallet is uninitialised. The sync-error banner shows iff online with a recorded error, and offers refresh iff not syncing. The voting banner follows the screen state and is disabled while account state loads. The flawed-wallet dialog shows iff the store flags the wallet. The empty view shows iff there are no transactions. The Byron warning shows iff the wallet is Byron and the warning was not dismissed. |

## Left out

- All rendering: JSX layout, styles, `react-intl` messages, the
  `Stack.Navigator` wiring. Each navigator is reduced to a `Mode` and each
  screen to a `View`.
- The debug index navigator's own routes (INDEX, STORYBOOK, NEW_WALLET,
  WALLET, initial route INIT) are not modelled. It is the single mode
  `DevIndex`.
- The bodies of `fetchAccountState`, `updateHistory`,
  `checkForFlawedWallets`, `walletManager.fetchFundInfo`/`closeWallet`,
  `isRegistrationOpen`, `canBiometricEncryptionBeEnabled`,
  `recreateAppSignInKeys`, `showErrorDialog`, `encryptAndStoreCustomPin`,
  `signin` and the selectors are not part of this model. They are oracles
  (parameters) or recorded effects.
- Reducers other than the gate's reading of `signin` and
  `encryptAndStoreCustomPin` are not modelled. For example, a history fetch
  is not modelled as changing `txHistory`, and closing a wallet is not
  modelled as clearing the open wallet.
- Async interleaving: the mount sequence is sequential. The fund fetch's
  continuation after an unmount is not modelled, and neither are stale
  results.
- `checkForFlawedWallets` is dispatched without `await`, so its outcome
  never stops the mount sequence.
- BigNumber amounts are integers in lovelace. `CONFIG.CATALYST.MIN_ADA`
  (src/config is not part of this model) is the `minAda` parameter.
  Formatting of amounts is not modelled.
- Store fields outside the gate are not modelled: `hwDeviceInfo`, the
  legacy `isShelley`, `balance.utxos`, `poolInfo.meta`, `tokenInfo.tokens`,
  `voting`, `isKeyboardOpen` beyond its initial value. So are the literal
  mock addresses and checksum: `MockState` takes them as a fixture
  parameter.
- Commented-out code (the NEW_WALLET navigator in src/AppNavigator.js and
  the old export in TxHistory.js) is not behaviour and is not modelled.
- src/components/Common/TwoActionView.js and
  src/components/Delegation/dashboard/styles/EpochProgress.style.js are pure
  presentation and are not part of this model.
