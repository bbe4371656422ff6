/**
 * The root navigator of the app (src/AppNavigator.js): which top-level
 * screen set is shown for a store snapshot, and what the biometric unlock
 * screen's success and failure callbacks do.
 */
module AppNavigator {
  import opened Wrappers
  import opened SessionState
  import opened Actions

  /** `hasAnyWalletSelector`: the wallet inventory is not empty. */
  function HasAnyWallet(s: State): (b: bool)
    ensures b <==> exists id :: id in s.wallets
  {
    assert |s.wallets| > 0 ==> s.wallets.Keys != {};
    |s.wallets| > 0
  }

  /** `customPinHash` is truthy: present and not the empty string. */
  predicate PinConfigured(s: State) {
    s.appSettings.customPinHash.Some? && s.appSettings.customPinHash.value != ""
  }

  /**
   * The onboarding test: the language code is the empty string, the terms
   * are not accepted, or neither system authentication nor a PIN is set up.
   */
  predicate FirstRunIncomplete(s: State) {
    || s.appSettings.languageCode == ""
    || !s.appSettings.acceptedTos
    || (!s.appSettings.isSystemAuthEnabled && !PinConfigured(s))
  }

  /** The unlock screen of the locked navigator; the biometric one carries the key alias. */
  datatype UnlockScreen = CustomPinAuth | BioAuth(keyId: Option<string>)

  /** Root routes a navigator can start on. */
  datatype RootRoute = WalletRoute | NewWalletRoute

  /** The top-level screen set the root navigator renders. */
  datatype Mode =
    | Splash
    | Maintenance
    | FirstRun
    | DevIndex
    | Locked(screens: seq<UnlockScreen>)
    | Unlocked(initialRoute: RootRoute)

  /**
   * The screens of the locked navigator: the PIN screen is registered when
   * system authentication is off and the biometric screen when it is on, so
   * exactly one of them is.
   */
  function LockScreens(s: State): (r: seq<UnlockScreen>)
    ensures |r| == 1
    ensures r[0] == CustomPinAuth <==> !s.appSettings.isSystemAuthEnabled
    ensures r[0] == BioAuth(s.appSettings.installationId) <==> s.appSettings.isSystemAuthEnabled
  {
    var sys := s.appSettings.isSystemAuthEnabled;
    (if !sys then [CustomPinAuth] else []) + (if sys then [BioAuth(s.appSettings.installationId)] else [])
  }

  /**
   * `NavigatorSwitch`: the first of splash, maintenance, onboarding, the
   * debug index, the lock screen and the wallet navigator whose test holds.
   * `startWithIndexScreen` is the debug configuration flag.
   */
  function Resolve(s: State, startWithIndexScreen: bool): (m: Mode)
    // an unbooted app shows the splash screen whatever else holds
    ensures m == Splash <==> !s.isAppInitialized
    // maintenance overrides onboarding and any session
    ensures m == Maintenance <==> s.isAppInitialized && s.isMaintenance
    ensures m == FirstRun <==> s.isAppInitialized && !s.isMaintenance && FirstRunIncomplete(s)
    // the debug index is reachable only after the three tests above failed
    ensures m == DevIndex <==>
      s.isAppInitialized && !s.isMaintenance && !FirstRunIncomplete(s) && startWithIndexScreen
    ensures m.Locked? <==>
      s.isAppInitialized && !s.isMaintenance && !FirstRunIncomplete(s) && !startWithIndexScreen
      && HasAnyWallet(s) && !s.isAuthenticated
    ensures m.Locked? ==> m.screens == LockScreens(s)
    // every remaining case, with or without wallets, opens the wallet list
    ensures m.Unlocked? <==>
      s.isAppInitialized && !s.isMaintenance && !FirstRunIncomplete(s) && !startWithIndexScreen
      && (!HasAnyWallet(s) || s.isAuthenticated)
    ensures m.Unlocked? ==> m.initialRoute == WalletRoute
  {
    if !s.isAppInitialized then Splash
    else if s.isMaintenance then Maintenance
    else if FirstRunIncomplete(s) then FirstRun
    else if startWithIndexScreen then DevIndex
    else if HasAnyWallet(s) && !s.isAuthenticated then Locked(LockScreens(s))
    else Unlocked(WalletRoute)
  }

  /** Why the key store rejected a biometric unlock. */
  datatype Rejection = InvalidKey | Cancelled | HardwareUnavailable | OtherRejection

  /**
   * The biometric screen's `onFail`: only an invalid key is acted on. The key
   * store is then asked whether biometric encryption can still be enabled
   * (`canEnableEncryption`, `None` when that awaited query rejects and the
   * callback throws). On `true` the sign-in key is recreated under the
   * installation id, on `false` the "biometrics turned off" dialog is shown.
   * It never signs in.
   */
  function OnFail(reason: Rejection, canEnableEncryption: Option<bool>, installationId: Option<string>): (r: seq<Effect>)
    ensures |r| <= 1 && SignIn !in r
    // at most one effect, and exactly one when the reason is an invalid key and the query answers
    ensures r != [] <==> reason == InvalidKey && canEnableEncryption.Some?
    ensures RecreateAppSignInKeys(installationId) in r <==> reason == InvalidKey && canEnableEncryption == Some(true)
    ensures ShowBiometricsTurnedOffDialog in r <==> reason == InvalidKey && canEnableEncryption == Some(false)
  {
    if reason == InvalidKey then
      match canEnableEncryption
      case None => []
      case Some(true) => [RecreateAppSignInKeys(installationId)]
      case Some(false) => [ShowBiometricsTurnedOffDialog]
    else []
  }

  /**
   * One biometric unlock attempt; a failure carries the key store's answer to
   * "can encryption be enabled", `None` when that query rejects.
   */
  datatype Attempt = Succeeded | Failed(reason: Rejection, canEnableEncryption: Option<bool>)

  /** The effects of one attempt: `onSuccess` signs in, `onFail` as above. */
  function AttemptEffects(a: Attempt, installationId: Option<string>): (r: seq<Effect>)
    ensures SignIn in r <==> a.Succeeded?
    ensures forall i :: 0 <= i < |r| ==> !StoresPin(r[i])
    // a success makes exactly the sign-in, a failure exactly what `onFail` does
    ensures a.Succeeded? ==> r == [SignIn]
    ensures a.Failed? ==> r == OnFail(a.reason, a.canEnableEncryption, installationId)
  {
    match a
    case Succeeded => [SignIn]
    case Failed(reason, canEnable) => OnFail(reason, canEnable, installationId)
  }

  /** The effects of a series of attempts made on the biometric lock screen. */
  function AttemptsEffects(attempts: seq<Attempt>, installationId: Option<string>): seq<Effect>
    decreases |attempts|
  {
    if attempts == [] then []
    else AttemptEffects(attempts[0], installationId) + AttemptsEffects(attempts[1..], installationId)
  }

  /** A series of attempts signs in exactly when one of them succeeded, and never stores a PIN. */
  lemma {:induction false} AttemptsEffectsSignIn(attempts: seq<Attempt>, installationId: Option<string>)
    ensures SignIn in AttemptsEffects(attempts, installationId) <==>
      exists i :: 0 <= i < |attempts| && attempts[i].Succeeded?
    ensures forall i :: 0 <= i < |AttemptsEffects(attempts, installationId)| ==>
      !StoresPin(AttemptsEffects(attempts, installationId)[i])
    decreases |attempts|
  {
    if attempts != [] {
      var head := AttemptEffects(attempts[0], installationId);
      var tail := AttemptsEffects(attempts[1..], installationId);
      AttemptsEffectsSignIn(attempts[1..], installationId);
      assert AttemptsEffects(attempts, installationId) == head + tail;
      if exists i :: 0 <= i < |attempts[1..]| && attempts[1..][i].Succeeded? {
        var i :| 0 <= i < |attempts[1..]| && attempts[1..][i].Succeeded?;
        assert attempts[i + 1].Succeeded?;
      }
      if exists i :: 0 <= i < |attempts| && attempts[i].Succeeded? {
        var i :| 0 <= i < |attempts| && attempts[i].Succeeded?;
        if i > 0 {
          assert attempts[1..][i - 1].Succeeded?;
        }
      }
    }
  }

  /**
   * On the biometric lock screen, failed attempts (whatever the key store
   * answers and whichever key is recreated) leave the store unchanged, so the
   * same lock screen stays up; once an attempt succeeds the wallet navigator
   * opens on the wallet list.
   */
  lemma {:induction false} BiometricLockScreenSession(
    s: State, startWithIndexScreen: bool, attempts: seq<Attempt>, hashPin: string -> string)
    requires Resolve(s, startWithIndexScreen).Locked? && s.appSettings.isSystemAuthEnabled
    ensures Resolve(s, startWithIndexScreen) == Locked([BioAuth(s.appSettings.installationId)])
    ensures (forall i :: 0 <= i < |attempts| ==> attempts[i].Failed?) ==>
      ApplyAll(s, AttemptsEffects(attempts, s.appSettings.installationId), hashPin) == s
    ensures (exists i :: 0 <= i < |attempts| && attempts[i].Succeeded?) ==>
      Resolve(ApplyAll(s, AttemptsEffects(attempts, s.appSettings.installationId), hashPin), startWithIndexScreen)
        == Unlocked(WalletRoute)
  {
    var es := AttemptsEffects(attempts, s.appSettings.installationId);
    AttemptsEffectsSignIn(attempts, s.appSettings.installationId);
    ApplyAllFrame(s, es, hashPin);
    var s' := ApplyAll(s, es, hashPin);
    assert s'.appSettings == s.appSettings;
    assert s' == s.(isAuthenticated := s'.isAuthenticated);
  }

  /** A fresh store shows the splash screen. */
  lemma InitialStateShowsSplash(startWithIndexScreen: bool)
    ensures Resolve(InitialState(), startWithIndexScreen) == Splash
  {
  }

  /** Once booted, a fresh store goes to onboarding: no unlock method is set up yet. */
  lemma BootedInitialStateShowsFirstRun(startWithIndexScreen: bool)
    ensures Resolve(InitialState().(isAppInitialized := true), startWithIndexScreen) == FirstRun
  {
  }

  /**
   * Maintenance suspends an unlocked session without signing out: a store in
   * maintenance shows the maintenance screen, and when maintenance ends the
   * wallet navigator comes back without a new unlock.
   */
  lemma MaintenanceSuspendsSession(s: State, startWithIndexScreen: bool)
    requires s.isMaintenance && Resolve(s.(isMaintenance := false), startWithIndexScreen).Unlocked?
    ensures s.isAppInitialized
    ensures Resolve(s, startWithIndexScreen) == Maintenance
    ensures Resolve(s.(isMaintenance := false), startWithIndexScreen) == Unlocked(WalletRoute)
  {
  }

  /**
   * Without any wallet no unlock is asked for: a booted, onboarded store
   * with an empty inventory opens the wallet list even when not authenticated.
   */
  lemma NoWalletNeedsNoUnlock(s: State)
    requires s.isAppInitialized && !s.isMaintenance && !FirstRunIncomplete(s)
    requires s.wallets == map[] && !s.isAuthenticated
    ensures Resolve(s, false) == Unlocked(WalletRoute)
  {
  }
}
