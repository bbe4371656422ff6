/**
 * The PIN setup screen of onboarding (src/components/FirstRun/CustomPinScreen.js):
 * what happens once the user has entered and confirmed a new PIN.
 */
module CustomPinScreen {
  import opened Wrappers
  import opened SessionState
  import opened Actions
  import opened AppNavigator

  /**
   * The effects of `handlePinEntered`, given how the awaited PIN store
   * settled, whether the session was authenticated when the screen rendered,
   * and whether the route parameters supplied an `onSuccess` callback.
   */
  function PinEnteredEffects(pin: string, store: Outcome, isAuth: bool, hasOnSuccess: bool): (r: seq<Effect>)
    // the PIN is stored first, before any sign-in
    ensures 1 <= |r| <= 3 && r[0] == EncryptAndStoreCustomPin(pin, store)
    // a rejected store ends the handler
    ensures store == Rejected ==> |r| == 1
    // sign-in only when the session was not authenticated yet
    ensures SignIn in r <==> store == Resolved && !isAuth
    // the callback only when it was supplied, and as the very last step
    ensures CallOnSuccess in r <==> store == Resolved && hasOnSuccess
    ensures CallOnSuccess in r ==> r[|r| - 1] == CallOnSuccess
    // nothing else happens, and nothing twice
    ensures |r| == 1 + (if store == Resolved && !isAuth then 1 else 0) + (if store == Resolved && hasOnSuccess then 1 else 0)
    ensures forall i :: 1 <= i < |r| ==> r[i] == SignIn || r[i] == CallOnSuccess
  {
    var stored := EncryptAndStoreCustomPin(pin, store);
    if store != Resolved then [stored]
    else if isAuth && hasOnSuccess then [stored, CallOnSuccess]
    else if isAuth then [stored]
    else if hasOnSuccess then [stored, SignIn, CallOnSuccess]
    else [stored, SignIn]
  }

  /** `handlePinEntered`, step by step. */
  method HandlePinEntered(pin: string, store: Outcome, isAuth: bool, hasOnSuccess: bool)
    returns (effects: seq<Effect>)
    ensures effects == PinEnteredEffects(pin, store, isAuth, hasOnSuccess)
  {
    effects := [EncryptAndStoreCustomPin(pin, store)];
    if store == Rejected {
      return;
    }
    if !isAuth {
      effects := effects + [SignIn];
    }
    if hasOnSuccess {
      effects := effects + [CallOnSuccess];
    }
  }

  /**
   * What entering a PIN does to the store: when the store resolves, the PIN
   * hash is saved and the session is authenticated (whether or not it was);
   * when it rejects, nothing changes. The wallet inventory is never touched.
   */
  lemma PinEnteredState(s: State, pin: string, store: Outcome, hasOnSuccess: bool, hashPin: string -> string)
    ensures var s' := ApplyAll(s, PinEnteredEffects(pin, store, s.isAuthenticated, hasOnSuccess), hashPin);
      && (store == Resolved ==> s'.isAuthenticated && s'.appSettings.customPinHash == Some(hashPin(pin)))
      && (store == Rejected ==> s' == s)
      && s'.wallets == s.wallets
  {
    var es := PinEnteredEffects(pin, store, s.isAuthenticated, hasOnSuccess);
    var s1 := Apply(s, es[0], hashPin);
    assert es == [es[0]] + es[1..];
    ApplyAllConcat(s, [es[0]], es[1..], hashPin);
    assert ApplyAll(s, [es[0]], hashPin) == s1;
    ApplyAllFrame(s1, es[1..], hashPin);
    if store == Resolved {
      assert forall i :: 0 <= i < |es[1..]| ==> !StoresPin(es[1..][i]);
    }
    ApplyAllFrame(s, es, hashPin);
  }

  /**
   * Onboarding with no wallet: once the PIN is set up the user is signed in
   * and the wallet list opens, although the inventory is still empty. The
   * app does not tie authentication to owning a wallet.
   */
  lemma FirstRunPinSetupUnlocksWithoutWallet(s: State, pin: string, hashPin: string -> string)
    requires s.isAppInitialized && !s.isMaintenance
    requires s.appSettings.languageCode != "" && s.appSettings.acceptedTos
    requires !s.appSettings.isSystemAuthEnabled && s.appSettings.customPinHash == None
    requires s.wallets == map[] && !s.isAuthenticated
    requires hashPin(pin) != ""
    ensures Resolve(s, false) == FirstRun
    ensures var s' := ApplyAll(s, PinEnteredEffects(pin, Resolved, s.isAuthenticated, false), hashPin);
      s'.isAuthenticated && s'.wallets == map[] && Resolve(s', false) == Unlocked(WalletRoute)
  {
    PinEnteredState(s, pin, Resolved, false, hashPin);
    ApplyAllFrame(s, PinEnteredEffects(pin, Resolved, s.isAuthenticated, false), hashPin);
  }
}
