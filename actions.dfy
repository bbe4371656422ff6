/**
 * The side effects that the modelled handlers perform: Redux actions they
 * dispatch, calls into the key store, the wallet manager and the navigator.
 * Only two of them change the fields the session gate reads: `signin` sets
 * `isAuthenticated`, and a resolved `encryptAndStoreCustomPin` records the
 * PIN hash. Every other effect leaves the modelled store as it was.
 */
module Actions {
  import opened Wrappers
  import opened SessionState

  datatype Effect =
    // session
    | SignIn
    | EncryptAndStoreCustomPin(pin: string, outcome: Outcome)
    | CallOnSuccess
    // biometric key store and dialogs
    | RecreateAppSignInKeys(installationId: Option<string>)
    | ShowBiometricsTurnedOffDialog
    // wallet screen
    | FetchAccountState
    | UpdateHistory
    | CheckForFlawedWallets
    | FetchFundInfo
    | NavigateToCatalyst
    | NavigateToWalletSelection
    | ForwardRemoveAction
    | CloseWallet

  /** A PIN-store effect whose promise resolved, so the hash was saved. */
  predicate StoresPin(e: Effect) {
    e.EncryptAndStoreCustomPin? && e.outcome == Resolved
  }

  /**
   * The store after one effect; `hashPin` stands for the encryption that
   * `encryptAndStoreCustomPin` applies before saving.
   */
  function Apply(s: State, e: Effect, hashPin: string -> string): (r: State)
    ensures r.isAuthenticated == (s.isAuthenticated || e == SignIn)
    ensures StoresPin(e) ==> r.appSettings.customPinHash == Some(hashPin(e.pin))
    ensures !StoresPin(e) ==> r.appSettings == s.appSettings
    ensures r.(isAuthenticated := s.isAuthenticated, appSettings := s.appSettings) == s
    ensures r.appSettings.(customPinHash := s.appSettings.customPinHash) == s.appSettings
  {
    if e == SignIn then s.(isAuthenticated := true)
    else if StoresPin(e) then s.(appSettings := s.appSettings.(customPinHash := Some(hashPin(e.pin))))
    else s
  }

  /** The store after a sequence of effects, in order. */
  function ApplyAll(s: State, es: seq<Effect>, hashPin: string -> string): State
    decreases |es|
  {
    if es == [] then s else ApplyAll(Apply(s, es[0], hashPin), es[1..], hashPin)
  }

  /** Running two effect sequences one after the other is running their concatenation. */
  lemma {:induction false} ApplyAllConcat(s: State, a: seq<Effect>, b: seq<Effect>, hashPin: string -> string)
    ensures ApplyAll(s, a + b, hashPin) == ApplyAll(ApplyAll(s, a, hashPin), b, hashPin)
    decreases |a|
  {
    if a == [] {
      assert a + b == b;
    } else {
      assert (a + b)[1..] == a[1..] + b;
      ApplyAllConcat(Apply(s, a[0], hashPin), a[1..], b, hashPin);
    }
  }

  /**
   * What a sequence of effects can do to the store: it is authenticated
   * afterwards exactly when it was before or a sign-in was among the effects;
   * the PIN hash changes only through a resolved PIN store; nothing else changes.
   */
  lemma {:induction false} ApplyAllFrame(s: State, es: seq<Effect>, hashPin: string -> string)
    ensures ApplyAll(s, es, hashPin).isAuthenticated == (s.isAuthenticated || SignIn in es)
    ensures ApplyAll(s, es, hashPin).(isAuthenticated := s.isAuthenticated, appSettings := s.appSettings) == s
    ensures ApplyAll(s, es, hashPin).appSettings.(customPinHash := s.appSettings.customPinHash) == s.appSettings
    ensures (forall i :: 0 <= i < |es| ==> !StoresPin(es[i])) ==> ApplyAll(s, es, hashPin).appSettings == s.appSettings
    decreases |es|
  {
    if es != [] {
      var s' := Apply(s, es[0], hashPin);
      ApplyAllFrame(s', es[1..], hashPin);
      assert es == [es[0]] + es[1..];
      assert SignIn in es <==> es[0] == SignIn || SignIn in es[1..];
      if forall i :: 0 <= i < |es| ==> !StoresPin(es[i]) {
        assert !StoresPin(es[0]);
        assert forall i :: 0 <= i < |es[1..]| ==> !StoresPin(es[1..][i]) by {
          forall i | 0 <= i < |es[1..]| ensures !StoresPin(es[1..][i]) {
            assert es[1..][i] == es[i + 1];
          }
        }
      }
    }
  }
}
