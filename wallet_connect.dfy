/**
 * The wallet button: detection of an injected Stacks wallet, the session
 * flags the button keeps (signed in, user data, loading, error), the
 * connect / finish / cancel / sign-out transitions, and the way the button
 * shortens and picks the address it shows.
 *
 * The wallet library is not modelled; what it reports enters as parameters
 * (`AuthStatus`, `FinishReport`, whether the connect prompt throws).
 */
module Wallet {
  import opened Wrappers
  import opened Js

  // ---------------------------------------------------------------------
  // Wallet detection

  /** The globals the detection probes on `window`. */
  datatype WindowProbe = WindowProbe(
    stacksProvider: bool,          // window.StacksProvider
    xverseProviders: bool,         // window.XverseProviders
    xverseStacksProvider: bool,    // window.XverseProviders.StacksProvider
    btc: bool,                     // window.btc
    leatherProvider: bool)         // window.LeatherProvider

  datatype Wallets = Wallets(hasHiro: bool, hasXverse: bool, hasLeather: bool)

  datatype WalletCheck = WalletCheck(hasAnyWallet: bool, wallets: Wallets)

  /** `checkWalletAvailability`. The Xverse probe goes through an optional
      chain, so its provider only counts when `XverseProviders` exists. */
  function CheckWalletAvailability(w: WindowProbe): (r: WalletCheck)
    ensures r.hasAnyWallet <==> r.wallets.hasHiro || r.wallets.hasXverse || r.wallets.hasLeather
    ensures r.hasAnyWallet <==>
              w.stacksProvider || (w.xverseProviders && w.xverseStacksProvider)
              || w.btc || w.leatherProvider
    ensures !w.xverseProviders ==> !r.wallets.hasXverse
    ensures r.wallets == Wallets(w.stacksProvider, w.xverseProviders && w.xverseStacksProvider,
                                 w.btc || w.leatherProvider)
  {
    var hasHiro := w.stacksProvider;
    var hasXverse := w.xverseProviders && w.xverseStacksProvider;
    var hasLeather := w.btc || w.leatherProvider;
    WalletCheck(hasHiro || hasXverse || hasLeather, Wallets(hasHiro, hasXverse, hasLeather))
  }

  // ---------------------------------------------------------------------
  // User data and the displayed address

  datatype StxAddress = StxAddress(testnet: Option<string>, mainnet: Option<string>)

  datatype Profile = Profile(stxAddress: Option<StxAddress>)

  /** The part of the wallet library's user data the button reads. */
  datatype UserData = UserData(profile: Option<Profile>)

  /** `userData.profile?.stxAddress?.testnet`. */
  function Testnet(u: UserData): Option<string> {
    if u.profile.Some? && u.profile.value.stxAddress.Some?
    then u.profile.value.stxAddress.value.testnet else None
  }

  /** `userData.profile?.stxAddress?.mainnet`. */
  function Mainnet(u: UserData): Option<string> {
    if u.profile.Some? && u.profile.value.stxAddress.Some?
    then u.profile.value.stxAddress.value.mainnet else None
  }

  /** `testnet || mainnet || ''`: the first truthy address, else the empty string. */
  function DisplayAddress(u: UserData): (a: string)
    ensures Truthy(Testnet(u)) ==> Some(a) == Testnet(u)
    ensures !Truthy(Testnet(u)) && Truthy(Mainnet(u)) ==> Some(a) == Mainnet(u)
    ensures a == "" <==> !Truthy(Testnet(u)) && !Truthy(Mainnet(u))
    ensures a == "" || Some(a) == Testnet(u) || Some(a) == Mainnet(u)
  {
    var testnet, mainnet := Testnet(u), Mainnet(u);
    if Truthy(testnet) then testnet.value
    else if Truthy(mainnet) then mainnet.value
    else ""
  }

  /** `formatAddress`: the first six and the last four characters around an
      ellipsis, with `slice`'s clamping on short inputs. */
  function FormatAddress(address: string): (r: string)
    ensures address == "" ==> r == ""
    ensures address != "" ==>
              r == address[..Min(6, |address|)] + "..." + address[Max(0, |address| - 4)..]
    ensures |r| <= 13
    ensures address != "" ==> |r| >= 5
  {
    if address == "" then ""
    else Slice(address, 0, 6) + "..." + SliceFrom(address, -4)
  }

  /** On an address of ten characters or more nothing is shown twice: the
      shortened form keeps its head and tail and drops the middle. */
  lemma FormatAddressLong(address: string)
    requires |address| >= 10
    ensures |FormatAddress(address)| == 13
    ensures FormatAddress(address)[..6] == address[..6]
    ensures FormatAddress(address)[9..] == address[|address| - 4..]
  {
  }

  // ---------------------------------------------------------------------
  // Session state

  const NoWalletError := "No Stacks wallet detected. Please install Hiro Wallet, Xverse, or Leather."
  const ConnectFailedError := "Failed to connect wallet. Please try again."
  const AuthCheckError := "Error checking authentication status"

  /** The button's four state slots. */
  datatype Session = Session(
    isSignedIn: bool,
    userData: Option<UserData>,
    isLoading: bool,
    error: Option<string>)

  /** The state on mount, before the stored session has been checked. */
  const Initial := Session(false, None, true, None)

  /** What the wallet library reports when the button mounts. */
  datatype AuthStatus =
    | SignInPending(pendingData: UserData)  // a redirect sign-in completes with this data
    | StoredSignIn(storedData: UserData)    // an earlier session is still signed in
    | NotSignedIn
    | CheckFailed                           // the library threw

  /** The mount-time check: adopt a pending or stored sign-in, report a
      failure, and stop loading in every case. */
  function AfterAuthCheck(s: Session, status: AuthStatus): (r: Session)
    ensures !r.isLoading
    ensures r.error == (if status.CheckFailed? then Some(AuthCheckError) else s.error)
    ensures r.isSignedIn <==> s.isSignedIn || status.SignInPending? || status.StoredSignIn?
    ensures r.userData == (if status.SignInPending? then Some(status.pendingData)
                           else if status.StoredSignIn? then Some(status.storedData)
                           else s.userData)
  {
    match status
    case SignInPending(u) => s.(userData := Some(u), isSignedIn := true, isLoading := false)
    case StoredSignIn(u) => s.(userData := Some(u), isSignedIn := true, isLoading := false)
    case NotSignedIn => s.(isLoading := false)
    case CheckFailed => s.(error := Some(AuthCheckError), isLoading := false)
  }

  /** The state `handleConnect` leaves behind, and whether it opened the
      connect prompt. */
  datatype ConnectStep = ConnectStep(session: Session, promptInvoked: bool)

  /** `handleConnect`: start loading with no error; without a wallet, stop
      with an error and never open the prompt; if opening the prompt throws,
      stop with an error; otherwise keep loading until a callback fires. */
  function AfterConnect(s: Session, probe: WindowProbe, showConnectThrows: bool): (r: ConnectStep)
    ensures r.promptInvoked <==> CheckWalletAvailability(probe).hasAnyWallet
    ensures !r.promptInvoked ==> r.session.error == Some(NoWalletError) && !r.session.isLoading
    ensures r.session.isLoading <==> r.promptInvoked && !showConnectThrows
    ensures r.session.error.None? <==> r.session.isLoading
    ensures r.promptInvoked && showConnectThrows ==> r.session.error == Some(ConnectFailedError)
    ensures r.session.isSignedIn == s.isSignedIn && r.session.userData == s.userData
  {
    var started := s.(isLoading := true, error := None);
    if !CheckWalletAvailability(probe).hasAnyWallet then
      ConnectStep(started.(error := Some(NoWalletError), isLoading := false), false)
    else if showConnectThrows then
      ConnectStep(started.(error := Some(ConnectFailedError), isLoading := false), true)
    else
      ConnectStep(started, true)
  }

  /** What the wallet library reports when the prompt's `onFinish` runs. */
  datatype FinishReport =
    | FinishSignedIn(loaded: UserData)  // `isUserSignedIn()` holds; `loadUserData()` returns this
    | FinishNotSignedIn
    | FinishThrew                       // one of the two calls threw; `onFinish` has no catch

  /** The prompt's `onFinish`: adopt the user data only if the library now
      reports a signed-in session, then stop loading. A throw from the
      library escapes the callback before any state is set, so the button
      stays on "Loading...". */
  function AfterFinish(s: Session, report: FinishReport): (r: Session)
    ensures report.FinishThrew? ==> r == s
    ensures !report.FinishThrew? ==> !r.isLoading
    ensures r.error == s.error
    ensures r.isSignedIn <==> s.isSignedIn || report.FinishSignedIn?
    ensures r.userData == if report.FinishSignedIn? then Some(report.loaded) else s.userData
  {
    match report
    case FinishSignedIn(u) => s.(userData := Some(u), isSignedIn := true, isLoading := false)
    case FinishNotSignedIn => s.(isLoading := false)
    case FinishThrew => s
  }

  /** A connect whose `onFinish` throws leaves the button on its loading
      view: nothing in the callback gets to stop the loading. */
  lemma FinishThrowKeepsLoading(s: Session, probe: WindowProbe)
    requires CheckWalletAvailability(probe).hasAnyWallet
    ensures Render(AfterFinish(AfterConnect(s, probe, false).session, FinishThrew)) == LoadingButton
  {
  }

  /** The prompt's `onCancel`. */
  function AfterCancel(s: Session): (r: Session)
    ensures !r.isLoading
    ensures r.isSignedIn == s.isSignedIn && r.userData == s.userData && r.error == s.error
  {
    s.(isLoading := false)
  }

  /** `handleSignOut` (the page reload that follows is not modelled). The
      library's `signUserOut` runs first and has no catch: if it throws, no
      setter runs and the state is left as it was. */
  function AfterSignOut(s: Session, signOutThrows: bool): (r: Session)
    ensures signOutThrows ==> r == s
    ensures !signOutThrows ==> !r.isSignedIn && r.userData.None? && r.error.None?
    ensures r.isLoading == s.isLoading
  {
    if signOutThrows then s
    else s.(isSignedIn := false, userData := None, error := None)
  }

  /** Signing out twice is the same as signing out once. */
  lemma SignOutIdempotent(s: Session)
    ensures AfterSignOut(AfterSignOut(s, false), false) == AfterSignOut(s, false)
  {
  }

  // ---------------------------------------------------------------------
  // Rendering

  /** Which of the button's three renderings is shown. */
  datatype View =
    | LoadingButton
    | SignedInView(shownAddress: string)
    | ConnectView(connectDisabled: bool, alert: Option<string>)

  /** The render: loading first, then the signed-in view (which needs both
      the flag and the data), else the connect button with the error alert. */
  function Render(s: Session): (v: View)
    ensures v.LoadingButton? <==> s.isLoading
    ensures v.SignedInView? <==> !s.isLoading && s.isSignedIn && s.userData.Some?
    ensures v.SignedInView? ==> v.shownAddress == FormatAddress(DisplayAddress(s.userData.value))
    ensures v.SignedInView? ==> |v.shownAddress| <= 13
    ensures v.ConnectView? ==> !v.connectDisabled
    ensures v.ConnectView? ==> v.alert == (if Truthy(s.error) then s.error else None)
  {
    if s.isLoading then LoadingButton
    else if s.isSignedIn && s.userData.Some? then
      SignedInView(FormatAddress(DisplayAddress(s.userData.value)))
    else
      ConnectView(s.isLoading, if Truthy(s.error) then s.error else None)
  }

  /** Connecting without any wallet shows the connect button again, with the
      "no wallet" alert, and never reaches the wallet library. */
  lemma NoWalletShowsAlert(s: Session, probe: WindowProbe, showConnectThrows: bool)
    requires !s.isSignedIn
    requires !CheckWalletAvailability(probe).hasAnyWallet
    ensures !AfterConnect(s, probe, showConnectThrows).promptInvoked
    ensures Render(AfterConnect(s, probe, showConnectThrows).session)
              == ConnectView(false, Some(NoWalletError))
  {
  }

  /** A connect that opens the prompt, finished by a signed-in session, shows
      the shortened address of the loaded user data. */
  lemma ConnectThenFinishShowsAddress(s: Session, probe: WindowProbe, loaded: UserData)
    requires CheckWalletAvailability(probe).hasAnyWallet
    ensures var step := AfterConnect(s, probe, false);
            step.promptInvoked
            && Render(AfterFinish(step.session, FinishSignedIn(loaded)))
                 == SignedInView(FormatAddress(DisplayAddress(loaded)))
  {
  }

  /** Cancelling the prompt goes back to exactly the view before connecting,
      less any earlier error alert. */
  lemma ConnectThenCancelRestoresView(s: Session, probe: WindowProbe)
    requires CheckWalletAvailability(probe).hasAnyWallet
    requires !s.isLoading
    ensures AfterCancel(AfterConnect(s, probe, false).session) == s.(error := None)
  {
  }

  // ---------------------------------------------------------------------
  // Runs of the button

  /** Everything that can happen to the button, as seen from its state. */
  datatype WalletAction =
    | AuthChecked(status: AuthStatus)
    | ConnectClicked(probe: WindowProbe, showConnectThrows: bool)
    | Finished(report: FinishReport)
    | Cancelled
    | SignOutClicked(signOutThrows: bool)

  function Step(s: Session, a: WalletAction): Session {
    match a
    case AuthChecked(status) => AfterAuthCheck(s, status)
    case ConnectClicked(probe, throws) => AfterConnect(s, probe, throws).session
    case Finished(report) => AfterFinish(s, report)
    case Cancelled => AfterCancel(s)
    case SignOutClicked(throws) => AfterSignOut(s, throws)
  }

  function Run(s: Session, trace: seq<WalletAction>): Session
    decreases |trace|
  {
    if trace == [] then s else Run(Step(s, trace[0]), trace[1..])
  }

  /** The signed-in flag and the user data are set and cleared together. */
  predicate Consistent(s: Session) {
    s.isSignedIn <==> s.userData.Some?
  }

  /** From mount on, every run keeps the flag and the data in step, so the
      signed-in view appears exactly when the flag is set and nothing loads. */
  lemma {:induction false} RunKeepsConsistent(s: Session, trace: seq<WalletAction>)
    requires Consistent(s)
    ensures Consistent(Run(s, trace))
    ensures Render(Run(s, trace)).SignedInView? <==>
              !Run(s, trace).isLoading && Run(s, trace).isSignedIn
    decreases |trace|
  {
    if trace != [] {
      RunKeepsConsistent(Step(s, trace[0]), trace[1..]);
    }
  }

  /** The wallet button as a component with four state slots. */
  class WalletConnect {
    var isSignedIn: bool
    var userData: Option<UserData>
    var isLoading: bool
    var error: Option<string>

    function State(): Session
      reads this
    {
      Session(isSignedIn, userData, isLoading, error)
    }

    constructor ()
      ensures State() == Initial
    {
      isSignedIn, userData, isLoading, error := false, None, true, None;
    }

    /** The mount effect `checkAuthStatus`. */
    method CheckAuthStatus(status: AuthStatus)
      modifies this
      ensures State() == AfterAuthCheck(old(State()), status)
      ensures !isLoading
    {
      match status {
        case SignInPending(u) =>
          userData := Some(u);
          isSignedIn := true;
        case StoredSignIn(u) =>
          userData := Some(u);
          isSignedIn := true;
        case NotSignedIn =>
        case CheckFailed =>
          error := Some(AuthCheckError);
      }
      isLoading := false;
    }

    /** `handleConnect` up to the point where it hands over to the prompt. */
    method HandleConnect(probe: WindowProbe, showConnectThrows: bool) returns (promptInvoked: bool)
      modifies this
      ensures AfterConnect(old(State()), probe, showConnectThrows) == ConnectStep(State(), promptInvoked)
      ensures isSignedIn == old(isSignedIn) && userData == old(userData)
      ensures !promptInvoked ==> error == Some(NoWalletError) && !isLoading
    {
      isLoading := true;
      error := None;
      var walletCheck := CheckWalletAvailability(probe);
      if !walletCheck.hasAnyWallet {
        error := Some(NoWalletError);
        isLoading := false;
        return false;
      }
      promptInvoked := true;
      if showConnectThrows {
        error := Some(ConnectFailedError);
        isLoading := false;
      }
    }

    /** The prompt's `onFinish` callback. */
    method OnFinish(report: FinishReport)
      modifies this
      ensures State() == AfterFinish(old(State()), report)
      ensures error == old(error)
      ensures report.FinishThrew? ==> isLoading == old(isLoading)
    {
      match report {
        case FinishThrew =>
          return;
        case FinishSignedIn(u) =>
          userData := Some(u);
          isSignedIn := true;
        case FinishNotSignedIn =>
      }
      isLoading := false;
    }

    /** The prompt's `onCancel` callback. */
    method OnCancel()
      modifies this
      ensures State() == AfterCancel(old(State()))
      ensures isSignedIn == old(isSignedIn) && userData == old(userData)
    {
      isLoading := false;
    }

    /** `handleSignOut`; `signOutThrows` is whether the library's
        `signUserOut` throws, which leaves every slot as it was. */
    method HandleSignOut(signOutThrows: bool)
      modifies this
      ensures State() == AfterSignOut(old(State()), signOutThrows)
      ensures !signOutThrows ==> !isSignedIn && userData.None? && error.None?
    {
      if signOutThrows {
        return;
      }
      isSignedIn := false;
      userData := None;
      error := None;
    }
  }
}
