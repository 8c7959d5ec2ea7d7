/** The login screen (app/login.tsx): its own `localLoading` marker, the two
    sign-in handlers that set it around a call into the authentication
    context, the rule that disables the buttons, what the screen renders,
    and the redirect once the context is authenticated. */
module Login {
  import opened Wrappers
  import opened Supabase
  import opened AuthContext

  const HomeRoute: string := "/(tabs)"
  const BusyLabel: string := "처리 중..."

  function IdleLabel(p: Provider): string
  {
    if p == Google then "구글로 시작하기" else "카카오로 시작하기"
  }

  /** `disabled={isLoading || localLoading !== null}`, the same for both
      buttons. */
  predicate ButtonsDisabled(isLoading: bool, localLoading: Option<Provider>)
  {
    isLoading || localLoading.Some?
  }

  /** What the button area shows: a spinner while the context is loading,
      otherwise the two buttons with their enabled state and labels. */
  datatype View =
    | Spinner
    | Buttons(googleEnabled: bool, kakaoEnabled: bool, googleLabel: string, kakaoLabel: string)

  function Render(isLoading: bool, localLoading: Option<Provider>): (v: View)
    ensures v.Spinner? <==> isLoading
    ensures v.Buttons? ==> (v.googleEnabled <==> localLoading.None?) && (v.kakaoEnabled <==> localLoading.None?)
    ensures v.Buttons? ==> (v.googleLabel == BusyLabel <==> localLoading == Some(Google))
    ensures v.Buttons? ==> (v.kakaoLabel == BusyLabel <==> localLoading == Some(Kakao))
  {
    if isLoading then Spinner
    else
      var enabled := !ButtonsDisabled(isLoading, localLoading);
      Buttons(enabled, enabled,
              if localLoading == Some(Google) then BusyLabel else IdleLabel(Google),
              if localLoading == Some(Kakao) then BusyLabel else IdleLabel(Kakao))
  }

  /** While either handler runs (`localLoading` set), no sign-in can be
      started from this screen: no button is enabled, whatever the
      context's state. */
  lemma NoSecondSignIn(isLoading: bool, p: Provider)
    ensures var v := Render(isLoading, Some(p));
            v.Spinner? || (!v.googleEnabled && !v.kakaoEnabled)
  {
  }

  /** The alert a failed sign-in shows. */
  datatype LoginAlert = SignInFailed(provider: Provider)

  /** The outcome of the provider flow a handler runs: the Google flow
      takes `second` as the reply of `setSession`, the Kakao flow as the
      reply of the code exchange. */
  function FlowOutcome(p: Provider, oauth: Reply<Option<string>>, browser: Async<BrowserResult>,
                       second: Reply<()>, flowSession: Reply<Option<Session>>): Outcome<Option<Session>>
  {
    if p == Google then GoogleFlow(oauth, browser, second, flowSession).outcome
    else KakaoFlow(oauth, browser, second, flowSession).outcome
  }

  class LoginScreen {
    const auth: AuthProvider
    var localLoading: Option<Provider>
    var alerts: seq<LoginAlert>
    var routes: seq<string>
    ghost var localTrace: seq<Option<Provider>>

    constructor (auth: AuthProvider)
      ensures this.auth == auth && localLoading == None
      ensures alerts == [] && routes == [] && localTrace == []
    {
      this.auth := auth;
      localLoading := None;
      alerts, routes, localTrace := [], [], [];
    }

    /** `handleGoogleLogin` and `handleKakaoLogin`: mark the provider as in
        progress, run the context's sign-in, turn a rejection into an alert
        (nothing is rethrown) and clear the marker in `finally`. */
    method HandleLogin(p: Provider, oauth: Reply<Option<string>>, browser: Async<BrowserResult>,
                       second: Reply<()>, flowSession: Reply<Option<Session>>,
                       getSession: Reply<Option<Session>>, getUser: Reply<Option<User>>)
      modifies this, auth
      ensures localLoading == None && localTrace == old(localTrace) + [Some(p), None]
      ensures var flow := FlowOutcome(p, oauth, browser, second, flowSession);
              && alerts == old(alerts) + (if flow.Fail? then [SignInFailed(p)] else [])
              && auth.State() == Last(SignIn(AuthState(old(auth.user), old(auth.session), old(auth.isLoading)),
                                             flow, getSession, getUser))
      ensures routes == old(routes)
    {
      localLoading := Some(p);
      localTrace := localTrace + [localLoading];
      var threw: bool;
      if p == Google {
        threw := auth.SignInWithGoogleAuth(oauth, browser, second, flowSession, getSession, getUser);
      } else {
        threw := auth.SignInWithKakaoAuth(oauth, browser, second, flowSession, getSession, getUser);
      }
      if threw {
        alerts := alerts + [SignInFailed(p)];
      }
      localLoading := None;
      localTrace := localTrace + [localLoading];
    }

    /** A tap on a provider's button: ignored while the spinner shows or the
        buttons are disabled, otherwise that provider's handler. */
    method Press(p: Provider, oauth: Reply<Option<string>>, browser: Async<BrowserResult>,
                 second: Reply<()>, flowSession: Reply<Option<Session>>,
                 getSession: Reply<Option<Session>>, getUser: Reply<Option<User>>)
      modifies this, auth
      ensures old(ButtonsDisabled(auth.isLoading, localLoading)) ==>
                && localLoading == old(localLoading) && alerts == old(alerts) && localTrace == old(localTrace)
                && auth.State() == AuthState(old(auth.user), old(auth.session), old(auth.isLoading))
      ensures !old(ButtonsDisabled(auth.isLoading, localLoading)) ==>
                var flow := FlowOutcome(p, oauth, browser, second, flowSession);
                && localLoading == None && localTrace == old(localTrace) + [Some(p), None]
                && alerts == old(alerts) + (if flow.Fail? then [SignInFailed(p)] else [])
                && auth.State() == Last(SignIn(AuthState(old(auth.user), old(auth.session), old(auth.isLoading)),
                                               flow, getSession, getUser))
      ensures routes == old(routes)
    {
      if !ButtonsDisabled(auth.isLoading, localLoading) {
        HandleLogin(p, oauth, browser, second, flowSession, getSession, getUser);
      }
    }

    /** The effect on `isAuthenticated`: an authenticated context replaces
        the screen with the home tabs. */
    method OnAuthChange()
      modifies this
      ensures IsAuthenticated(auth.State()) ==> routes == old(routes) + [HomeRoute]
      ensures !IsAuthenticated(auth.State()) ==> routes == old(routes)
      ensures localLoading == old(localLoading) && alerts == old(alerts) && localTrace == old(localTrace)
    {
      if IsAuthenticated(auth.State()) {
        routes := routes + [HomeRoute];
      }
    }
  }
}
