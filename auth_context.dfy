/** The authentication context (contexts/AuthContext.tsx): the provider's
    state `(user, session, isLoading)` and the handlers that change it. The
    handlers are methods of the class `AuthProvider`; what each one does to
    the state is specified by a function that lists the states the screen
    can observe: one while each awaited call is pending, and the state the
    handler leaves behind. */
module AuthContext {
  import opened Wrappers
  import opened Supabase

  datatype AuthState = AuthState(user: Option<User>, session: Option<Session>, isLoading: bool)

  /** `isAuthenticated: !!session`. */
  predicate IsAuthenticated(st: AuthState)
  {
    st.session.Some?
  }

  /** The state before the provider has checked anything. */
  const Initial: AuthState := AuthState(None, None, true)

  function Last<T>(xs: seq<T>): T
    requires |xs| > 0
  {
    xs[|xs| - 1]
  }

  /** The states `refreshSession` shows from state `st`: loading while
      `getSession` is pending; the new session (with the old user) while
      `getUser` is pending, when there is a session; then the final state,
      which is signed out whenever either lookup threw. */
  function Refresh(st: AuthState, getSession: Reply<Option<Session>>, getUser: Reply<Option<User>>): (run: seq<AuthState>)
    ensures 2 <= |run| <= 3 && run[0] == st.(isLoading := true)
  {
    var waiting := st.(isLoading := true);
    var current := GetCurrentSession(getSession);
    if current.Fail? || current.value.None? then [waiting, AuthState(None, None, false)]
    else
      var withSession := waiting.(session := current.value);
      var found := GetCurrentUser(getUser);
      if found.Fail? then [waiting, withSession, AuthState(None, None, false)]
      else [waiting, withSession, AuthState(found.value, current.value, false)]
  }

  /** The states a sign-in shows: loading while the provider flow is
      pending; if the flow threw, the same user and session, no longer
      loading (and the error goes on to the caller); otherwise the states of
      the `refreshSession` that follows. */
  function SignIn(st: AuthState, flow: Outcome<Option<Session>>,
                  getSession: Reply<Option<Session>>, getUser: Reply<Option<User>>): (run: seq<AuthState>)
    ensures |run| >= 2 && run[0] == st.(isLoading := true)
  {
    var waiting := st.(isLoading := true);
    if flow.Fail? then [waiting, waiting.(isLoading := false)]
    else [waiting] + Refresh(waiting, getSession, getUser)
  }

  /** The states `signOutUser` shows: loading while the remote sign-out is
      pending, then signed out if it succeeded, or the same user and
      session if it failed. */
  function SignOutStates(st: AuthState, remote: Reply<()>): (run: seq<AuthState>)
    ensures |run| == 2 && run[0] == st.(isLoading := true)
  {
    var waiting := st.(isLoading := true);
    if SignOut(remote).Ok? then [waiting, AuthState(None, None, false)]
    else [waiting, waiting.(isLoading := false)]
  }

  // ---------------------------------------------------- what they promise

  /** After `refreshSession` nothing is loading; the session is the one
      `getSession` returned and the user the one `getUser` returned, the
      user being looked up only for a session; if either lookup threw, the
      state is signed out. So the state is authenticated exactly when both
      lookups succeeded and there was a session. */
  lemma RefreshFailsClosed(st: AuthState, getSession: Reply<Option<Session>>, getUser: Reply<Option<User>>)
    ensures var final := Last(Refresh(st, getSession, getUser));
            && !final.isLoading
            && (!getSession.Data? ==> final.user.None? && final.session.None?)
            && (getSession == Data(None) ==> final.user.None? && final.session.None?)
            && (getSession.Data? && getSession.value.Some? && !getUser.Data? ==>
                  final.user.None? && final.session.None?)
            && (getSession.Data? && getSession.value.Some? && getUser.Data? ==>
                  final.session == getSession.value && final.user == getUser.value)
            && (IsAuthenticated(final) <==> getSession.Data? && getSession.value.Some? && getUser.Data?)
  {
  }

  /** `refreshSession` makes the new session visible before the user lookup
      has finished: while `getUser` is pending the state holds the new
      session together with the previous user. */
  lemma RefreshShowsSessionBeforeUser(st: AuthState, s: Session, getUser: Reply<Option<User>>)
    ensures var run := Refresh(st, Data(Some(s)), getUser);
            |run| == 3 && run[1] == AuthState(st.user, Some(s), true)
  {
  }

  /** A sign-in whose provider flow throws does not refresh: it rethrows and
      leaves user and session as they were; otherwise it ends in the state
      `refreshSession` leaves. Either way nothing is loading at the end. */
  lemma SignInOutcome(st: AuthState, flow: Outcome<Option<Session>>,
                      getSession: Reply<Option<Session>>, getUser: Reply<Option<User>>)
    ensures var final := Last(SignIn(st, flow, getSession, getUser));
            && !final.isLoading
            && (flow.Fail? ==> final.user == st.user && final.session == st.session
                               && |SignIn(st, flow, getSession, getUser)| == 2)
            && (flow.Ok? ==> final == Last(Refresh(st.(isLoading := true), getSession, getUser)))
  {
    var final := Last(SignIn(st, flow, getSession, getUser));
    if flow.Ok? {
      RefreshFailsClosed(st.(isLoading := true), getSession, getUser);
    }
  }

  /** Signing out clears user and session only when the remote sign-out
      succeeded; otherwise they stay as they were. */
  lemma SignOutClearsOnlyOnSuccess(st: AuthState, remote: Reply<()>)
    ensures var final := Last(SignOutStates(st, remote));
            && !final.isLoading
            && (remote.Data? ==> final.user.None? && final.session.None? && !IsAuthenticated(final))
            && (!remote.Data? ==> final.user == st.user && final.session == st.session)
  {
  }

  /** From the initial state, a first refresh with no stored session leaves
      the provider signed out and no longer loading. */
  lemma MountWithoutSession(getUser: Reply<Option<User>>)
    ensures Last(Refresh(Initial, Data(None), getUser)) == AuthState(None, None, false)
    ensures !IsAuthenticated(Initial) && Initial.isLoading
  {
  }

  // ------------------------------------------------------------ provider

  /** The provider. `history` collects the states `Refresh`, `SignIn` and
      `SignOutStates` describe, in the order the handlers produce them. */
  class AuthProvider {
    var user: Option<User>
    var session: Option<Session>
    var isLoading: bool
    ghost var history: seq<AuthState>

    constructor ()
      ensures AuthState(user, session, isLoading) == Initial && history == []
    {
      user, session, isLoading := None, None, true;
      history := [];
    }

    function State(): AuthState
      reads this
    {
      AuthState(user, session, isLoading)
    }

    /** `refreshSession` (also run once when the provider mounts). It never
        throws: a failure signs the state out. */
    method RefreshSession(getSession: Reply<Option<Session>>, getUser: Reply<Option<User>>)
      modifies this
      ensures var run := Refresh(AuthState(old(user), old(session), old(isLoading)), getSession, getUser);
              State() == Last(run) && history == old(history) + run
    {
      isLoading := true;
      history := history + [State()];
      var current := GetCurrentSession(getSession);
      if current.Fail? {
        user, session := None, None;
      } else {
        session := current.value;
        if current.value.Some? {
          history := history + [State()];
          var found := GetCurrentUser(getUser);
          if found.Fail? {
            user, session := None, None;
          } else {
            user := found.value;
          }
        } else {
          user := None;
        }
      }
      isLoading := false;
      history := history + [State()];
    }

    /** `signInWithGoogleAuth`: the Google flow of lib/supabase.ts, then a
        refresh; `threw` says whether the flow's error was rethrown. */
    method SignInWithGoogleAuth(oauth: Reply<Option<string>>, browser: Async<BrowserResult>,
                                setSession: Reply<()>, flowSession: Reply<Option<Session>>,
                                getSession: Reply<Option<Session>>, getUser: Reply<Option<User>>)
      returns (threw: bool)
      modifies this
      ensures var flow := GoogleFlow(oauth, browser, setSession, flowSession).outcome;
              var run := SignIn(AuthState(old(user), old(session), old(isLoading)), flow, getSession, getUser);
              && State() == Last(run) && history == old(history) + run
              && (threw <==> flow.Fail?)
    {
      isLoading := true;
      history := history + [State()];
      var _, outcome := SignInWithGoogle(oauth, browser, setSession, flowSession);
      threw := outcome.Fail?;
      if threw {
        isLoading := false;
        history := history + [State()];
      } else {
        RefreshSession(getSession, getUser);
        isLoading := false;
      }
    }

    /** `signInWithKakaoAuth`: the Kakao flow of lib/supabase.ts, then a
        refresh; `threw` says whether the flow's error was rethrown. */
    method SignInWithKakaoAuth(oauth: Reply<Option<string>>, browser: Async<BrowserResult>,
                               exchange: Reply<()>, flowSession: Reply<Option<Session>>,
                               getSession: Reply<Option<Session>>, getUser: Reply<Option<User>>)
      returns (threw: bool)
      modifies this
      ensures var flow := KakaoFlow(oauth, browser, exchange, flowSession).outcome;
              var run := SignIn(AuthState(old(user), old(session), old(isLoading)), flow, getSession, getUser);
              && State() == Last(run) && history == old(history) + run
              && (threw <==> flow.Fail?)
    {
      isLoading := true;
      history := history + [State()];
      var _, outcome := SignInWithKakao(oauth, browser, exchange, flowSession);
      threw := outcome.Fail?;
      if threw {
        isLoading := false;
        history := history + [State()];
      } else {
        RefreshSession(getSession, getUser);
        isLoading := false;
      }
    }

    /** `signOutUser` (the context's `signOut`); `threw` says whether the
        remote failure was rethrown. */
    method SignOutUser(remote: Reply<()>) returns (threw: bool)
      modifies this
      ensures var run := SignOutStates(AuthState(old(user), old(session), old(isLoading)), remote);
              && State() == Last(run) && history == old(history) + run
              && (threw <==> !remote.Data?)
    {
      isLoading := true;
      history := history + [State()];
      threw := SignOut(remote).Fail?;
      if !threw {
        user, session := None, None;
      }
      isLoading := false;
      history := history + [State()];
    }
  }
}
