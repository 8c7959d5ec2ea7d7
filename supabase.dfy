/** The authentication helpers of lib/supabase.ts: reading the credentials
    out of the redirect URL the browser returns, and the Google and Kakao
    sign-in flows built around them. Every call on the authentication
    client or the browser is an input: how it answered. The flows are
    methods that follow the source's steps and are specified by functions
    (`GoogleFlow`, `KakaoFlow`) that record the calls made and the result. */
module Supabase {
  import opened Wrappers
  import opened JsText

  // ----------------------------------------------- credentials in the URL

  /** The keys the flows look for. The Google flow receives tokens in the
      shape of the implicit grant (section 4.2.2 of RFC 6749); the Kakao flow
      receives an authorization code (section 4.1.2 of RFC 6749). */
  const AccessTokenKey: string := "access_token="
  const RefreshTokenKey: string := "refresh_token="
  const CodeKey: string := "code="

  /** `url.split(key)[1].split("&")[0]`. Without an occurrence of `key` the
      split has one piece, `[1]` is `undefined`, and calling `split` on it
      throws: `None`. The extraction is plain text search, not query-string
      parsing (no percent-decoding, no check of the parameter's name
      boundary). */
  function ParamValue(url: string, key: string): (r: Option<string>)
    requires |key| > 0
    ensures r.None? <==> !Includes(url, key)
  {
    var pieces := Split(url, key);
    if |pieces| < 2 then None else Some(Split(pieces[1], "&")[0])
  }

  /** What `ParamValue` finds: the text that starts right after the first
      occurrence of `key` and runs up to the first `&`, the next occurrence
      of `key`, or the end of the URL, whichever comes first; it contains
      neither `&` nor `key`. */
  lemma ParamValueSpec(url: string, key: string)
    requires |key| > 0 && Includes(url, key)
    ensures var start := IndexOf(url, key).value + |key|;
            var v := ParamValue(url, key).value;
            && start + |v| <= |url|
            && v == url[start..start + |v|]
            && '&' !in v
            && Free(v, key)
            && (start + |v| == |url| || url[start + |v|] == '&' || OccursAt(url, key, start + |v|))
  {
    var start := IndexOf(url, key).value + |key|;
    var rest := url[start..];
    SplitSecond(url, key);
    var piece := Split(rest, key)[0];
    SplitHeadBound(rest, key);
    var v := Split(piece, "&")[0];
    SplitHeadBound(piece, "&");
    FreeOfChar(v, '&');
    FreePrefix(piece, key, |v|);
    PrefixOfPrefix(url, start, piece, v);
    if |v| < |piece| {
      assert piece[|v|..|v| + 1] == "&";
    } else if |piece| < |rest| {
      OccursInSuffix(url, key, start, |piece|);
    }
  }

  /** A prefix of a prefix of a suffix is a slice of the whole. */
  lemma PrefixOfPrefix(url: string, start: nat, piece: string, v: string)
    requires start <= |url| && |piece| <= |url| - start && piece == url[start..][..|piece|]
    requires |v| <= |piece| && v == piece[..|v|]
    ensures start + |v| <= |url| && v == url[start..start + |v|]
    ensures |v| < |piece| ==> url[start + |v|] == piece[|v|]
  {
    assert forall k :: 0 <= k < |v| ==> v[k] == url[start + k];
  }

  /** A value found in the URL holds no `&`. */
  lemma ParamValueFreeOfAmp(url: string, key: string)
    requires |key| > 0 && Includes(url, key)
    ensures ParamValue(url, key).Some? && '&' !in ParamValue(url, key).value
  {
    ParamValueSpec(url, key);
  }

  /** The Kakao code: `url.includes("code=") ? url.split("code=")[1].split("&")[0] : null`. */
  function KakaoCode(url: string): (r: Option<string>)
    ensures r.None? <==> !Includes(url, CodeKey)
    ensures r.Some? ==> '&' !in r.value
  {
    if Includes(url, CodeKey) then
      ParamValueFreeOfAmp(url, CodeKey);
      ParamValue(url, CodeKey)
    else None
  }

  // ------------------------------------------- the authentication client

  datatype Session = Session(accessToken: string, refreshToken: string, userId: string)

  datatype User = User(id: string)

  datatype Provider = Google | Kakao

  /** `WebBrowser.openAuthSessionAsync`'s result: `success` carries the URL
      the browser was redirected to. */
  datatype BrowserResult = Success(url: string) | Cancel | Dismiss | Opened | Locked

  /** Why a call of this module threw: the client's reply carried an
      `error`, a call threw on its own, no auth URL came back, the browser
      call threw, or the URL lacked a token so that `split` ran on
      `undefined`. */
  datatype Failure = SdkError | SdkException | NoAuthUrl | BrowserError | TypeError

  /** A call of this module resolves with a value or throws. */
  datatype Outcome<+T> = Ok(value: T) | Fail(failure: Failure)

  /** The failure a client reply without data turns into. */
  function ReplyFailure<T>(r: Reply<T>): (f: Failure)
    requires !r.Data?
    ensures f == SdkError <==> r.ErrorField?
  {
    if r.ErrorField? then SdkError else SdkException
  }

  /** `getCurrentSession`: the session of the `getSession` reply, or a throw. */
  function GetCurrentSession(reply: Reply<Option<Session>>): (r: Outcome<Option<Session>>)
    ensures r.Ok? <==> reply.Data?
    ensures r.Ok? ==> r.value == reply.value
    ensures r.Fail? ==> r.failure == ReplyFailure(reply)
  {
    if reply.Data? then Ok(reply.value) else Fail(ReplyFailure(reply))
  }

  /** `getCurrentUser`: the user of the `getUser` reply, or a throw. */
  function GetCurrentUser(reply: Reply<Option<User>>): (r: Outcome<Option<User>>)
    ensures r.Ok? <==> reply.Data?
    ensures r.Ok? ==> r.value == reply.value
    ensures r.Fail? ==> r.failure == ReplyFailure(reply)
  {
    if reply.Data? then Ok(reply.value) else Fail(ReplyFailure(reply))
  }

  /** `signOut`: resolves exactly when the client's sign-out reports no
      error. */
  function SignOut(reply: Reply<()>): (r: Outcome<()>)
    ensures r.Ok? <==> reply.Data?
    ensures r.Fail? ==> r.failure == ReplyFailure(reply)
  {
    if reply.Data? then Ok(()) else Fail(ReplyFailure(reply))
  }

  // ------------------------------------------------------------- flows

  /** A call a sign-in flow makes, in order. */
  datatype SdkCall =
    | StartOAuth(provider: Provider)
    | OpenBrowser(authUrl: string)
    | SetSession(accessToken: string, refreshToken: string)
    | ExchangeCode(code: string)
    | ReadSession

  /** A run of a sign-in flow: the calls it made and how it ended. */
  datatype FlowRun = FlowRun(calls: seq<SdkCall>, outcome: Outcome<Option<Session>>)

  /** `signInWithOAuth` answered, then `if (error) throw error; if
      (!data?.url) throw ...`: the auth URL, or why the flow stops. */
  function AuthUrl(oauth: Reply<Option<string>>): (r: Outcome<string>)
    ensures r.Ok? <==> oauth.Data? && TruthyString(oauth.value)
    ensures r.Ok? ==> r.value == oauth.value.value
    ensures r.Fail? && oauth.Data? ==> r.failure == NoAuthUrl
    ensures r.Fail? && !oauth.Data? ==> r.failure == ReplyFailure(oauth)
  {
    match oauth
    case Data(url) => if TruthyString(url) then Ok(url.value) else Fail(NoAuthUrl)
    case _ => Fail(ReplyFailure(oauth))
  }

  /** The browser came back through the redirect with a (truthy) URL. */
  predicate Redirected(browser: Async<BrowserResult>)
  {
    browser.Resolves? && browser.value.Success? && browser.value.url != ""
  }

  /** What `signInWithGoogle` does. Only a throw of `setSession` matters:
      an `error` it reports is not looked at. */
  function GoogleFlow(oauth: Reply<Option<string>>, browser: Async<BrowserResult>,
                      setSession: Reply<()>, getSession: Reply<Option<Session>>): FlowRun
  {
    var start := AuthUrl(oauth);
    if start.Fail? then FlowRun([StartOAuth(Google)], Fail(start.failure))
    else
      var launched := [StartOAuth(Google), OpenBrowser(start.value)];
      if browser.Throws? then FlowRun(launched, Fail(BrowserError))
      else if !Redirected(browser) then FlowRun(launched + [ReadSession], GetCurrentSession(getSession))
      else
        var access := ParamValue(browser.value.url, AccessTokenKey);
        var refresh := ParamValue(browser.value.url, RefreshTokenKey);
        if access.None? || refresh.None? then FlowRun(launched, Fail(TypeError))
        else
          var withTokens := launched + [SetSession(access.value, refresh.value)];
          if setSession.Exception? then FlowRun(withTokens, Fail(SdkException))
          else FlowRun(withTokens + [ReadSession], GetCurrentSession(getSession))
  }

  /** What `signInWithKakao` does: the code exchange runs only for a truthy
      code, and an exchange that reports an error throws. */
  function KakaoFlow(oauth: Reply<Option<string>>, browser: Async<BrowserResult>,
                     exchange: Reply<()>, getSession: Reply<Option<Session>>): FlowRun
  {
    var start := AuthUrl(oauth);
    if start.Fail? then FlowRun([StartOAuth(Kakao)], Fail(start.failure))
    else
      var launched := [StartOAuth(Kakao), OpenBrowser(start.value)];
      if browser.Throws? then FlowRun(launched, Fail(BrowserError))
      else if !Redirected(browser) then FlowRun(launched + [ReadSession], GetCurrentSession(getSession))
      else
        var code := KakaoCode(browser.value.url);
        if !TruthyString(code) then FlowRun(launched + [ReadSession], GetCurrentSession(getSession))
        else
          var exchanged := launched + [ExchangeCode(code.value)];
          if !exchange.Data? then FlowRun(exchanged, Fail(ReplyFailure(exchange)))
          else FlowRun(exchanged + [ReadSession], GetCurrentSession(getSession))
  }

  /** `signInWithGoogle`, step by step. */
  method SignInWithGoogle(oauth: Reply<Option<string>>, browser: Async<BrowserResult>,
                          setSession: Reply<()>, getSession: Reply<Option<Session>>)
    returns (calls: seq<SdkCall>, outcome: Outcome<Option<Session>>)
    ensures FlowRun(calls, outcome) == GoogleFlow(oauth, browser, setSession, getSession)
  {
    calls := [StartOAuth(Google)];
    if !oauth.Data? {
      return calls, Fail(ReplyFailure(oauth));
    }
    if !TruthyString(oauth.value) {
      return calls, Fail(NoAuthUrl);
    }
    calls := calls + [OpenBrowser(oauth.value.value)];
    if browser.Throws? {
      return calls, Fail(BrowserError);
    }
    var result := browser.value;
    if result.Success? && result.url != "" {
      var access := ParamValue(result.url, AccessTokenKey);
      if access.None? {
        return calls, Fail(TypeError);
      }
      var refresh := ParamValue(result.url, RefreshTokenKey);
      if refresh.None? {
        return calls, Fail(TypeError);
      }
      calls := calls + [SetSession(access.value, refresh.value)];
      if setSession.Exception? {
        return calls, Fail(SdkException);
      }
    }
    calls := calls + [ReadSession];
    outcome := GetCurrentSession(getSession);
  }

  /** `signInWithKakao`, step by step. */
  method SignInWithKakao(oauth: Reply<Option<string>>, browser: Async<BrowserResult>,
                         exchange: Reply<()>, getSession: Reply<Option<Session>>)
    returns (calls: seq<SdkCall>, outcome: Outcome<Option<Session>>)
    ensures FlowRun(calls, outcome) == KakaoFlow(oauth, browser, exchange, getSession)
  {
    calls := [StartOAuth(Kakao)];
    if !oauth.Data? {
      return calls, Fail(ReplyFailure(oauth));
    }
    if !TruthyString(oauth.value) {
      return calls, Fail(NoAuthUrl);
    }
    calls := calls + [OpenBrowser(oauth.value.value)];
    if browser.Throws? {
      return calls, Fail(BrowserError);
    }
    var result := browser.value;
    if result.Success? && result.url != "" {
      var code := KakaoCode(result.url);
      if TruthyString(code) {
        calls := calls + [ExchangeCode(code.value)];
        if !exchange.Data? {
          return calls, Fail(ReplyFailure(exchange));
        }
      }
    }
    calls := calls + [ReadSession];
    outcome := GetCurrentSession(getSession);
  }

  // ------------------------------------------------- what the flows promise

  /** A failed start (an `error`, or no URL) throws before the browser is
      opened. */
  lemma FlowsStopBeforeBrowser(oauth: Reply<Option<string>>, browser: Async<BrowserResult>,
                               second: Reply<()>, getSession: Reply<Option<Session>>)
    requires AuthUrl(oauth).Fail?
    ensures GoogleFlow(oauth, browser, second, getSession) == FlowRun([StartOAuth(Google)], Fail(AuthUrl(oauth).failure))
    ensures KakaoFlow(oauth, browser, second, getSession) == FlowRun([StartOAuth(Kakao)], Fail(AuthUrl(oauth).failure))
  {
  }

  /** The Google flow sets a session exactly when the browser came back with
      a URL carrying both tokens, and then with the tokens found in it; a
      URL lacking either token throws without setting or reading a session. */
  lemma GoogleSetsSessionIff(oauth: Reply<Option<string>>, browser: Async<BrowserResult>,
                             setSession: Reply<()>, getSession: Reply<Option<Session>>)
    ensures var run := GoogleFlow(oauth, browser, setSession, getSession);
            (exists k :: 0 <= k < |run.calls| && run.calls[k].SetSession?)
            <==> (&& AuthUrl(oauth).Ok? && Redirected(browser)
                  && Includes(browser.value.url, AccessTokenKey) && Includes(browser.value.url, RefreshTokenKey))
    ensures var run := GoogleFlow(oauth, browser, setSession, getSession);
            forall k :: 0 <= k < |run.calls| && run.calls[k].SetSession? ==>
              && k == 2
              && Some(run.calls[k].accessToken) == ParamValue(browser.value.url, AccessTokenKey)
              && Some(run.calls[k].refreshToken) == ParamValue(browser.value.url, RefreshTokenKey)
              && '&' !in run.calls[k].accessToken && '&' !in run.calls[k].refreshToken
    ensures var run := GoogleFlow(oauth, browser, setSession, getSession);
            (AuthUrl(oauth).Ok? && Redirected(browser)
             && !(Includes(browser.value.url, AccessTokenKey) && Includes(browser.value.url, RefreshTokenKey)))
            ==> run.outcome == Fail(TypeError) && ReadSession !in run.calls
  {
    var run := GoogleFlow(oauth, browser, setSession, getSession);
    var start := AuthUrl(oauth);
    if start.Fail? {
      assert run.calls == [StartOAuth(Google)];
    } else if browser.Throws? {
      assert run.calls == [StartOAuth(Google), OpenBrowser(start.value)];
    } else if !Redirected(browser) {
      assert run.calls == [StartOAuth(Google), OpenBrowser(start.value), ReadSession];
    } else {
      var url := browser.value.url;
      if !(Includes(url, AccessTokenKey) && Includes(url, RefreshTokenKey)) {
        assert run == FlowRun([StartOAuth(Google), OpenBrowser(start.value)], Fail(TypeError));
      } else {
        ParamValueFreeOfAmp(url, AccessTokenKey);
        ParamValueFreeOfAmp(url, RefreshTokenKey);
        var tokens := SetSession(ParamValue(url, AccessTokenKey).value, ParamValue(url, RefreshTokenKey).value);
        assert run.calls == [StartOAuth(Google), OpenBrowser(start.value), tokens]
            || run.calls == [StartOAuth(Google), OpenBrowser(start.value), tokens, ReadSession];
        assert run.calls[2] == tokens;
      }
    }
  }

  /** The Kakao flow exchanges a code exactly when the browser came back with
      a URL whose code is non-empty, and exchanges that code; an exchange
      that fails throws without reading the session. */
  lemma KakaoExchangesIff(oauth: Reply<Option<string>>, browser: Async<BrowserResult>,
                          exchange: Reply<()>, getSession: Reply<Option<Session>>)
    ensures var run := KakaoFlow(oauth, browser, exchange, getSession);
            (exists k :: 0 <= k < |run.calls| && run.calls[k].ExchangeCode?)
            <==> AuthUrl(oauth).Ok? && Redirected(browser) && TruthyString(KakaoCode(browser.value.url))
    ensures var run := KakaoFlow(oauth, browser, exchange, getSession);
            forall k :: 0 <= k < |run.calls| && run.calls[k].ExchangeCode? ==>
              && k == 2
              && Some(run.calls[k].code) == KakaoCode(browser.value.url)
              && run.calls[k].code != "" && '&' !in run.calls[k].code
              && (!exchange.Data? ==> run.outcome == Fail(ReplyFailure(exchange)) && ReadSession !in run.calls)
  {
    var run := KakaoFlow(oauth, browser, exchange, getSession);
    if AuthUrl(oauth).Ok? && Redirected(browser) && TruthyString(KakaoCode(browser.value.url)) {
      assert run.calls[2].ExchangeCode?;
    }
  }

  /** Either flow resolves exactly when it got as far as `getSession` and
      that reply carried data; it then resolves with that session. Without
      a redirect the flows touch no credentials and go straight to
      `getSession`. */
  lemma FlowsResolveWithSession(oauth: Reply<Option<string>>, browser: Async<BrowserResult>,
                                second: Reply<()>, getSession: Reply<Option<Session>>)
    ensures var g := GoogleFlow(oauth, browser, second, getSession);
            g.outcome.Ok? <==> ReadSession in g.calls && getSession.Data?
    ensures var k := KakaoFlow(oauth, browser, second, getSession);
            k.outcome.Ok? <==> ReadSession in k.calls && getSession.Data?
    ensures var g := GoogleFlow(oauth, browser, second, getSession);
            g.outcome.Ok? ==> g.outcome.value == getSession.value
    ensures var k := KakaoFlow(oauth, browser, second, getSession);
            k.outcome.Ok? ==> k.outcome.value == getSession.value
    ensures AuthUrl(oauth).Ok? && browser.Resolves? && !Redirected(browser) ==>
              && GoogleFlow(oauth, browser, second, getSession).calls
                 == [StartOAuth(Google), OpenBrowser(AuthUrl(oauth).value), ReadSession]
              && KakaoFlow(oauth, browser, second, getSession).calls
                 == [StartOAuth(Kakao), OpenBrowser(AuthUrl(oauth).value), ReadSession]
  {
    GoogleResolvesWithSession(oauth, browser, second, getSession);
    KakaoResolvesWithSession(oauth, browser, second, getSession);
  }

  /** The Google half of `FlowsResolveWithSession`. */
  lemma GoogleResolvesWithSession(oauth: Reply<Option<string>>, browser: Async<BrowserResult>,
                                  setSession: Reply<()>, getSession: Reply<Option<Session>>)
    ensures var g := GoogleFlow(oauth, browser, setSession, getSession);
            && (g.outcome.Ok? <==> ReadSession in g.calls && getSession.Data?)
            && (g.outcome.Ok? ==> g.outcome.value == getSession.value)
    ensures AuthUrl(oauth).Ok? && browser.Resolves? && !Redirected(browser) ==>
              GoogleFlow(oauth, browser, setSession, getSession).calls
              == [StartOAuth(Google), OpenBrowser(AuthUrl(oauth).value), ReadSession]
  {
  }

  /** The Kakao half of `FlowsResolveWithSession`. */
  lemma KakaoResolvesWithSession(oauth: Reply<Option<string>>, browser: Async<BrowserResult>,
                                 exchange: Reply<()>, getSession: Reply<Option<Session>>)
    ensures var k := KakaoFlow(oauth, browser, exchange, getSession);
            && (k.outcome.Ok? <==> ReadSession in k.calls && getSession.Data?)
            && (k.outcome.Ok? ==> k.outcome.value == getSession.value)
    ensures AuthUrl(oauth).Ok? && browser.Resolves? && !Redirected(browser) ==>
              KakaoFlow(oauth, browser, exchange, getSession).calls
              == [StartOAuth(Kakao), OpenBrowser(AuthUrl(oauth).value), ReadSession]
  {
  }
}
