/**
 * The suite (third-party application) client: its credentials, the
 * stale-token retry decision `Retriable`, `SetTicket`, and the composition
 * of the authorisation, install and registration links.
 */
module Suites {
  import opened Wrappers
  import opened Base
  import opened Urls
  import opened Tokens
  import Callback

  const SuiteTokenKey := "suite_access_token"
  const AuthURI := "https://qy.weixin.qq.com/cgi-bin/loginpage"
  const InstallURI := "https://open.work.weixin.qq.com/3rdapp/install"
  const RegisterURI := "https://open.work.weixin.qq.com/3rdservice/wework/register"

  /**
   * What `Retriable` answers, one constructor per triple it can return:
   * `Pass` is `(false, "", nil)`, `Fail(e)` is `(false, "", e)` and
   * `Retry(u)` is `(true, u.String(), nil)`.
   */
  datatype Verdict = Pass | Fail(err: Error) | Retry(url: Url)

  /** The three codes by which the platform reports a stale suite token. */
  predicate IsStale(code: int)
  {
    code == ErrCodeSuiteTokenInvalid || code == ErrCodeSuiteTokenTimeout || code == ErrCodeSuiteTokenFailure
  }

  /**
   * The decision `Retriable` takes for a request URL (`None` when it does not
   * parse) and a response body (`None` when it does not decode as `base.Error`),
   * with the tokener in state `s`; and the tokener's state afterwards.
   */
  function Decide(endpoint: Endpoint, reqURL: Option<Url>, body: Option<Envelope>, s: TokenerState): (Verdict, TokenerState)
  {
    if reqURL.None? || Get(reqURL.value.query, SuiteTokenKey) == "" then (Pass, s)
    else if body.None? then (Fail(DecodeFailed), s)
    else if body.value.errCode == ErrCodeOk then (Pass, s)
    else if IsStale(body.value.errCode) then
      var (refreshErr, s1) := Refresh(endpoint, s);
      if refreshErr.Some? then (Fail(refreshErr.value), s1)
      else
        var (token, s2) := Current(endpoint, s1);
        if token.Err? then (Fail(token.error), s2)
        else (Retry(reqURL.value.(query := Set(reqURL.value.query, SuiteTokenKey, token.value))), s2)
    else (Fail(Remote(body.value)), s)
  }

  /** The pairs of the authorisation and install links, in the order they are added. */
  function LinkPairs(suiteID: string, preAuthCode: string, redirectURI: string, state: string): seq<(string, string)>
  {
    [("suite_id", suiteID), ("pre_auth_code", preAuthCode), ("redirect_uri", redirectURI), ("state", state)]
  }

  /** The query of the authorisation and install links. */
  function LinkQuery(suiteID: string, preAuthCode: string, redirectURI: string, state: string): (q: Query)
    ensures q.Keys == {"suite_id", "pre_auth_code", "redirect_uri", "state"}
    ensures q["suite_id"] == [suiteID] && q["pre_auth_code"] == [preAuthCode]
    ensures q["redirect_uri"] == [redirectURI] && q["state"] == [state]
  {
    var pairs := LinkPairs(suiteID, preAuthCode, redirectURI, state);
    BuildDistinct(pairs);
    assert pairs[..3][..2] == pairs[..2] && pairs[..2][..1] == pairs[..1] && pairs[..1][..0] == [];
    assert Keys(pairs[..1]) == {"suite_id"};
    assert Keys(pairs[..2]) == {"suite_id", "pre_auth_code"};
    assert Keys(pairs[..3]) == {"suite_id", "pre_auth_code", "redirect_uri"};
    assert Keys(pairs) == {"suite_id", "pre_auth_code", "redirect_uri", "state"};
    assert pairs[0].0 == "suite_id" && pairs[1].0 == "pre_auth_code";
    assert pairs[2].0 == "redirect_uri" && pairs[3].0 == "state";
    Build(pairs)
  }

  /**
   * What `GetInstallURI` produces: the link or the error, and the pre-auth
   * code handed to `SetSessionInfo` when that is called.
   */
  datatype Install = Install(link: Result<Url, Error>, sessionInfo: Option<string>)

  /** A `*Suite`. */
  class Suite {
    const id: string
    const secret: string
    var ticket: string
    const token: string
    const encodingAESKey: string
    const msgCrypter: Callback.Crypter
    const tokener: Tokener

    /** `New`: the crypter built from the token, AES key and id is supplied, as is the token endpoint. */
    constructor (suiteID: string, suiteSecret: string, suiteToken: string, suiteEncodingAESKey: string,
                 msgCrypter: Callback.Crypter, endpoint: Endpoint)
      ensures id == suiteID && secret == suiteSecret && token == suiteToken
      ensures encodingAESKey == suiteEncodingAESKey && this.msgCrypter == msgCrypter
      ensures ticket == ""
      ensures fresh(tokener) && tokener.endpoint == endpoint && tokener.State() == TokenerState("", 0, [])
    {
      id, secret, token := suiteID, suiteSecret, suiteToken;
      encodingAESKey, this.msgCrypter := suiteEncodingAESKey, msgCrypter;
      ticket := "";
      tokener := new Tokener(endpoint);
    }

    /** `Retriable(reqURL, body)`. */
    method Retriable(reqURL: Option<Url>, body: Option<Envelope>) returns (v: Verdict)
      modifies tokener
      ensures (v, tokener.State()) == Decide(tokener.endpoint, reqURL, body, old(tokener.State()))
    {
      if reqURL.None? {
        return Pass;
      }
      var u := reqURL.value;
      var q := u.query;
      if Get(q, SuiteTokenKey) == "" {
        return Pass;
      }
      if body.None? {
        return Fail(DecodeFailed);
      }
      var result := body.value;
      if result.errCode == ErrCodeOk {
        v := Pass;
      } else if IsStale(result.errCode) {
        var err := tokener.RefreshToken();
        if err.Some? {
          return Fail(err.value);
        }
        var token := tokener.Token();
        if token.Err? {
          return Fail(token.error);
        }
        q := Set(q, SuiteTokenKey, token.value);
        u := u.(query := q);
        v := Retry(u);
      } else {
        v := Fail(Remote(result));
      }
    }

    /**
     * `Parse(body, signature, timestamp, nonce)` of this suite: the callback is
     * checked and decrypted with the suite's own crypter.
     */
    function Parse(xml: Callback.Xml, body: string, signature: string, timestamp: string, nonce: string)
      : (r: Result<Callback.Message, Error>)
      ensures r.Ok? ==>
        && xml.encrypt(body).Some?
        && signature == msgCrypter.signature(timestamp, nonce, xml.encrypt(body).value)
        && msgCrypter.decrypt(xml.encrypt(body).value).Ok?
    {
      Callback.Parse(id, msgCrypter, xml, body, signature, timestamp, nonce)
    }

    /** The JSON body `FetchToken` posts to obtain a suite token. */
    function TokenRequest(): (body: map<string, string>)
      reads this
      ensures body.Keys == {"suite_id", "suite_secret", "suite_ticket"}
      ensures body["suite_id"] == id && body["suite_secret"] == secret && body["suite_ticket"] == ticket
    {
      map["suite_id" := id, "suite_secret" := secret, "suite_ticket" := ticket]
    }

    /** `SetTicket`: the ticket, the one credential that changes, is overwritten. */
    method SetTicket(suiteTicket: string)
      modifies this`ticket
      ensures ticket == suiteTicket
      ensures TokenRequest() == old(TokenRequest())["suite_ticket" := suiteTicket]
    {
      ticket := suiteTicket;
    }

    /** `GetAuthURI`, given the outcome of fetching a pre-auth code. */
    function GetAuthURI(preAuthCode: Result<string, Error>, redirectURI: string, state: string): (r: Result<Url, Error>)
      ensures preAuthCode.Err? ==> r == Err(preAuthCode.error)
      ensures preAuthCode.Ok? ==> r.Ok? && r.value.location == AuthURI
      ensures preAuthCode.Ok? ==> r.value.query == map[
        "suite_id" := [id], "pre_auth_code" := [preAuthCode.value],
        "redirect_uri" := [redirectURI], "state" := [state]]
    {
      match preAuthCode
      case Err(e) => Err(e)
      case Ok(code) => Ok(Url(AuthURI, LinkQuery(id, code, redirectURI, state)))
    }

    /** `GetInstallURI`, given the outcome of `GetPreAuthCode`. */
    function GetInstallURI(preAuthCode: Result<string, Error>, redirectURI: string, state: string, isTest: bool): (r: Install)
      ensures preAuthCode.Err? ==> r == Install(Err(preAuthCode.error), None)
      ensures r.sessionInfo.Some? <==> isTest && preAuthCode.Ok?
      // SetSessionInfo is handed the same pre-auth code the link carries
      ensures r.sessionInfo.Some? ==> preAuthCode.Ok? && r.sessionInfo.value == preAuthCode.value
      ensures preAuthCode.Ok? ==> r.link.Ok? && r.link.value.location == InstallURI
      ensures preAuthCode.Ok? ==> r.link.value.query == map[
        "suite_id" := [id], "pre_auth_code" := [preAuthCode.value],
        "redirect_uri" := [redirectURI], "state" := [state]]
    {
      match preAuthCode
      case Err(e) => Install(Err(e), None)
      case Ok(code) =>
        // the error SetSessionInfo returns is discarded
        var sessionInfo := if isTest then Some(code) else None;
        Install(Ok(Url(InstallURI, LinkQuery(id, code, redirectURI, state))), sessionInfo)
    }

    /** `GetRegisterURI`, given the outcome of `GetRegisterCode`. */
    function GetRegisterURI(registerCode: Result<string, Error>): (r: Result<Url, Error>)
      ensures registerCode.Err? ==> r == Err(registerCode.error)
      ensures registerCode.Ok? ==> r.Ok? && r.value.location == RegisterURI
      ensures registerCode.Ok? ==> r.value.query == map["register_code" := [registerCode.value]]
    {
      match registerCode
      case Err(e) => Err(e)
      case Ok(code) =>
        var pairs := [("register_code", code)];
        assert Build(pairs) == Add(Build([]), "register_code", code) by { assert pairs[..0] == []; }
        Ok(Url(RegisterURI, Build(pairs)))
    }
  }

  /** Without a parsable URL carrying a non-empty suite token, nothing is decided and nothing is refreshed. */
  lemma NoTokenPasses(endpoint: Endpoint, reqURL: Option<Url>, body: Option<Envelope>, s: TokenerState)
    requires reqURL.None? || Get(reqURL.value.query, SuiteTokenKey) == ""
    ensures Decide(endpoint, reqURL, body, s) == (Pass, s)
  {
  }

  /** A body that does not decode is returned as the decoder's error, with no refresh. */
  lemma UndecodableBodyFails(endpoint: Endpoint, u: Url, s: TokenerState)
    requires Get(u.query, SuiteTokenKey) != ""
    ensures Decide(endpoint, Some(u), None, s) == (Fail(DecodeFailed), s)
  {
  }

  /** A successful response needs no retry and leaves the tokener alone. */
  lemma OkPasses(endpoint: Endpoint, reqURL: Option<Url>, env: Envelope, s: TokenerState)
    requires env.errCode == ErrCodeOk
    ensures Decide(endpoint, reqURL, Some(env), s) == (Pass, s)
  {
  }

  /** Any code that is neither success nor a stale token is itself the error, with no refresh. */
  lemma OtherCodeFails(endpoint: Endpoint, u: Url, env: Envelope, s: TokenerState)
    requires Get(u.query, SuiteTokenKey) != ""
    requires env.errCode != ErrCodeOk && !IsStale(env.errCode)
    ensures Decide(endpoint, Some(u), Some(env), s) == (Fail(Remote(env)), s)
  {
  }

  /**
   * A stale token makes exactly one `RefreshToken` call, followed by one `Token`
   * call when the refresh succeeded; the outcome is a retry exactly when both
   * succeeded, and otherwise the error of the call that failed.
   */
  lemma StaleRefreshesOnce(endpoint: Endpoint, u: Url, env: Envelope, s: TokenerState)
    requires Get(u.query, SuiteTokenKey) != "" && IsStale(env.errCode)
    ensures var (v, s') := Decide(endpoint, Some(u), Some(env), s);
      && (endpoint(s.fetches).Err? ==>
            v == Fail(endpoint(s.fetches).error) && s'.calls == s.calls + [RefreshCall])
      && (endpoint(s.fetches).Ok? ==> s'.calls == s.calls + [RefreshCall, TokenCall])
      && (v.Retry? <==> endpoint(s.fetches).Ok? && (endpoint(s.fetches).value != "" || endpoint(s.fetches + 1).Ok?))
  {
  }

  /**
   * The refresh succeeding is not enough: when it yields an empty token and
   * the fetch `Token` then makes fails, that error is returned and no retry is made.
   */
  lemma TokenFailureAfterRefresh(endpoint: Endpoint, u: Url, env: Envelope, s: TokenerState)
    requires Get(u.query, SuiteTokenKey) != "" && IsStale(env.errCode)
    requires endpoint(s.fetches) == Ok("") && endpoint(s.fetches + 1).Err?
    ensures Decide(endpoint, Some(u), Some(env), s).0 == Fail(endpoint(s.fetches + 1).error)
  {
  }

  /**
   * A retry happens only for a stale token, after one refresh and one `Token`
   * call; the retried URL differs from the request URL only in its
   * `suite_access_token`, which holds exactly the token fetched last.
   */
  lemma RetryCarriesFreshToken(endpoint: Endpoint, reqURL: Option<Url>, body: Option<Envelope>, s: TokenerState)
    requires Decide(endpoint, reqURL, body, s).0.Retry?
    ensures reqURL.Some? && body.Some? && IsStale(body.value.errCode)
    ensures var (v, s') := Decide(endpoint, reqURL, body, s);
      var before, after := reqURL.value.query, v.url.query;
      && s'.calls == s.calls + [RefreshCall, TokenCall]
      && s.fetches < s'.fetches && endpoint(s'.fetches - 1) == Ok(s'.token)
      && v.url.location == reqURL.value.location
      && after[SuiteTokenKey] == [s'.token]
      && (forall k :: k != SuiteTokenKey ==> (k in after <==> k in before))
      && (forall k :: k != SuiteTokenKey && k in before ==> after[k] == before[k])
  {
  }

  /** Only a stale token touches the tokener. */
  lemma TokenerTouchedOnlyWhenStale(endpoint: Endpoint, reqURL: Option<Url>, body: Option<Envelope>, s: TokenerState)
    requires Decide(endpoint, reqURL, body, s).1 != s
    ensures reqURL.Some? && body.Some? && IsStale(body.value.errCode)
  {
  }
}
