/**
 * The credentials of the OneDrive backend and how they are obtained and
 * renewed (`src/backend/onedrive/auth.rs`), together with the backend
 * object that holds them (`OnedriveInner` in `src/backend/onedrive/mod.rs`).
 *
 * The OAuth 2.0 token endpoint is an oracle from the grant sent to the
 * parsed token response, `None` when the exchange fails. The clock is the
 * `now` value read after an exchange.
 */
module Auth {

  import opened Base
  import opened Paths
  import opened Errors
  import opened Remote
  import opened Api
  import opened Chunks
  import opened Session
  import opened Sizes
  import opened Dispatch

  /** The OAuth 2.0 client: its id and secret, its two endpoints and, for the code flow, the redirect URL. */
  datatype Client = Client(clientId: string, clientSecret: string, authUrl: string, tokenUrl: string,
                           redirectUrl: Option<string>)

  /** The client both constructors configure: the endpoints are those of the account type. */
  function MakeClient(clientId: string, clientSecret: string, api: ApiType, redirectUrl: Option<string>): (c: Client)
    ensures c.authUrl == AuthUrl(api) && c.tokenUrl == TokenUrl(api)
  {
    Client(clientId, clientSecret, AuthUrl(api), TokenUrl(api), redirectUrl)
  }

  /** What is sent to the token endpoint: a refresh token, or the authorization code of the code flow. */
  datatype Grant = RefreshGrant(refreshToken: string) | CodeGrant(code: string)

  /** The parts of a token response the backend reads; the refresh token and the lifetime are optional in OAuth 2.0. */
  datatype TokenResponse = TokenResponse(accessToken: string, refreshToken: Option<string>, expiresIn: Option<U64>)

  /** The token endpoint: the parsed answer to a grant, `None` when the exchange fails. */
  type TokenEndpoint = Grant -> Option<TokenResponse>

  /** The three values the backend keeps: the access token, the refresh token and when the access token expires. */
  datatype Credentials = Credentials(accessToken: string, refreshToken: string, expiresAt: U64)

  /** `calu_expires_at`: the clock plus the token's lifetime in seconds, on `u64` as a release build adds. */
  function CaluExpiresAt(now: U64, expiresIn: U64): U64 {
    WrappingAdd(now, expiresIn)
  }

  /**
   * Without overflow the expiry is `now + expires_in`, later than `now`
   * for a positive lifetime; with overflow it wraps to a time before `now`.
   */
  lemma ExpiresAtIsNowPlusLifetime(now: U64, expiresIn: U64)
    ensures now + expiresIn < U64_LIMIT ==> CaluExpiresAt(now, expiresIn) == now + expiresIn
    ensures now + expiresIn < U64_LIMIT && expiresIn > 0 ==> CaluExpiresAt(now, expiresIn) > now
    ensures now + expiresIn >= U64_LIMIT ==> CaluExpiresAt(now, expiresIn) < now
  {
    WrappingIsModular(now, expiresIn);
  }

  /**
   * The credentials `new` builds from a token response: `None` when the
   * response lacks the refresh token or the lifetime, where `new` panics.
   */
  function Initial(response: TokenResponse, now: U64): Option<Credentials> {
    if response.refreshToken.None? || response.expiresIn.None? then None
    else Some(Credentials(response.accessToken, response.refreshToken.value,
                          CaluExpiresAt(now, response.expiresIn.value)))
  }

  /**
   * `refresh` given the token endpoint's answer and the clock after it:
   * a failed exchange is a `RefreshToken` error that leaves everything as
   * it was. Otherwise the three values are stored one after the other,
   * and an answer without a refresh token or without a lifetime panics
   * after the stores before it: the access token alone, or the access
   * and refresh tokens, are then new.
   */
  function AfterRefresh(c: Credentials, reply: Option<TokenResponse>, now: U64): (Outcome<()>, Credentials) {
    match reply
    case None => (Err(RefreshToken), c)
    case Some(token) =>
      var access := c.(accessToken := token.accessToken);
      match token.refreshToken
      case None => (Panic, access)
      case Some(refresh) =>
        var both := access.(refreshToken := refresh);
        match token.expiresIn
        case None => (Panic, both)
        case Some(lifetime) => (Ok(()), both.(expiresAt := CaluExpiresAt(now, lifetime)))
  }

  /**
   * A refresh either succeeds and replaces all three values with those of
   * the answer, or fails with `RefreshToken` and changes nothing, or
   * panics; only a panic can leave some values new and others old.
   */
  lemma RefreshAllOrNothing(c: Credentials, reply: Option<TokenResponse>, now: U64)
    ensures var (out, after) := AfterRefresh(c, reply, now);
      && (out.Ok? <==> reply.Some? && Initial(reply.value, now).Some?)
      && (out.Ok? ==> after == Initial(reply.value, now).value)
      && (out.Err? <==> reply.None?)
      && (out.Err? ==> out.error == RefreshToken && after == c)
      && (!out.Ok? && !out.Err? ==> out.Panic? && after.accessToken == reply.value.accessToken
                                    && after.expiresAt == c.expiresAt)
  {
  }

  /** `new` and a successful `refresh` store the same three values from a token response. */
  lemma NewAgreesWithRefresh(c: Credentials, response: TokenResponse, now: U64)
    ensures Initial(response, now).Some? <==> AfterRefresh(c, Some(response), now).0.Ok?
    ensures Initial(response, now).Some? ==> AfterRefresh(c, Some(response), now).1 == Initial(response, now).value
  {
  }

  /**
   * How a constructor starts: the outcome (the credentials `new` stores,
   * or the failure) and the grants it sent to the token endpoint.
   */
  datatype Start = Start(out: Outcome<Credentials>, sent: seq<Grant>)

  /** What `new` makes of the token endpoint's answer to the constructor's grant. */
  function Exchanged(grant: Grant, exchange: TokenEndpoint, now: U64): (s: Start)
    ensures s.sent == [grant]
  {
    match exchange(grant)
    case None => Start(Err(RefreshToken), [grant])
    case Some(response) =>
      match Initial(response, now)
      case None => Start(Panic, [grant])
      case Some(c) => Start(Ok(c), [grant])
  }

  /**
   * `new_with_refresh_token`: a folder without a root is refused before
   * any exchange; otherwise the given refresh token is exchanged.
   */
  function RefreshTokenStart(refreshToken: string, folder: Path, exchange: TokenEndpoint, now: U64): (s: Start)
    ensures !HasRoot(folder) ==> s == Start(Err(InvalidPath(folder)), [])
    ensures HasRoot(folder) ==> s == Exchanged(RefreshGrant(refreshToken), exchange, now)
    ensures HasRoot(folder) ==> s.sent == [RefreshGrant(refreshToken)]
  {
    if !HasRoot(folder) then Start(Err(InvalidPath(folder)), [])
    else Exchanged(RefreshGrant(refreshToken), exchange, now)
  }

  /**
   * `new_with_code`: a folder without a root is refused before anything
   * else; a redirect URL that `RedirectUrl::new` rejects (`redirectValid`
   * false) panics at its `expect` while the client is built; the redirect
   * then carries the authorization code and a state, and a state other
   * than the one generated for the authorization URL is a `CsrfToken`
   * error without any exchange; otherwise the code is exchanged.
   */
  function CodeStart(redirectValid: bool, csrfState: string, code: string, state: string, folder: Path,
                     exchange: TokenEndpoint, now: U64): (s: Start)
    ensures !HasRoot(folder) ==> s == Start(Err(InvalidPath(folder)), [])
    ensures HasRoot(folder) && !redirectValid ==> s == Start(Panic, [])
    ensures HasRoot(folder) && redirectValid && state != csrfState ==> s == Start(Err(CsrfToken), [])
    ensures HasRoot(folder) && redirectValid && state == csrfState ==> s == Exchanged(CodeGrant(code), exchange, now)
    ensures HasRoot(folder) && redirectValid && state == csrfState ==> s.sent == [CodeGrant(code)]
  {
    if !HasRoot(folder) then Start(Err(InvalidPath(folder)), [])
    else if !redirectValid then Start(Panic, [])
    else if state != csrfState then Start(Err(CsrfToken), [])
    else Exchanged(CodeGrant(code), exchange, now)
  }

  /**
   * A constructor that gets past its checks succeeds exactly when the
   * exchange answers with both a refresh token and a lifetime, and then
   * keeps what `new` builds from that answer; a failed exchange is
   * `RefreshToken`.
   */
  lemma ExchangeDecidesStart(grant: Grant, exchange: TokenEndpoint, now: U64)
    ensures var s := Exchanged(grant, exchange, now);
      && (s.out.Ok? <==> exchange(grant).Some? && Initial(exchange(grant).value, now).Some?)
      && (s.out.Ok? ==> s.out.value == Initial(exchange(grant).value, now).value)
      && (exchange(grant).None? <==> s.out == Err(RefreshToken))
      && (s.out.Ok? || s.out.Panic? || s.out == Err(RefreshToken))
  {
  }

  /** The refresh rule of the background task: refresh once `now + 120` (on `u64`) is past the expiry. */
  predicate ShouldRefresh(now: U64, expiresAt: U64) {
    WrappingAdd(now, 120) > expiresAt
  }

  /**
   * Away from the end of the `u64` range, the rule refreshes exactly when
   * the access token expires within the next two minutes.
   */
  lemma RefreshWithinTwoMinutes(now: U64, expiresAt: U64)
    requires now + 120 < U64_LIMIT
    ensures ShouldRefresh(now, expiresAt) <==> expiresAt - now < 120
  {
  }

  /**
   * `OnedriveInner`: the client, the account type and the remote folder
   * are fixed at construction; the three credentials are updated in place
   * by `refresh`.
   */
  class OnedriveInner {
    const client: Client
    const apiType: ApiType
    const folder: Path
    var accessToken: string
    var refreshToken: string
    var expiresAt: U64

    /** The credentials as they are stored now. */
    function Stored(): Credentials
      reads this
    {
      Credentials(accessToken, refreshToken, expiresAt)
    }

    /** The struct literal at the end of `new`. */
    constructor (client: Client, apiType: ApiType, folder: Path, c: Credentials)
      ensures this.client == client && this.apiType == apiType && this.folder == folder
      ensures Stored() == c
    {
      this.client := client;
      this.apiType := apiType;
      this.folder := folder;
      accessToken := c.accessToken;
      refreshToken := c.refreshToken;
      expiresAt := c.expiresAt;
    }

    /**
     * `new`: store the access token, the refresh token and the expiry
     * computed from the lifetime; a response without a refresh token or
     * without a lifetime panics.
     */
    static method New(client: Client, apiType: ApiType, response: TokenResponse, folder: Path, now: U64)
      returns (r: Outcome<OnedriveInner>)
      ensures r.Panic? <==> Initial(response, now).None?
      ensures r.Ok? || r.Panic?
      ensures r.Ok? ==> fresh(r.value) && r.value.client == client && r.value.apiType == apiType
                        && r.value.folder == folder && r.value.Stored() == Initial(response, now).value
    {
      if response.refreshToken.None? || response.expiresIn.None? {
        return Panic;
      }
      var c := Credentials(response.accessToken, response.refreshToken.value,
                           CaluExpiresAt(now, response.expiresIn.value));
      var inner := new OnedriveInner(client, apiType, folder, c);
      r := Ok(inner);
    }

    /** `new_with_refresh_token`: check the folder, exchange the refresh token, build the backend. */
    static method NewWithRefreshToken(clientId: string, clientSecret: string, refreshToken: string, apiType: ApiType,
                                      folder: Path, exchange: TokenEndpoint, now: U64)
      returns (r: Outcome<OnedriveInner>, sent: seq<Grant>)
      ensures var s := RefreshTokenStart(refreshToken, folder, exchange, now);
        && sent == s.sent && (r.Ok? <==> s.out.Ok?) && (!r.Ok? ==> r == s.out.Cast())
        && (r.Ok? ==> fresh(r.value) && r.value.Stored() == s.out.value && r.value.folder == folder
                      && r.value.apiType == apiType
                      && r.value.client == MakeClient(clientId, clientSecret, apiType, None))
    {
      if !HasRoot(folder) {
        return Err(InvalidPath(folder)), [];
      }
      var client := MakeClient(clientId, clientSecret, apiType, None);
      sent := [RefreshGrant(refreshToken)];
      var reply := exchange(RefreshGrant(refreshToken));
      if reply.None? {
        r := Err(RefreshToken);
        return;
      }
      r := New(client, apiType, reply.value, folder, now);
    }

    /**
     * `new_with_code`: check the folder; build the client, whose redirect
     * URL must be one `RedirectUrl::new` accepts (`isUrl`); the user's
     * browser is redirected back with an authorization `code` and a
     * `state`; check the state against the generated `csrfState`, exchange
     * the code, build the backend.
     */
    static method NewWithCode(clientId: string, clientSecret: string, redirectUrl: string, isUrl: string -> bool,
                              apiType: ApiType, folder: Path, csrfState: string, code: string, state: string,
                              exchange: TokenEndpoint, now: U64)
      returns (r: Outcome<OnedriveInner>, sent: seq<Grant>)
      ensures var s := CodeStart(isUrl(redirectUrl), csrfState, code, state, folder, exchange, now);
        && sent == s.sent && (r.Ok? <==> s.out.Ok?) && (!r.Ok? ==> r == s.out.Cast())
        && (r.Ok? ==> fresh(r.value) && r.value.Stored() == s.out.value && r.value.folder == folder
                      && r.value.apiType == apiType
                      && r.value.client == MakeClient(clientId, clientSecret, apiType, Some(redirectUrl)))
    {
      if !HasRoot(folder) {
        return Err(InvalidPath(folder)), [];
      }
      if !isUrl(redirectUrl) {
        return Panic, [];
      }
      var client := MakeClient(clientId, clientSecret, apiType, Some(redirectUrl));
      if state != csrfState {
        return Err(CsrfToken), [];
      }
      sent := [CodeGrant(code)];
      var reply := exchange(CodeGrant(code));
      if reply.None? {
        r := Err(RefreshToken);
        return;
      }
      r := New(client, apiType, reply.value, folder, now);
    }

    /**
     * `refresh`: exchange the stored refresh token, then store the new
     * access token, refresh token and expiry one after the other.
     */
    method Refresh(exchange: TokenEndpoint, now: U64) returns (r: Outcome<()>, sent: Grant)
      modifies this
      ensures sent == RefreshGrant(old(refreshToken))
      ensures (r, Stored()) == AfterRefresh(old(Stored()), exchange(sent), now)
    {
      sent := RefreshGrant(refreshToken);
      var reply := exchange(sent);
      if reply.None? {
        r := Err(RefreshToken);
        return;
      }
      var token := reply.value;
      accessToken := token.accessToken;
      if token.refreshToken.None? {
        r := Panic;
        return;
      }
      refreshToken := token.refreshToken.value;
      if token.expiresIn.None? {
        r := Panic;
        return;
      }
      expiresAt := CaluExpiresAt(now, token.expiresIn.value);
      r := Ok(());
    }

    /**
     * `OnedriveInner::upload` into this backend's folder: refuse a file
     * above the limit, upload a small one directly, any other through a
     * session.
     */
    method Upload(server: Server, clock: Clock, log0: seq<Request>, stream: seq<bv8>, size: U64, path: Path,
                  grain: nat -> nat, fuel: nat)
      returns (out: Outcome<()>, log: seq<Request>)
      ensures Run(out, log) == Dispatch.Upload(server, clock, log0, folder, stream, size, path, fuel)
    {
      if size > MAX_FILE_LIMIT {
        return Err(FileTooLarge(path, SizeString(size))), log0;
      }
      if size < CHUNK_SIZE {
        var r := Dispatch.UploadFile(server, log0, folder, stream, path);
        out, log := r.out, r.log;
      } else {
        out, log := UploadFileWithSession(server, clock, log0, folder, stream, size, path, grain, fuel);
      }
    }
  }
}
