/**
 * The public OneDrive backend (`Onedrive` in `src/backend/onedrive/mod.rs`):
 * it shares an `OnedriveInner` with a background task that, once a
 * minute, refreshes the credentials when the access token is about to
 * expire. The task is modelled as a loop over the passes it makes: each
 * pass reads the clock, applies the refresh rule and, if it fires, asks
 * the token endpoint of that moment and reads the clock again after the
 * exchange.
 */
module Onedrive {

  import opened Base
  import opened Paths
  import opened Errors
  import opened Remote
  import opened Api
  import opened Dispatch
  import opened Auth

  /** One pass of the refresh loop: the clock at the check, the token endpoint, the clock after the exchange. */
  datatype Pass = Pass(now: U64, exchange: TokenEndpoint, storedAt: U64)

  /** What one pass did: the refresh it attempted (the grant sent and the outcome), if any, and the credentials after it. */
  datatype PassResult = PassResult(attempt: Option<(Grant, Outcome<()>)>, after: Credentials)

  /** One pass of the loop body of `refresh_handle`. */
  function OnePass(c: Credentials, pass: Pass): PassResult {
    if ShouldRefresh(pass.now, c.expiresAt) then
      var grant := RefreshGrant(c.refreshToken);
      var (out, after) := AfterRefresh(c, pass.exchange(grant), pass.storedAt);
      PassResult(Some((grant, out)), after)
    else PassResult(None, c)
  }

  /**
   * A pass attempts a refresh exactly when the rule `now + 120 >
   * expires_at` holds, and it then exchanges the stored refresh token; a
   * pass that does not attempt one changes nothing.
   */
  lemma PassRefreshesIffRule(c: Credentials, pass: Pass)
    ensures var r := OnePass(c, pass);
      && (r.attempt.Some? <==> ShouldRefresh(pass.now, c.expiresAt))
      && (r.attempt.Some? ==> r.attempt.value.0 == RefreshGrant(c.refreshToken))
      && (r.attempt.None? ==> r.after == c)
  {
  }

  /** The refresh task after some passes: the credentials, the refresh attempts in order, and whether it died of a panic. */
  datatype TaskRun = TaskRun(creds: Credentials, attempts: seq<(Grant, Outcome<()>)>, panicked: bool)

  /**
   * The loop of `refresh_handle` over `passes`: a failed refresh is only
   * logged and the loop goes on; a panic ends the task.
   */
  function RefreshTask(c: Credentials, passes: seq<Pass>): (r: TaskRun)
    decreases |passes|
  {
    if passes == [] then TaskRun(c, [], false)
    else
      var step := OnePass(c, passes[0]);
      var tried := if step.attempt.Some? then [step.attempt.value] else [];
      if step.attempt.Some? && step.attempt.value.1.Panic? then TaskRun(step.after, tried, true)
      else
        var rest := RefreshTask(step.after, passes[1..]);
        TaskRun(rest.creds, tried + rest.attempts, rest.panicked)
  }

  /**
   * A failed refresh does not stop the task: the credentials stay as they
   * were and the next pass runs, a minute later, as if the attempt had
   * not been made.
   */
  lemma FailedRefreshKeepsGoing(c: Credentials, passes: seq<Pass>)
    requires passes != []
    requires OnePass(c, passes[0]).attempt.Some? && OnePass(c, passes[0]).attempt.value.1.Err?
    ensures OnePass(c, passes[0]).after == c
    ensures var rest := RefreshTask(c, passes[1..]);
      RefreshTask(c, passes) == TaskRun(rest.creds, [OnePass(c, passes[0]).attempt.value] + rest.attempts, rest.panicked)
  {
    RefreshAllOrNothing(c, passes[0].exchange(RefreshGrant(c.refreshToken)), passes[0].storedAt);
  }

  /** A token endpoint whose every answer either fails or carries both a refresh token and a lifetime. */
  ghost predicate CompleteAnswers(exchange: TokenEndpoint) {
    forall g :: exchange(g).Some? ==> exchange(g).value.refreshToken.Some? && exchange(g).value.expiresIn.Some?
  }

  /**
   * While the token endpoint answers completely, the task never dies, and
   * every refresh attempt succeeds or fails with `RefreshToken`.
   */
  lemma {:induction false} CompleteAnswersKeepTaskAlive(c: Credentials, passes: seq<Pass>)
    requires forall i :: 0 <= i < |passes| ==> CompleteAnswers(passes[i].exchange)
    ensures var r := RefreshTask(c, passes);
      && !r.panicked
      && forall k :: 0 <= k < |r.attempts| ==> r.attempts[k].1 == Ok(()) || r.attempts[k].1 == Err(RefreshToken)
    decreases |passes|
  {
    if passes != [] {
      var step := OnePass(c, passes[0]);
      if step.attempt.Some? {
        var grant := RefreshGrant(c.refreshToken);
        assert CompleteAnswers(passes[0].exchange);
        RefreshAllOrNothing(c, passes[0].exchange(grant), passes[0].storedAt);
      }
      CompleteAnswersKeepTaskAlive(step.after, passes[1..]);
    }
  }

  /** `Onedrive`: the inner backend, which it shares with its refresh task. */
  class Onedrive {
    const inner: OnedriveInner

    constructor (inner: OnedriveInner)
      ensures this.inner == inner
    {
      this.inner := inner;
    }

    /** `Onedrive::refresh_token`: the refresh token stored at this moment, unchanged. */
    method RefreshToken() returns (token: string)
      ensures token == inner.refreshToken
    {
      token := inner.refreshToken;
    }

    /** `Onedrive::upload`: hand reader, size and path unchanged to the inner backend. */
    method Upload(server: Server, clock: Clock, log0: seq<Request>, stream: seq<bv8>, size: U64, path: Path,
                  grain: nat -> nat, fuel: nat)
      returns (out: Outcome<()>, log: seq<Request>)
      ensures Run(out, log) == Dispatch.Upload(server, clock, log0, inner.folder, stream, size, path, fuel)
    {
      out, log := inner.Upload(server, clock, log0, stream, size, path, grain, fuel);
    }

    /**
     * `refresh_handle`: pass after pass, read the expiry and the clock,
     * refresh when the rule says so, log a failure and go on; a panic in
     * `refresh` ends the task.
     */
    method RefreshHandle(passes: seq<Pass>) returns (attempts: seq<(Grant, Outcome<()>)>, panicked: bool)
      modifies inner
      ensures TaskRun(inner.Stored(), attempts, panicked) == RefreshTask(old(inner.Stored()), passes)
    {
      attempts := [];
      panicked := false;
      var i := 0;
      while i < |passes|
        invariant i <= |passes|
        invariant var rest := RefreshTask(inner.Stored(), passes[i..]);
          TaskRun(rest.creds, attempts + rest.attempts, rest.panicked) == RefreshTask(old(inner.Stored()), passes)
      {
        var pass := passes[i];
        assert passes[i..][1..] == passes[i + 1..];
        var expiresAt := inner.expiresAt;
        if ShouldRefresh(pass.now, expiresAt) {
          var out, grant := inner.Refresh(pass.exchange, pass.storedAt);
          attempts := attempts + [(grant, out)];
          if out.Panic? {
            panicked := true;
            return;
          }
        }
        i := i + 1;
      }
      assert passes[i..] == [];
    }

    /** `Onedrive::new_with_refresh_token`: build the inner backend; its failure is returned and no backend is built. */
    static method NewWithRefreshToken(clientId: string, clientSecret: string, refreshToken: string, apiType: ApiType,
                                      folder: Path, exchange: TokenEndpoint, now: U64)
      returns (r: Outcome<Onedrive>, sent: seq<Grant>)
      ensures var s := RefreshTokenStart(refreshToken, folder, exchange, now);
        && sent == s.sent && (r.Ok? <==> s.out.Ok?) && (!r.Ok? ==> r == s.out.Cast())
        && (r.Ok? ==> fresh(r.value) && r.value.inner.Stored() == s.out.value && r.value.inner.folder == folder)
    {
      var inner;
      inner, sent := OnedriveInner.NewWithRefreshToken(clientId, clientSecret, refreshToken, apiType, folder, exchange, now);
      if !inner.Ok? {
        return inner.Cast(), sent;
      }
      var backend := new Onedrive(inner.value);
      r := Ok(backend);
    }

    /** `Onedrive::new_with_code`: build the inner backend; its failure is returned and no backend is built. */
    static method NewWithCode(clientId: string, clientSecret: string, redirectUrl: string, isUrl: string -> bool,
                              apiType: ApiType, folder: Path, csrfState: string, code: string, state: string,
                              exchange: TokenEndpoint, now: U64)
      returns (r: Outcome<Onedrive>, sent: seq<Grant>)
      ensures var s := CodeStart(isUrl(redirectUrl), csrfState, code, state, folder, exchange, now);
        && sent == s.sent && (r.Ok? <==> s.out.Ok?) && (!r.Ok? ==> r == s.out.Cast())
        && (r.Ok? ==> fresh(r.value) && r.value.inner.Stored() == s.out.value && r.value.inner.folder == folder)
    {
      var inner;
      inner, sent := OnedriveInner.NewWithCode(clientId, clientSecret, redirectUrl, isUrl, apiType, folder, csrfState,
                                               code, state, exchange, now);
      if !inner.Ok? {
        return inner.Cast(), sent;
      }
      var backend := new Onedrive(inner.value);
      r := Ok(backend);
    }
  }
}
