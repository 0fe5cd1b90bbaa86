/**
 * The pure rules of the shared-access-key authentication provider: how the
 * optional window arguments default, the configuration check, the expiry and
 * renewal-delay arithmetic, the staleness test, the signed resource path and
 * the connection-string guard.
 */
module SakPolicy {
  import opened Wrappers
  import Timers

  /** The two errors this provider throws itself. */
  datatype Error = ArgumentError(message: string) | ReferenceError(message: string)

  /** The fields the connection-string parser extracts. */
  datatype ConnectionString = ConnectionString(
    hostName: string,
    deviceId: string,
    sharedAccessKeyName: Option<string>,
    sharedAccessKey: string)

  const DefaultTokenValidTimeInSeconds: int := 3600   // one hour
  const DefaultTokenRenewalMarginInSeconds: int := 900 // fifteen minutes

  const MarginMessage: string := "tokenRenewalMarginInSeconds must be less than tokenValidTimeInSeconds"

  /** An optional numeric argument is falsy when it is absent (`undefined`) or zero. */
  predicate Falsy(arg: Option<int>)
  {
    arg == None || arg == Some(0)
  }

  /** A falsy argument leaves the default in place; any other value overrides it. */
  function Effective(arg: Option<int>, default: int): (r: int)
    ensures Falsy(arg) ==> r == default
    ensures !Falsy(arg) ==> r == arg.value
  {
    if Falsy(arg) then default else arg.value
  }

  datatype WindowParams = WindowParams(valid: int, margin: int)

  /** A token window in seconds: the renewal margin lies strictly inside the validity time. */
  type Window = w: WindowParams | w.margin < w.valid witness WindowParams(3600, 900)

  /**
   * The constructor's configuration step: default the two optional arguments,
   * then reject a margin that is not strictly below the validity time.
   */
  function CheckWindow(tokenValidTimeInSeconds: Option<int>, tokenRenewalMarginInSeconds: Option<int>): (r: Result<Window, Error>)
    ensures r.Success? <==>
      Effective(tokenRenewalMarginInSeconds, DefaultTokenRenewalMarginInSeconds)
        < Effective(tokenValidTimeInSeconds, DefaultTokenValidTimeInSeconds)
    ensures r.Success? ==>
      r.value.valid == Effective(tokenValidTimeInSeconds, DefaultTokenValidTimeInSeconds) &&
      r.value.margin == Effective(tokenRenewalMarginInSeconds, DefaultTokenRenewalMarginInSeconds)
    ensures r.Failure? ==> r.error == ArgumentError(MarginMessage)
  {
    var w := WindowParams(
      Effective(tokenValidTimeInSeconds, DefaultTokenValidTimeInSeconds),
      Effective(tokenRenewalMarginInSeconds, DefaultTokenRenewalMarginInSeconds));
    if w.valid <= w.margin then Failure(ArgumentError(MarginMessage)) else Success(w)
  }

  /** With both arguments falsy the window is one hour with a fifteen-minute margin. */
  lemma DefaultWindow(tokenValidTimeInSeconds: Option<int>, tokenRenewalMarginInSeconds: Option<int>)
    requires Falsy(tokenValidTimeInSeconds) && Falsy(tokenRenewalMarginInSeconds)
    ensures CheckWindow(tokenValidTimeInSeconds, tokenRenewalMarginInSeconds) == Success(WindowParams(3600, 900))
  {
  }

  /** Truthy arguments are taken as given, and accepted exactly when margin < validity. */
  lemma ExplicitWindow(valid: int, margin: int)
    requires valid != 0 && margin != 0
    ensures CheckWindow(Some(valid), Some(margin)).Success? <==> margin < valid
    ensures margin < valid ==> CheckWindow(Some(valid), Some(margin)) == Success(WindowParams(valid, margin))
  {
  }

  /** The delay before the next scheduled renewal: the window's gap, in milliseconds. */
  function RenewalDelayMs(w: Window): (d: nat)
    ensures d >= 1000 && d % 1000 == 0
    ensures d / 1000 == w.valid - w.margin
  {
    (w.valid - w.margin) * 1000
  }

  /** Expiry of a token signed at `nowMs`: the current whole second plus the validity time. */
  function NewExpiry(nowMs: nat, valid: int): (e: int)
    ensures (e - valid) * 1000 <= nowMs < (e - valid) * 1000 + 1000
  {
    nowMs / 1000 + valid
  }

  /**
   * The staleness test of `_shouldRenewToken`: stale when fewer than `margin`
   * seconds remain. An absent expiry makes the difference NaN, and every
   * comparison with NaN is false, so an absent expiry is never stale.
   */
  function ShouldRenew(expiry: Option<int>, nowMs: nat, margin: int): (b: bool)
    ensures expiry.None? ==> !b
    ensures expiry.Some? ==> (b <==> expiry.value - nowMs / 1000 < margin)
  {
    match expiry
    case None => false
    case Some(e) => e - nowMs / 1000 < margin
  }

  /** The resource the token is signed for, before URI-component encoding. */
  function ResourceUri(host: string, deviceId: string): (r: string)
    ensures |r| == |host| + 9 + |deviceId|
    ensures r[..|host|] == host
    ensures r[|host|..|host| + 9] == "/devices/"
    ensures r[|host| + 9..] == deviceId
  {
    host + "/devices/" + deviceId
  }

  /**
   * The guard of `fromConnectionString`: a falsy connection string (absent or
   * empty) throws a `ReferenceError` naming it; any other string is passed on.
   */
  function CheckConnectionString(connectionString: Option<string>): (r: Result<string, Error>)
    ensures r.Success? <==> connectionString.Some? && connectionString.value != ""
    ensures r.Success? ==> r.value == connectionString.value
    ensures connectionString == None ==>
      r == Failure(ReferenceError("connectionString cannot be 'undefined'"))
    ensures connectionString == Some("") ==>
      r == Failure(ReferenceError("connectionString cannot be ''"))
  {
    match connectionString
    case None => Failure(ReferenceError("connectionString cannot be 'undefined'"))
    case Some(s) =>
      if s == "" then Failure(ReferenceError("connectionString cannot be ''")) else Success(s)
  }

  /**
   * A token signed at `t` is stale at `nowMs` exactly when more than
   * `valid - margin` whole seconds have passed since it was signed.
   */
  lemma StaleIff(w: Window, t: nat, nowMs: nat)
    ensures ShouldRenew(Some(NewExpiry(t, w.valid)), nowMs, w.margin) <==>
            nowMs / 1000 - t / 1000 > w.valid - w.margin
  {
  }

  /**
   * The scheduled renewal comes no later than staleness: up to and including
   * the moment the timer is due (after the delay the host applies), a token
   * signed at `t` still has at least the margin left.
   */
  lemma TimerPreemptsStaleness(w: Window, t: nat, nowMs: nat)
    requires nowMs <= t + Timers.EffectiveDelay(RenewalDelayMs(w))
    ensures !ShouldRenew(Some(NewExpiry(t, w.valid)), nowMs, w.margin)
  {
  }

  /** Once the gap `valid - margin` plus one whole second has passed, a token signed at `t` is stale. */
  lemma StaleAfterDeadline(w: Window, t: nat, nowMs: nat)
    requires nowMs >= t + RenewalDelayMs(w) + 1000
    ensures ShouldRenew(Some(NewExpiry(t, w.valid)), nowMs, w.margin)
  {
  }

  /**
   * The time of the `k`-th renewal when every timer fires when due, counting the
   * constructor's renewal at `t0` as the 0-th. The timers run after the delay
   * the host applies.
   */
  function RenewalTime(t0: nat, w: Window, k: nat): (t: nat)
    ensures t == t0 + k * Timers.EffectiveDelay(RenewalDelayMs(w))
  {
    if k == 0 then t0 else RenewalTime(t0, w, k - 1) + Timers.EffectiveDelay(RenewalDelayMs(w))
  }

  /**
   * The periodic cadence, for a delay the host honours: the `k`-th on-time
   * renewal signs a token expiring `k` gaps of `valid - margin` seconds after
   * the first one.
   */
  lemma CadenceExpiry(t0: nat, w: Window, k: nat)
    requires RenewalDelayMs(w) <= Timers.TimeoutMax
    ensures NewExpiry(RenewalTime(t0, w, k), w.valid) == t0 / 1000 + k * (w.valid - w.margin) + w.valid
  {
    assert RenewalTime(t0, w, k) == t0 + (k * (w.valid - w.margin)) * 1000;
  }

  /**
   * A gap too long for the host's timer (over 2^31 - 1 ms, about 24.8 days),
   * which the window check accepts, makes the renewals run one millisecond apart.
   */
  lemma OverlongGapRenewsEveryMillisecond(t0: nat, w: Window, k: nat)
    requires RenewalDelayMs(w) > Timers.TimeoutMax
    ensures RenewalTime(t0, w, k) == t0 + k
  {
  }

  /** A 30-day validity with the default margin passes the window check but overflows the timer. */
  lemma ThirtyDayWindowOverflowsTimer()
    ensures CheckWindow(Some(2592000), None).Success?
    ensures RenewalDelayMs(CheckWindow(Some(2592000), None).value) > Timers.TimeoutMax
  {
  }

  /**
   * As written, a renewal never stores its expiry, so the test sees no expiry:
   * with the default window, a token signed at 0 ms has expired by 4 000 000 ms
   * and still is not judged stale.
   */
  lemma ExpiredTokenServedAsWritten()
    ensures NewExpiry(0, DefaultTokenValidTimeInSeconds) < 4_000_000 / 1000
    ensures !ShouldRenew(None, 4_000_000, DefaultTokenRenewalMarginInSeconds)
  {
  }

  /**
   * With the expiry recorded, a read renews a stale token, so whatever it leaves
   * behind has at least the margin left.
   */
  lemma RecordedExpiryReadIsFresh(w: Window, expiry: int, nowMs: nat)
    ensures var after := if ShouldRenew(Some(expiry), nowMs, w.margin) then NewExpiry(nowMs, w.valid) else expiry;
            after - nowMs / 1000 >= w.margin
  {
  }
}
