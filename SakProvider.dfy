/**
 * `SharedAccessKeyAuthenticationProvider`: keeps a device's credentials and a
 * current shared access signature, renews the signature on a self-rescheduling
 * timer, logs a `newTokenAvailable` event per renewal, and hands the
 * credentials out on request.
 *
 * Time is the `nowMs` argument of each operation (milliseconds since the epoch).
 * The signing and URI-encoding collaborators are function-valued parameters
 * fixed at construction, so nothing is assumed about them.
 */
module SakProvider {
  import opened Wrappers
  import opened SakPolicy
  import Timers

  /** Signs `(resourceUri, keyName, key, expiry)` and serialises the token to a string. */
  type Signer = (string, Option<string>, string, int) -> string

  /** Which renewal is modelled: as written, or storing the computed expiry as evidently intended. */
  datatype Variant = AsWritten | ExpiryRecorded

  /**
   * The credentials record. It is one mutable object shared by the provider,
   * whoever created it, every event payload and every reader.
   */
  class TransportConfig {
    var host: string
    var deviceId: string
    var sharedAccessKeyName: Option<string>
    var sharedAccessKey: string
    var sharedAccessSignature: Option<string>

    constructor (host: string, deviceId: string, sharedAccessKeyName: Option<string>, sharedAccessKey: string)
      ensures this.host == host && this.deviceId == deviceId
      ensures this.sharedAccessKeyName == sharedAccessKeyName && this.sharedAccessKey == sharedAccessKey
      ensures sharedAccessSignature == None
    {
      this.host := host;
      this.deviceId := deviceId;
      this.sharedAccessKeyName := sharedAccessKeyName;
      this.sharedAccessKey := sharedAccessKey;
      sharedAccessSignature := None;
    }
  }

  class SharedAccessKeyAuthenticationProvider {
    var tokenValidTimeInSeconds: int
    var tokenRenewalMarginInSeconds: int
    var currentTokenExpiryTimeInSeconds: Option<int>
    /** The expiry the current signature was created with, whether or not the provider stores it. */
    ghost var signedExpiry: int
    /** The handle of the last renewal timer scheduled, if any. */
    var renewalTimeout: Option<Timers.Handle>
    /** The pending timers this provider has scheduled. */
    var timers: Timers.TimerTable
    /** The payloads of the `newTokenAvailable` events emitted so far, oldest first. */
    var events: seq<TransportConfig>
    const credentials: TransportConfig
    const variant: Variant
    const sign: Signer
    const encode: string -> string

    /** The invariant kept from construction on, before and after the first renewal. */
    ghost predicate Inv()
      reads this
    {
      tokenRenewalMarginInSeconds < tokenValidTimeInSeconds &&
      Timers.Valid(timers) &&
      // at most one renewal timer is pending: the one whose handle is stored
      timers.pending.Keys <= Timers.Held(renewalTimeout) &&
      (variant == AsWritten ==> currentTokenExpiryTimeInSeconds == None) &&
      // every payload is the provider's own credentials object, not a snapshot
      (forall i :: 0 <= i < |events| ==> events[i] == credentials)
    }

    /**
     * The provider's own state once a token has been issued: exactly one timer
     * is pending, and the `ExpiryRecorded` variant stores the signed expiry.
     * It speaks only of the provider's fields, so writes to the shared
     * credentials object by its other holders cannot break it.
     */
    ghost predicate Scheduled()
      reads this
    {
      Inv() &&
      renewalTimeout.Some? && timers.pending.Keys == {renewalTimeout.value} &&
      (variant == ExpiryRecorded ==> currentTokenExpiryTimeInSeconds == Some(signedExpiry))
    }

    /**
     * `Scheduled()`, and the credentials object still carries the token the
     * provider signed last, for `signedExpiry` over its current identity.
     */
    ghost predicate Valid()
      reads this, credentials
    {
      Scheduled() &&
      credentials.sharedAccessSignature == Some(sign(
        encode(ResourceUri(credentials.host, credentials.deviceId)),
        credentials.sharedAccessKeyName,
        credentials.sharedAccessKey,
        signedExpiry))
    }

    function CurrentWindow(): (w: Window)
      reads this
      requires Inv()
    {
      WindowParams(tokenValidTimeInSeconds, tokenRenewalMarginInSeconds)
    }

    /**
     * The state a renewal at `nowMs` leaves: the token is signed over the
     * encoded resource path with the expiry `NewExpiry(nowMs, valid)`, the
     * expiry is stored only by the `ExpiryRecorded` variant, and the only
     * pending timer is a new one due after the renewal delay, as the host
     * applies it.
     */
    ghost predicate IssuedAt(nowMs: nat)
      reads this, credentials
    {
      Valid() &&
      signedExpiry == NewExpiry(nowMs, tokenValidTimeInSeconds) &&
      timers.pending == map[renewalTimeout.value := nowMs + Timers.EffectiveDelay(RenewalDelayMs(CurrentWindow()))]
    }

    /**
     * One renewal at `nowMs` happened since the old state: only the signature,
     * the stored expiry, the timers and the event log changed; the new timer's
     * handle is fresh; exactly one event was appended, carrying the credentials.
     */
    twostate predicate RenewedAt(nowMs: nat)
      reads this, credentials
    {
      IssuedAt(nowMs) &&
      credentials.host == old(credentials.host) &&
      credentials.deviceId == old(credentials.deviceId) &&
      credentials.sharedAccessKeyName == old(credentials.sharedAccessKeyName) &&
      credentials.sharedAccessKey == old(credentials.sharedAccessKey) &&
      tokenValidTimeInSeconds == old(tokenValidTimeInSeconds) &&
      tokenRenewalMarginInSeconds == old(tokenRenewalMarginInSeconds) &&
      (variant == AsWritten ==> currentTokenExpiryTimeInSeconds == old(currentTokenExpiryTimeInSeconds)) &&
      old(timers.nextHandle) <= renewalTimeout.value &&
      renewalTimeout.value !in old(timers.pending) &&
      events == old(events) + [credentials]
    }

    /**
     * The successful path of the constructor (the window has been checked):
     * store the credentials object and the window, then renew once.
     */
    constructor (credentials: TransportConfig, w: Window, variant: Variant, nowMs: nat, sign: Signer, encode: string -> string)
      modifies credentials
      ensures this.credentials == credentials && this.variant == variant
      ensures this.sign == sign && this.encode == encode
      ensures IssuedAt(nowMs) && CurrentWindow() == w
      ensures credentials.host == old(credentials.host) && credentials.deviceId == old(credentials.deviceId)
      ensures credentials.sharedAccessKeyName == old(credentials.sharedAccessKeyName)
      ensures credentials.sharedAccessKey == old(credentials.sharedAccessKey)
      ensures events == [credentials]
    {
      this.credentials := credentials;
      this.variant := variant;
      this.sign := sign;
      this.encode := encode;
      tokenValidTimeInSeconds := w.valid;
      tokenRenewalMarginInSeconds := w.margin;
      currentTokenExpiryTimeInSeconds := None;
      signedExpiry := 0;
      renewalTimeout := None;
      timers := Timers.Empty;
      events := [];
      new;
      RenewToken(nowMs);
    }

    /**
     * Clears the stored timer, signs a new token, schedules the next renewal
     * and emits `newTokenAvailable` with the credentials object.
     */
    method RenewToken(nowMs: nat)
      requires Inv()
      modifies this, credentials
      ensures RenewedAt(nowMs)
    {
      if renewalTimeout.Some? {
        timers := Timers.ClearTimeout(timers, renewalTimeout.value);
      }
      assert timers.pending == map[];
      var newExpiry := NewExpiry(nowMs, tokenValidTimeInSeconds);
      var resourceUri := encode(ResourceUri(credentials.host, credentials.deviceId));
      var sas := sign(resourceUri, credentials.sharedAccessKeyName, credentials.sharedAccessKey, newExpiry);
      credentials.sharedAccessSignature := Some(sas);
      signedExpiry := newExpiry;
      if variant == ExpiryRecorded {
        currentTokenExpiryTimeInSeconds := Some(newExpiry);
      }
      var nextRenewalTimeout := RenewalDelayMs(CurrentWindow());
      var (t, h) := Timers.SetTimeout(timers, nowMs + Timers.EffectiveDelay(nextRenewalTimeout));
      timers, renewalTimeout := t, Some(h);
      events := events + [credentials];
    }

    /** The pending renewal timer is due at `nowMs`. */
    ghost predicate TimerDue(nowMs: nat)
      reads this
    {
      Inv() && renewalTimeout.Some? && renewalTimeout.value in timers.pending &&
      nowMs >= timers.pending[renewalTimeout.value]
    }

    /**
     * The event loop runs the due renewal timer: it leaves the table, then the
     * callback renews, whatever other holders wrote to the credentials object.
     */
    method Fire(nowMs: nat)
      requires TimerDue(nowMs)
      modifies this, credentials
      ensures RenewedAt(nowMs)
    {
      timers := Timers.ClearTimeout(timers, renewalTimeout.value);
      RenewToken(nowMs);
    }

    /** `_shouldRenewToken` at `nowMs`. */
    function ShouldRenewToken(nowMs: nat): (b: bool)
      reads this
      requires Inv()
      ensures variant == AsWritten ==> !b
      ensures b <==> ShouldRenew(currentTokenExpiryTimeInSeconds, nowMs, tokenRenewalMarginInSeconds)
    {
      ShouldRenew(currentTokenExpiryTimeInSeconds, nowMs, tokenRenewalMarginInSeconds)
    }

    /**
     * `getDeviceCredentials`: renews first when the token is judged stale, then
     * delivers a null error and the credentials object itself. Other holders may
     * have written to that object; it then carries what they wrote unless this
     * call renews.
     */
    method GetDeviceCredentials(nowMs: nat) returns (err: Option<Error>, creds: TransportConfig)
      requires Scheduled()
      modifies this, credentials
      ensures Scheduled()
      ensures old(Valid()) ==> Valid()
      ensures err == None && creds == credentials
      ensures old(ShouldRenewToken(nowMs)) ==> RenewedAt(nowMs)
      ensures !old(ShouldRenewToken(nowMs)) ==> unchanged(this, credentials)
      ensures variant == AsWritten ==> unchanged(this, credentials)
      ensures variant == AsWritten ==> signedExpiry == old(signedExpiry)
      ensures variant == ExpiryRecorded ==>
        signedExpiry - nowMs / 1000 >= tokenRenewalMarginInSeconds
    {
      if ShouldRenewToken(nowMs) {
        RenewToken(nowMs);
      }
      err, creds := None, credentials;
    }

    /**
     * The public constructor: default and check the window, throwing
     * `ArgumentError` before anything is signed or scheduled, then construct.
     */
    static method New(credentials: TransportConfig, tokenValidTimeInSeconds: Option<int>,
                      tokenRenewalMarginInSeconds: Option<int>, variant: Variant, nowMs: nat,
                      sign: Signer, encode: string -> string)
      returns (r: Result<SharedAccessKeyAuthenticationProvider, Error>)
      modifies credentials
      ensures r.Failure? <==> CheckWindow(tokenValidTimeInSeconds, tokenRenewalMarginInSeconds).Failure?
      ensures r.Failure? ==> r.error == ArgumentError(MarginMessage) && unchanged(credentials)
      ensures r.Success? ==>
        fresh(r.value) && r.value.credentials == credentials && r.value.variant == variant &&
        r.value.sign == sign && r.value.encode == encode && r.value.IssuedAt(nowMs) &&
        r.value.CurrentWindow() == CheckWindow(tokenValidTimeInSeconds, tokenRenewalMarginInSeconds).value &&
        credentials.host == old(credentials.host) && credentials.deviceId == old(credentials.deviceId) &&
        credentials.sharedAccessKeyName == old(credentials.sharedAccessKeyName) &&
        credentials.sharedAccessKey == old(credentials.sharedAccessKey) &&
        r.value.events == [credentials]
    {
      var w := CheckWindow(tokenValidTimeInSeconds, tokenRenewalMarginInSeconds);
      if w.Failure? {
        return Failure(w.error);
      }
      var p := new SharedAccessKeyAuthenticationProvider(credentials, w.value, variant, nowMs, sign, encode);
      return Success(p);
    }

    /**
     * `fromConnectionString`: reject a falsy string, parse it (the parser's own
     * errors pass through), map the parsed fields onto a new credentials object
     * and construct with the same optional arguments.
     */
    static method FromConnectionString(connectionString: Option<string>,
                                       parse: string -> Result<ConnectionString, Error>,
                                       tokenValidTimeInSeconds: Option<int>,
                                       tokenRenewalMarginInSeconds: Option<int>, variant: Variant, nowMs: nat,
                                       sign: Signer, encode: string -> string)
      returns (r: Result<SharedAccessKeyAuthenticationProvider, Error>)
      ensures CheckConnectionString(connectionString).Failure? ==>
        r == Failure(CheckConnectionString(connectionString).error)
      ensures CheckConnectionString(connectionString).Success? && parse(connectionString.value).Failure? ==>
        r == Failure(parse(connectionString.value).error)
      ensures CheckConnectionString(connectionString).Success? && parse(connectionString.value).Success? ==>
        (r.Failure? <==> CheckWindow(tokenValidTimeInSeconds, tokenRenewalMarginInSeconds).Failure?)
      ensures r.Failure? && CheckWindow(tokenValidTimeInSeconds, tokenRenewalMarginInSeconds).Failure? &&
              CheckConnectionString(connectionString).Success? && parse(connectionString.value).Success? ==>
        r.error == ArgumentError(MarginMessage)
      ensures r.Success? ==>
        CheckConnectionString(connectionString).Success? && parse(connectionString.value).Success? &&
        var cs := parse(connectionString.value).value;
        fresh(r.value) && fresh(r.value.credentials) && r.value.variant == variant &&
        r.value.sign == sign && r.value.encode == encode && r.value.IssuedAt(nowMs) &&
        r.value.CurrentWindow() == CheckWindow(tokenValidTimeInSeconds, tokenRenewalMarginInSeconds).value &&
        r.value.credentials.host == cs.hostName && r.value.credentials.deviceId == cs.deviceId &&
        r.value.credentials.sharedAccessKeyName == cs.sharedAccessKeyName &&
        r.value.credentials.sharedAccessKey == cs.sharedAccessKey &&
        r.value.events == [r.value.credentials]
    {
      var checked := CheckConnectionString(connectionString);
      if checked.Failure? {
        return Failure(checked.error);
      }
      var parsed := parse(checked.value);
      if parsed.Failure? {
        return Failure(parsed.error);
      }
      var cs := parsed.value;
      var credentials := new TransportConfig(cs.hostName, cs.deviceId, cs.sharedAccessKeyName, cs.sharedAccessKey);
      r := New(credentials, tokenValidTimeInSeconds, tokenRenewalMarginInSeconds, variant, nowMs, sign, encode);
    }
  }

  /**
   * Default window, first renewal at 0 ms: the token expires at 3600 s and the
   * timer is due at 2 700 000 ms; when it fires on time the next token expires
   * at 6300 s. The event log then holds the same object twice.
   */
  method ScenarioDefaultCadence(sign: Signer, encode: string -> string)
  {
    var c := new TransportConfig("hub.example", "dev1", None, "key");
    var r := SharedAccessKeyAuthenticationProvider.New(c, None, None, AsWritten, 0, sign, encode);
    assert r.Success?;
    var p := r.value;
    assert c.sharedAccessSignature == Some(sign(encode(ResourceUri("hub.example", "dev1")), None, "key", 3600));
    assert p.timers.pending[p.renewalTimeout.value] == 2_700_000;
    p.Fire(2_700_000);
    assert c.sharedAccessSignature == Some(sign(encode(ResourceUri("hub.example", "dev1")), None, "key", 6300));
    assert p.events == [c, c];
  }

  /**
   * Two on-time timer firings after construction at 0 ms land at the times
   * `RenewalTime` gives, and the token signed last has the expiry
   * `CadenceExpiry` predicts.
   */
  method ScenarioTwoFirings(sign: Signer, encode: string -> string)
  {
    var c := new TransportConfig("hub.example", "dev1", None, "key");
    var r := SharedAccessKeyAuthenticationProvider.New(c, None, None, AsWritten, 0, sign, encode);
    var p := r.value;
    var w := p.CurrentWindow();
    assert p.timers.pending[p.renewalTimeout.value] == RenewalTime(0, w, 1);
    p.Fire(RenewalTime(0, w, 1));
    assert p.timers.pending[p.renewalTimeout.value] == RenewalTime(0, w, 2);
    p.Fire(RenewalTime(0, w, 2));
    CadenceExpiry(0, w, 2);
    assert p.signedExpiry == NewExpiry(RenewalTime(0, w, 2), w.valid) == 9000;
    assert p.events == [c, c, c];
  }

  /** A validity of 100 s with a margin of 200 s throws and signs nothing. */
  method ScenarioRejectedWindow(sign: Signer, encode: string -> string)
  {
    var c := new TransportConfig("hub.example", "dev1", Some("owner"), "key");
    var r := SharedAccessKeyAuthenticationProvider.New(c, Some(100), Some(200), AsWritten, 0, sign, encode);
    assert r == Failure(ArgumentError(MarginMessage));
    assert c.sharedAccessSignature == None;
  }

  /**
   * As written, a read at 4 000 000 ms, while the timer has not run, hands out
   * the token that expired at 3600 s; with the expiry recorded it renews first.
   */
  method ScenarioLateRead(sign: Signer, encode: string -> string)
  {
    var c := new TransportConfig("hub.example", "dev1", None, "key");
    var r := SharedAccessKeyAuthenticationProvider.New(c, None, None, AsWritten, 0, sign, encode);
    var p := r.value;
    var err, creds := p.GetDeviceCredentials(4_000_000);
    assert err == None && creds == c;
    assert p.signedExpiry == 3600 < 4_000_000 / 1000;
    assert c.sharedAccessSignature == Some(sign(encode(ResourceUri("hub.example", "dev1")), None, "key", 3600));

    var c2 := new TransportConfig("hub.example", "dev1", None, "key");
    var r2 := SharedAccessKeyAuthenticationProvider.New(c2, None, None, ExpiryRecorded, 0, sign, encode);
    var p2 := r2.value;
    var err2, creds2 := p2.GetDeviceCredentials(4_000_000);
    assert p2.signedExpiry - 4_000_000 / 1000 >= 900;
    assert c2.sharedAccessSignature == Some(sign(encode(ResourceUri("hub.example", "dev1")), None, "key", 7600));
  }

  /**
   * The creator keeps the credentials object and may write to it. Reads and the
   * timer still work, and the next renewal signs over whatever identity the
   * object then holds.
   */
  method ScenarioOutsideWrite(sign: Signer, encode: string -> string)
  {
    var c := new TransportConfig("hub.example", "dev1", None, "key");
    var r := SharedAccessKeyAuthenticationProvider.New(c, None, None, AsWritten, 0, sign, encode);
    var p := r.value;
    c.sharedAccessSignature := None;
    c.host := "other.example";
    var err, creds := p.GetDeviceCredentials(10);
    assert creds == c && c.sharedAccessSignature == None;
    p.Fire(2_700_000);
    assert c.sharedAccessSignature == Some(sign(encode(ResourceUri("other.example", "dev1")), None, "key", 6300));
    assert p.events == [c, c];
  }
}
