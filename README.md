# Shared-access-key authentication provider, modelled in Dafny

This project models `SharedAccessKeyAuthenticationProvider` from the Azure IoT
device SDK for Node.js (`device/core/src/sak_authentication_provider.ts`). The
provider holds a device's credentials (`host`, `deviceId`,
`sharedAccessKeyName`, `sharedAccessKey`) and a current shared access signature
(SAS). It renews the signature on a self-rescheduling timer, and every renewal
emits a `newTokenAvailable` event. It also gives the credentials to transports
through `getDeviceCredentials`. That call renews first if the token is judged
stale.

Files:

- `Wrappers.dfy`: `Option` and `Result`.
- `Timers.dfy`: the host's `setTimeout` / `clearTimeout`. It is a table from
  handle to deadline (in ms), with lemmas for cancel-before-reschedule.
- `SakPolicy.dfy`: the pure rules. These are how the defaults apply, the window
  check, the expiry and delay arithmetic, the staleness test, the signed
  resource path and the connection-string guard. It also holds lemmas on
  staleness versus the timer and on the periodic cadence.
- `SakProvider.dfy`: the classes `TransportConfig` (the shared, mutable
  credentials object) and `SharedAccessKeyAuthenticationProvider`. It also has
  the factories `New` (the throwing constructor) and `FromConnectionString`,
  and five scenario client methods. These are `ScenarioDefaultCadence`,
  `ScenarioTwoFirings`, `ScenarioRejectedWindow`, `ScenarioLateRead` and
  `ScenarioOutsideWrite`. They show what a caller can
  prove from the contracts alone.

Modelling choices:

- Time is an explicit `nowMs: nat` argument. `Math.floor(Date.now() / 1000)`
  becomes `nowMs / 1000`.
- The signer (`SharedAccessSignature.create(...).toString()`), the
  URI-component encoder and the connection-string parser are function-valued
  parameters. The provider keeps the first two as `const` fields. Nothing is
  assumed about their results. All three are total: none of them can throw.
- Optional numeric arguments are `Option<int>`. `None` is `undefined`. An
  argument is falsy when it is `None` or `Some(0)`.
- The thrown errors are `Result` failures: `ArgumentError` and
  `ReferenceError`, with the source's messages.
- The credentials record is one object. The constructor keeps the caller's own
  object. The event log `events` holds references, and the invariant `Inv()`
  states that every payload is that same object. So a later renewal changes
  what earlier listeners were handed. Readers get the object itself, not a
  copy. Any holder may write to the object. The timer and reads go on
  working: `Fire` and `GetDeviceCredentials` rely only on the provider's own
  fields (`Scheduled()`, `TimerDue`), and the next renewal signs over whatever
  identity the object then holds.
- A timer firing is the explicit step `Fire(nowMs)`. It is enabled when the
  pending renewal timer is due (`TimerDue`). The fired timer leaves the table,
  then the callback renews.
- `_currentTokenExpiryTimeInSeconds` is declared and read but never assigned.
  Renewal computes the new expiry and passes it only to the signer. The
  `variant` constant reflects this. With `AsWritten` (the source), the field
  stays `None`, and since `undefined - now` is NaN, the staleness test is
  always false. The ghost field `signedExpiry` records, in both variants, the
  expiry the current signature was made with. The invariant ties the stored
  signature to it. With `ExpiryRecorded`, renewal stores the expiry, which is what
  the staleness test evidently expects. Everything else is shared between the
  two variants.

Further points about the code:

- The code never records the expiry (see Findings).
- Event payloads and returned credentials are the shared object, not copies.
- There is no disposal, and there is no error event on the timer path.
- The renewal delay goes to the host's `setTimeout`. The host replaces a delay
  above 2^31 - 1 ms, or below 1 ms, with 1 ms. The window check accepts windows
  whose gap exceeds that limit, for example a 30-day validity. The model applies
  the same replacement (`Timers.EffectiveDelay`), so for such a window the
  renewals run one millisecond apart.

## Model

| member | source | states |
|---|---|---|
| `Timers.SetTimeout` | device/core/src/sak_authentication_provider.ts:90 | scheduling adds exactly one pending timer, under a handle newer than every earlier one, and keeps the others |
| `Timers.ClearTimeout` | device/core/src/sak_authentication_provider.ts:71-73 | clearing removes that handle only; clearing a handle that is no longer pending changes nothing |
| `Timers.EffectiveDelay` | device/core/src/sak_authentication_provider.ts:90 | the delay the host applies: the requested one when it lies in 1 .. 2^31 - 1 ms, otherwise 1 ms |
| `Timers.CancelThenSchedule` | device/core/src/sak_authentication_provider.ts:70-90 | if only the stored handle can be pending, clear-then-set leaves exactly one pending timer, the new one |
| `Timers.ScheduleWithoutCancel` | device/core/src/sak_authentication_provider.ts:71-73 | without the clear, a still-pending renewal timer and the new one would both be pending |
| `SakPolicy.Effective` | device/core/src/sak_authentication_provider.ts:39-40 | a falsy (absent or 0) argument keeps the default; any other value replaces it |
| `SakPolicy.CheckWindow` | device/core/src/sak_authentication_provider.ts:39-45 | the effective window is accepted iff margin < validity; otherwise `ArgumentError` with the source's message; on success the window is the defaulted arguments |
| `SakPolicy.DefaultWindow` | device/core/src/sak_authentication_provider.ts:17-18 | with both arguments falsy the window is 3600 s validity with a 900 s margin |
| `SakPolicy.ExplicitWindow` | device/core/src/sak_authentication_provider.ts:42-45 | truthy arguments are used as given and accepted exactly when margin < validity |
| `SakPolicy.RenewalDelayMs` | device/core/src/sak_authentication_provider.ts:89 | the renewal delay is a positive whole number of seconds, in ms, equal to validity minus margin |
| `SakPolicy.NewExpiry` | device/core/src/sak_authentication_provider.ts:76 | the expiry minus the validity is the current time floored to whole seconds |
| `SakPolicy.ShouldRenew` | device/core/src/sak_authentication_provider.ts:65-68 | an absent expiry (NaN comparison) is never stale; a present one is stale iff fewer than `margin` seconds remain |
| `SakPolicy.ResourceUri` | device/core/src/sak_authentication_provider.ts:85 | the signed resource is the host, then `/devices/`, then the device id |
| `SakPolicy.CheckConnectionString` | device/core/src/sak_authentication_provider.ts:103-106 | an absent or empty connection string, and only that, throws `ReferenceError` naming it; any other string passes unchanged |
| `SakPolicy.StaleIff` | device/core/src/sak_authentication_provider.ts:65-68 | a recorded token signed at t is stale iff more than validity minus margin whole seconds have passed |
| `SakPolicy.TimerPreemptsStaleness` | device/core/src/sak_authentication_provider.ts:89-90 | up to and including the moment the renewal timer is due, after the delay the host applies, a token signed at t is not yet stale |
| `SakPolicy.StaleAfterDeadline` | device/core/src/sak_authentication_provider.ts:65-68 | once validity minus margin plus one whole second has passed, a recorded token signed at t is stale |
| `SakPolicy.RenewalTime` | device/core/src/sak_authentication_provider.ts:89-90 | with on-time timers, the k-th renewal happens k applied timer delays after the first |
| `SakPolicy.CadenceExpiry` | device/core/src/sak_authentication_provider.ts:75-76 | for a delay the host honours, the k-th on-time renewal signs a token that expires k gaps of (validity minus margin) seconds after the first token |
| `SakPolicy.OverlongGapRenewsEveryMillisecond` | device/core/src/sak_authentication_provider.ts:89-90 | a gap longer than 2^31 - 1 ms makes the on-time renewals run 1 ms apart |
| `SakPolicy.ThirtyDayWindowOverflowsTimer` | device/core/src/sak_authentication_provider.ts:42-45 | a 30-day validity with the default margin passes the window check, yet its delay exceeds the host's timer limit |
| `SakPolicy.ExpiredTokenServedAsWritten` | device/core/src/sak_authentication_provider.ts:76 | as written: a token signed at 0 ms has expired by 4 000 000 ms, yet the test on the never-assigned expiry says "not stale" |
| `SakPolicy.RecordedExpiryReadIsFresh` | device/core/src/sak_authentication_provider.ts:56-68 | with the expiry recorded, the token left after a read has at least the margin remaining |
| `SakProvider.TransportConfig.constructor` | device/core/src/sak_authentication_provider.ts:112-117 | a credentials record carries the four given fields and no signature yet |
| `SakProvider.SharedAccessKeyAuthenticationProvider.constructor` | device/core/src/sak_authentication_provider.ts:34-49 | keeps the caller's credentials object and the window, renews once: signature set, exactly one timer pending, exactly one event emitted; the identity fields are unchanged |
| `SakProvider.SharedAccessKeyAuthenticationProvider.RenewToken` | device/core/src/sak_authentication_provider.ts:70-93 | clears the stored timer and signs `sign(encode(host/devices/deviceId), keyName, key, NewExpiry(now, validity))`; sets only the signature; schedules one fresh timer due after the renewal delay as the host applies it, which is then the only one pending; appends exactly one event whose payload is the credentials object; identity and window unchanged |
| `SakProvider.SharedAccessKeyAuthenticationProvider.Fire` | device/core/src/sak_authentication_provider.ts:90 | a due renewal timer leaves the table, and the provider is then renewed as `RenewToken` states, even after other holders wrote to the credentials object |
| `SakProvider.SharedAccessKeyAuthenticationProvider.ShouldRenewToken` | device/core/src/sak_authentication_provider.ts:65-68 | the staleness test on the provider's state; always false as written |
| `SakProvider.SharedAccessKeyAuthenticationProvider.GetDeviceCredentials` | device/core/src/sak_authentication_provider.ts:56-63 | delivers a null error and the credentials object itself, also after other holders wrote to it; renews iff the token is judged stale, else changes nothing; as written it never renews, so the handed-out token keeps its old expiry even past it; with the expiry recorded, the token in the handed-out credentials has at least the margin left |
| `SakProvider.SharedAccessKeyAuthenticationProvider.New` | device/core/src/sak_authentication_provider.ts:34-49 | fails with `ArgumentError` iff the defaulted window is rejected, and then the credentials are untouched (nothing signed, scheduled or emitted); otherwise a fresh provider in the constructor's state |
| `SakProvider.SharedAccessKeyAuthenticationProvider.FromConnectionString` | device/core/src/sak_authentication_provider.ts:102-120 | a falsy string gives `ReferenceError`; parser errors pass through; the window check comes next; on success, a fresh credentials object maps HostName, DeviceId, SharedAccessKeyName and SharedAccessKey onto host, deviceId, sharedAccessKeyName and sharedAccessKey, and the provider is constructed with the same optional arguments |

## Findings

| source | as written | input that shows it | evidently intended | confidence | as-written member | corrected member |
|---|---|---|---|---|---|---|
| device/core/src/sak_authentication_provider.ts:76 | `_renewToken` computes `newExpiry` but never stores it in `_currentTokenExpiryTimeInSeconds`. The staleness test at line 67 therefore compares NaN and is always false, so `getDeviceCredentials` never renews. | Default window, constructed at 0 ms. The timer has not run yet, for example because the process was suspended. `getDeviceCredentials` at 4 000 000 ms hands out the token that expired at 3600 s. | Renewal stores the new expiry, so that a read renews a token with less than the margin left. | medium; not executed | `SakPolicy.ExpiredTokenServedAsWritten` | `SakProvider.SharedAccessKeyAuthenticationProvider.GetDeviceCredentials` |

The corrected behaviour is the class's `ExpiryRecorded` variant. With it,
`RenewToken` stores the expiry, and `GetDeviceCredentials` ensures at least
`tokenRenewalMarginInSeconds` seconds of validity remain after every read
(`SakPolicy.RecordedExpiryReadIsFresh` is the same fact on values).
`ScenarioLateRead` shows both variants on the input above.

## Left out

- Token construction: HMAC signing, base64, the token string format and the `toString` serialisation behind `SharedAccessSignature.create`. The signer is an arbitrary function parameter, so it is external and assumed total. A throwing signer is not modelled.
- `encodeUriComponentStrict` and `ConnectionString.parse` are external. They are an arbitrary encoder and an arbitrary parser returning fields or an error. The parser's required-field check (DeviceId, HostName, SharedAccessKey) belongs to the parser.
- The encoder is assumed total. A JavaScript URI-component encoder throws `URIError` on an unpaired UTF-16 surrogate in `host` or `deviceId`. In the source that throw would come after the old timer was cleared, which ends the renewal chain. Dafny strings hold Unicode scalar values only, so such identities cannot be represented.
- Node's event loop. The timer table belongs to the provider, not to a process-wide facility. Timers fire only through `Fire`, at or after their deadline.
- `EventEmitter` listener registration and delivery order. Emission is an append to the `events` log.
- The callback style of `getDeviceCredentials`. It is a method returning `(err, creds)`.
- `type: AuthenticationType.Token` is a constant tag with no behaviour.
- JavaScript number semantics for the optional arguments: NaN, fractions, Infinity and non-numeric values. Arguments are unbounded integers. `null` as an optional argument is not distinguished from `undefined`, since both are falsy.
- A `null` connection string is treated like `undefined`. Its `ReferenceError` message would say `'null'` rather than `'undefined'`.
- `GetDeviceCredentials` reads the clock twice, once in `_shouldRenewToken` and once in `_renewToken`. One `nowMs` stands for both reads.
- Disposal and an error event for the timer path. Neither exists in this code.
