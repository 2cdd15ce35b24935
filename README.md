# Daikin Skyport thermostat client: token cache and setpoint planner

This project models the decision-making core of the Go client for the Daikin Skyport
cloud thermostat API (package `daikin`), and proves its properties in Dafny.

- **Setpoint planner** (`setpoints.dfy`, module `Setpoints`): the validation and planning
  part of `SetTemp`. A request `SetTempParams {CoolSetpoint, HeatSetpoint}` uses 0 for
  "omitted". In the code's order the planner runs: the equality gate, the ordering gate,
  the device-info lookup, the defaulting and delta adjustment of cool, then the same for
  heat, the range gate, and finally it builds the payload `{cspHome, hspHome, schedOverride: 1}`.
  `SetTemp` is a method that updates its two locals step by step exactly as the Go code
  does. It is proved equal to `Plan`, a reference definition in closed form: an omitted
  cool becomes `max(CspHome, heat + TempDeltaMin)` and an omitted heat becomes
  `min(HspHome, cool - TempDeltaMin)`. The lemmas state the properties of `Plan`.
  The device lookup is an input that gives either the device record (its five fields
  `CspHome`, `HspHome`, `TempDeltaMin`, `TempSPMin`, `TempSPMax`) or nothing when the
  lookup failed. Temperatures are exact reals.
- **Token cache** (`daikin.dfy`, module `Daikin`): class `Daikin` with the fields
  `tokenCache` (an `Option<Token>`) and `tokenExpiresAt`. `GetToken` takes the current
  instant and what the login exchange would answer; a ghost counter records how many login
  attempts were made. `Acquire` is the same step as a function on a `Session` value.
  `Replay`, `LoginCount` and `Handed` fold `Acquire` over a sequence of calls, and the
  lemmas about them cover reuse within the window, one login per window, failed logins
  leaving the cache alone, and where the cached window comes from.
- `wrappers.dfy`: the `Option` and `Result` datatypes.

The model follows the code in three places where a reader might expect otherwise:
- `{0, 0}` is rejected as `InvalidSetpoints` (daikin/daikin.go:161). It is not defaulted
  to the device's current setpoints.
- When both setpoints are supplied, no minimum delta is enforced (daikin/daikin.go:175-193).
  So an accepted plan keeps the delta only when one side was omitted.
- An accepted plan can hold a zero setpoint when the device's range admits 0.

## Model

| member | source | states |
|---|---|---|
| Setpoints.SetTemp | daikin/daikin.go:159-204 | the step-by-step planner (gates, lookup, cool then heat defaulting with delta adjustment, range gate, payload) returns exactly the reference plan `Plan` for every request and lookup outcome |
| Setpoints.ResolvedCool | daikin/daikin.go:175-183 | a supplied cool is kept; an omitted cool is at least CspHome, at least heat + TempDeltaMin, and equal to one of the two, so it is their maximum |
| Setpoints.ResolvedHeat | daikin/daikin.go:185-193 | a supplied heat is kept; an omitted heat is at most HspHome, at most the final cool - TempDeltaMin, and equal to one of the two, so it is their minimum |
| Setpoints.Gate | daikin/daikin.go:161-168 | the gates give InvalidSetpoints if and only if cool equals heat, and CoolBelowHeat if and only if both are nonzero and cool < heat; they give no other error |
| Setpoints.Plan | daikin/daikin.go:159-204 | a gate's rejection is the result whatever the lookup; an accepted plan needs a successful lookup, lies in [TempSPMin, TempSPMax], carries schedOverride 1 and keeps every supplied setpoint unchanged |
| Setpoints.EqualSetpointsRejected | daikin/daikin.go:161-163 | the result is InvalidSetpoints if and only if cool equals heat, both omitted included, whatever the lookup gives |
| Setpoints.CoolBelowHeatRejected | daikin/daikin.go:165-168 | the result is CoolBelowHeat if and only if both setpoints are nonzero and cool < heat; a zero side skips the gate |
| Setpoints.GatesPrecedeLookup | daikin/daikin.go:159-172 | when a gate rejects the request, the result is the same for every lookup outcome, so the result does not depend on the lookup, as when the Go code returns before line 170 |
| Setpoints.LookupFailurePropagates | daikin/daikin.go:170-173 | the result is DeviceInfoFailed if and only if both gates passed and the lookup failed |
| Setpoints.CoolDefaulted | daikin/daikin.go:175-183 | with cool omitted, an accepted plan sends max(CspHome, heat + TempDeltaMin) and the caller's heat unchanged |
| Setpoints.HeatDefaulted | daikin/daikin.go:185-193 | with heat omitted, an accepted plan sends min(HspHome, cool - TempDeltaMin) and the caller's cool unchanged |
| Setpoints.DefaultedPlanKeepsDelta | daikin/daikin.go:175-193 | with exactly one side omitted, an accepted plan has cool - heat >= TempDeltaMin |
| Setpoints.SuppliedSetpointsPassThrough | daikin/daikin.go:175-198 | with both sides supplied, the request is accepted if and only if cool > heat and both are in range, and then the values are sent unchanged, with no delta check |
| Setpoints.RangeGateDecides | daikin/daikin.go:195-204 | after the gates and a successful lookup, the result is OutOfRange if and only if a final value is outside [TempSPMin, TempSPMax]; otherwise the payload holds exactly the final cool, the final heat and schedOverride 1 |
| Setpoints.AcceptedPlanInRange | daikin/daikin.go:195-204 | every accepted plan came from a successful lookup, has both values in range and schedOverride 1, and has cool > heat when TempDeltaMin > 0 |
| Setpoints.NoSetpointsScenario | daikin/daikin_test.go:140-153 | an empty request is rejected as invalid setpoints |
| Setpoints.EqualSetpointsScenario | daikin/daikin_test.go:155-168 | 22/22 is rejected as invalid setpoints |
| Setpoints.CoolSetpointLowerScenario | daikin/daikin_test.go:170-183 | 20/22 is rejected because cool is below heat |
| Setpoints.OutOfRangeScenario | daikin/daikin_test.go:185-211 | 35/5 is rejected as out of range when 5 or 35 lies outside the device's range |
| Setpoints.CoolSetpointScenario | daikin/daikin_test.go:213-246 | cool 17.5 alone, with HspHome 17.5 and delta 1.5, plans 17.5/16 |
| Setpoints.HeatSetpointScenario | daikin/daikin_test.go:248-281 | heat 22 alone, with CspHome 22 and delta 1.5, plans 23.5/22 |
| Setpoints.BothSetpointsScenario | daikin/daikin_test.go:283-316 | 20/18 is sent as given whatever the device's minimum delta |
| Daikin.Daikin.New | daikin/daikin.go:27-35 | a new client holds the credentials, no cached token and the zero expiry, and has attempted no login |
| Daikin.Acquire | daikin/daikin.go:37-76 | one getToken step as a function: a login is attempted exactly when no usable token is cached; without a login the cached token is returned and nothing changes; a successful login caches its token expiring at now + ttl and returns it; a failed login returns its error and leaves the cache; the cache changes only by a successful login, to that token expiring at now + ttl; an error is returned only as the failed login's own error, leaving the cache |
| Daikin.Daikin.GetToken | daikin/daikin.go:37-76 | a cached token before its expiry is returned with no login and no change; otherwise one login is attempted, and on success both fields are replaced (expiry now + AccessTokenExpiresIn) and the new token is returned, while on failure the error is returned and both fields are unchanged |
| Daikin.TwoCallsOneLogin | daikin/daikin.go:37-41 | two getToken calls on a fresh client, the second before the first token expires, attempt one login and return the same token |
| Daikin.Replay | daikin/daikin.go:37-76 | over a sequence of getToken calls, a cache that holds a token never empties again |
| Daikin.Handed | daikin/daikin.go:37-76 | a sequence of getToken calls returns one result per call, and a call returns an error only when its own login failed, and then that error |
| Daikin.LoginCount | daikin/daikin.go:37-76 | a sequence of getToken calls attempts at most one login per call |
| Daikin.ReuseWithinWindow | daikin/daikin.go:39-41 | calls made before the cached token's expiry perform no login, leave the cache unchanged and all return the cached token |
| Daikin.OneLoginPerWindow | daikin/daikin.go:37-76 | a successful login followed by calls before now + ttl performs exactly one login in total and hands out the new token every time |
| Daikin.FailedLoginsKeepSession | daikin/daikin.go:48-70 | when every login fails, the cache ends as it started and any token handed out is the originally cached one |
| Daikin.WindowFromIssuance | daikin/daikin.go:72-73 | after any calls, the cache is either unchanged or holds the token of a call that actually logged in (found no usable token) and succeeded, expiring at that call's instant plus the token's time-to-live |
| Daikin.FreshClientWindow | daikin/daikin.go:72-73 | for a client with no cached token, whatever its expiry field, any later cached token came from a call that logged in and succeeded, and its expiry is that call's instant plus the token's time-to-live |

## Left out

- HTTP request building, headers, the `http.Client` with its 10-second timeout, and the URL base: these are I/O. `GetDevices` and the transport inside `GetDeviceInfo` are left out for the same reason. The lookup is an input to the planner, and its failure (from getToken or from the fetch) is one case.
- The submission of the update (`updateDevice`, with its own getToken call and PUT): this is I/O. `SetTemp` returns the payload it would submit; the getToken reuse between the lookup and the update is stated on the token cache (`TwoCallsOneLogin`, `OneLoginPerWindow`).
- JSON encoding of the payload and its "json marshal failed" error (daikin/daikin.go:206-209): a foreign library call. It fails only on a NaN setpoint (a NaN setpoint passes every comparison it takes part in, because every comparison with NaN is false, so it can reach line 206), and the model's reals have no NaN (see the float32 line below). Decoding tokens and device records, and `log.Println`, are left out as foreign calls too. The payload is an abstract record.
- `SetMode` and `UpdateDeviceRaw`: thin wrappers that forward to `updateDevice`.
- float32 rounding: setpoints are exact reals. The equality and ordering comparisons of the gates mean the same under this abstraction. NaN is not modelled, so neither is the marshal failure it causes.
- The wall clock: the instant is a parameter, counted in whole seconds. The Go code reads the clock twice (line 39 for the check, line 73 for the expiry). The model computes the expiry from the instant of the check, so the duration of the login exchange is not modelled. The overflow of `time.Duration` for a huge time-to-live is not modelled either.
- Concurrency and locking: the source has none, and `tokenCache` is a plain field.
- The `Token`, `Devices`, `DeviceInfo` and `Mode` type definitions are not part of this model. Only the fields the core reads are kept. The test fixture's range and delta values are not known, so the scenario lemmas take them as requirements.
