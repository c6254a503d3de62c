# HomeKit bridge for a Tuya air conditioner — Dafny model

This project models the core of a bridge that exposes a cloud-controlled
infrared air conditioner (a Tuya device) as a HomeKit accessory with three
services: a thermostat, a fan and a power switch. It models two parts of the
source and proves properties of them:

- **The cloud adapter** (`ac/tuya-client.js`, module `TuyaClient` in
  `tuya_client.dfy`). The clamping convenience commands (`setTemperature`,
  `setFanSpeed`, `setMode`), the wrap-around cycles, the bounded temperature
  steps, the power commands, the body `sendCommand` posts, and how
  `sendCommand`, `isDeviceOnline` and `getDeviceProperties` read a response.
  Every cloud request is given as an input of type `Option<Response<..>>`,
  where `None` stands for a request that threw. `getDeviceProperties` keeps
  its loop: a `while` over the property list that updates a map, with a
  last-write-wins invariant.
- **The bridge state machine** (`homekit-server.js`). Module `Translation`
  in `translation.dfy` holds the pure tables: cloud mode codes against
  heating/cooling states, and rotation percentages against fan levels. It
  also holds the `currentState` record as the value `State` and the merge
  rule of `updateDeviceStatus` as the function `Merge`. Module
  `HomeKitServer` in `homekit_server.dfy` holds the class `Bridge`. It has
  the fields of `currentState`, and three logs:
  - `requests`: the cloud requests issued, in order;
  - `updates`: the characteristic values pushed with `updateValue`, in
    order, including the three `StatusFault` values;
  - `reconcilesScheduled`: a counter that stands in for the one-second
    `setTimeout(updateDeviceStatus)`.

  It also has one method per SET handler and `Reconcile` for
  `updateDeviceStatus`. Each method keeps the invariant `Consistent`: the
  current and target heating/cooling states are equal, and they are OFF
  exactly when the power is off.

HomeKit's separate current and target heating/cooling enumerations are one
datatype, `HeatingCooling = Off | Heat | Cool | Auto`. The source copies
values freely between the two. HomeKit `Active` is a boolean.

Stored values are not range-checked. The target-temperature handler stores
the request unclamped (homekit-server.js:96); only the command it sends is
clamped. A reported temperature (homekit-server.js:256-257) and a reported
fan speed (homekit-server.js:267) are stored as reported. `RotationPercent`
shows an unknown fan speed as 0.

While powered, the heating/cooling state does not always follow the mode
table:
- Switching on through the power switch gives COOL whatever the stored mode
  (homekit-server.js:169-170).
- A report of power on with an unmapped mode (2 or 3) keeps the projection
  of the previously stored mode (homekit-server.js:221-233, 288); see
  `MergeNotIdempotentForUnmappedMode`.

The invariant proved is the one every writer keeps (`Consistent`).

## Model

| member | source | states |
|---|---|---|
| `TuyaClient.Clamp` | ac/tuya-client.js:98 | `Math.max(lo, Math.min(hi, x))` lies in [lo, hi], is `x` inside the range and the nearer bound outside it |
| `TuyaClient.OnlineRequest` | ac/tuya-client.js:14-17 | the online check is a GET of the thing record |
| `TuyaClient.IsDeviceOnline` | ac/tuya-client.js:12-27 | true only for a successful response with a result, then equal to its `is_online`; false on failure, on a missing result and on an exception |
| `TuyaClient.PropertiesRequest` | ac/tuya-client.js:31-37 | the property fetch asks for exactly the codes `switch_power,fan,mode,temperature` |
| `TuyaClient.LastValue` | ac/tuya-client.js:41-43 | the value for a code is present iff the code is listed, and is the value of its last occurrence |
| `TuyaClient.HasPropertyList` | ac/tuya-client.js:39 | the acceptance test of `getDeviceProperties`: false on an exception, on `success` false and on a missing result; when true a property list is present; a successful response with an empty list is accepted (its properties are then given through `GetDeviceProperties`) |
| `TuyaClient.GetDeviceProperties` | ac/tuya-client.js:29-51 | non-null iff the response succeeded and has a result with a property list; then its keys are exactly the listed codes, each bound to its last value (an empty list gives the empty map, not null); null otherwise and on an exception |
| `TuyaClient.CommandRequestOf` | ac/tuya-client.js:55-66 | the posted body holds exactly one command, with the given code and value |
| `TuyaClient.CommandSucceeded` | ac/tuya-client.js:68-78 | `sendCommand` returns true iff the response's `success` is true; an exception gives false |
| `TuyaClient.PowerOn` | ac/tuya-client.js:81-83 | code and value are both `PowerOn` |
| `TuyaClient.PowerOff` | ac/tuya-client.js:85-87 | code and value are both `PowerOff` |
| `TuyaClient.TogglePower` | ac/tuya-client.js:89-95 | the command requests the opposite of the given power state: PowerOff when on, PowerOn when off |
| `TuyaClient.SetTemperature` | ac/tuya-client.js:97-100 | code `T`, value in [16, 30], equal to the request when it is already in range, and the nearer bound outside it (16 below, 30 above) |
| `TuyaClient.IncreaseTemperature` | ac/tuya-client.js:102-105 | code `T`, value in [16, 30]: one more inside the range, 30 at or above 30 (a fixed point), 16 far below |
| `TuyaClient.DecreaseTemperature` | ac/tuya-client.js:107-110 | code `T`, value in [16, 30]: one less inside the range, 16 at or below 16 (a fixed point), 30 far above |
| `TuyaClient.StepsAreInverse` | ac/tuya-client.js:102-110 | inside the range, a step up followed by a step down returns to the start, and so does down then up |
| `TuyaClient.SetFanSpeed` | ac/tuya-client.js:112-115 | code `F`, value in [1, 3], equal to the request when in range, and the nearer bound outside it (1 below, 3 above) |
| `TuyaClient.NextFanSpeed` | ac/tuya-client.js:118-119 | the successor is one more below 3 and wraps to 1 from 3 and above |
| `TuyaClient.CycleFanSpeed` | ac/tuya-client.js:117-121 | code `F`, value in [1, 3]; 1 gives 2, 2 gives 3, 3 gives 1 |
| `TuyaClient.FanCycleHasPeriodThree` | ac/tuya-client.js:117-121 | from a valid speed the successor always moves, and three steps return to the start |
| `TuyaClient.SetMode` | ac/tuya-client.js:123-126 | code `M`, value in [0, 4], equal to the request when in range, and the nearer bound outside it (0 below, 4 above) |
| `TuyaClient.NextMode` | ac/tuya-client.js:129-130 | the successor is one more below 4 and wraps to 0 from 4 and above |
| `TuyaClient.CycleMode` | ac/tuya-client.js:128-132 | code `M`, value in [0, 4]; m gives m + 1 below 4, 4 gives 0 |
| `TuyaClient.ModeCycleHasPeriodFive` | ac/tuya-client.js:128-132 | from a valid mode, any number k of successor steps lands on (mode + k) mod 5, so five steps return to the start |
| `Translation.TuyaModeOf` | homekit-server.js:53-60 | COOL, HEAT and AUTO map to the codes 0, 1 and 4; OFF has no code |
| `Translation.HeatingCoolingOf` | homekit-server.js:280-287 | a reported code is mapped iff it is 0, 1 or 4, to a state other than OFF that `TuyaModeOf` sends back as the same code |
| `Translation.ModeTablesInverse` | homekit-server.js:53-60 | the two mode tables are inverse on COOL, HEAT and AUTO |
| `Translation.PowerProjection` | homekit-server.js:220-237 | OFF exactly when the power is off; when on, the mapped state of the stored mode, COOL for an unmapped mode |
| `Translation.SpeedLevel` | homekit-server.js:133-140 | level 1 iff the percentage is at most 25, 3 iff above 75, 2 otherwise |
| `Translation.RotationPercent` | homekit-server.js:125-130 | percentage 50 × (speed − 1) for speeds 1 to 3, 0 for anything else |
| `Translation.SpeedRoundTrip` | homekit-server.js:134-153 | level to percentage to level is the identity on {1, 2, 3} |
| `Translation.PercentRoundTrip` | homekit-server.js:125-140 | percentage to level to percentage lands on 0, 50 or 100 and is stable after one pass |
| `Translation.PropsOf` | homekit-server.js:217 | a reported field is present iff its code is in the dictionary with a value of the expected type, and then carries that value (the same test stands at lines 255, 266 and 278) |
| `Translation.ApplyPower` | homekit-server.js:217-237 | merge step 1: no reported power leaves the state as is; a reported power is stored, both heating/cooling states become its projection from the stored mode, and nothing else changes |
| `Translation.ApplyTemperature` | homekit-server.js:255-257 | merge step 2: a reported temperature becomes both the target and the current temperature, and nothing else changes |
| `Translation.ApplyFan` | homekit-server.js:266-267 | merge step 3: a reported fan speed is stored as reported, and nothing else changes |
| `Translation.ApplyMode` | homekit-server.js:278-290 | merge step 4: a reported mode is always stored; with the power on and a code in {0, 1, 4} both states become its mapped state, otherwise they are kept; nothing else changes |
| `Translation.PowerUpdates` | homekit-server.js:239-252 | with a reported power, exactly four pushes: current state, target state, Active = power, On = power; none without |
| `Translation.TemperatureUpdates` | homekit-server.js:258-263 | with a reported temperature, target then current temperature pushed with that value; none without |
| `Translation.FanUpdates` | homekit-server.js:273-275 | with a reported fan speed, one rotation push of 0, 50 or 100 that selects the speed back when it is 1 to 3; none without |
| `Translation.ModeUpdates` | homekit-server.js:288-293 | pushes only when the power is on and the code is 0, 1 or 4, and then target then current with the mapped state (never OFF) |
| `Translation.MergeUpdates` | homekit-server.js:239-292 | the merge's pushes in the source's order: at most nine, none of them a fault, none for an empty report, and a target-temperature push exactly when a temperature was reported; its agreement with `Merge` is `MergeUpdatesAgree` |
| `Translation.FaultUpdates` | homekit-server.js:198-213 | three pushes of the same fault value: thermostat, then fan, then switch |
| `Translation.Merge` | homekit-server.js:216-294 | power, temperatures, fan speed and mode take the reported value or keep the old one. With the power now on and a mapped reported mode, the heating/cooling state is that mode's. Otherwise it is the projection of the reported power from the previously stored mode, or unchanged when no power was reported |
| `Translation.MergeConsistent` | homekit-server.js:217-293 | a merge keeps the power/heating-cooling invariant |
| `Translation.MergeIdempotent` | homekit-server.js:220-233 | merging the same report twice equals merging it once when its mode is absent or in {0, 1, 4} |
| `Translation.MergeNotIdempotentForUnmappedMode` | homekit-server.js:278-290 | with stored mode 1 and a report of power on with mode 2, the first merge gives HEAT and a second gives COOL |
| `Translation.MergeExample` | homekit-server.js:217-293 | the adapter dictionary {switch_power: true, mode: 1, temperature: 24, fan: 2}, read through `PropsOf`, gives power on, HEAT/HEAT, 24/24, fan 2 shown as 50 %, from any state |
| `Translation.MergeTemperatureOnly` | homekit-server.js:255-264 | a report with only a temperature changes only the two temperatures |
| `Translation.MergePowerOff` | homekit-server.js:234-237 | a report of power off turns both states OFF and keeps mode, fan speed and temperatures |
| `Translation.MergeEmpty` | homekit-server.js:216 | a report with no recognised field leaves the state unchanged |
| `Translation.MergeUpdatesAgree` | homekit-server.js:239-292 | the last target-state value a merge pushes is the merged target state. A switch `On` value is pushed iff power was reported. Without power and mode in the report, no target state is pushed |
| `Translation.MergeUpdatesLastTarget` | homekit-server.js:239-292 | when a merge pushes any target heating/cooling state, the last one pushed is the merged target state |
| `HomeKitServer.Bridge.constructor` | homekit-server.js:24-32 | the bridge starts with power off, temperatures 20 and 22, both states OFF, fan 1, mode 0, and satisfies the invariant |
| `HomeKitServer.Bridge.RotationSpeed` | homekit-server.js:124-131 | GET RotationSpeed yields 0, 50 or 100, selects the stored level back when it is 1 to 3, and is 0 otherwise |
| `HomeKitServer.Bridge.Active` | homekit-server.js:110-112 | GET Active is active iff the power is on, which under the invariant is iff the thermostat is not OFF |
| `HomeKitServer.Bridge.SetTargetHeatingCoolingState` | homekit-server.js:52-77 | for COOL/HEAT/AUTO: PowerOn first when off, then the mode command with code 0/1/4. Afterwards power is on, `mode` is the code, both states are the request, and the current state is pushed. For OFF: nothing sent, nothing changed, nothing pushed. A reconcile is scheduled in both cases |
| `HomeKitServer.Bridge.SetTargetTemperature` | homekit-server.js:95-100 | only the target temperature changes, to the request unclamped; one `T` command clamped to [16, 30]; one reconcile scheduled |
| `HomeKitServer.Bridge.SetRotationSpeed` | homekit-server.js:132-158 | when the derived level equals the stored speed, nothing changes and no reconcile is scheduled. Otherwise one `F` command, the speed becomes the level, its percentage is pushed, and one reconcile is scheduled |
| `HomeKitServer.Bridge.SetOn` | homekit-server.js:165-190 | on: PowerOn, power true, both states COOL whatever the mode. Off: PowerOff, power false, both states OFF. Mode, temperatures and fan speed are kept in both. Pushes current state, target state and Active = power; schedules one reconcile |
| `HomeKitServer.Bridge.Reconcile` | homekit-server.js:192-306 | always one online check. Offline: all three faults pushed as GENERAL_FAULT, no fetch, state unchanged. Online: all three NO_FAULT, one property fetch; a null result leaves the state unchanged, otherwise the state becomes `Merge` of the old state and the report, and the merge's values are pushed in order |
| `HomeKitServer.Bridge.MergeProperties` | homekit-server.js:216-294 | the four merge steps in order: the state becomes `Merge` of the old state and the report, the `MergeUpdates` values are pushed, the invariant is kept, and no request or reconcile is added |
| `HomeKitServer.Bridge.MergeSwitchPower` | homekit-server.js:217-253 | step 1: a reported power is stored and projected from the stored mode; current, target, Active and On are pushed |
| `HomeKitServer.Bridge.MergeTemperature` | homekit-server.js:255-264 | step 2: a reported temperature becomes both temperatures, and both are pushed |
| `HomeKitServer.Bridge.MergeFan` | homekit-server.js:266-276 | step 3: a reported fan speed is stored unclamped, and its percentage is pushed |
| `HomeKitServer.Bridge.MergeMode` | homekit-server.js:278-294 | step 4: a reported mode is always stored. It overrides both states, which are then pushed, only when the power is on and the code is 0, 1 or 4 |

## Left out

- HomeKit library wiring is not modelled. This covers accessory and service creation, characteristic registration and `setProps`, accessory information, identify, `publish`, the pairing code, and uuid generation (homekit-server.js:1-22, 34-51, 308-335). These are calls into a foreign library. Only the values pushed with `updateValue` are kept, in `updates`.
- The GET handlers that return a stored field unchanged (current/target heating-cooling state, current/target temperature, On) are not separate members: the fields of `Bridge` are those values. The display-units GET always answers CELSIUS and is not modelled.
- The fan `Active` SET handler (homekit-server.js:113-115) only acknowledges the write; it changes nothing and is not modelled.
- Tuya transport is not modelled: the `TuyaContext` construction, request signing, the default base URL, URL paths and the device identifier. Each request is a `Request` value, and each response is an input.
- Timers are not modelled. The one-second deferred reconcile after a handler is the counter `reconcilesScheduled`. The startup reconcile and the 10-second interval (homekit-server.js:337-338) are calls of `Reconcile` by the environment. Overlapping reconcile cycles and handler/reconcile interleavings are concurrency and are not modelled.
- Logging to the console is not modelled. The `catch` in `updateDeviceStatus` is not modelled either: the adapter never throws, so it guards only foreign library calls.
- `SetTargetTemperature` takes an integer request, so `Math.round` (homekit-server.js:96) is the identity. The characteristic declares a step of 1; rounding a fractional value is floating point.
- JavaScript dynamic typing is not modelled. `Translation.PropsOf` treats a reported value of an unexpected type (say a non-boolean `switch_power`) as absent; the source would store it as it is. `is_online` and `success` are taken to be booleans.
- HomeKit's numeric enumeration values are not modelled: one `HeatingCooling` type serves for both the current and the target state.
