/**
 * The vendor-cloud adapter (`TuyaClient` of ac/tuya-client.js).
 *
 * Transport is not modelled: every cloud `request` is represented by the
 * request value the adapter builds and by the response it gets back, given
 * as an input of type `Option<Response<..>>`, where `None` stands for a
 * request that threw. Each adapter operation is then a total function.
 */
module TuyaClient {
  import opened Wrappers

  /** A JSON value as it travels in commands and properties. */
  datatype Value = IntValue(n: int) | BoolValue(b: bool) | StringValue(s: string)

  /** One `{code, value}` entry of a command body. */
  datatype Command = Command(code: string, value: Value)

  /** The three kinds of cloud request the adapter issues (paths and signing left out). */
  datatype Request =
    | OnlineQuery                       // GET the thing record
    | PropertiesQuery(codes: string)    // GET shadow properties, `codes` query parameter
    | CommandRequest(commands: seq<Command>)  // POST a command body

  /** A cloud response: the `success` flag and an optional `result` object. */
  datatype Response<R> = Response(success: bool, result: Option<R>)

  /** The `result` of the thing query. */
  datatype Thing = Thing(isOnline: bool)

  /** One reported property. */
  datatype Property = Property(code: string, value: Value)

  /** The `result` of the shadow-properties query. */
  datatype Shadow = Shadow(properties: Option<seq<Property>>)

  const MIN_TEMPERATURE := 16
  const MAX_TEMPERATURE := 30
  const MIN_FAN_SPEED := 1
  const MAX_FAN_SPEED := 3
  const MIN_MODE := 0
  const MAX_MODE := 4

  /** The property codes the adapter asks for, as the comma-separated query. */
  const PROPERTY_CODES := "switch_power,fan,mode,temperature"

  function Min(a: int, b: int): int { if a <= b then a else b }
  function Max(a: int, b: int): int { if a >= b then a else b }

  /** `Math.max(lo, Math.min(hi, x))`: the nearest value to `x` in [lo, hi]. */
  function Clamp(lo: int, hi: int, x: int): (r: int)
    requires lo <= hi
    ensures lo <= r <= hi
    ensures lo <= x <= hi ==> r == x
    ensures x < lo ==> r == lo
    ensures hi < x ==> r == hi
  {
    Max(lo, Min(hi, x))
  }

  // ---------------------------------------------------------------------
  // isDeviceOnline

  /** The request `isDeviceOnline` issues. */
  function OnlineRequest(): (r: Request)
    ensures r.OnlineQuery?
  {
    OnlineQuery
  }

  /**
   * The result of `isDeviceOnline`: `is_online` of the result when the
   * response is successful and carries a result; false otherwise, and false
   * when the request threw.
   */
  function IsDeviceOnline(response: Option<Response<Thing>>): (online: bool)
    ensures response.None? ==> !online
    ensures response.Some? && !response.value.success ==> !online
    ensures response.Some? && response.value.result.None? ==> !online
    ensures response.Some? && response.value.success && response.value.result.Some? ==>
              online == response.value.result.value.isOnline
  {
    match response
    case None => false
    case Some(resp) =>
      if resp.success && resp.result.Some? then resp.result.value.isOnline else false
  }

  // ---------------------------------------------------------------------
  // getDeviceProperties

  /** The request `getDeviceProperties` issues. */
  function PropertiesRequest(): (r: Request)
    ensures r.PropertiesQuery? && r.codes == "switch_power,fan,mode,temperature"
  {
    PropertiesQuery(PROPERTY_CODES)
  }

  /** The codes that occur in a property list. */
  function Codes(ps: seq<Property>): (codes: set<string>)
    ensures forall i :: 0 <= i < |ps| ==> ps[i].code in codes
    ensures forall k :: k in codes ==> exists i :: 0 <= i < |ps| && ps[i].code == k
  {
    set i | 0 <= i < |ps| :: ps[i].code
  }

  /** The value of the last entry of `ps` with code `k`, if any. */
  function LastValue(ps: seq<Property>, k: string): (r: Option<Value>)
    ensures r.Some? <==> k in Codes(ps)
    ensures r.Some? ==> exists i :: 0 <= i < |ps| && ps[i].code == k && ps[i].value == r.value &&
                          forall j :: i < j < |ps| ==> ps[j].code != k
  {
    if ps == [] then None
    else if ps[|ps| - 1].code == k then Some(ps[|ps| - 1].value)
    else
      var r := LastValue(ps[..|ps| - 1], k);
      assert Codes(ps) == Codes(ps[..|ps| - 1]) + {ps[|ps| - 1].code};
      r
  }

  /** `m` is the dictionary the `forEach` over `ps` builds: last write wins. */
  ghost predicate Collects(ps: seq<Property>, m: map<string, Value>)
  {
    && m.Keys == Codes(ps)
    && forall k :: k in m ==> LastValue(ps, k) == Some(m[k])
  }

  /** The codes of a prefix grow by the code of the next entry. */
  lemma CodesSnoc(ps: seq<Property>, i: int)
    requires 0 <= i < |ps|
    ensures Codes(ps[..i + 1]) == Codes(ps[..i]) + {ps[i].code}
  {
    var prefix, next := ps[..i], ps[..i + 1];
    forall k | k in Codes(next) ensures k in Codes(prefix) + {ps[i].code} {
      var j :| 0 <= j < |next| && next[j].code == k;
      if j < i { assert prefix[j] == next[j]; }
    }
    forall k | k in Codes(prefix) ensures k in Codes(next) {
      var j :| 0 <= j < |prefix| && prefix[j].code == k;
      assert next[j] == prefix[j];
    }
    assert next[i] == ps[i];
  }

  /** One more entry of the `forEach`: writing it into the dictionary keeps last-write-wins. */
  lemma CollectsSnoc(ps: seq<Property>, i: int, m: map<string, Value>)
    requires 0 <= i < |ps|
    requires Collects(ps[..i], m)
    ensures Collects(ps[..i + 1], m[ps[i].code := ps[i].value])
  {
    var next := ps[..i + 1];
    assert next[..i] == ps[..i];
    assert next[|next| - 1] == ps[i];
    CodesSnoc(ps, i);
  }

  /** A response that `getDeviceProperties` accepts: success, a result, and a property list. */
  predicate HasPropertyList(response: Option<Response<Shadow>>): (accepted: bool)
    ensures response.None? ==> !accepted
    ensures response.Some? && !response.value.success ==> !accepted
    ensures response.Some? && response.value.result.None? ==> !accepted
    ensures accepted ==> response.value.result.value.properties.Some?
    ensures response == Some(Response(true, Some(Shadow(Some([]))))) ==> accepted
  {
    && response.Some?
    && response.value.success
    && response.value.result.Some?
    && response.value.result.value.properties.Some?
  }

  /**
   * `getDeviceProperties`: on a successful response with a property list,
   * the dictionary from each listed code to the value of its last occurrence
   * (an empty list gives the empty dictionary, not null); anything else,
   * including a request that threw, gives null.
   */
  method GetDeviceProperties(response: Option<Response<Shadow>>)
    returns (properties: Option<map<string, Value>>)
    ensures properties.Some? <==> HasPropertyList(response)
    ensures properties.Some? ==>
              Collects(response.value.result.value.properties.value, properties.value)
  {
    if !HasPropertyList(response) {
      return None;
    }
    var ps := response.value.result.value.properties.value;
    var m: map<string, Value> := map[];
    var i := 0;
    while i < |ps|
      invariant 0 <= i <= |ps|
      invariant Collects(ps[..i], m)
    {
      CollectsSnoc(ps, i, m);
      m := m[ps[i].code := ps[i].value];
      i := i + 1;
    }
    assert ps[..i] == ps;
    return Some(m);
  }

  // ---------------------------------------------------------------------
  // sendCommand

  /** The request body `sendCommand(code, value)` posts. */
  function CommandRequestOf(code: string, value: Value): (r: Request)
    ensures r.CommandRequest? && |r.commands| == 1
    ensures r.commands[0].code == code && r.commands[0].value == value
  {
    CommandRequest([Command(code, value)])
  }

  /** The result of `sendCommand`: the response's `success`; false when the request threw. */
  function CommandSucceeded(response: Option<Response<()>>): (ok: bool)
    ensures ok <==> response.Some? && response.value.success
  {
    match response
    case None => false
    case Some(resp) => resp.success
  }

  // ---------------------------------------------------------------------
  // Convenience commands: each is `sendCommand` with the command below.

  /** `powerOn`. */
  function PowerOn(): (c: Command)
    ensures c.code == "PowerOn" && c.value == StringValue("PowerOn")
  {
    Command("PowerOn", StringValue("PowerOn"))
  }

  /** `powerOff`. */
  function PowerOff(): (c: Command)
    ensures c.code == "PowerOff" && c.value == StringValue("PowerOff")
  {
    Command("PowerOff", StringValue("PowerOff"))
  }

  /** The power state a power command asks the device to take. */
  function PowerRequested(c: Command): Option<bool>
  {
    if c == PowerOn() then Some(true)
    else if c == PowerOff() then Some(false)
    else None
  }

  /** `togglePower(currentState)`: the command that inverts the given power state. */
  function TogglePower(currentState: bool): (c: Command)
    ensures PowerRequested(c) == Some(!currentState)
    ensures currentState ==> c == PowerOff()
    ensures !currentState ==> c == PowerOn()
  {
    if currentState then PowerOff() else PowerOn()
  }

  /** `setTemperature`: code `T` with the temperature clamped to [16, 30]. */
  function SetTemperature(temperature: int): (c: Command)
    ensures c.code == "T" && c.value.IntValue?
    ensures MIN_TEMPERATURE <= c.value.n <= MAX_TEMPERATURE
    ensures MIN_TEMPERATURE <= temperature <= MAX_TEMPERATURE ==> c.value.n == temperature
    ensures temperature < MIN_TEMPERATURE ==> c.value.n == MIN_TEMPERATURE
    ensures temperature > MAX_TEMPERATURE ==> c.value.n == MAX_TEMPERATURE
  {
    Command("T", IntValue(Clamp(MIN_TEMPERATURE, MAX_TEMPERATURE, temperature)))
  }

  /** `increaseTemperature`: one degree up, at most 30, then as `setTemperature`. */
  function IncreaseTemperature(currentTemp: int): (c: Command)
    ensures c.code == "T" && c.value.IntValue?
    ensures MIN_TEMPERATURE <= c.value.n <= MAX_TEMPERATURE
    ensures MIN_TEMPERATURE <= currentTemp < MAX_TEMPERATURE ==> c.value.n == currentTemp + 1
    ensures currentTemp >= MAX_TEMPERATURE ==> c.value.n == MAX_TEMPERATURE
    ensures currentTemp < MIN_TEMPERATURE ==> c.value.n == MIN_TEMPERATURE
  {
    SetTemperature(Min(MAX_TEMPERATURE, currentTemp + 1))
  }

  /** `decreaseTemperature`: one degree down, at least 16, then as `setTemperature`. */
  function DecreaseTemperature(currentTemp: int): (c: Command)
    ensures c.code == "T" && c.value.IntValue?
    ensures MIN_TEMPERATURE <= c.value.n <= MAX_TEMPERATURE
    ensures MIN_TEMPERATURE < currentTemp <= MAX_TEMPERATURE ==> c.value.n == currentTemp - 1
    ensures currentTemp <= MIN_TEMPERATURE ==> c.value.n == MIN_TEMPERATURE
    ensures currentTemp > MAX_TEMPERATURE ==> c.value.n == MAX_TEMPERATURE
  {
    SetTemperature(Max(MIN_TEMPERATURE, currentTemp - 1))
  }

  /** Stepping up then down (or down then up) inside the range returns to the start. */
  lemma StepsAreInverse(t: int)
    ensures MIN_TEMPERATURE <= t < MAX_TEMPERATURE ==>
              DecreaseTemperature(IncreaseTemperature(t).value.n).value.n == t
    ensures MIN_TEMPERATURE < t <= MAX_TEMPERATURE ==>
              IncreaseTemperature(DecreaseTemperature(t).value.n).value.n == t
  {
  }

  /** `setFanSpeed`: code `F` with the speed clamped to [1, 3]. */
  function SetFanSpeed(speed: int): (c: Command)
    ensures c.code == "F" && c.value.IntValue?
    ensures MIN_FAN_SPEED <= c.value.n <= MAX_FAN_SPEED
    ensures MIN_FAN_SPEED <= speed <= MAX_FAN_SPEED ==> c.value.n == speed
    ensures speed < MIN_FAN_SPEED ==> c.value.n == MIN_FAN_SPEED
    ensures speed > MAX_FAN_SPEED ==> c.value.n == MAX_FAN_SPEED
  {
    Command("F", IntValue(Clamp(MIN_FAN_SPEED, MAX_FAN_SPEED, speed)))
  }

  /** The successor `cycleFanSpeed` computes before clamping: +1, wrapping above 3 to 1. */
  function NextFanSpeed(speed: int): (r: int)
    ensures speed < MAX_FAN_SPEED ==> r == speed + 1
    ensures speed >= MAX_FAN_SPEED ==> r == MIN_FAN_SPEED
  {
    var next := speed + 1;
    if next > MAX_FAN_SPEED then MIN_FAN_SPEED else next
  }

  /** `cycleFanSpeed`: 1 to 2, 2 to 3, 3 to 1; always a speed in [1, 3]. */
  function CycleFanSpeed(currentSpeed: int): (c: Command)
    ensures c.code == "F" && c.value.IntValue?
    ensures MIN_FAN_SPEED <= c.value.n <= MAX_FAN_SPEED
    ensures MIN_FAN_SPEED <= currentSpeed < MAX_FAN_SPEED ==> c.value.n == currentSpeed + 1
    ensures currentSpeed == MAX_FAN_SPEED ==> c.value.n == MIN_FAN_SPEED
  {
    SetFanSpeed(NextFanSpeed(currentSpeed))
  }

  /** Cycling the fan speed three times from a valid speed returns to it. */
  lemma FanCycleHasPeriodThree(speed: int)
    requires MIN_FAN_SPEED <= speed <= MAX_FAN_SPEED
    ensures NextFanSpeed(NextFanSpeed(NextFanSpeed(speed))) == speed
    ensures NextFanSpeed(speed) != speed
  {
  }

  /** `setMode`: code `M` with the mode clamped to [0, 4]. */
  function SetMode(mode: int): (c: Command)
    ensures c.code == "M" && c.value.IntValue?
    ensures MIN_MODE <= c.value.n <= MAX_MODE
    ensures MIN_MODE <= mode <= MAX_MODE ==> c.value.n == mode
    ensures mode < MIN_MODE ==> c.value.n == MIN_MODE
    ensures mode > MAX_MODE ==> c.value.n == MAX_MODE
  {
    Command("M", IntValue(Clamp(MIN_MODE, MAX_MODE, mode)))
  }

  /** The successor `cycleMode` computes before clamping: +1, wrapping above 4 to 0. */
  function NextMode(mode: int): (r: int)
    ensures mode < MAX_MODE ==> r == mode + 1
    ensures mode >= MAX_MODE ==> r == MIN_MODE
  {
    var next := mode + 1;
    if next > MAX_MODE then MIN_MODE else next
  }

  /** `cycleMode`: m to m + 1 below 4, 4 to 0; always a mode in [0, 4]. */
  function CycleMode(currentMode: int): (c: Command)
    ensures c.code == "M" && c.value.IntValue?
    ensures MIN_MODE <= c.value.n <= MAX_MODE
    ensures MIN_MODE <= currentMode < MAX_MODE ==> c.value.n == currentMode + 1
    ensures currentMode == MAX_MODE ==> c.value.n == MIN_MODE
  {
    SetMode(NextMode(currentMode))
  }

  /** Iterating the mode successor `k` times. */
  function IterateMode(mode: int, k: nat): int
  {
    if k == 0 then mode else NextMode(IterateMode(mode, k - 1))
  }

  /** From a valid mode, k successor steps land on (mode + k) mod 5: cycling has period five. */
  lemma {:induction false} ModeCycleHasPeriodFive(mode: int, k: nat)
    requires MIN_MODE <= mode <= MAX_MODE
    ensures IterateMode(mode, k) == (mode + k) % 5
  {
    if k > 0 {
      ModeCycleHasPeriodFive(mode, k - 1);
    }
  }
}
