/**
 * The pure part of homekit-server.js: the translation tables between the
 * vendor cloud's codes and the accessory protocol's characteristic values,
 * the bridge's believed state as a value, and the rule by which
 * `updateDeviceStatus` merges reported cloud properties into that state.
 */
module Translation {
  import opened Wrappers
  import TuyaClient

  /**
   * The heating/cooling state of the thermostat. The protocol has separate
   * "current" and "target" enumerations; the bridge copies values freely
   * between them, so one enumeration serves for both.
   */
  datatype HeatingCooling = Off | Heat | Cool | Auto

  /** The `currentState` record of the bridge. */
  datatype State = State(
    power: bool,
    currentTemp: int,
    targetTemp: int,
    currentMode: HeatingCooling,
    targetMode: HeatingCooling,
    fanSpeed: int,
    mode: int)

  /** The state the bridge starts with. */
  const INITIAL := State(false, 20, 22, Off, Off, 1, 0)

  /**
   * The invariant every writer keeps: the current and the target
   * heating/cooling state agree, and they are OFF exactly when the power is off.
   */
  predicate Consistent(s: State)
  {
    && s.currentMode == s.targetMode
    && (!s.power <==> s.targetMode == Off)
  }

  // ---------------------------------------------------------------------
  // Mode tables

  /** The cloud mode code the target-state handler sends: COOL 0, HEAT 1, AUTO 4, none for OFF. */
  function TuyaModeOf(h: HeatingCooling): (m: Option<int>)
    ensures m.Some? <==> h != Off
    ensures m.Some? ==> m.value in {0, 1, 4}
  {
    match h
    case Cool => Some(0)
    case Heat => Some(1)
    case Auto => Some(4)
    case Off => None
  }

  /** The heating/cooling state a reported cloud mode code stands for, if it is mapped. */
  function HeatingCoolingOf(mode: int): (h: Option<HeatingCooling>)
    ensures h.Some? <==> mode in {0, 1, 4}
    ensures h.Some? ==> h.value != Off && TuyaModeOf(h.value) == Some(mode)
  {
    if mode == 0 then Some(Cool)
    else if mode == 1 then Some(Heat)
    else if mode == 4 then Some(Auto)
    else None
  }

  /** The two mode tables are inverse to each other on the states other than OFF. */
  lemma ModeTablesInverse(h: HeatingCooling)
    ensures h != Off ==> HeatingCoolingOf(TuyaModeOf(h).value) == Some(h)
    ensures h == Off ==> TuyaModeOf(h).None?
  {
  }

  /**
   * The heating/cooling state a reported power state projects from the stored
   * mode: OFF when the power is off, the mapped state when it is on, and COOL
   * for a mode with no mapping.
   */
  function PowerProjection(power: bool, mode: int): (h: HeatingCooling)
    ensures !power <==> h == Off
    ensures power && mode in {0, 1, 4} ==> HeatingCoolingOf(mode) == Some(h)
    ensures power && mode !in {0, 1, 4} ==> h == Cool
  {
    if !power then Off else HeatingCoolingOf(mode).GetOr(Cool)
  }

  // ---------------------------------------------------------------------
  // Fan speed tables

  /** The 3-level fan speed a rotation percentage selects: at most 25 is 1, at most 75 is 2, else 3. */
  function SpeedLevel(percent: int): (level: int)
    ensures 1 <= level <= 3
    ensures level == 1 <==> percent <= 25
    ensures level == 3 <==> percent > 75
  {
    if percent <= 25 then 1
    else if percent <= 75 then 2
    else 3
  }

  /** The rotation percentage shown for a fan speed: 1 is 0, 2 is 50, 3 is 100, anything else 0. */
  function RotationPercent(fanSpeed: int): (percent: int)
    ensures percent in {0, 50, 100}
    ensures 1 <= fanSpeed <= 3 ==> percent == 50 * (fanSpeed - 1)
    ensures !(1 <= fanSpeed <= 3) ==> percent == 0
  {
    if fanSpeed == 1 then 0
    else if fanSpeed == 2 then 50
    else if fanSpeed == 3 then 100
    else 0
  }

  /** Level to percentage to level is the identity on the three levels. */
  lemma SpeedRoundTrip(level: int)
    requires 1 <= level <= 3
    ensures SpeedLevel(RotationPercent(level)) == level
  {
  }

  /** Percentage to level to percentage is lossy but lands on 0, 50 or 100, and is stable after one pass. */
  lemma PercentRoundTrip(percent: int)
    ensures RotationPercent(SpeedLevel(percent)) in {0, 50, 100}
    ensures RotationPercent(SpeedLevel(RotationPercent(SpeedLevel(percent)))) ==
            RotationPercent(SpeedLevel(percent))
  {
  }

  // ---------------------------------------------------------------------
  // Reported properties and the merge rule of updateDeviceStatus

  /** The properties a reconcile can act on; absent fields are None. */
  datatype Props = Props(
    switchPower: Option<bool>,
    temperature: Option<int>,
    fan: Option<int>,
    mode: Option<int>)

  /**
   * The typed view of the dictionary the adapter returns. A code whose value
   * is not of the type the bridge expects is treated as absent.
   */
  function PropsOf(m: map<string, TuyaClient.Value>): (p: Props)
    ensures p.switchPower.Some? <==> "switch_power" in m && m["switch_power"].BoolValue?
    ensures p.switchPower.Some? ==> m["switch_power"] == TuyaClient.BoolValue(p.switchPower.value)
    ensures p.temperature.Some? <==> "temperature" in m && m["temperature"].IntValue?
    ensures p.temperature.Some? ==> m["temperature"] == TuyaClient.IntValue(p.temperature.value)
    ensures p.fan.Some? <==> "fan" in m && m["fan"].IntValue?
    ensures p.fan.Some? ==> m["fan"] == TuyaClient.IntValue(p.fan.value)
    ensures p.mode.Some? <==> "mode" in m && m["mode"].IntValue?
    ensures p.mode.Some? ==> m["mode"] == TuyaClient.IntValue(p.mode.value)
  {
    Props(
      if "switch_power" in m && m["switch_power"].BoolValue? then Some(m["switch_power"].b) else None,
      if "temperature" in m && m["temperature"].IntValue? then Some(m["temperature"].n) else None,
      if "fan" in m && m["fan"].IntValue? then Some(m["fan"].n) else None,
      if "mode" in m && m["mode"].IntValue? then Some(m["mode"].n) else None)
  }

  /** Step 1: a reported power state sets the power and projects the STORED mode. */
  function ApplyPower(s: State, switchPower: Option<bool>): (r: State)
    ensures switchPower.None? ==> r == s
    ensures switchPower.Some? ==>
              && r.power == switchPower.value
              && r.targetMode == r.currentMode == PowerProjection(switchPower.value, s.mode)
              && r.(power := s.power, currentMode := s.currentMode, targetMode := s.targetMode) == s
  {
    match switchPower
    case None => s
    case Some(on) =>
      var h := PowerProjection(on, s.mode);
      s.(power := on, currentMode := h, targetMode := h)
  }

  /** Step 2: a reported temperature sets both temperatures. */
  function ApplyTemperature(s: State, temperature: Option<int>): (r: State)
    ensures temperature.None? ==> r == s
    ensures temperature.Some? ==>
              && r.targetTemp == r.currentTemp == temperature.value
              && r.(targetTemp := s.targetTemp, currentTemp := s.currentTemp) == s
  {
    match temperature
    case None => s
    case Some(t) => s.(targetTemp := t, currentTemp := t)
  }

  /** Step 3: a reported fan speed is stored as reported. */
  function ApplyFan(s: State, fan: Option<int>): (r: State)
    ensures fan.None? ==> r == s
    ensures fan.Some? ==> r.fanSpeed == fan.value && r.(fanSpeed := s.fanSpeed) == s
  {
    match fan
    case None => s
    case Some(f) => s.(fanSpeed := f)
  }

  /**
   * Step 4: a reported mode is always stored; it overrides the heating/cooling
   * states only when the power (as now stored) is on and the code is mapped.
   */
  function ApplyMode(s: State, mode: Option<int>): (r: State)
    ensures mode.None? ==> r == s
    ensures mode.Some? ==> r.mode == mode.value
    ensures mode.Some? && s.power && mode.value in {0, 1, 4} ==>
              Some(r.targetMode) == HeatingCoolingOf(mode.value) && r.currentMode == r.targetMode
    ensures mode.Some? && !(s.power && mode.value in {0, 1, 4}) ==>
              r.targetMode == s.targetMode && r.currentMode == s.currentMode
    ensures r.(mode := s.mode, currentMode := s.currentMode, targetMode := s.targetMode) == s
  {
    match mode
    case None => s
    case Some(m) =>
      var h := HeatingCoolingOf(m);
      if h.Some? && s.power then s.(mode := m, targetMode := h.value, currentMode := h.value)
      else s.(mode := m)
  }

  /** The state after one reconcile has merged `p` into `s`, field by field. */
  function Merge(s: State, p: Props): (r: State)
    ensures r.power == p.switchPower.GetOr(s.power)
    ensures r.targetTemp == p.temperature.GetOr(s.targetTemp)
    ensures r.currentTemp == p.temperature.GetOr(s.currentTemp)
    ensures r.fanSpeed == p.fan.GetOr(s.fanSpeed)
    ensures r.mode == p.mode.GetOr(s.mode)
    ensures p.mode.Some? && r.power && p.mode.value in {0, 1, 4} ==>
              Some(r.targetMode) == HeatingCoolingOf(p.mode.value)
    ensures !(p.mode.Some? && r.power && p.mode.value in {0, 1, 4}) && p.switchPower.Some? ==>
              r.targetMode == PowerProjection(p.switchPower.value, s.mode)
    ensures !(p.mode.Some? && r.power && p.mode.value in {0, 1, 4}) && p.switchPower.None? ==>
              r.targetMode == s.targetMode
    ensures !(p.mode.Some? && r.power && p.mode.value in {0, 1, 4}) && p.switchPower.None? ==>
              r.currentMode == s.currentMode
    ensures p.switchPower.Some? || (p.mode.Some? && r.power && p.mode.value in {0, 1, 4}) ==>
              r.currentMode == r.targetMode
  {
    ApplyMode(ApplyFan(ApplyTemperature(ApplyPower(s, p.switchPower), p.temperature), p.fan), p.mode)
  }

  // ---------------------------------------------------------------------
  // Characteristic values pushed to the accessory host

  /** The three services that carry a StatusFault characteristic. */
  datatype Service = Thermostat | FanService | PowerSwitch

  datatype Fault = NoFault | GeneralFault

  /** One value pushed to a characteristic with `updateValue`, in the order they are pushed. */
  datatype Update =
    | CurrentHeatingCoolingUpdate(h: HeatingCooling)
    | TargetHeatingCoolingUpdate(h: HeatingCooling)
    | CurrentTemperatureUpdate(t: int)
    | TargetTemperatureUpdate(t: int)
    | RotationSpeedUpdate(percent: int)
    | FanActiveUpdate(active: bool)
    | SwitchOnUpdate(on: bool)
    | StatusFaultUpdate(service: Service, fault: Fault)

  /** The fault flag pushed to all three services: thermostat, then fan, then switch. */
  function FaultUpdates(f: Fault): (us: seq<Update>)
    ensures |us| == 3
    ensures forall i :: 0 <= i < 3 ==> us[i].StatusFaultUpdate? && us[i].fault == f
    ensures us[0].service == Thermostat && us[1].service == FanService && us[2].service == PowerSwitch
  {
    [StatusFaultUpdate(Thermostat, f), StatusFaultUpdate(FanService, f), StatusFaultUpdate(PowerSwitch, f)]
  }

  /** What step 1 pushes, given the state after it. */
  function PowerUpdates(s1: State, switchPower: Option<bool>): (us: seq<Update>)
    ensures switchPower.None? ==> us == []
    ensures switchPower.Some? ==> |us| == 4
    ensures switchPower.Some? ==>
              && us[0] == CurrentHeatingCoolingUpdate(s1.currentMode)
              && us[1] == TargetHeatingCoolingUpdate(s1.targetMode)
              && us[2] == FanActiveUpdate(s1.power) && us[3] == SwitchOnUpdate(s1.power)
  {
    if switchPower.Some? then
      [CurrentHeatingCoolingUpdate(s1.currentMode), TargetHeatingCoolingUpdate(s1.targetMode),
       FanActiveUpdate(s1.power), SwitchOnUpdate(s1.power)]
    else []
  }

  /** What step 2 pushes. */
  function TemperatureUpdates(temperature: Option<int>): (us: seq<Update>)
    ensures temperature.None? ==> us == []
    ensures temperature.Some? ==>
              us == [TargetTemperatureUpdate(temperature.value), CurrentTemperatureUpdate(temperature.value)]
  {
    if temperature.Some? then
      [TargetTemperatureUpdate(temperature.value), CurrentTemperatureUpdate(temperature.value)]
    else []
  }

  /** What step 3 pushes. */
  function FanUpdates(fan: Option<int>): (us: seq<Update>)
    ensures fan.None? ==> us == []
    ensures fan.Some? ==> |us| == 1 && us[0].RotationSpeedUpdate? && us[0].percent in {0, 50, 100}
    ensures fan.Some? && 1 <= fan.value <= 3 ==> SpeedLevel(us[0].percent) == fan.value
  {
    if fan.Some? then [RotationSpeedUpdate(RotationPercent(fan.value))] else []
  }

  /** What step 4 pushes, given the power as stored when it runs. */
  function ModeUpdates(power: bool, mode: Option<int>): (us: seq<Update>)
    ensures us != [] <==> power && mode.Some? && mode.value in {0, 1, 4}
    ensures us != [] ==>
              var h := HeatingCoolingOf(mode.value).value;
              us == [TargetHeatingCoolingUpdate(h), CurrentHeatingCoolingUpdate(h)] && h != Off
  {
    if mode.Some? && HeatingCoolingOf(mode.value).Some? && power then
      [TargetHeatingCoolingUpdate(HeatingCoolingOf(mode.value).value),
       CurrentHeatingCoolingUpdate(HeatingCoolingOf(mode.value).value)]
    else []
  }

  /** The values a reconcile that merges `p` into `s` pushes, in order. */
  function MergeUpdates(s: State, p: Props): (us: seq<Update>)
    ensures |us| <= 9
    ensures forall i :: 0 <= i < |us| ==> !us[i].StatusFaultUpdate?
    ensures p == Props(None, None, None, None) ==> us == []
    ensures p.temperature.Some? <==> TargetTemperatureUpdate(p.temperature.GetOr(0)) in us
  {
    var s1 := ApplyPower(s, p.switchPower);
    PowerUpdates(s1, p.switchPower) + TemperatureUpdates(p.temperature)
      + FanUpdates(p.fan) + ModeUpdates(s1.power, p.mode)
  }

  /**
   * The last heating/cooling value a merge pushes is the merged target state,
   * and a power value is pushed exactly when power was reported.
   */
  lemma MergeUpdatesAgree(s: State, p: Props)
    ensures var us := MergeUpdates(s, p);
      (exists i :: 0 <= i < |us| && us[i].TargetHeatingCoolingUpdate?) ==>
        LastTargetState(us) == Some(Merge(s, p).targetMode)
    ensures var us := MergeUpdates(s, p);
      p.switchPower.Some? <==> SwitchOnUpdate(Merge(s, p).power) in us
    ensures var us := MergeUpdates(s, p);
      p.switchPower.None? && p.mode.None? ==> forall i :: 0 <= i < |us| ==> !us[i].TargetHeatingCoolingUpdate?
  {
    MergeUpdatesLastTarget(s, p);
  }

  /** The last target-state push of a merge carries the merged target state. */
  lemma MergeUpdatesLastTarget(s: State, p: Props)
    ensures var us := MergeUpdates(s, p);
      (exists i :: 0 <= i < |us| && us[i].TargetHeatingCoolingUpdate?) ==>
        LastTargetState(us) == Some(Merge(s, p).targetMode)
  {
    var s1 := ApplyPower(s, p.switchPower);
    var a := PowerUpdates(s1, p.switchPower);
    var b := TemperatureUpdates(p.temperature);
    var c := FanUpdates(p.fan);
    var d := ModeUpdates(s1.power, p.mode);
    assert MergeUpdates(s, p) == a + b + c + d;
    if p.switchPower.Some? {
      assert a[..3][..2] == [a[0], a[1]];
      assert LastTargetState([a[0], a[1]]) == Some(s1.targetMode);
      assert LastTargetState(a[..3]) == Some(s1.targetMode);
    }
    assert p.switchPower.None? ==> LastTargetState(a).None?;
    assert LastTargetState(b).None? && LastTargetState(c).None?;
    assert d != [] ==> d[..1] == [d[0]] && LastTargetState(d) == Some(d[0].h);
    LastTargetStateAppend(a, b);
    LastTargetStateAppend(a + b, c);
    LastTargetStateAppend(a + b + c, d);
  }

  /** The last target push of a concatenation comes from its second part when that has one. */
  lemma {:induction false} LastTargetStateAppend(a: seq<Update>, b: seq<Update>)
    ensures LastTargetState(a + b) == if LastTargetState(b).Some? then LastTargetState(b) else LastTargetState(a)
    decreases |b|
  {
    if b == [] {
      assert a + b == a;
    } else {
      var ab := a + b;
      assert ab[..|ab| - 1] == a + b[..|b| - 1];
      assert ab[|ab| - 1] == b[|b| - 1];
      LastTargetStateAppend(a, b[..|b| - 1]);
    }
  }

  /** The value of the last target heating/cooling push in `us`, if any. */
  function LastTargetState(us: seq<Update>): (r: Option<HeatingCooling>)
    ensures r.Some? <==> exists i :: 0 <= i < |us| && us[i].TargetHeatingCoolingUpdate?
  {
    if us == [] then None
    else if us[|us| - 1].TargetHeatingCoolingUpdate? then Some(us[|us| - 1].h)
    else
      var r := LastTargetState(us[..|us| - 1]);
      assert forall i :: 0 <= i < |us| - 1 ==> us[..|us| - 1][i] == us[i];
      r
  }

  /** A reconcile keeps the power/heating-cooling invariant. */
  lemma MergeConsistent(s: State, p: Props)
    requires Consistent(s)
    ensures Consistent(Merge(s, p))
  {
  }

  /** Merging the same report twice is merging it once, when the mode is absent or mapped. */
  lemma MergeIdempotent(s: State, p: Props)
    requires p.mode.None? || p.mode.value in {0, 1, 4}
    ensures Merge(Merge(s, p), p) == Merge(s, p)
  {
  }

  /**
   * With the power on and an unmapped mode code, a second merge of the same
   * report differs from the first: the first projects the previously stored
   * mode, the second projects COOL for the unmapped one.
   */
  lemma MergeNotIdempotentForUnmappedMode()
    ensures
      var s := INITIAL.(mode := 1);
      var p := Props(Some(true), None, None, Some(2));
      && Merge(s, p).targetMode == Heat
      && Merge(Merge(s, p), p).targetMode == Cool
  {
  }

  /**
   * A full report, as the adapter's dictionary: power on, mode 1, 24 degrees,
   * fan 2 gives HEAT, 24/24 and fan 2 (shown as 50%), from any state.
   */
  lemma MergeExample(s: State)
    ensures
      var report := map["switch_power" := TuyaClient.BoolValue(true), "mode" := TuyaClient.IntValue(1),
                         "temperature" := TuyaClient.IntValue(24), "fan" := TuyaClient.IntValue(2)];
      var r := Merge(s, PropsOf(report));
      && r.power && r.targetMode == Heat && r.currentMode == Heat
      && r.targetTemp == 24 && r.currentTemp == 24
      && r.fanSpeed == 2 && RotationPercent(r.fanSpeed) == 50 && r.mode == 1
  {
  }

  /** A report carrying only a temperature changes nothing but the two temperatures. */
  lemma MergeTemperatureOnly(s: State, t: int)
    ensures Merge(s, Props(None, Some(t), None, None)) == s.(targetTemp := t, currentTemp := t)
  {
  }

  /** A report of power off turns both heating/cooling states OFF and keeps mode, fan and temperatures. */
  lemma MergePowerOff(s: State)
    ensures Merge(s, Props(Some(false), None, None, None)) ==
            s.(power := false, currentMode := Off, targetMode := Off)
  {
  }

  /** A report with no recognised field leaves the state unchanged. */
  lemma MergeEmpty(s: State)
    ensures Merge(s, Props(None, None, None, None)) == s
  {
  }
}
