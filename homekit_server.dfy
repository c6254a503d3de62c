/**
 * The bridge of homekit-server.js: the mutable `currentState` record, the
 * SET handlers of the thermostat, fan and power-switch characteristics, the
 * GET projections that are not plain field reads, and the reconcile step
 * `updateDeviceStatus`.
 *
 * Every cloud request the bridge makes is appended to `requests`, every
 * characteristic value it pushes to `updates`, and every deferred
 * reconcile it schedules counts in `reconcilesScheduled`. The handlers do not
 * look at the results of their commands, so those results are not inputs.
 */
module HomeKitServer {
  import opened Wrappers
  import TuyaClient
  import opened Translation

  /** The request issued by `sendCommand` for a convenience command. */
  function Send(c: TuyaClient.Command): (r: TuyaClient.Request)
    ensures r.CommandRequest? && r.commands == [c]
  {
    TuyaClient.CommandRequestOf(c.code, c.value)
  }

  class Bridge {
    var power: bool
    var currentTemp: int
    var targetTemp: int
    var currentMode: HeatingCooling
    var targetMode: HeatingCooling
    var fanSpeed: int
    var mode: int

    /** The cloud requests issued so far, oldest first. */
    var requests: seq<TuyaClient.Request>
    /** The characteristic values pushed so far, oldest first. */
    var updates: seq<Update>
    /** The number of deferred reconciles scheduled so far. */
    var reconcilesScheduled: nat

    /** The `currentState` record as a value. */
    function Snapshot(): State
      reads this
    {
      State(power, currentTemp, targetTemp, currentMode, targetMode, fanSpeed, mode)
    }

    ghost predicate Valid()
      reads this
    {
      Consistent(Snapshot())
    }

    /** The bridge as it starts: nothing requested, nothing pushed. */
    constructor ()
      ensures Valid()
      ensures Snapshot() == INITIAL
      ensures requests == [] && updates == [] && reconcilesScheduled == 0
    {
      power := false;
      currentTemp := 20;
      targetTemp := 22;
      currentMode := Off;
      targetMode := Off;
      fanSpeed := 1;
      mode := 0;
      requests := [];
      updates := [];
      reconcilesScheduled := 0;
    }

    /** GET of RotationSpeed: the percentage of the stored fan speed, 0 for an unmapped one. */
    function RotationSpeed(): (percent: int)
      reads this
      ensures percent in {0, 50, 100}
      ensures 1 <= fanSpeed <= 3 ==> SpeedLevel(percent) == fanSpeed
      ensures !(1 <= fanSpeed <= 3) ==> percent == 0
    {
      RotationPercent(fanSpeed)
    }

    /** GET of the fan's Active: active exactly when the power is on, that is, when the thermostat is not OFF. */
    function Active(): (active: bool)
      reads this
      ensures active <==> power
      ensures Valid() ==> (active <==> targetMode != Off)
    {
      power
    }

    /**
     * SET of TargetHeatingCoolingState. COOL, HEAT and AUTO send mode 0, 1
     * and 4, first powering the unit on when it is off; OFF sends nothing and
     * changes nothing. A reconcile is scheduled either way.
     */
    method SetTargetHeatingCoolingState(value: HeatingCooling)
      requires Valid()
      modifies this
      ensures Valid()
      ensures reconcilesScheduled == old(reconcilesScheduled) + 1
      ensures value == Off ==>
                && Snapshot() == old(Snapshot())
                && requests == old(requests)
                && updates == old(updates)
      ensures value != Off ==>
                var code := TuyaModeOf(value).value;
                && requests == old(requests)
                     + (if old(power) then [] else [Send(TuyaClient.PowerOn())])
                     + [Send(TuyaClient.SetMode(code))]
                && Snapshot() == old(Snapshot()).(power := true, mode := code,
                                                  targetMode := value, currentMode := value)
                && updates == old(updates) + [CurrentHeatingCoolingUpdate(value)]
    {
      var tuyaMode: Option<int> := None;
      if value == Cool {
        tuyaMode := Some(0);
      } else if value == Heat {
        tuyaMode := Some(1);
      } else if value == Auto {
        tuyaMode := Some(4);
      }

      if tuyaMode.Some? {
        if !power {
          requests := requests + [Send(TuyaClient.PowerOn())];
          power := true;
        }
        requests := requests + [Send(TuyaClient.SetMode(tuyaMode.value))];
        mode := tuyaMode.value;
        targetMode := value;
        currentMode := value;
        updates := updates + [CurrentHeatingCoolingUpdate(currentMode)];
      }
      reconcilesScheduled := reconcilesScheduled + 1;
    }

    /**
     * SET of TargetTemperature: stores the request as it is and sends it,
     * clamped to [16, 30] by the adapter; nothing is pushed.
     */
    method SetTargetTemperature(value: int)
      requires Valid()
      modifies this
      ensures Valid()
      ensures Snapshot() == old(Snapshot()).(targetTemp := value)
      ensures requests == old(requests) + [Send(TuyaClient.SetTemperature(value))]
      ensures updates == old(updates)
      ensures reconcilesScheduled == old(reconcilesScheduled) + 1
    {
      targetTemp := value;
      requests := requests + [Send(TuyaClient.SetTemperature(targetTemp))];
      reconcilesScheduled := reconcilesScheduled + 1;
    }

    /**
     * SET of RotationSpeed: the requested percentage selects a level; a level
     * equal to the stored one is a no-op, any other is sent, stored and pushed
     * back as its percentage, and a reconcile is scheduled.
     */
    method SetRotationSpeed(percent: int)
      requires Valid()
      modifies this
      ensures Valid()
      ensures SpeedLevel(percent) == old(fanSpeed) ==>
                && Snapshot() == old(Snapshot())
                && requests == old(requests)
                && updates == old(updates)
                && reconcilesScheduled == old(reconcilesScheduled)
      ensures SpeedLevel(percent) != old(fanSpeed) ==>
                var level := SpeedLevel(percent);
                && Snapshot() == old(Snapshot()).(fanSpeed := level)
                && requests == old(requests) + [Send(TuyaClient.SetFanSpeed(level))]
                && updates == old(updates) + [RotationSpeedUpdate(RotationPercent(level))]
                && reconcilesScheduled == old(reconcilesScheduled) + 1
    {
      var newSpeed;
      if percent <= 25 {
        newSpeed := 1;
      } else if percent <= 75 {
        newSpeed := 2;
      } else {
        newSpeed := 3;
      }

      if newSpeed != fanSpeed {
        requests := requests + [Send(TuyaClient.SetFanSpeed(newSpeed))];
        fanSpeed := newSpeed;
        updates := updates + [RotationSpeedUpdate(RotationPercent(newSpeed))];
        reconcilesScheduled := reconcilesScheduled + 1;
      }
    }

    /**
     * SET of the switch's On: powering on sets both heating/cooling states to
     * COOL whatever the stored mode, powering off sets them to OFF; mode,
     * temperatures and fan speed are kept.
     */
    method SetOn(value: bool)
      requires Valid()
      modifies this
      ensures Valid()
      ensures var h := if value then Cool else Off;
              Snapshot() == old(Snapshot()).(power := value, currentMode := h, targetMode := h)
      ensures requests == old(requests)
                + [Send(if value then TuyaClient.PowerOn() else TuyaClient.PowerOff())]
      ensures updates == old(updates)
                + [CurrentHeatingCoolingUpdate(currentMode), TargetHeatingCoolingUpdate(targetMode),
                   FanActiveUpdate(value)]
      ensures reconcilesScheduled == old(reconcilesScheduled) + 1
    {
      if value {
        requests := requests + [Send(TuyaClient.PowerOn())];
        power := true;
        currentMode := Cool;
        targetMode := Cool;
      } else {
        requests := requests + [Send(TuyaClient.PowerOff())];
        power := false;
        currentMode := Off;
        targetMode := Off;
      }

      updates := updates
        + [CurrentHeatingCoolingUpdate(currentMode), TargetHeatingCoolingUpdate(targetMode),
           FanActiveUpdate(power)];
      reconcilesScheduled := reconcilesScheduled + 1;
    }

    /**
     * `updateDeviceStatus`, given what the adapter returns for the online
     * check and, if it is reached, for the property fetch. Offline: all three
     * services are faulted and nothing is fetched. Online: the faults are
     * cleared, properties are fetched, and a non-null result is merged.
     */
    method Reconcile(online: bool, properties: Option<map<string, TuyaClient.Value>>)
      requires Valid()
      modifies this
      ensures Valid()
      ensures requests == old(requests) + [TuyaClient.OnlineRequest()]
                + (if online then [TuyaClient.PropertiesRequest()] else [])
      ensures !online ==>
                && Snapshot() == old(Snapshot())
                && updates == old(updates) + FaultUpdates(GeneralFault)
      ensures online && properties.None? ==>
                && Snapshot() == old(Snapshot())
                && updates == old(updates) + FaultUpdates(NoFault)
      ensures online && properties.Some? ==>
                var p := PropsOf(properties.value);
                && Snapshot() == Merge(old(Snapshot()), p)
                && updates == old(updates) + FaultUpdates(NoFault) + MergeUpdates(old(Snapshot()), p)
      ensures reconcilesScheduled == old(reconcilesScheduled)
    {
      requests := requests + [TuyaClient.OnlineRequest()];
      if !online {
        updates := updates + FaultUpdates(GeneralFault);
        return;
      }
      updates := updates + FaultUpdates(NoFault);

      requests := requests + [TuyaClient.PropertiesRequest()];
      if properties.None? {
        return;
      }
      MergeProperties(PropsOf(properties.value));
    }

    /** The four merge steps of a reconcile, in the source's order. */
    method MergeProperties(p: Props)
      requires Valid()
      modifies this
      ensures Valid()
      ensures Snapshot() == Merge(old(Snapshot()), p)
      ensures updates == old(updates) + MergeUpdates(old(Snapshot()), p)
      ensures requests == old(requests) && reconcilesScheduled == old(reconcilesScheduled)
    {
      ghost var s0, u0 := Snapshot(), updates;
      MergeSwitchPower(p.switchPower);
      ghost var s1 := Snapshot();
      MergeTemperature(p.temperature);
      MergeFan(p.fan);
      assert power == s1.power;
      MergeMode(p.mode);
      assert updates == u0 + (PowerUpdates(s1, p.switchPower) + TemperatureUpdates(p.temperature)
                              + FanUpdates(p.fan) + ModeUpdates(s1.power, p.mode));
      MergeConsistent(s0, p);
    }

    /** Step 1 of the merge: the reported power, projected from the stored mode. */
    method MergeSwitchPower(switchPower: Option<bool>)
      modifies this
      ensures Snapshot() == ApplyPower(old(Snapshot()), switchPower)
      ensures updates == old(updates) + PowerUpdates(Snapshot(), switchPower)
      ensures requests == old(requests) && reconcilesScheduled == old(reconcilesScheduled)
    {
      if switchPower.Some? {
        power := switchPower.value;
        if switchPower.value {
          if mode == 0 {
            currentMode, targetMode := Cool, Cool;
          } else if mode == 1 {
            currentMode, targetMode := Heat, Heat;
          } else if mode == 4 {
            currentMode, targetMode := Auto, Auto;
          } else {
            currentMode, targetMode := Cool, Cool;
          }
        } else {
          currentMode, targetMode := Off, Off;
        }
        updates := updates
          + [CurrentHeatingCoolingUpdate(currentMode), TargetHeatingCoolingUpdate(targetMode),
             FanActiveUpdate(power), SwitchOnUpdate(power)];
      }
    }

    /** Step 2 of the merge: the reported temperature, into both temperatures. */
    method MergeTemperature(temperature: Option<int>)
      modifies this
      ensures Snapshot() == ApplyTemperature(old(Snapshot()), temperature)
      ensures updates == old(updates) + TemperatureUpdates(temperature)
      ensures requests == old(requests) && reconcilesScheduled == old(reconcilesScheduled)
    {
      if temperature.Some? {
        targetTemp := temperature.value;
        currentTemp := temperature.value;
        updates := updates + [TargetTemperatureUpdate(targetTemp), CurrentTemperatureUpdate(currentTemp)];
      }
    }

    /** Step 3 of the merge: the reported fan speed, stored as reported. */
    method MergeFan(fan: Option<int>)
      modifies this
      ensures Snapshot() == ApplyFan(old(Snapshot()), fan)
      ensures updates == old(updates) + FanUpdates(fan)
      ensures requests == old(requests) && reconcilesScheduled == old(reconcilesScheduled)
    {
      if fan.Some? {
        fanSpeed := fan.value;
        updates := updates + [RotationSpeedUpdate(RotationPercent(fanSpeed))];
      }
    }

    /** Step 4 of the merge: the reported mode, overriding the heating/cooling state only while powered. */
    method MergeMode(reported: Option<int>)
      modifies this
      ensures Snapshot() == ApplyMode(old(Snapshot()), reported)
      ensures updates == old(updates) + ModeUpdates(old(power), reported)
      ensures requests == old(requests) && reconcilesScheduled == old(reconcilesScheduled)
    {
      if reported.Some? {
        mode := reported.value;
        var homekitMode: Option<HeatingCooling> := None;
        if reported.value == 0 {
          homekitMode := Some(Cool);
        } else if reported.value == 1 {
          homekitMode := Some(Heat);
        } else if reported.value == 4 {
          homekitMode := Some(Auto);
        }
        if homekitMode.Some? && power {
          targetMode := homekitMode.value;
          currentMode := homekitMode.value;
          updates := updates
            + [TargetHeatingCoolingUpdate(homekitMode.value), CurrentHeatingCoolingUpdate(homekitMode.value)];
        }
      }
    }
  }
}
