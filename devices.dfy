/** The device hierarchy of the smart-home system: Device and its subclasses
    Light, Thermostat and SecurityDevice, and SecurityDevice's subclasses
    Camera and MotionSensor.

    A device object is one `Device` whose identity (id, name, location and
    run-time class) is fixed at construction, and whose changing state is the
    power flag, the connection flag and a tagged value `Ext` holding the
    attributes of its class. The state transitions are also given as functions
    on `State` values, which specify the methods and which the automations of
    the home are proved against. */
module Devices {
  import opened Outcomes

  const THERMOSTAT_MODES: seq<string> := ["Heat", "Cool", "Auto", "Off"]
  const ARMED: string := "Armed"
  const DISARMED: string := "Disarmed"

  const ID_ERROR: string := "Device ID must be non-empty string"
  const BRIGHTNESS_ERROR: string := "Brightness must be between 0-100"
  const TEMPERATURE_ERROR: string := "Temperature must be between 5-35°C"
  const MODE_ERROR: string := "Mode must be one of ['Heat', 'Cool', 'Auto', 'Off']"
  const TARGET_ERROR: string := "Target temperature must be between 5-35°C"
  const SENSITIVITY_ERROR: string := "Sensitivity must be between 0-100"

  /** The run-time class of a device; also the class argument of the home's
      filter by type. */
  datatype DeviceClass =
    | BaseClass
    | LightClass
    | ThermostatClass
    | SecurityClass
    | CameraClass
    | MotionSensorClass

  /** `isinstance`: every device is a Device, and cameras and motion sensors
      are security devices. */
  predicate IsInstance(actual: DeviceClass, wanted: DeviceClass)
  {
    || wanted == BaseClass
    || actual == wanted
    || (wanted == SecurityClass && (actual == CameraClass || actual == MotionSensorClass))
  }

  /** The attributes a subclass adds to Device. The three security variants
      share `armedStatus` and `sensitivity`. */
  datatype Ext =
    | BaseExt
    | LightExt(brightness: int, color: string)
    | ThermostatExt(temperature: real, mode: string, targetTemp: real)
    | SecurityExt(armedStatus: string, sensitivity: int)
    | CameraExt(armedStatus: string, sensitivity: int, resolution: string, recording: bool)
    | MotionExt(armedStatus: string, sensitivity: int, detectionRange: real, lastTriggered: Option<string>)

  predicate IsSecurity(e: Ext)
  {
    e.SecurityExt? || e.CameraExt? || e.MotionExt?
  }

  function ClassOf(e: Ext): DeviceClass
  {
    match e
    case BaseExt => BaseClass
    case LightExt(_, _) => LightClass
    case ThermostatExt(_, _, _) => ThermostatClass
    case SecurityExt(_, _) => SecurityClass
    case CameraExt(_, _, _, _) => CameraClass
    case MotionExt(_, _, _, _) => MotionSensorClass
  }

  predicate IsPercent(v: int)
  {
    0 <= v <= 100
  }

  predicate IsTemperature(t: real)
  {
    5.0 <= t <= 35.0
  }

  /** The bounds that construction and every mutator enforce. The armed status
      is not checked by the constructors, so it is not part of them. */
  predicate Conforms(e: Ext)
  {
    match e
    case BaseExt => true
    case LightExt(b, _) => IsPercent(b)
    case ThermostatExt(t, m, target) => IsTemperature(t) && m in THERMOSTAT_MODES && IsTemperature(target)
    case SecurityExt(_, sens) => IsPercent(sens)
    case CameraExt(_, sens, _, _) => IsPercent(sens)
    case MotionExt(_, sens, _, _) => IsPercent(sens)
  }

  /** The first check a subclass constructor fails, in the order the
      constructors make them. */
  function ExtError(e: Ext): (r: Option<Error>)
    ensures r.None? <==> Conforms(e)
    ensures r.Some? ==> r.value.InvalidInput?
    ensures e.ThermostatExt? && !IsTemperature(e.temperature) ==> r == Some(InvalidInput(TEMPERATURE_ERROR))
    ensures e.ThermostatExt? && IsTemperature(e.temperature) && e.mode !in THERMOSTAT_MODES ==> r == Some(InvalidInput(MODE_ERROR))
    ensures e.ThermostatExt? && IsTemperature(e.temperature) && e.mode in THERMOSTAT_MODES && !IsTemperature(e.targetTemp) ==>
              r == Some(InvalidInput(TARGET_ERROR))
    ensures e.LightExt? && !IsPercent(e.brightness) ==> r == Some(InvalidInput(BRIGHTNESS_ERROR))
    ensures IsSecurity(e) && !IsPercent(e.sensitivity) ==> r == Some(InvalidInput(SENSITIVITY_ERROR))
  {
    match e
    case BaseExt => None
    case LightExt(b, _) =>
      if !IsPercent(b) then Some(InvalidInput(BRIGHTNESS_ERROR)) else None
    case ThermostatExt(t, m, target) =>
      if !IsTemperature(t) then Some(InvalidInput(TEMPERATURE_ERROR))
      else if m !in THERMOSTAT_MODES then Some(InvalidInput(MODE_ERROR))
      else if !IsTemperature(target) then Some(InvalidInput(TARGET_ERROR))
      else None
    case SecurityExt(_, sens) =>
      if !IsPercent(sens) then Some(InvalidInput(SENSITIVITY_ERROR)) else None
    case CameraExt(_, sens, _, _) =>
      if !IsPercent(sens) then Some(InvalidInput(SENSITIVITY_ERROR)) else None
    case MotionExt(_, sens, _, _) =>
      if !IsPercent(sens) then Some(InvalidInput(SENSITIVITY_ERROR)) else None
  }

  /** The error a constructor raises, if any: the base constructor checks the
      id before the subclass checks run. */
  function ConstructionError(id: string, e: Ext): (r: Option<Error>)
    ensures r.None? <==> id != "" && Conforms(e)
    ensures id == "" ==> r == Some(InvalidInput(ID_ERROR))
    ensures r.Some? ==> r.value.InvalidInput?
  {
    if id == "" then Some(InvalidInput(ID_ERROR)) else ExtError(e)
  }

  /** The changing part of a device. */
  datatype State = State(isOn: bool, connected: bool, ext: Ext)

  /** A state of a device of class `cls` that respects every bound. */
  predicate Fits(cls: DeviceClass, s: State)
  {
    ClassOf(s.ext) == cls && Conforms(s.ext)
  }

  /** toggle_power: the base flip, then the transition a subclass forces when
      the device is now off. */
  function Toggled(s: State): (r: State)
    ensures r.isOn == !s.isOn && r.connected == s.connected
    ensures r.isOn ==> r.ext == s.ext
    ensures !r.isOn && s.ext.ThermostatExt? ==> r.ext == s.ext.(mode := "Off")
    ensures !r.isOn && IsSecurity(s.ext) ==> r.ext == s.ext.(armedStatus := DISARMED)
    ensures !r.isOn && !s.ext.ThermostatExt? && !IsSecurity(s.ext) ==> r.ext == s.ext
    ensures forall c :: Fits(c, s) ==> Fits(c, r)
  {
    if s.isOn then
      var off := s.(isOn := false);
      if s.ext.ThermostatExt? then off.(ext := s.ext.(mode := "Off"))
      else if IsSecurity(s.ext) then off.(ext := s.ext.(armedStatus := DISARMED))
      else off
    else
      s.(isOn := true)
  }

  /** The automations' first move on a device they drive: switch it on by
      toggling, unless it is on already. */
  function PoweredOn(s: State): (r: State)
    ensures r.isOn && r.ext == s.ext && r.connected == s.connected
  {
    if !s.isOn then Toggled(s) else s
  }

  /** Light.dim with a level in range. */
  function Dimmed(s: State, level: int): (r: State)
    requires s.ext.LightExt?
    ensures r.ext.LightExt? && r.ext.brightness == level && r.ext.color == s.ext.color
    ensures r.isOn == s.isOn && r.connected == s.connected
  {
    s.(ext := s.ext.(brightness := level))
  }

  /** Thermostat.set_temperature with a target in range. */
  function Retargeted(s: State, target: real): (r: State)
    requires s.ext.ThermostatExt?
    ensures r.ext == s.ext.(targetTemp := target)
    ensures r.isOn == s.isOn && r.connected == s.connected
  {
    s.(ext := s.ext.(targetTemp := target))
  }

  /** Thermostat.change_mode with a valid mode: mode Off also switches the
      thermostat off, any other mode leaves the power flag alone. */
  function ModeChanged(s: State, m: string): (r: State)
    requires s.ext.ThermostatExt?
    ensures r.ext == s.ext.(mode := m) && r.connected == s.connected
    ensures r.isOn == (s.isOn && m != "Off")
  {
    s.(ext := s.ext.(mode := m), isOn := if m == "Off" then false else s.isOn)
  }

  /** arm: SecurityDevice.arm sets Armed only when the device is on and
      otherwise returns the current status; Camera.arm then starts recording
      when that status is Armed. */
  function Armed(s: State): (r: State)
    requires IsSecurity(s.ext)
    ensures r.isOn == s.isOn && r.connected == s.connected && ClassOf(r.ext) == ClassOf(s.ext)
    ensures r.ext.sensitivity == s.ext.sensitivity
    ensures r.ext.armedStatus == if s.isOn then ARMED else s.ext.armedStatus
    ensures r.ext.CameraExt? ==> r.ext.recording == (s.ext.recording || r.ext.armedStatus == ARMED)
    ensures !s.isOn && !s.ext.CameraExt? ==> r == s
    ensures s.isOn && s.ext.SecurityExt? ==> r.ext == SecurityExt(ARMED, s.ext.sensitivity)
    ensures s.isOn && s.ext.CameraExt? ==> r.ext == CameraExt(ARMED, s.ext.sensitivity, s.ext.resolution, true)
    ensures s.isOn && s.ext.MotionExt? ==>
              r.ext == MotionExt(ARMED, s.ext.sensitivity, s.ext.detectionRange, s.ext.lastTriggered)
    ensures !s.isOn && s.ext.CameraExt? ==>
              r.ext == CameraExt(s.ext.armedStatus, s.ext.sensitivity, s.ext.resolution,
                                 s.ext.recording || s.ext.armedStatus == ARMED)
    ensures forall c :: Fits(c, s) ==> Fits(c, r)
  {
    var base := if s.isOn then s.(ext := s.ext.(armedStatus := ARMED)) else s;
    if base.ext.CameraExt? && base.ext.armedStatus == ARMED && !base.ext.recording then
      base.(ext := base.ext.(recording := true))
    else
      base
  }

  /** disarm: always Disarmed, whatever the power; a camera also stops
      recording. */
  function Disarmed(s: State): (r: State)
    requires IsSecurity(s.ext)
    ensures r.isOn == s.isOn && r.connected == s.connected && ClassOf(r.ext) == ClassOf(s.ext)
    ensures r.ext.armedStatus == DISARMED && r.ext.sensitivity == s.ext.sensitivity
    ensures r.ext.CameraExt? ==> !r.ext.recording && r.ext.resolution == s.ext.resolution
    ensures r.ext.MotionExt? ==> r.ext == s.ext.(armedStatus := DISARMED)
    ensures forall c :: Fits(c, s) ==> Fits(c, r)
  {
    var base := s.(ext := s.ext.(armedStatus := DISARMED));
    if base.ext.CameraExt? then base.(ext := base.ext.(recording := false)) else base
  }

  /** Disarming twice leaves the device as disarming once does. */
  lemma DisarmIdempotent(s: State)
    requires IsSecurity(s.ext)
    ensures Disarmed(Disarmed(s)) == Disarmed(s)
  {
  }

  /** Toggling a light or a plain device twice restores it. */
  lemma ToggleTwiceRestoresLight(s: State)
    requires s.ext.LightExt? || s.ext.BaseExt?
    ensures Toggled(Toggled(s)) == s
  {
  }

  /** Switching a thermostat off and on again leaves it in mode Off: the mode
      it had is lost. */
  lemma ToggleTwiceForgetsThermostatMode(s: State)
    requires s.ext.ThermostatExt? && s.isOn
    ensures Toggled(Toggled(s)).isOn && Toggled(Toggled(s)).ext.mode == "Off"
  {
  }

  class Device {
    const id: string
    const name: string
    const location: string
    const cls: DeviceClass
    var isOn: bool
    var connected: bool
    var ext: Ext

    /** The object invariant: a validated id, attributes of the device's own
        class, and every bound. */
    ghost predicate Valid()
      reads this
    {
      id != "" && Fits(cls, Snapshot())
    }

    function Snapshot(): State
      reads this
    {
      State(isOn, connected, ext)
    }

    /** Allocation only; the validating constructors are the New... methods. */
    constructor (id: string, name: string, isOn: bool, connected: bool, location: string, ext: Ext)
      ensures this.id == id && this.name == name && this.location == location
      ensures cls == ClassOf(ext) && Snapshot() == State(isOn, connected, ext)
    {
      this.id := id;
      this.name := name;
      this.location := location;
      this.cls := ClassOf(ext);
      this.isOn := isOn;
      this.connected := connected;
      this.ext := ext;
    }

    method TogglePower() returns (on: bool)
      requires Valid()
      modifies this
      ensures Valid() && Snapshot() == Toggled(old(Snapshot()))
      ensures on == isOn
    {
      isOn := !isOn;
      if !isOn {
        if ext.ThermostatExt? {
          ext := ext.(mode := "Off");
        } else if IsSecurity(ext) {
          ext := ext.(armedStatus := DISARMED);
        }
      }
      on := isOn;
    }

    method Connect() returns (c: bool)
      requires Valid()
      modifies this
      ensures Valid() && Snapshot() == old(Snapshot()).(connected := true)
      ensures c
    {
      connected := true;
      c := connected;
    }

    method Disconnect() returns (c: bool)
      requires Valid()
      modifies this
      ensures Valid() && Snapshot() == old(Snapshot()).(connected := false)
      ensures !c
    {
      connected := false;
      c := connected;
    }

    method Dim(level: int) returns (r: Result<int>)
      requires Valid() && cls == LightClass
      modifies this
      ensures Valid()
      ensures r.Ok? <==> IsPercent(level)
      ensures r.Ok? ==> r.value == level && Snapshot() == Dimmed(old(Snapshot()), level)
      ensures r.Err? ==> r.error == InvalidInput(BRIGHTNESS_ERROR) && Snapshot() == old(Snapshot())
    {
      if !IsPercent(level) {
        return Err(InvalidInput(BRIGHTNESS_ERROR));
      }
      ext := ext.(brightness := level);
      r := Ok(ext.brightness);
    }

    method ChangeColor(color: string) returns (c: string)
      requires Valid() && cls == LightClass
      modifies this
      ensures Valid() && Snapshot() == old(Snapshot()).(ext := old(ext).(color := color))
      ensures c == color
    {
      ext := ext.(color := color);
      c := ext.color;
    }

    method SetTemperature(target: real) returns (r: Result<real>)
      requires Valid() && cls == ThermostatClass
      modifies this
      ensures Valid()
      ensures r.Ok? <==> IsTemperature(target)
      ensures r.Ok? ==> r.value == target && Snapshot() == Retargeted(old(Snapshot()), target)
      ensures r.Err? ==> r.error == InvalidInput(TEMPERATURE_ERROR) && Snapshot() == old(Snapshot())
    {
      if !IsTemperature(target) {
        return Err(InvalidInput(TEMPERATURE_ERROR));
      }
      ext := ext.(targetTemp := target);
      r := Ok(ext.targetTemp);
    }

    method ChangeMode(m: string) returns (r: Result<string>)
      requires Valid() && cls == ThermostatClass
      modifies this
      ensures Valid()
      ensures r.Ok? <==> m in THERMOSTAT_MODES
      ensures r.Ok? ==> r.value == m && Snapshot() == ModeChanged(old(Snapshot()), m)
      ensures r.Err? ==> r.error == InvalidInput(MODE_ERROR) && Snapshot() == old(Snapshot())
    {
      if m !in THERMOSTAT_MODES {
        return Err(InvalidInput(MODE_ERROR));
      }
      ext := ext.(mode := m);
      if m == "Off" {
        isOn := false;
      }
      r := Ok(ext.mode);
    }

    method Arm() returns (status: string)
      requires Valid() && IsInstance(cls, SecurityClass)
      modifies this
      ensures Valid() && Snapshot() == Armed(old(Snapshot()))
      ensures status == ext.armedStatus
    {
      if isOn {
        ext := ext.(armedStatus := ARMED);
      }
      status := ext.armedStatus;
      if ext.CameraExt? && status == ARMED && !ext.recording {
        ext := ext.(recording := true);
      }
    }

    method Disarm() returns (status: string)
      requires Valid() && IsInstance(cls, SecurityClass)
      modifies this
      ensures Valid() && Snapshot() == Disarmed(old(Snapshot()))
      ensures status == DISARMED
    {
      ext := ext.(armedStatus := DISARMED);
      status := ext.armedStatus;
      if ext.CameraExt? {
        ext := ext.(recording := false);
      }
    }

    method StartRecording() returns (recording: bool)
      requires Valid() && cls == CameraClass
      modifies this
      ensures Valid()
      ensures recording == old(isOn)
      ensures !old(isOn) ==> Snapshot() == old(Snapshot())
      ensures old(isOn) ==> Snapshot() == old(Snapshot()).(ext := old(ext).(recording := true))
    {
      if !isOn {
        return false;
      }
      ext := ext.(recording := true);
      recording := ext.recording;
    }

    method StopRecording() returns (recording: bool)
      requires Valid() && cls == CameraClass
      modifies this
      ensures Valid() && Snapshot() == old(Snapshot()).(ext := old(ext).(recording := false))
      ensures !recording
    {
      ext := ext.(recording := false);
      recording := ext.recording;
    }

    method DetectMotion(timestamp: Option<string>) returns (r: Option<string>)
      requires Valid() && cls == MotionSensorClass
      modifies this
      ensures Valid()
      ensures !old(isOn) || old(ext).armedStatus != ARMED ==> r == None && Snapshot() == old(Snapshot())
      ensures old(isOn) && old(ext).armedStatus == ARMED ==>
                r == timestamp && Snapshot() == old(Snapshot()).(ext := old(ext).(lastTriggered := timestamp))
    {
      if !isOn || ext.armedStatus != ARMED {
        return None;
      }
      ext := ext.(lastTriggered := timestamp);
      r := ext.lastTriggered;
    }

    method ResetTrigger() returns (r: Option<string>)
      requires Valid() && cls == MotionSensorClass
      modifies this
      ensures Valid() && Snapshot() == old(Snapshot()).(ext := old(ext).(lastTriggered := None))
      ensures r == None
    {
      ext := ext.(lastTriggered := None);
      r := ext.lastTriggered;
    }
  }

  /** The constructors: every check runs before the object exists, so a
      failed construction leaves no object behind. */
  method Construct(id: string, name: string, isOn: bool, connected: bool, location: string, ext: Ext)
    returns (r: Result<Device>)
    ensures r.Ok? <==> ConstructionError(id, ext).None?
    ensures r.Err? ==> ConstructionError(id, ext) == Some(r.error)
    ensures r.Ok? ==> fresh(r.value) && r.value.Valid() && r.value.cls == ClassOf(ext)
    ensures r.Ok? ==> r.value.id == id && r.value.name == name && r.value.location == location
    ensures r.Ok? ==> r.value.Snapshot() == State(isOn, connected, ext)
  {
    var err := ConstructionError(id, ext);
    if err.Some? {
      return Err(err.value);
    }
    var d := new Device(id, name, isOn, connected, location, ext);
    r := Ok(d);
  }

  method NewDevice(id: string, name: string, isOn: bool, connected: bool, location: string)
    returns (r: Result<Device>)
    ensures r.Ok? <==> id != ""
    ensures r.Err? ==> r.error == InvalidInput(ID_ERROR)
    ensures r.Ok? ==> fresh(r.value) && r.value.Valid() && r.value.cls == BaseClass
    ensures r.Ok? ==> r.value.id == id && r.value.name == name && r.value.location == location
    ensures r.Ok? ==> r.value.Snapshot() == State(isOn, connected, BaseExt)
  {
    r := Construct(id, name, isOn, connected, location, BaseExt);
  }

  method NewLight(id: string, name: string, isOn: bool, connected: bool, location: string,
                  brightness: int, color: string)
    returns (r: Result<Device>)
    ensures r.Ok? <==> id != "" && IsPercent(brightness)
    ensures r.Err? ==> r.error == InvalidInput(if id == "" then ID_ERROR else BRIGHTNESS_ERROR)
    ensures r.Ok? ==> fresh(r.value) && r.value.Valid() && r.value.cls == LightClass
    ensures r.Ok? ==> r.value.id == id && r.value.name == name && r.value.location == location
    ensures r.Ok? ==> r.value.Snapshot() == State(isOn, connected, LightExt(brightness, color))
  {
    r := Construct(id, name, isOn, connected, location, LightExt(brightness, color));
  }

  method NewThermostat(id: string, name: string, isOn: bool, connected: bool, location: string,
                       temperature: real, mode: string, targetTemp: real)
    returns (r: Result<Device>)
    ensures r.Ok? <==> id != "" && IsTemperature(temperature) && mode in THERMOSTAT_MODES && IsTemperature(targetTemp)
    ensures r.Err? ==> r.error == InvalidInput(
              if id == "" then ID_ERROR
              else if !IsTemperature(temperature) then TEMPERATURE_ERROR
              else if mode !in THERMOSTAT_MODES then MODE_ERROR
              else TARGET_ERROR)
    ensures r.Ok? ==> fresh(r.value) && r.value.Valid() && r.value.cls == ThermostatClass
    ensures r.Ok? ==> r.value.id == id && r.value.name == name && r.value.location == location
    ensures r.Ok? ==> r.value.Snapshot() == State(isOn, connected, ThermostatExt(temperature, mode, targetTemp))
  {
    r := Construct(id, name, isOn, connected, location, ThermostatExt(temperature, mode, targetTemp));
  }

  method NewSecurityDevice(id: string, name: string, isOn: bool, connected: bool, location: string,
                           armedStatus: string, sensitivity: int)
    returns (r: Result<Device>)
    ensures r.Ok? <==> id != "" && IsPercent(sensitivity)
    ensures r.Err? ==> r.error == InvalidInput(if id == "" then ID_ERROR else SENSITIVITY_ERROR)
    ensures r.Ok? ==> fresh(r.value) && r.value.Valid() && r.value.cls == SecurityClass
    ensures r.Ok? ==> r.value.id == id && r.value.name == name && r.value.location == location
    ensures r.Ok? ==> r.value.Snapshot() == State(isOn, connected, SecurityExt(armedStatus, sensitivity))
  {
    r := Construct(id, name, isOn, connected, location, SecurityExt(armedStatus, sensitivity));
  }

  method NewCamera(id: string, name: string, isOn: bool, connected: bool, location: string,
                   armedStatus: string, sensitivity: int, resolution: string, recording: bool)
    returns (r: Result<Device>)
    ensures r.Ok? <==> id != "" && IsPercent(sensitivity)
    ensures r.Err? ==> r.error == InvalidInput(if id == "" then ID_ERROR else SENSITIVITY_ERROR)
    ensures r.Ok? ==> fresh(r.value) && r.value.Valid() && r.value.cls == CameraClass
    ensures r.Ok? ==> r.value.id == id && r.value.name == name && r.value.location == location
    ensures r.Ok? ==> r.value.Snapshot() == State(isOn, connected, CameraExt(armedStatus, sensitivity, resolution, recording))
  {
    r := Construct(id, name, isOn, connected, location, CameraExt(armedStatus, sensitivity, resolution, recording));
  }

  method NewMotionSensor(id: string, name: string, isOn: bool, connected: bool, location: string,
                         armedStatus: string, sensitivity: int, detectionRange: real,
                         lastTriggered: Option<string>)
    returns (r: Result<Device>)
    ensures r.Ok? <==> id != "" && IsPercent(sensitivity)
    ensures r.Err? ==> r.error == InvalidInput(if id == "" then ID_ERROR else SENSITIVITY_ERROR)
    ensures r.Ok? ==> fresh(r.value) && r.value.Valid() && r.value.cls == MotionSensorClass
    ensures r.Ok? ==> r.value.id == id && r.value.name == name && r.value.location == location
    ensures r.Ok? ==> r.value.Snapshot() == State(isOn, connected, MotionExt(armedStatus, sensitivity, detectionRange, lastTriggered))
  {
    r := Construct(id, name, isOn, connected, location, MotionExt(armedStatus, sensitivity, detectionRange, lastTriggered));
  }
}
