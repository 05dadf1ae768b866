/** The SmartHome aggregate: an ordered registry of devices, unique by id,
    the set of rooms those devices are in, the home mode, and the three fixed
    automations that walk the registry by device class and location. */
module Home {
  import opened Outcomes
  import opened Devices
  import opened RoomOrder

  const HOME_MODES: seq<string> := ["Home", "Away", "Night", "Vacation"]
  const HOME_MODE_ERROR: string := "Mode must be one of ['Home', 'Away', 'Night', 'Vacation']"

  const GOOD_MORNING: string := "Good Morning"
  const GOOD_NIGHT: string := "Good Night"
  const AWAY_MODE: string := "Away Mode"
  const AUTOMATIONS: seq<string> := [GOOD_MORNING, GOOD_NIGHT, AWAY_MODE]

  /** No two registered devices share an id. */
  predicate IdsDistinct(ds: seq<Device>)
  {
    forall i, j :: 0 <= i < j < |ds| ==> ds[i].id != ds[j].id
  }

  /** The rooms of a registry: the locations of its devices. */
  function Locations(ds: seq<Device>): set<string>
  {
    set d | d in ds :: d.location
  }

  /** A list comprehension with a condition: the devices `keep` accepts, in
      registration order. */
  function Filter(ds: seq<Device>, keep: Device -> bool): (r: seq<Device>)
    ensures |r| <= |ds|
    ensures forall i :: 0 <= i < |r| ==> r[i] in ds && keep(r[i])
    ensures forall i :: 0 <= i < |ds| && keep(ds[i]) ==> ds[i] in r
  {
    if ds == [] then []
    else (if keep(ds[0]) then [ds[0]] else []) + Filter(ds[1..], keep)
  }

  /** Filtering a concatenation filters each part and keeps them in order: the
      filter never reorders devices. */
  lemma {:induction false} FilterConcat(a: seq<Device>, b: seq<Device>, keep: Device -> bool)
    ensures Filter(a + b, keep) == Filter(a, keep) + Filter(b, keep)
  {
    if a == [] {
      assert a + b == b;
    } else {
      assert (a + b)[1..] == a[1..] + b;
      FilterConcat(a[1..], b, keep);
    }
  }

  /** Filtering keeps a registry whole exactly when every device is kept. */
  lemma {:induction false} FilterKeepsAll(ds: seq<Device>, keep: Device -> bool)
    ensures Filter(ds, keep) == ds <==> forall d :: d in ds ==> keep(d)
  {
    if ds != [] {
      FilterKeepsAll(ds[1..], keep);
      if !keep(ds[0]) {
        assert |Filter(ds, keep)| < |ds|;
      }
    }
  }

  /** The test get_devices_by_room applies: exact match on location. */
  function AtLocation(room: string): Device -> bool
  {
    (d: Device) => d.location == room
  }

  /** The location of each device, in registration order. */
  function LocationList(ds: seq<Device>): (r: seq<string>)
    ensures |r| == |ds|
    ensures forall i :: 0 <= i < |ds| ==> r[i] == ds[i].location
  {
    if ds == [] then [] else [ds[0].location] + LocationList(ds[1..])
  }

  lemma LocationListCovers(ds: seq<Device>)
    ensures forall room :: room in LocationList(ds) <==> room in Locations(ds)
  {
  }

  /** The "room: count" figures of display_info, one per room in the order
      given, each counting the devices get_devices_by_room would list. */
  function RoomCounts(ds: seq<Device>, rs: seq<string>): (r: seq<(string, nat)>)
    ensures |r| == |rs|
    ensures forall i :: 0 <= i < |rs| ==> r[i] == (rs[i], |Filter(ds, AtLocation(rs[i]))|)
  {
    if rs == [] then [] else [(rs[0], |Filter(ds, AtLocation(rs[0]))|)] + RoomCounts(ds, rs[1..])
  }

  /** The sum of the counts of a list of room lines. */
  function Total(lines: seq<(string, nat)>): nat
  {
    if lines == [] then 0 else lines[0].1 + Total(lines[1..])
  }

  /** The number of connected devices in a registry. */
  function ConnectedCount(ds: seq<Device>): (n: nat)
    reads set d | d in ds
    ensures n <= |ds|
    ensures n == |ds| <==> forall i :: 0 <= i < |ds| ==> ds[i].connected
    ensures n == 0 <==> forall i :: 0 <= i < |ds| ==> !ds[i].connected
  {
    if ds == [] then 0 else (if ds[0].connected then 1 else 0) + ConnectedCount(ds[1..])
  }

  /** With no devices every room counts zero. */
  lemma {:induction false} NoDevicesNoCounts(rs: seq<string>)
    ensures Total(RoomCounts([], rs)) == 0
  {
    if rs != [] {
      NoDevicesNoCounts(rs[1..]);
    }
  }

  /** The first device adds one to the count of each line naming its room. */
  lemma {:induction false} FirstDeviceCounted(ds: seq<Device>, rs: seq<string>)
    requires ds != []
    ensures Total(RoomCounts(ds, rs)) == multiset(rs)[ds[0].location] + Total(RoomCounts(ds[1..], rs))
  {
    if rs != [] {
      FirstDeviceCounted(ds, rs[1..]);
      assert rs == [rs[0]] + rs[1..];
    }
  }

  /** Per-room counts over a repetition-free list naming every device's room
      add up to the number of devices: each device is counted exactly once. */
  lemma {:induction false} RoomCountsAddUp(ds: seq<Device>, rs: seq<string>)
    requires Distinct(rs)
    requires forall i :: 0 <= i < |ds| ==> ds[i].location in rs
    ensures Total(RoomCounts(ds, rs)) == |ds|
  {
    if ds == [] {
      NoDevicesNoCounts(rs);
    } else {
      FirstDeviceCounted(ds, rs);
      OccursOnce(rs, ds[0].location);
      RoomCountsAddUp(ds[1..], rs);
    }
  }

  /** The figures display_info reports. */
  datatype HomeSummary = HomeSummary(
    name: string, mode: string, total: nat, perRoom: seq<(string, nat)>, connected: nat)

  /** Good Morning, first loop: lights in the Bedroom and the Kitchen are
      switched on and dimmed, to 100 in the Kitchen and 60 in the Bedroom. */
  function MorningLightStep(location: string, s: State): (r: State)
    ensures ClassOf(r.ext) == ClassOf(s.ext) && r.connected == s.connected
    ensures Conforms(s.ext) ==> Conforms(r.ext)
    ensures s.ext.LightExt? && location == "Kitchen" ==> r.isOn && r.ext == s.ext.(brightness := 100)
    ensures s.ext.LightExt? && location == "Bedroom" ==> r.isOn && r.ext == s.ext.(brightness := 60)
    ensures !s.ext.LightExt? || (location != "Kitchen" && location != "Bedroom") ==> r == s
  {
    if IsInstance(ClassOf(s.ext), LightClass) && location in ["Bedroom", "Kitchen"] then
      Dimmed(PoweredOn(s), if location == "Kitchen" then 100 else 60)
    else
      s
  }

  /** The thermostat loop of every automation: switch on, set the target,
      set the mode. */
  function ThermostatStep(target: real, m: string, s: State): (r: State)
    requires IsTemperature(target) && m in THERMOSTAT_MODES
    ensures ClassOf(r.ext) == ClassOf(s.ext) && r.connected == s.connected
    ensures Conforms(s.ext) ==> Conforms(r.ext)
    ensures s.ext.ThermostatExt? ==> r.isOn == (m != "Off") && r.ext == s.ext.(targetTemp := target, mode := m)
    ensures !s.ext.ThermostatExt? ==> r == s
  {
    if IsInstance(ClassOf(s.ext), ThermostatClass) then
      ModeChanged(Retargeted(PoweredOn(s), target), m)
    else
      s
  }

  /** The security loop of Good Night and Away Mode: switch on, then arm;
      arming a camera starts its recording. */
  function SecurityStep(s: State): (r: State)
    ensures ClassOf(r.ext) == ClassOf(s.ext) && r.connected == s.connected
    ensures Conforms(s.ext) ==> Conforms(r.ext)
    ensures s.ext.CameraExt? ==> r.isOn && r.ext == s.ext.(armedStatus := ARMED, recording := true)
    ensures s.ext.SecurityExt? || s.ext.MotionExt? ==> r.isOn && r.ext == s.ext.(armedStatus := ARMED)
    ensures !IsSecurity(s.ext) ==> r == s
  {
    if IsInstance(ClassOf(s.ext), SecurityClass) then Armed(PoweredOn(s)) else s
  }

  /** Good Night, first loop: Hallway lights on at 30, every other light off. */
  function NightLightStep(location: string, s: State): (r: State)
    ensures ClassOf(r.ext) == ClassOf(s.ext) && r.connected == s.connected
    ensures Conforms(s.ext) ==> Conforms(r.ext)
    ensures s.ext.LightExt? && location == "Hallway" ==> r.isOn && r.ext == s.ext.(brightness := 30)
    ensures s.ext.LightExt? && location != "Hallway" ==> !r.isOn && r.ext == s.ext
    ensures !s.ext.LightExt? ==> r == s
  {
    if IsInstance(ClassOf(s.ext), LightClass) then
      if location == "Hallway" then Dimmed(PoweredOn(s), 30)
      else if s.isOn then Toggled(s)
      else s
    else
      s
  }

  /** Away Mode, first loop: every light that is on is switched off. */
  function AwayLightStep(s: State): (r: State)
    ensures ClassOf(r.ext) == ClassOf(s.ext) && r.connected == s.connected
    ensures s.ext.LightExt? ==> !r.isOn && r.ext == s.ext
    ensures !s.ext.LightExt? ==> r == s
  {
    if IsInstance(ClassOf(s.ext), LightClass) && s.isOn then Toggled(s) else s
  }

  /** What Good Morning leaves a device in. */
  function GoodMorning(location: string, s: State): (r: State)
    ensures ClassOf(r.ext) == ClassOf(s.ext) && r.connected == s.connected
    ensures Conforms(s.ext) ==> Conforms(r.ext)
    ensures s.ext.LightExt? && location == "Kitchen" ==> r.isOn && r.ext.brightness == 100
    ensures s.ext.LightExt? && location == "Bedroom" ==> r.isOn && r.ext.brightness == 60
    ensures s.ext.ThermostatExt? ==> r.isOn && r.ext == s.ext.(targetTemp := 22.0, mode := "Heat")
    ensures !s.ext.ThermostatExt? && (!s.ext.LightExt? || (location != "Kitchen" && location != "Bedroom")) ==> r == s
  {
    ThermostatStep(22.0, "Heat", MorningLightStep(location, s))
  }

  /** What Good Night leaves a device in. */
  function GoodNight(location: string, s: State): (r: State)
    ensures ClassOf(r.ext) == ClassOf(s.ext) && r.connected == s.connected
    ensures Conforms(s.ext) ==> Conforms(r.ext)
    ensures s.ext.LightExt? ==> r.isOn == (location == "Hallway")
    ensures s.ext.LightExt? && location == "Hallway" ==> r.ext.brightness == 30
    ensures s.ext.LightExt? && location != "Hallway" ==> r.ext == s.ext
    ensures s.ext.ThermostatExt? ==> r.isOn && r.ext == s.ext.(targetTemp := 18.0, mode := "Heat")
    ensures IsSecurity(s.ext) ==> r.isOn && r.ext.armedStatus == ARMED
    ensures s.ext.CameraExt? ==> r.ext.recording
    ensures s.ext.BaseExt? ==> r == s
  {
    SecurityStep(ThermostatStep(18.0, "Heat", NightLightStep(location, s)))
  }

  /** What Away Mode leaves a device in. */
  function AwayMode(s: State): (r: State)
    ensures ClassOf(r.ext) == ClassOf(s.ext) && r.connected == s.connected
    ensures Conforms(s.ext) ==> Conforms(r.ext)
    ensures s.ext.LightExt? ==> !r.isOn && r.ext == s.ext
    ensures s.ext.ThermostatExt? ==> r.isOn && r.ext == s.ext.(targetTemp := 16.0, mode := "Auto")
    ensures IsSecurity(s.ext) ==> r.isOn && r.ext.armedStatus == ARMED
    ensures s.ext.CameraExt? ==> r.ext.recording
    ensures s.ext.BaseExt? ==> r == s
  {
    SecurityStep(ThermostatStep(16.0, "Auto", AwayLightStep(s)))
  }

  /** What execute_automation(name) leaves a device in; an unknown name
      changes nothing. */
  function AutomationEffect(name: string, location: string, s: State): (r: State)
    ensures ClassOf(r.ext) == ClassOf(s.ext) && r.connected == s.connected
    ensures Conforms(s.ext) ==> Conforms(r.ext)
    ensures name !in AUTOMATIONS ==> r == s
  {
    if name == GOOD_MORNING then GoodMorning(location, s)
    else if name == GOOD_NIGHT then GoodNight(location, s)
    else if name == AWAY_MODE then AwayMode(s)
    else s
  }

  /** The automation a home mode triggers: Home, Away and Night each run
      one, Vacation and unknown modes run none. */
  function AutomationFor(m: string): (r: Option<string>)
    ensures r.Some? ==> r.value in AUTOMATIONS
    ensures r.Some? <==> m in HOME_MODES && m != "Vacation"
  {
    if m == "Away" then Some(AWAY_MODE)
    else if m == "Night" then Some(GOOD_NIGHT)
    else if m == "Home" then Some(GOOD_MORNING)
    else None
  }

  /** The body of Good Morning's light loop, for one device. */
  method MorningLight(d: Device)
    requires d.Valid()
    modifies d
    ensures d.Valid() && d.Snapshot() == MorningLightStep(d.location, old(d.Snapshot()))
  {
    if IsInstance(d.cls, LightClass) && d.location in ["Bedroom", "Kitchen"] {
      if !d.isOn {
        var on := d.TogglePower();
      }
      var level := d.Dim(if d.location == "Kitchen" then 100 else 60);
    }
  }

  /** The body of Good Night's light loop, for one device. */
  method NightLight(d: Device)
    requires d.Valid()
    modifies d
    ensures d.Valid() && d.Snapshot() == NightLightStep(d.location, old(d.Snapshot()))
  {
    if IsInstance(d.cls, LightClass) {
      if d.location == "Hallway" {
        if !d.isOn {
          var on := d.TogglePower();
        }
        var level := d.Dim(30);
      } else if d.isOn {
        var on := d.TogglePower();
      }
    }
  }

  /** The body of Away Mode's light loop, for one device. */
  method AwayLight(d: Device)
    requires d.Valid()
    modifies d
    ensures d.Valid() && d.Snapshot() == AwayLightStep(old(d.Snapshot()))
  {
    if IsInstance(d.cls, LightClass) && d.isOn {
      var on := d.TogglePower();
    }
  }

  /** The body of every automation's thermostat loop, for one device. */
  method DriveThermostat(d: Device, target: real, m: string)
    requires d.Valid() && IsTemperature(target) && m in THERMOSTAT_MODES
    modifies d
    ensures d.Valid() && d.Snapshot() == ThermostatStep(target, m, old(d.Snapshot()))
  {
    if IsInstance(d.cls, ThermostatClass) {
      if !d.isOn {
        var on := d.TogglePower();
      }
      var t := d.SetTemperature(target);
      var mm := d.ChangeMode(m);
    }
  }

  /** The body of the security loop of Good Night and Away Mode, for one
      device. */
  method ArmOne(d: Device)
    requires d.Valid()
    modifies d
    ensures d.Valid() && d.Snapshot() == SecurityStep(old(d.Snapshot()))
  {
    if IsInstance(d.cls, SecurityClass) {
      if !d.isOn {
        var on := d.TogglePower();
      }
      var status := d.Arm();
    }
  }

  class SmartHome {
    const name: string
    var mode: string
    var devices: seq<Device>
    var rooms: set<string>

    /** The invariant: ids unique, rooms exactly the devices' locations, a
        valid mode, and every device respecting its own invariant. */
    ghost predicate Valid()
      reads this, devices
    {
      && IdsDistinct(devices)
      && rooms == Locations(devices)
      && mode in HOME_MODES
      && forall d :: d in devices ==> d.Valid()
    }

    constructor (name: string)
      ensures Valid() && this.name == name
      ensures mode == "Home" && devices == [] && rooms == {}
    {
      this.name := name;
      mode := "Home";
      devices := [];
      rooms := {};
    }

    method AddDevice(device: Device) returns (added: bool)
      requires Valid() && device.Valid()
      modifies this
      ensures Valid() && mode == old(mode)
      ensures added <==> forall d :: d in old(devices) ==> d.id != device.id
      ensures added ==> devices == old(devices) + [device] && rooms == old(rooms) + {device.location}
      ensures !added ==> devices == old(devices) && rooms == old(rooms)
    {
      var i := 0;
      while i < |devices|
        invariant 0 <= i <= |devices|
        invariant forall k :: 0 <= k < i ==> devices[k].id != device.id
      {
        if devices[i].id == device.id {
          return false;
        }
        i := i + 1;
      }
      devices := devices + [device];
      rooms := rooms + {device.location};
      added := true;
    }

    method RemoveDevice(id: string) returns (removed: bool)
      requires Valid()
      modifies this
      ensures Valid() && mode == old(mode)
      ensures removed <==> exists d :: d in old(devices) && d.id == id
      ensures !removed ==> devices == old(devices) && rooms == old(rooms)
      ensures removed ==> exists k :: 0 <= k < |old(devices)| && old(devices)[k].id == id &&
                                      devices == old(devices)[..k] + old(devices)[k + 1..]
      ensures forall d :: d in devices ==> d.id != id
    {
      var i := 0;
      while i < |devices|
        invariant 0 <= i <= |devices|
        invariant devices == old(devices) && rooms == old(rooms)
        invariant forall k :: 0 <= k < i ==> devices[k].id != id
      {
        if devices[i].id == id {
          devices := devices[..i] + devices[i + 1..];
          rooms := Locations(devices);
          return true;
        }
        i := i + 1;
      }
      removed := false;
    }

    /** get_devices_by_type: subclass-inclusive, in registration order. */
    function DevicesByType(c: DeviceClass): (r: seq<Device>)
      reads this
      ensures forall i :: 0 <= i < |r| ==> r[i] in devices && IsInstance(r[i].cls, c)
      ensures forall i :: 0 <= i < |devices| && IsInstance(devices[i].cls, c) ==> devices[i] in r
    {
      Filter(devices, (d: Device) => IsInstance(d.cls, c))
    }

    /** get_devices_by_room: exact match on location, in registration order. */
    function DevicesByRoom(room: string): (r: seq<Device>)
      reads this
      ensures forall i :: 0 <= i < |r| ==> r[i] in devices && r[i].location == room
      ensures forall i :: 0 <= i < |devices| && devices[i].location == room ==> devices[i] in r
    {
      Filter(devices, AtLocation(room))
    }

    /** A room of the home holds at least one device. */
    lemma OccupiedRoom(room: string)
      requires Valid() && room in rooms
      ensures |DevicesByRoom(room)| > 0
    {
    }

    /** The rooms in ascending string order: the one ascending listing of
        the room set. */
    function SortedRooms(): (r: seq<string>)
      reads this, devices
      requires Valid()
      ensures Ascending(r)
      ensures forall room :: room in r <==> room in rooms
    {
      LocationListCovers(devices);
      Sorted(LocationList(devices))
    }

    /** The room lines of the summary count every device exactly once, and
        each line counts at least one device. */
    lemma RoomCountsOfHome()
      requires Valid()
      ensures Total(RoomCounts(devices, SortedRooms())) == |devices|
      ensures forall i :: 0 <= i < |SortedRooms()| ==> |DevicesByRoom(SortedRooms()[i])| > 0
    {
      var rs := SortedRooms();
      AscendingDistinct(rs);
      forall i | 0 <= i < |devices| ensures devices[i].location in rs {
        assert devices[i] in devices;
      }
      RoomCountsAddUp(devices, rs);
      forall i | 0 <= i < |rs| ensures |DevicesByRoom(rs[i])| > 0 {
        OccupiedRoom(rs[i]);
      }
    }

    /** display_info's figures: the total, one count per room in sorted
        order, and the connected count. */
    function Summary(): (r: HomeSummary)
      reads this, devices
      requires Valid()
      ensures r.name == name && r.mode == mode && r.total == |devices|
      ensures |r.perRoom| == |SortedRooms()|
      ensures forall i :: 0 <= i < |r.perRoom| ==>
                r.perRoom[i].0 == SortedRooms()[i] && r.perRoom[i].1 == |DevicesByRoom(r.perRoom[i].0)| > 0
      ensures Total(r.perRoom) == r.total
      ensures r.connected <= r.total
      ensures r.connected == r.total <==> forall i :: 0 <= i < |devices| ==> devices[i].connected
    {
      RoomCountsOfHome();
      HomeSummary(name, mode, |devices|, RoomCounts(devices, SortedRooms()), ConnectedCount(devices))
    }

    /** find_device: the first device with the id, or DeviceNotFound. */
    method FindDevice(id: string) returns (r: Result<Device>)
      ensures r.Ok? ==> exists k :: 0 <= k < |devices| && devices[k] == r.value && r.value.id == id &&
                                    forall j :: 0 <= j < k ==> devices[j].id != id
      ensures r.Err? <==> forall d :: d in devices ==> d.id != id
      ensures r.Err? ==> r.error == DeviceNotFound(id)
    {
      var i := 0;
      while i < |devices|
        invariant 0 <= i <= |devices|
        invariant forall j :: 0 <= j < i ==> devices[j].id != id
      {
        if devices[i].id == id {
          return Ok(devices[i]);
        }
        i := i + 1;
      }
      r := Err(DeviceNotFound(id));
    }

    method MorningLights()
      requires Valid()
      modifies devices
      ensures Valid()
      ensures forall k :: 0 <= k < |devices| ==>
                devices[k].Snapshot() == MorningLightStep(devices[k].location, old(devices[k].Snapshot()))
    {
      for i := 0 to |devices|
        invariant Valid()
        invariant forall k :: 0 <= k < i ==>
                    devices[k].Snapshot() == MorningLightStep(devices[k].location, old(devices[k].Snapshot()))
        invariant forall k :: i <= k < |devices| ==> devices[k].Snapshot() == old(devices[k].Snapshot())
      {
        assert devices[i] in devices;
        MorningLight(devices[i]);
      }
    }

    method NightLights()
      requires Valid()
      modifies devices
      ensures Valid()
      ensures forall k :: 0 <= k < |devices| ==>
                devices[k].Snapshot() == NightLightStep(devices[k].location, old(devices[k].Snapshot()))
    {
      for i := 0 to |devices|
        invariant Valid()
        invariant forall k :: 0 <= k < i ==>
                    devices[k].Snapshot() == NightLightStep(devices[k].location, old(devices[k].Snapshot()))
        invariant forall k :: i <= k < |devices| ==> devices[k].Snapshot() == old(devices[k].Snapshot())
      {
        assert devices[i] in devices;
        NightLight(devices[i]);
      }
    }

    method AwayLights()
      requires Valid()
      modifies devices
      ensures Valid()
      ensures forall k :: 0 <= k < |devices| ==>
                devices[k].Snapshot() == AwayLightStep(old(devices[k].Snapshot()))
    {
      for i := 0 to |devices|
        invariant Valid()
        invariant forall k :: 0 <= k < i ==>
                    devices[k].Snapshot() == AwayLightStep(old(devices[k].Snapshot()))
        invariant forall k :: i <= k < |devices| ==> devices[k].Snapshot() == old(devices[k].Snapshot())
      {
        assert devices[i] in devices;
        AwayLight(devices[i]);
      }
    }

    method SetThermostats(target: real, m: string)
      requires Valid() && IsTemperature(target) && m in THERMOSTAT_MODES
      modifies devices
      ensures Valid()
      ensures forall k :: 0 <= k < |devices| ==>
                devices[k].Snapshot() == ThermostatStep(target, m, old(devices[k].Snapshot()))
    {
      for i := 0 to |devices|
        invariant Valid()
        invariant forall k :: 0 <= k < i ==>
                    devices[k].Snapshot() == ThermostatStep(target, m, old(devices[k].Snapshot()))
        invariant forall k :: i <= k < |devices| ==> devices[k].Snapshot() == old(devices[k].Snapshot())
      {
        assert devices[i] in devices;
        DriveThermostat(devices[i], target, m);
      }
    }

    method ArmSecurity()
      requires Valid()
      modifies devices
      ensures Valid()
      ensures forall k :: 0 <= k < |devices| ==>
                devices[k].Snapshot() == SecurityStep(old(devices[k].Snapshot()))
    {
      for i := 0 to |devices|
        invariant Valid()
        invariant forall k :: 0 <= k < i ==>
                    devices[k].Snapshot() == SecurityStep(old(devices[k].Snapshot()))
        invariant forall k :: i <= k < |devices| ==> devices[k].Snapshot() == old(devices[k].Snapshot())
      {
        assert devices[i] in devices;
        ArmOne(devices[i]);
      }
    }

    method ExecuteAutomation(automation: string) returns (ok: bool)
      requires Valid()
      modifies devices
      ensures Valid()
      ensures ok <==> automation in AUTOMATIONS
      ensures forall k :: 0 <= k < |devices| ==>
                devices[k].Snapshot() == AutomationEffect(automation, devices[k].location, old(devices[k].Snapshot()))
    {
      if automation == GOOD_MORNING {
        MorningLights();
        SetThermostats(22.0, "Heat");
        return true;
      } else if automation == GOOD_NIGHT {
        NightLights();
        SetThermostats(18.0, "Heat");
        ArmSecurity();
        return true;
      } else if automation == AWAY_MODE {
        AwayLights();
        SetThermostats(16.0, "Auto");
        ArmSecurity();
        return true;
      }
      ok := false;
    }

    method ChangeMode(m: string) returns (r: Result<string>)
      requires Valid()
      modifies this, devices
      ensures Valid() && devices == old(devices) && rooms == old(rooms)
      ensures r.Ok? <==> m in HOME_MODES
      ensures r.Ok? ==> r.value == m && mode == m
      ensures r.Err? ==> r.error == InvalidInput(HOME_MODE_ERROR) && mode == old(mode)
      ensures r.Err? || AutomationFor(m).None? ==>
                forall k :: 0 <= k < |devices| ==> devices[k].Snapshot() == old(devices[k].Snapshot())
      ensures r.Ok? && m == "Home" ==>
                forall k :: 0 <= k < |devices| ==>
                  devices[k].Snapshot() == GoodMorning(devices[k].location, old(devices[k].Snapshot()))
      ensures r.Ok? && m == "Night" ==>
                forall k :: 0 <= k < |devices| ==>
                  devices[k].Snapshot() == GoodNight(devices[k].location, old(devices[k].Snapshot()))
      ensures r.Ok? && m == "Away" ==>
                forall k :: 0 <= k < |devices| ==> devices[k].Snapshot() == AwayMode(old(devices[k].Snapshot()))
      ensures r.Ok? && AutomationFor(m).Some? ==>
                forall k :: 0 <= k < |devices| ==>
                  devices[k].Snapshot() == AutomationEffect(AutomationFor(m).value, devices[k].location, old(devices[k].Snapshot()))
    {
      if m !in HOME_MODES {
        return Err(InvalidInput(HOME_MODE_ERROR));
      }
      mode := m;
      var automation := AutomationFor(m);
      if automation.Some? {
        var ok := ExecuteAutomation(automation.value);
      }
      r := Ok(mode);
    }
  }
}
