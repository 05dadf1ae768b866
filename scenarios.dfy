/** Client code that drives a SmartHome the way its callers do, proving the
    outcomes those callers rely on from the contracts of the home alone. */
module Scenarios {
  import opened Outcomes
  import opened Devices
  import opened Home

  /** After a device is removed, looking up its id reports it missing. */
  method RemoveThenFind(home: SmartHome, id: string) returns (r: Result<Device>)
    requires home.Valid()
    modifies home
    ensures r == Err(DeviceNotFound(id))
  {
    var removed := home.RemoveDevice(id);
    r := home.FindDevice(id);
  }

  /** Removing every device one by one leaves no rooms behind, and the
      summary then reports no devices and no room lines. */
  method RemoveAll(home: SmartHome)
    requires home.Valid()
    modifies home
    ensures home.Valid() && home.devices == [] && home.rooms == {}
    ensures home.Summary().total == 0 && home.Summary().perRoom == []
  {
    while home.devices != []
      invariant home.Valid()
      decreases |home.devices|
    {
      var removed := home.RemoveDevice(home.devices[0].id);
    }
    assert forall room :: room !in home.SortedRooms();
  }

  /** The home holds the caller's own objects: after Good Night a light the
      caller still holds, outside the Hallway, is off, and a camera the
      caller holds is on, armed and recording. */
  method GoodNightReachesCallersDevices(home: SmartHome, light: Device, camera: Device)
    requires home.Valid() && light in home.devices && camera in home.devices
    requires light.cls == LightClass && light.location != "Hallway"
    requires camera.cls == CameraClass
    modifies home.devices
    ensures !light.isOn
    ensures camera.isOn && camera.ext.CameraExt? && camera.ext.armedStatus == ARMED && camera.ext.recording
  {
    var ok := home.ExecuteAutomation(GOOD_NIGHT);
    var i :| 0 <= i < |home.devices| && home.devices[i] == light;
    var j :| 0 <= j < |home.devices| && home.devices[j] == camera;
    assert light.Snapshot() == GoodNight(light.location, old(light.Snapshot()));
    assert camera.Snapshot() == GoodNight(camera.location, old(camera.Snapshot()));
  }
}
