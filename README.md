# Smart home system — a verified Dafny model

This project models the smart-home controller of `smart_home_system.py`.

- **Devices.** Six device kinds: a plain `Device`, `Light`, `Thermostat`, `SecurityDevice`, `Camera` and `MotionSensor`.
  - Each is validated when it is built.
  - Each is changed in place by its mutators: power, connection, brightness, colour, target temperature, thermostat mode, arming, recording and motion triggering.
- **The `SmartHome` registry.** It holds:
  - an ordered list of devices with unique ids;
  - the set of rooms those devices are in;
  - a home mode;
  - three fixed automations (Good Morning, Good Night, Away Mode), which walk the registry and drive the devices.
- **Summary figures.** The numbers the home's summary reports: the total, a count per room in sorted order, and the connected count.

Files:

- `outcomes.dfy` — `Option`, the two exception kinds (`InvalidInput` with its message, `DeviceNotFound` with the id), and `Result`.
- `devices.dfy` — `Device` objects, their validation and their mutators.
  - The class hierarchy is a tag: a `DeviceClass`, plus the subclass attributes as an `Ext` datatype.
  - `isinstance` is `IsInstance`: Camera and MotionSensor are instances of SecurityDevice, and every kind is an instance of Device.
  - Each mutator is a method on a `Device` object. It is proved against a transition function on the value `State(isOn, connected, ext)`, and the lemmas are stated about those functions.
- `home.dfy` — the `SmartHome` class.
  - Its invariant: ids distinct, rooms equal to the devices' locations, a valid mode, and every device valid.
  - Its filters, its search and its automations. Each automation loop is a `for` loop over the caller's own device objects.
  - Each loop is proved against a per-device step function. Each automation is proved against the composition of its steps.
- `room_order.dfy` — Python's string order, and `sorted` of a set of room names.
- `scenarios.dfy` — client code that relies only on the home's contracts: remove then find, remove everything, and the caller's own objects seeing an automation's effect.

Modelling choices:

- Temperatures are `real`. Brightness and sensitivity are `int`.
- A timestamp, and `last_triggered`, is an `Option<string>`.
- A raised exception is an `Err` result. An `InvalidInput` error carries the exact message. A `DeviceNotFound` error carries the missing id, not the message text built from it. After an error the object is unchanged, or, for a constructor, no object is made.

## Model

| member | source | states |
|---|---|---|
| Devices.ConstructionError | smart_home_system.py:17-24 | construction fails exactly when the id is empty or a subclass bound is broken; the id check comes first, with its own message |
| Devices.ExtError | smart_home_system.py:60-138 | the subclass checks fail exactly on brightness or sensitivity outside 0..100, or on temperature or target outside 5..35, or on a mode outside Heat/Cool/Auto/Off; a thermostat checks temperature, then mode, then target; each failure is InvalidInput with the message of the check that failed |
| Devices.Toggled | smart_home_system.py:108-149 | toggling flips the power; when the device ends off, a thermostat's mode becomes Off and a security device's status becomes Disarmed, and nothing else changes; class and bounds are kept |
| Devices.PoweredOn | smart_home_system.py:280 | "switch on if off" leaves the device on with its attributes unchanged |
| Devices.Dimmed | smart_home_system.py:72-76 | dimming to a level sets exactly the brightness |
| Devices.Retargeted | smart_home_system.py:114-118 | setting a temperature changes exactly the target |
| Devices.ModeChanged | smart_home_system.py:120-126 | a new mode is stored; the thermostat ends on iff it was on and the mode is not Off |
| Devices.Armed | smart_home_system.py:151-180 | arming an on device sets Armed, and a camera also starts recording, with every other attribute kept; an off non-camera is unchanged; an off camera changes only its recording flag, which ends true iff it was recording or its status is Armed |
| Devices.Disarmed | smart_home_system.py:157-185 | disarming yields Disarmed whatever the power; a camera stops recording; a motion sensor changes only its status |
| Devices.DisarmIdempotent | smart_home_system.py:157-159 | disarming twice equals disarming once |
| Devices.ToggleTwiceRestoresLight | smart_home_system.py:41-43 | toggling a light or plain device twice restores it |
| Devices.ToggleTwiceForgetsThermostatMode | smart_home_system.py:108-112 | switching an on thermostat off and on again leaves it on in mode Off |
| Devices.Device.constructor | smart_home_system.py:17-24 | the object holds the given id, name, location, power, connection and attributes |
| Devices.Device.TogglePower | smart_home_system.py:41-43 | the new state is the toggled one; the result is the new power flag |
| Devices.Device.Connect | smart_home_system.py:45-47 | only `connected` changes, to true, and true is returned |
| Devices.Device.Disconnect | smart_home_system.py:49-51 | only `connected` changes, to false, and false is returned |
| Devices.Device.Dim | smart_home_system.py:72-76 | succeeds iff the level is in 0..100 and returns that level; otherwise the light is unchanged and the brightness error is returned |
| Devices.Device.ChangeColor | smart_home_system.py:78-80 | only the colour changes, and it is returned |
| Devices.Device.SetTemperature | smart_home_system.py:114-118 | succeeds iff the target is in 5..35 and returns it; otherwise the thermostat is unchanged and the temperature error is returned |
| Devices.Device.ChangeMode | smart_home_system.py:120-126 | succeeds iff the mode is one of the four; mode Off also switches off; an invalid mode changes nothing |
| Devices.Device.Arm | smart_home_system.py:151-180 | the new state is the armed one and the returned status is the device's status afterwards |
| Devices.Device.Disarm | smart_home_system.py:157-185 | the new state is the disarmed one and Disarmed is returned |
| Devices.Device.StartRecording | smart_home_system.py:187-191 | an off camera returns false and is unchanged; an on camera starts recording and returns true |
| Devices.Device.StopRecording | smart_home_system.py:193-195 | recording becomes false whatever the power, and false is returned |
| Devices.Device.DetectMotion | smart_home_system.py:213-217 | unless the sensor is on and Armed, nothing changes and none is returned; otherwise the timestamp is stored and returned |
| Devices.Device.ResetTrigger | smart_home_system.py:219-221 | last_triggered becomes none and none is returned |
| Devices.Construct | smart_home_system.py:17-24 | a fresh valid device exists exactly when construction validation passes; otherwise the validation error is returned |
| Devices.NewDevice | smart_home_system.py:17-19 | built iff the id is non-empty, else the id error |
| Devices.NewLight | smart_home_system.py:60-65 | built iff the id is non-empty and brightness is in 0..100, else the first failing check's error |
| Devices.NewThermostat | smart_home_system.py:89-99 | built iff id, temperature, mode and target pass, with the errors in source order |
| Devices.NewSecurityDevice | smart_home_system.py:133-138 | built iff the id is non-empty and sensitivity is in 0..100; the armed status is stored unvalidated |
| Devices.NewCamera | smart_home_system.py:166-169 | as a security device, plus resolution and recording stored as given |
| Devices.NewMotionSensor | smart_home_system.py:203-206 | as a security device, plus range and last trigger stored as given |
| Home.Filter | smart_home_system.py:263-267 | a comprehension keeps only accepted devices of the list, and every accepted device |
| Home.FilterConcat | smart_home_system.py:263-267 | filtering preserves order: it distributes over concatenation |
| Home.FilterKeepsAll | smart_home_system.py:263-267 | the filter returns the whole list iff every device is accepted |
| Home.MorningLightStep | smart_home_system.py:278-281 | a Kitchen light ends on at 100, a Bedroom light on at 60, and every other device is unchanged |
| Home.ThermostatStep | smart_home_system.py:283-287 | a thermostat ends with the target and mode given, on iff the mode is not Off; other devices are unchanged |
| Home.SecurityStep | smart_home_system.py:305-308 | a security device ends on and Armed, and a camera also records; other devices are unchanged |
| Home.NightLightStep | smart_home_system.py:291-297 | a Hallway light ends on at 30 and every other light ends off with its attributes kept |
| Home.AwayLightStep | smart_home_system.py:312-314 | every light ends off with its attributes kept |
| Home.GoodMorning | smart_home_system.py:276-288 | Kitchen and Bedroom lights on at 100 and 60; every thermostat on at 22 in Heat; all else unchanged |
| Home.GoodNight | smart_home_system.py:289-309 | lights on iff in the Hallway (brightness 30); thermostats on at 18 in Heat; security devices on and Armed, cameras recording; plain devices unchanged |
| Home.AwayMode | smart_home_system.py:310-326 | lights off; thermostats on at 16 in Auto; security devices on and Armed, cameras recording; plain devices unchanged |
| Home.AutomationEffect | smart_home_system.py:275-327 | an unknown automation name changes nothing; class, connection and bounds always kept |
| Home.AutomationFor | smart_home_system.py:333-335 | a mode triggers an automation iff it is Home, Away or Night |
| Home.RoomCounts | smart_home_system.py:345-347 | one line per room, in the order given, counting the devices get_devices_by_room lists |
| Home.ConnectedCount | smart_home_system.py:348 | at most the total; equal to it iff every device is connected, zero iff none is |
| Home.RoomCountsAddUp | smart_home_system.py:343-347 | per-room counts over the distinct rooms of all devices add up to the total |
| Home.MorningLight | smart_home_system.py:279-281 | one device ends in its MorningLightStep state and stays valid |
| Home.NightLight | smart_home_system.py:292-297 | one device ends in its NightLightStep state and stays valid |
| Home.AwayLight | smart_home_system.py:313-314 | one device ends in its AwayLightStep state and stays valid |
| Home.DriveThermostat | smart_home_system.py:284-287 | one device ends in its ThermostatStep state and stays valid |
| Home.ArmOne | smart_home_system.py:306-308 | one device ends in its SecurityStep state and stays valid |
| Home.SmartHome.constructor | smart_home_system.py:231-235 | a new home is valid, in mode Home, with no devices and no rooms |
| Home.SmartHome.AddDevice | smart_home_system.py:246-253 | a duplicate id is refused with nothing changed; otherwise the device is appended and its room added; ids stay distinct and rooms equal the locations |
| Home.SmartHome.RemoveDevice | smart_home_system.py:255-261 | removes iff the id is present: the first match is cut out, rooms are recomputed, and afterwards no device has the id; an absent id changes nothing |
| Home.SmartHome.DevicesByType | smart_home_system.py:263-264 | exactly the devices that are instances of the class, subclasses included |
| Home.SmartHome.DevicesByRoom | smart_home_system.py:266-267 | exactly the devices located in the room |
| Home.SmartHome.OccupiedRoom | smart_home_system.py:252-259 | every room of the home holds at least one device |
| Home.SmartHome.RoomCountsOfHome | smart_home_system.py:343-347 | the per-room counts over the sorted rooms add up to the total, and each is positive |
| Home.SmartHome.FindDevice | smart_home_system.py:269-273 | the first device with the id, or DeviceNotFound iff there is none |
| Home.SmartHome.SortedRooms | smart_home_system.py:345 | an ascending list holding exactly the rooms |
| Home.SmartHome.Summary | smart_home_system.py:338-350 | the total is the device count; one positive count per room in sorted order; the room counts add up to the total; connected is at most the total, and equal to it iff all are connected |
| Home.SmartHome.MorningLights | smart_home_system.py:278-281 | each device ends in its MorningLightStep state |
| Home.SmartHome.NightLights | smart_home_system.py:291-297 | each device ends in its NightLightStep state |
| Home.SmartHome.AwayLights | smart_home_system.py:312-314 | each device ends in its AwayLightStep state |
| Home.SmartHome.SetThermostats | smart_home_system.py:283-287 | each device ends in its ThermostatStep state |
| Home.SmartHome.ArmSecurity | smart_home_system.py:305-308 | each device ends in its SecurityStep state |
| Home.SmartHome.ExecuteAutomation | smart_home_system.py:275-327 | returns true iff the name is one of the three automations; each device ends in its AutomationEffect state, so an unknown name changes nothing |
| Home.SmartHome.ChangeMode | smart_home_system.py:329-336 | an invalid mode is refused with the mode and devices unchanged; otherwise the mode is set and returned and the triggered automation's effect applied; Vacation changes no device; Home applies Good Morning, Night applies Good Night and Away applies Away Mode to every device |
| RoomOrder.BelowTotal | smart_home_system.py:345 | string order is total; BelowIrreflexive and BelowTransitive make it strict |
| RoomOrder.Sorted | smart_home_system.py:345 | `sorted` gives an ascending list of exactly the given strings |
| RoomOrder.AscendingUnique | smart_home_system.py:345 | there is only one ascending listing of a set of strings |
| Scenarios.RemoveThenFind | test/test_boundary.py:258-267 | after removing an id, finding it reports DeviceNotFound |
| Scenarios.RemoveAll | test/test_exceptional.py:230-240 | removing every device leaves no rooms, a total of zero and no room lines |
| Scenarios.GoodNightReachesCallersDevices | test/test_functional.py:292-299 | after Good Night a caller's non-Hallway light is off and the caller's camera is on, Armed and recording |

## Left out

- `main()`, the interactive menu, is console I/O. It is not part of this model.
- The text of the `display_info` methods: labels, layout and float rendering. Only the figures of the home's summary are modelled (`Home.SmartHome.Summary`).
- `Device.device_count` and `__del__` are left out. The counter follows the garbage collector's finalisation timing.
- Python's type checks are left out, because Dafny's static types make them vacuous:
  - the non-string id test in the `Device` constructor;
  - `add_device`'s refusal of non-`Device` objects.
- The properties `devices` and `rooms` return copies in Python. Here they are fields of value type (`seq`, `set`), so a reader cannot alias the home's list.
- A Python class other than the six cannot be passed to `get_devices_by_type`. `DeviceClass` lists only those six.
- Devices.Device.constructor: it does not validate, and `Devices.Construct` with the `New...` methods carries the validation. Power and mode are deliberately not coupled at construction. A thermostat may be built off in mode Heat, and a security device off but Armed, exactly as the source allows.
- Devices.NewSecurityDevice: the armed status is any string, as in the source. Only `arm`, `disarm` and switching off constrain it.
- Devices.Armed: an off camera that was built with status Armed and not recording starts recording when armed. The source's camera tests the status that `arm` returns, not the power. This behaviour is modelled as written.
