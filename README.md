# Metaverse factory: the air-conditioner control path in Dafny

This project models the core of an Electron "metaverse factory" viewer. The
viewer shows three rooms. Each room has an air conditioner and a conveyor
belt. An MQTT broker switches the air conditioners on and off.

The model covers these parts of the renderer:

- **Broker client** (`MQTTClient`): the connected flag, the bounded reconnect
  counter and the 1.5x back-off delay capped at 30 s.
- **Message handling and command building** (`app.js`):
  - turning an inbound topic and payload into a room update;
  - building the `kiot/zenit/room-x/aircon/control` toggle and all-off commands.
- **Room table** (`Factory`, `Room`): rooms A, B and C.
  - `setAirconStatus` is routed to one room.
  - Conveyor speed, running and per-frame updates are forwarded to every room in table order.
- **Air conditioner** (`AirConditioner`): the power flag, the fan that eases
  toward its target speed, and the status light.
- **Conveyor belt** (`ConveyorBelt`):
  - speed clamped to [0, 2];
  - boxes whose progress advances and wraps in [0, 1);
  - piecewise-linear box paths.
- **Heat sources** (`HeatEffects`):
  - the registry, with add, remove, activate and set-intensity;
  - the mean active intensity, the capped temperature field, level of detail, debug totals and `dispose`.
- **The app's globals** (`app.js`): `factory`, `mqttClient`, `conveyorSpeed`,
  `isConveyorRunning` and the handlers that read and write them.

Code that changes state in place is modelled as classes with `modifies`
frames. Every such class has a value (`State()` or a ghost `Model`) that its
methods are proved against, and the pure functions behind those values carry
the lemmas.

Inputs the model cannot see are parameters:

- a payload reaches the handler already parsed, or absent when `JSON.parse` threw;
- the random box speeds are passed in as draws in [0, 1);
- random heat-source ids, distances from `distanceTo`, and timestamps are passed in.

Broker events and timer firings are method calls. Requests handed to the
mqtt.js library are appended to `outbox`. Retries handed to `setTimeout` are
recorded in `retries`.

Modules:

| module | file | models |
|---|---|---|
| `Optional`, `Vectors`, `Json` | optional.dfy, vectors.dfy, json.dfy | absent values, `THREE.Vector3`, parsed JSON |
| `Mqtt` | mqtt_client.dfy | renderer/components/MQTTClient.js |
| `Messages` | messages.dfy | the pure parts of renderer/app.js |
| `Aircon` | air_conditioner.dfy | renderer/components/AirConditioner.js |
| `Conveyor` | conveyor_belt.dfy | renderer/components/ConveyorBelt.js |
| `Rooms` | room.dfy | renderer/components/Room.js |
| `Factories` | factory.dfy | renderer/components/Factory.js |
| `Heat` | heat_effects.dfy | renderer/components/HeatEffects.js |
| `App` | app.dfy | the globals and handlers of renderer/app.js |

Three behaviours of the broker client's code shape the model:

- A successful `connect` resets only `reconnectAttempts`. It does not reset
  `reconnectDelay`, so a later `close` resumes the back-off where it stopped.
  `Mqtt.RetryDelay` proves that retry k waits min(3000·1.5^k, 30000) ms,
  counted over the client's whole life.
- `disconnect` does not cancel a retry that is already scheduled. The timer
  still fires and connects again (`Mqtt.Client.FireRetry`).
- Only the `close` event schedules a retry. `error` and `offline` only clear the flag.

## Model

| member | source | states |
|---|---|---|
| Mqtt.DelayAfter | renderer/components/MQTTClient.js:143-160 | the back-off delay after any number of scheduled retries stays within [3000, 30000] ms |
| Mqtt.DelayClosedForm | renderer/components/MQTTClient.js:159 | after n scheduled retries the delay is min(3000·1.5^n, 30000) |
| Mqtt.DelayMonotone | renderer/components/MQTTClient.js:159 | the delay never decreases as retries are scheduled |
| Mqtt.DelaySchedule | renderer/components/MQTTClient.js:9-159 | the delays are 3000, 4500, 6750, 10125, 15187.5 and 22781.25 ms; from the seventh retry (index 6) on they stay at the 30000 ms cap |
| Mqtt.Subscriptions | renderer/components/MQTTClient.js:101-111 | one subscribe request per topic, in order, each at QoS 1 |
| Mqtt.TestMessages | renderer/components/MQTTClient.js:190-205 | the test fixture has one message per subscribed topic, in topic order |
| Mqtt.Client.constructor | renderer/components/MQTTClient.js:2-28 | a new client has no library client, is disconnected, has 0 attempts, a 3000 ms delay and nothing sent or scheduled |
| Mqtt.Client.Connect | renderer/components/MQTTClient.js:30-35 | a library client now exists; the connected flag waits for the `connect` event |
| Mqtt.Client.OnConnect | renderer/components/MQTTClient.js:38-50 | connected, attempts reset to 0, the three room topics subscribed at QoS 1 in order, and `true` reported; the delay is kept |
| Mqtt.Client.SubscribeToTopics | renderer/components/MQTTClient.js:101-111 | the loop appends exactly one subscription per fixed topic, in order |
| Mqtt.Client.OnClose | renderer/components/MQTTClient.js:63-73 | disconnected, `false` reported, and a retry attempted, which is a no-op once 5 attempts are used |
| Mqtt.Client.OnError | renderer/components/MQTTClient.js:76-83 | disconnected and the error message reported; no retry |
| Mqtt.Client.OnOffline | renderer/components/MQTTClient.js:86-93 | disconnected and the offline detail reported; no retry |
| Mqtt.Client.Publish | renderer/components/MQTTClient.js:113-128 | returns false and sends nothing while disconnected; otherwise hands over exactly one publish at the given QoS (1 by default) and returns true |
| Mqtt.Client.Disconnect | renderer/components/MQTTClient.js:130-137 | with a client: ends it, drops it and clears the flag; without one: changes nothing; pending retries stay scheduled |
| Mqtt.Client.IsConnected | renderer/components/MQTTClient.js:139-141 | returns the connected flag |
| Mqtt.Client.AttemptReconnect | renderer/components/MQTTClient.js:143-160 | no-op at 5 attempts; otherwise one more attempt, a retry scheduled at the current delay, and the delay grown to min(1.5·delay, 30000) |
| Mqtt.Client.FireRetry | renderer/components/MQTTClient.js:152-156 | a scheduled retry fires and connects again, whatever `disconnect` did in between |
| Mqtt.RetryDelay | renderer/components/MQTTClient.js:143-160 | the k-th retry since construction waits min(3000·1.5^k, 30000) ms, whatever connects happened in between |
| Messages.Upper | renderer/app.js:226 | upper-casing of the ASCII letters, character by character, keeping the length |
| Messages.Lower | renderer/app.js:232 | lower-casing of the ASCII letters, character by character, keeping the length |
| Messages.FindFrom | renderer/app.js:430 | finds the first occurrence of a pattern at or after an index, or reports that there is none |
| Messages.RemoveFirst | renderer/app.js:430 | a string-pattern `replace` cuts exactly the first occurrence out (the input is the result with the pattern put back at that index), and changes nothing when there is none |
| Messages.FindRoomFrom | renderer/app.js:220 | finds the leftmost match of `/room-([abc])/` at or after an index, or reports that there is none |
| Messages.RoomLetter | renderer/app.js:220-224 | a letter is captured iff the topic contains `room-a`, `room-b` or `room-c`; the letter is the one after the leftmost such match |
| Messages.PowerField | renderer/app.js:227 | reading `power` throws exactly on `null`; it is present exactly on objects that have it |
| Messages.HandleMessage | renderer/app.js:213-248 | an update exists iff the payload parsed, is not `null`, and the topic names room a, b or c; its room is that letter upper-cased (so one of A, B, C), and its power is the normalised `power` field |
| Messages.StringPowerOn | renderer/app.js:231-232 | a string power value is on iff it is one of the four capitalisations of "on" |
| Messages.PowerOfOtherTypes | renderer/app.js:230-235 | a boolean power is used as is; a missing field or any other type means off |
| Messages.ToggleCommand | renderer/app.js:430-438 | the toggle command carries the negation of the current status |
| Messages.AllOffCommands | renderer/app.js:449-456 | three commands, to rooms a, b and c in order, each with power false and its own timestamp |
| Messages.RoomLetterAfterPrefix | renderer/app.js:220 | a topic whose prefix has no `r` is matched at the first `room-x` after the prefix |
| Messages.ControlTopicRoundTrip | renderer/app.js:220-226 | the control topic built for room x is matched as room x |
| Messages.MessageOnControlTopic | renderer/app.js:220-235 | any non-null payload on room x's control topic updates room X with its normalised power |
| Messages.CommandRoundTrip | renderer/app.js:449-455 | a published command, echoed back by the broker, sets its room to the power it carried |
| Messages.ToggleRoundTrip | renderer/app.js:430-440 | `toggleAircon("room-x")` reads room X, publishes on room x's topic, and its echo sets room X to the negated status |
| Messages.AllOffRoundTrip | renderer/app.js:443-457 | the echoes of the all-off commands switch off A, B and C, in that order |
| Messages.SubscribedTopic | renderer/components/MQTTClient.js:23-27 | subscribed topic i is the control topic of room letter i |
| Messages.SubscriptionsAreControlTopics | renderer/components/MQTTClient.js:23-27 | the three subscribed topics are exactly the control topics of a, b and c, and each is matched as its own room |
| Messages.TestMessagesOutcome | renderer/components/MQTTClient.js:190-205 | the test fixture turns A on, B on and C off |
| Messages.KeyActionOf | renderer/app.js:305-324 | Digit1-3 focus rooms A-C, Digit0 the overview, Space toggles the conveyors; nothing else does anything |
| Aircon.NextFanSpeed | renderer/components/AirConditioner.js:196-200 | one frame's lerp lands between the old fan speed and the target, and closes 5% of the gap |
| Aircon.FanSpeedAfter | renderer/components/AirConditioner.js:194-200 | the fan speed after n frames with a fixed target, the function the next lemma is about |
| Aircon.FanSpeedApproaches | renderer/components/AirConditioner.js:194-200 | with a fixed target the fan speed moves monotonically toward it and never overshoots |
| Aircon.SetPower | renderer/components/AirConditioner.js:241-277 | sets the power flag and keeps target speed (0.2 or 0) and light (0.5 or 0) in step with it |
| Aircon.Tick | renderer/components/AirConditioner.js:194-211 | a frame keeps the power flag, the target and the unit's invariant (speed in [0, 0.2]) |
| Aircon.TickMonotone | renderer/components/AirConditioner.js:202-210 | the fan rotation never runs backwards; particles move exactly when the unit is built and powered on |
| Aircon.SwitchOffSpinsDown | renderer/components/AirConditioner.js:261-270 | after switching off, light and target are 0 and the fan speed falls monotonically, staying non-negative |
| Aircon.AirConditioner.constructor | renderer/components/AirConditioner.js:2-25 | a new unit is off with fan speed, target and rotation 0 |
| Aircon.AirConditioner.Create | renderer/components/AirConditioner.js:27-43 | building the parts leaves the power state untouched |
| Aircon.AirConditioner.SetPowerStatus | renderer/components/AirConditioner.js:241-277 | the unit's state becomes `SetPower` of the old state |
| Aircon.AirConditioner.GetPowerStatus | renderer/components/AirConditioner.js:279-281 | returns the power flag |
| Aircon.AirConditioner.Update | renderer/components/AirConditioner.js:194-211 | the unit's state becomes `Tick` of the old state |
| Conveyor.Clamp | renderer/components/ConveyorBelt.js:336-338 | the result lies in [0, 2], equals the input inside that range, and is the nearer bound outside it |
| Conveyor.ClampIdempotent | renderer/components/ConveyorBelt.js:336-338 | clamping twice is clamping once |
| Conveyor.BoxCount | renderer/components/ConveyorBelt.js:231-232 | 4 boxes on a circular belt, 3 on any other |
| Conveyor.RollerCount | renderer/components/ConveyorBelt.js:48-135 | 3 rollers for l-shape, 8 for circular, 2 for straight and for any unknown type |
| Conveyor.NewBox | renderer/components/ConveyorBelt.js:234-240 | a new box starts with progress in [0, 1) and a speed in [0.002, 0.003) |
| Conveyor.InitialBoxes | renderer/components/ConveyorBelt.js:231-243 | one box per draw; box k starts at progress k/n |
| Conveyor.InitialBoxesSpread | renderer/components/ConveyorBelt.js:238 | the start positions strictly increase along the belt |
| Conveyor.BoxPosition | renderer/components/ConveyorBelt.js:295-334 | the position for each belt type; an unknown type puts every box at the origin |
| Conveyor.StraightPath | renderer/components/ConveyorBelt.js:297-302 | on a straight belt x runs from -4 toward 4, linearly in progress, at y = z = 0 |
| Conveyor.LShapePath | renderer/components/ConveyorBelt.js:304-321 | on the L-shaped belt x runs from -6 to 3 at z = 0, then z runs from 0 toward 4 at x = 3; the legs meet at progress 0.6 |
| Conveyor.UnknownKindAtOrigin | renderer/components/ConveyorBelt.js:28-43 | an unknown type builds straight rollers and boxes, yet leaves every box at the origin |
| Conveyor.Lifted | renderer/components/ConveyorBelt.js:289-291 | the mesh sits 0.2 above the computed position |
| Conveyor.Advance | renderer/components/ConveyorBelt.js:280-292 | a box keeps its speed, its progress stays in [0, 1), and its mesh follows the new progress |
| Conveyor.AdvanceProgress | renderer/components/ConveyorBelt.js:281-286 | progress grows by box speed times belt speed, and resets to 0 on reaching 1 |
| Conveyor.AdvanceAll | renderer/components/ConveyorBelt.js:279-293 | every box advances, and the count is unchanged |
| Conveyor.Build | renderer/components/ConveyorBelt.js:25-47 | building a belt keeps its invariant (speed in [0, 2], boxes in range) |
| Conveyor.WithSpeed | renderer/components/ConveyorBelt.js:336-338 | setting the speed keeps the belt invariant |
| Conveyor.WithRunning | renderer/components/ConveyorBelt.js:340-343 | setting the running flag keeps the belt invariant |
| Conveyor.Step | renderer/components/ConveyorBelt.js:261-277 | a stopped belt is unchanged; a frame keeps speed, flag, box count and the invariant |
| Conveyor.SetSpeedIdempotent | renderer/components/ConveyorBelt.js:336-338 | setting the same speed twice equals setting it once, and the stored speed is the clamped value |
| Conveyor.ConveyorBelt.constructor | renderer/components/ConveyorBelt.js:2-23 | a new belt runs at speed 0.5, with no rollers or boxes yet |
| Conveyor.ConveyorBelt.Create | renderer/components/ConveyorBelt.js:25-47 | the loop pushes the boxes of `InitialBoxes` after adding the rollers for the type |
| Conveyor.ConveyorBelt.SetSpeed | renderer/components/ConveyorBelt.js:336-338 | the belt's state becomes `WithSpeed` of the old state |
| Conveyor.ConveyorBelt.SetRunning | renderer/components/ConveyorBelt.js:340-343 | the belt's state becomes `WithRunning` of the old state |
| Conveyor.ConveyorBelt.Update | renderer/components/ConveyorBelt.js:261-277 | the belt's state becomes `Step` of the old state |
| Conveyor.ConveyorBelt.UpdateMovingBoxes | renderer/components/ConveyorBelt.js:279-293 | the in-place loop advances every box exactly as `AdvanceAll` does, and changes nothing else |
| Rooms.WallColorOf | renderer/components/Room.js:7 | a missing or zero wall colour falls back to white |
| Rooms.ConveyorTypeOf | renderer/components/Room.js:8 | a missing or empty conveyor type falls back to straight |
| Rooms.IsHotOf | renderer/components/Room.js:9 | a room is hot only when `isHotRoom` is true |
| Rooms.FloorColor | renderer/components/Room.js:106-117 | the floor colour for assembly, packaging (hot or not), inspection and any other type |
| Rooms.HotTintOnlyForPackaging | renderer/components/Room.js:106-117 | the red tint appears exactly for a hot packaging room |
| Rooms.WithAircon | renderer/components/Room.js:238-243 | sets the room flag and the unit's power together, so they agree; the unit's target fan speed follows |
| Rooms.WithBeltSpeed | renderer/components/Room.js:250-254 | forwards the speed to the belt when it exists; the air-conditioner side is unchanged |
| Rooms.WithBeltRunning | renderer/components/Room.js:256-260 | forwards the flag to the belt when it exists; the air-conditioner side is unchanged |
| Rooms.RoomStep | renderer/components/Room.js:227-235 | a frame steps whichever parts exist and keeps the room flag and the flag-power agreement |
| Rooms.AirconStatusSticks | renderer/components/Room.js:238-247 | the last status set is the one read back, and belt commands and frames never change it |
| Rooms.Room.constructor | renderer/components/Room.js:2-24 | the option defaults: origin, size 10x4x8, white walls, straight belt, not hot; the room starts off with no parts |
| Rooms.Room.Create | renderer/components/Room.js:26-47 | builds the floor, a new unit that is off, and a new belt of the room's type, which is a hot belt exactly when the room is hot |
| Rooms.Room.SetAirconStatus | renderer/components/Room.js:238-243 | the room's state becomes `WithAircon`, and the room is in step with its unit afterwards |
| Rooms.Room.GetAirconStatus | renderer/components/Room.js:245-247 | returns the room flag |
| Rooms.Room.SetConveyorSpeed | renderer/components/Room.js:250-254 | the room's state becomes `WithBeltSpeed` of the old state |
| Rooms.Room.SetConveyorRunning | renderer/components/Room.js:256-260 | the room's state becomes `WithBeltRunning` of the old state |
| Rooms.Room.Update | renderer/components/Room.js:227-235 | the room's state becomes `RoomStep` of the old state |
| Rooms.Room.GetCameraPosition | renderer/components/Room.js:263-269 | the room position offset by (0, 8, 12) |
| Factories.OptionsOf | renderer/components/Factory.js:100-122 | the options passed for each room reproduce its table entry; only B is hot |
| Factories.CameraTableAgrees | renderer/components/Factory.js:185-192 | the factory's fixed camera table agrees with each room's own camera position |
| Factories.LayoutShape | renderer/components/Factory.js:98-122 | three entries with different keys, and only B is hot |
| Factories.FreshRoom | renderer/components/Factory.js:125-128 | a created room is off and in step with its unit, with the floor colour of its type |
| Factories.TableStep | renderer/components/Factory.js:125-128 | creating room i turns only its entry from bare to created |
| Factories.PlacedAsLaid | renderer/components/Factory.js:98-122 | the three rooms under keys A, B and C are built from the table entries |
| Factories.NewRoom | renderer/components/Factory.js:100-122 | each constructor call builds a new, bare room from its table entry |
| Factories.NewRooms | renderer/components/Factory.js:98-122 | three distinct new rooms, built from entries A, B and C |
| Factories.Factory.constructor | renderer/components/Factory.js:2-11 | a new factory has no rooms, conveyor speed 0.5 and conveyors running |
| Factories.Factory.CreateRooms | renderer/components/Factory.js:98-129 | the table has exactly the keys A, B and C, listed in that order; each room is built from its entry and then created; speed and running flag stay as the constructor left them |
| Factories.Factory.CreateAll | renderer/components/Factory.js:125-128 | the loop creates every room in table order; the conveyor settings are kept |
| Factories.Factory.CreateNext | renderer/components/Factory.js:126-127 | one turn of that loop: the room of entry i is created, and the table moves from stage i to stage i + 1 |
| Factories.Factory.PlaceRooms | renderer/components/Factory.js:99-122 | three bare rooms are placed under A, B and C |
| Factories.Factory.CreateStep | renderer/components/Factory.js:126 | creating one room changes only that room's entry |
| Factories.Factory.SetAirconStatus | renderer/components/Factory.js:141-146 | on a known key only that room changes, by `WithAircon`; an unknown key changes nothing |
| Factories.Factory.GetAirconStatus | renderer/components/Factory.js:148-154 | the room's status for a known key, false for an unknown one |
| Factories.Factory.SetConveyorSpeed | renderer/components/Factory.js:157-164 | stores the speed unclamped and forwards it to every room |
| Factories.Factory.ForwardSpeedAll | renderer/components/Factory.js:159-163 | the loop forwards the speed to every room of the table |
| Factories.Factory.SetConveyorRunning | renderer/components/Factory.js:166-173 | stores the flag and forwards it to every room |
| Factories.Factory.ForwardRunningAll | renderer/components/Factory.js:168-172 | the loop forwards the flag to every room of the table |
| Factories.Factory.Update | renderer/components/Factory.js:131-138 | one frame for every room; the table and settings are unchanged |
| Factories.Factory.StepAll | renderer/components/Factory.js:133-137 | the loop steps every room of the table |
| Factories.Factory.GetRoom | renderer/components/Factory.js:176-178 | the room under the key, or nothing for an unknown key |
| Factories.Factory.GetDebugInfo | renderer/components/Factory.js:195-212 | `totalRooms` equals the number of rooms; one entry per room with its position, status and the factory settings |
| Heat.ParticleCount | renderer/components/HeatEffects.js:41 | floor(100·intensity) particles |
| Heat.SubLightCount | renderer/components/HeatEffects.js:107 | floor(3·intensity) sub lights |
| Heat.NegativeIntensityHasNoParticleBuffer | renderer/components/HeatEffects.js:41-42 | the particle buffer length is negative exactly when the intensity is |
| Heat.CreatedShape | renderer/components/HeatEffects.js:97-122 | a new source is active, with one main light at 0.8·intensity, floor(3·intensity) sub lights at 0.4·intensity, and floor(100·intensity) particles |
| Heat.DefaultSourceShape | renderer/components/HeatEffects.js:10-26 | with the defaults (intensity 1, radius 5) a source has 4 lights and 100 particles |
| Heat.IndexOf | renderer/components/HeatEffects.js:333 | the first index carrying the id, or none when no entry carries it |
| Heat.Removed | renderer/components/HeatEffects.js:332-360 | removal shortens the list by one exactly when the id is present |
| Heat.RemovedBy | renderer/components/HeatEffects.js:332-360 | at most one entry is released, one exactly when the id is present, and it carries that id |
| Heat.RemovedSplice | renderer/components/HeatEffects.js:357 | removal is the splice at the first match, and a no-op for an unknown id |
| Heat.RemoveKeepsOthers | renderer/components/HeatEffects.js:332-360 | all other entries stay, in order, and exactly one entry with the id goes |
| Heat.UpdateFirst | renderer/components/HeatEffects.js:315-317 | updating the first match keeps the length |
| Heat.UpdateFirstAt | renderer/components/HeatEffects.js:364-366 | it is a point update at the found index, and a no-op for an unknown id |
| Heat.SetActiveThenFind | renderer/components/HeatEffects.js:363-387 | only the first match changes: its flag and the visibility of its effects become the new value; length and search are unchanged |
| Heat.SetIntensityThenFind | renderer/components/HeatEffects.js:314-329 | only the first match changes: new intensity and every light at 0.8 of it; length and search are unchanged |
| Heat.ActiveCount | renderer/components/HeatEffects.js:411-417 | there are no more active sources than sources |
| Heat.ActiveSumBounds | renderer/components/HeatEffects.js:413-418 | the total lies between count·min and count·max of the active intensities |
| Heat.GlobalHeatWithinBounds | renderer/components/HeatEffects.js:409-422 | the global level is 0 with no active source, and otherwise lies between the smallest and largest active intensity |
| Heat.ActivePointUpdate | renderer/components/HeatEffects.js:413-418 | changing one entry changes total and count by exactly that entry's difference |
| Heat.AppendToTotals | renderer/components/HeatEffects.js:409-422 | an added source adds its intensity and activity to the totals |
| Heat.DeactivateLeavesMean | renderer/components/HeatEffects.js:409-422 | switching off an active source takes exactly it out of the mean |
| Heat.ContributionFalloff | renderer/components/HeatEffects.js:394-402 | a source adds between 0 and 50·intensity, less the farther away, and nothing when inactive or out of range |
| Heat.HeatSumNonnegative | renderer/components/HeatEffects.js:390-404 | with non-negative intensities the total contribution is non-negative |
| Heat.TemperatureBounds | renderer/components/HeatEffects.js:390-406 | the temperature never exceeds 150, and with non-negative intensities never falls below 20 |
| Heat.HeatPointUpdate | renderer/components/HeatEffects.js:393-403 | changing one entry changes the uncapped sum by exactly its difference in contribution |
| Heat.DeactivatedSourceIsCold | renderer/components/HeatEffects.js:394 | a switched-off source takes exactly its own contribution out of the uncapped sum |
| Heat.DetailBands | renderer/components/HeatEffects.js:472-489 | hidden beyond 30, reduced in (15, 30], full up to 15; the detail never grows with distance |
| Heat.DetailIgnoresActive | renderer/components/HeatEffects.js:467-491 | only particle visibility and size change, by distance alone, so an inactive near source gets visible particles back |
| Heat.LightsCoverSources | renderer/components/HeatEffects.js:502-504 | active sources ≤ sources ≤ lights |
| Heat.ForEachRemovedCount | renderer/components/HeatEffects.js:513-515 | the `forEach`-with-splice walk releases only ceil(n/2) of n sources |
| Heat.DisposeSkipsSecondSource | renderer/components/HeatEffects.js:513-515 | with two sources, only the first is released |
| Heat.HeatEffects.constructor | renderer/components/HeatEffects.js:2-7 | no sources and global heat level 0 |
| Heat.HeatEffects.AddHeatSource | renderer/components/HeatEffects.js:10-26 | appends exactly the new active source and returns its id; a negative intensity fails before anything is pushed |
| Heat.HeatEffects.Find | renderer/components/HeatEffects.js:333 | the scan returns the first index carrying the id, or none |
| Heat.HeatEffects.RemoveHeatSource | renderer/components/HeatEffects.js:332-360 | the list becomes `Removed`, and the removed entry's effects are released |
| Heat.HeatEffects.SetHeatSourceActive | renderer/components/HeatEffects.js:363-387 | the list becomes `WithActive` of the old list |
| Heat.HeatEffects.UpdateHeatSourceIntensity | renderer/components/HeatEffects.js:314-329 | the list becomes `WithIntensity` of the old list; the new value is not range-checked |
| Heat.HeatEffects.CalculateGlobalHeatLevel | renderer/components/HeatEffects.js:409-422 | the loop returns and stores the mean intensity of the active sources |
| Heat.HeatEffects.GetTemperatureAtPosition | renderer/components/HeatEffects.js:390-406 | the loop computes the capped temperature of the given distances |
| Heat.HeatEffects.UpdateLOD | renderer/components/HeatEffects.js:467-491 | every source gets the detail for its own camera distance |
| Heat.HeatEffects.GetDebugInfo | renderer/components/HeatEffects.js:494-507 | counts, active count, stored global level, particle and light totals, and a temperature ≤ 150 at the origin |
| Heat.HeatEffects.DisposeAsWritten | renderer/components/HeatEffects.js:510-521 | the list is emptied and the level reset, but only the sources the skipping walk visits are released |
| Heat.HeatEffects.Dispose | renderer/components/HeatEffects.js:510-521 | the list is emptied, the level reset, and every source released in order |
| App.Published | renderer/app.js:449-456 | one publish request per command, at the default QoS, in order |
| App.CreateEnvironment | renderer/app.js:164-184 | a new factory with rooms A, B and C, each created as laid out, at speed 0.5 and running |
| App.Init | renderer/app.js:13-42 | the environment is created, then a client that waits for `connect`; the globals hold their initial values |
| App.Controller.constructor | renderer/app.js:3-6 | the globals: the factory, no client yet, speed 0.5, running |
| App.Controller.InitMqtt | renderer/app.js:187-192 | a new client, asked to connect, with 0 attempts, a 3000 ms delay, no retry scheduled and nothing sent |
| App.Controller.ReconnectMqtt | renderer/app.js:459-464 | the old client, if it has a library client, is ended, and otherwise sends nothing; its scheduled retries, attempts and delay stay as they were; a new client replaces it and starts with a fresh back-off: 0 attempts, a 3000 ms delay and no retry scheduled |
| App.Controller.OnBrokerMessage | renderer/app.js:213-248 | a well-formed message sets its room's status, exactly as `HandleMessage` says; anything else leaves the room states unchanged; the table, its order and the conveyor settings are kept either way |
| App.Controller.ToggleAircon | renderer/app.js:424-441 | alerts and sends nothing iff the client was missing or disconnected at the call; otherwise publishes exactly the toggle command built from the factory's current status; the client's connection and retry state and the factory are unchanged |
| App.Controller.ToggleAllAircons | renderer/app.js:443-457 | alerts and sends nothing iff the client was missing or disconnected at the call; otherwise publishes exactly the three off commands, rooms a, b, c in order; the client's connection and retry state are unchanged |
| App.Controller.ToggleConveyor | renderer/app.js:368-373 | negates the global flag and forwards the new value to the factory and every room; speed, table and order are kept |
| App.Controller.OnSpeedInput | renderer/app.js:287-294 | stores the slider value and forwards it to the factory and every room; the running flag, table and order are kept |
| App.Controller.FocusRoom | renderer/app.js:327-335 | a camera target exists iff the room does; it is the room's camera position |
| App.Controller.OnKeyDown | renderer/app.js:305-324 | Space negates the flag and forwards it to every room, as `toggleConveyor`; Digit0 targets the overview (20, 15, 20); Digit1-3 target the room's camera position iff the room exists; every key but Space leaves the factory and its settings unchanged |
| App.Controller.OnFrame | renderer/app.js:389-392 | one factory update per frame: every room stepped; table, order and conveyor settings kept |
| App.ToggleTwiceRestores | renderer/app.js:424-441 | toggling room x twice, each echo applied to the room, restores its status, power, target fan speed and light exactly |

## Left out

- The THREE.js scene and everything drawn in it:
  - meshes, materials, colours, lights as scene objects, shaders and canvas textures;
  - the camera animation, the walls, ceiling and label of a room, and the building and sign of the factory.
- Per-frame particle animation and trigonometric motion: `updateCoolAirParticles`,
  `HeatEffects.update`, circular belt positions (kept symbolic as `OnCircle`),
  texture offsets and roller spin. These are floating-point animation with no
  state rules.
- `HotConveyorBelt`'s heat particles and its sine-based temperature. A hot belt
  is a belt flagged `hot`; its extra visuals are random and time-driven.
- `HeatEffects.addToScene`, `removeFromScene`, `getHeatColor` and
  `createSimpleHeatEffect`: scene wiring and colour only.
- The mqtt.js library and `setTimeout`. Library calls are recorded as requests
  and timers as scheduled delays. The model does not assume whether `end()`
  emits `close`.
- Mqtt.Client.OnConnect requires a library client, so the model leaves out a
  `connect` event arriving after `disconnect()` has cleared it. The code as
  written would then set the flag and reset the attempts, and then throw when
  it subscribes on the null client.
- The `message` event's forwarding of the payload string, and `testConnection`:
  library and timer plumbing.
- `JSON.parse` and `JSON.stringify`: payloads are parsed values, and a parse
  failure is an absent value.
- `Math.random` ids, box speeds and colours, `distanceTo`, and `new Date()`
  timestamps: these are inputs.
- main.js (the Electron window, IPC and process hooks), `testMQTT`,
  `beforeunload`, the FPS counter, window resizing, alerts, and the DOM status
  updates (`updateAirconUI`, `updateMQTTStatus`, `hideLoading`, `showError`).
  These are I/O with no state rules.
- `onConnectionChange` and `onMessage` callbacks: each handler returns what it
  would report, and the app calls `OnBrokerMessage` itself.
- App.Controller: the handlers that can run before `createEnvironment` sets
  `factory` (and so find no factory) are not modelled; the controller exists
  only once the factory does.
- App.CreateEnvironment: the factory is created before any client, as `init`
  does; creating a second environment later is not modelled.
- Factories.Factory.CreateRooms requires the empty table the constructor
  leaves; `create()` runs once, right after construction.
- Numbers are exact reals, not IEEE-754 doubles. Floors, sums, means and
  products are exact, so a property can hold in the model and fail by one
  rounding step in the program. The lines below name the rows this affects.
- Heat.ParticleCount: floor(100·intensity) is exact; in doubles 100·0.29 is
  28.999999999999996, so the program makes 28 particles where the model makes 29.
- Heat.SubLightCount: floor(3·intensity) is exact, with the same rounding gap at
  the band edges.
- Heat.CreatedShape: its particle and sub-light counts inherit the exact floors above.
- Heat.GlobalHeatWithinBounds: the bounds hold for the exact mean; in doubles
  three active sources of 0.1 average to 0.10000000000000002, just above the largest.
- Heat.ActiveSumBounds, Heat.ActivePointUpdate, Heat.AppendToTotals,
  Heat.DeactivateLeavesMean, Heat.HeatPointUpdate and Heat.DeactivatedSourceIsCold:
  the sums are exact; the program's sums can differ by rounding.
- Heat.ContributionFalloff, Heat.TemperatureBounds and Heat.DetailBands: the
  bounds and bands are stated over exact distances and intensities.
- Mqtt.DelayClosedForm, Mqtt.DelaySchedule and Mqtt.RetryDelay: the delays
  are exact multiples of 1.5; every delay listed is exact in doubles too, but
  the closed form is not claimed for rounded powers.
- Aircon.NextFanSpeed and Aircon.FanSpeedApproaches: the 5% lerp is exact;
  in doubles the fan speed can stop one rounding step short of the target.
- Conveyor.AdvanceProgress, Conveyor.InitialBoxes and Conveyor.InitialBoxesSpread:
  progress steps and start positions k/n are exact.
- Messages.Upper: maps the ASCII letters only. `toUpperCase` applies the full
  Unicode mapping, which can change the length ("ß" becomes "SS").
- Messages.Lower: maps the ASCII letters only. `toLowerCase` applies the full
  Unicode mapping.
- Messages.Upper and Messages.Lower matter only through two outcomes: whether a
  power string lower-cases to exactly "on", and whether a room key upper-cases to
  exactly "A", "B" or "C". No character other than "O" and "o" lower-cases to
  exactly "o", and none other than "N" and "n" to exactly "n". Only "a", "b" and
  "c" (and "A", "B" and "C") upper-case to exactly "A", "B" or "C". Every other
  full mapping that lands on ASCII letters changes the length: "ß" gives "SS",
  "ﬁ" gives "FI", and "İ" lower-cases to "i" followed by a combining dot. So both
  outcomes are taken to be the same as the program's, though the model does not
  prove this.
- Factories.Factory.GetRoom models the room table as a map. `this.rooms[roomId]`
  on a plain object also finds inherited members for keys such as "constructor"
  or "toString", where the model returns no room. The app passes only "A", "B"
  and "C" (renderer/app.js:308-314), and broker updates only upper-cased a, b or c.
- Aircon.AirConditioner.SetPowerStatus requires a unit that has been built,
  because the source dereferences the LED, the light and the particles that
  `create()` builds.
- The `getDebugInfo` methods of `AirConditioner`, `ConveyorBelt` and `Room`,
  and `Factory.getAllRooms`: plain field read-outs.

## Findings

| source | as written | input that shows it | evidently intended | confidence | as-written member | corrected member |
|---|---|---|---|---|---|---|
| renderer/components/HeatEffects.js:513-515 | `dispose()` calls `removeHeatSource` inside a `forEach` over the same array that `removeHeatSource` splices. Each removal shifts the next source into the visited index, so only every other source is released. | two sources with different ids: only the first is released; the second's particles, lights and glow are never disposed, and the list is then cleared anyway | every source's effects are released before the list is cleared | not executed | Heat.HeatEffects.DisposeAsWritten (with Heat.DisposeSkipsSecondSource and Heat.ForEachRemovedCount) | Heat.HeatEffects.Dispose |
