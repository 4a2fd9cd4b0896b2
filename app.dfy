/**
 * renderer/app.js: the module globals that tie the broker client to the
 * factory (`factory`, `mqttClient`, `conveyorSpeed`, `isConveyorRunning`)
 * and the handlers that read and write them. The 3D scene, the camera
 * animation and the DOM are not modelled; a handler that would animate the
 * camera returns the target position instead, and one that would show an
 * alert reports that it did.
 */
module App {
  import opened Optional
  import opened Vectors
  import Json
  import Mqtt
  import opened Messages
  import opened Rooms
  import opened Factories
  import Conveyor
  import Aircon

  const InitialConveyorSpeed: real := 0.5
  /** Where `focusOverview` sends the camera. */
  const OverviewCamera := Vec3(20.0, 15.0, 20.0)

  /** The requests `publish` hands to the library for a list of commands, at the default QoS. */
  function Published(cmds: seq<Command>): (r: seq<Mqtt.Request>)
    ensures |r| == |cmds|
    ensures forall i :: 0 <= i < |cmds| ==> r[i] == Mqtt.Publish(cmds[i].topic, cmds[i].payload, Mqtt.DefaultQos)
  {
    if cmds == [] then []
    else Published(cmds[..|cmds| - 1]) + [Mqtt.Publish(cmds[|cmds| - 1].topic, cmds[|cmds| - 1].payload, Mqtt.DefaultQos)]
  }

  /** The status `toggleAircon` negates: false for a room the factory does not have. */
  ghost function CurrentStatus(f: Factory, room: string): bool
    reads f
  {
    room in f.rooms && room in f.Model && f.Model[room].airconStatus
  }

  /**
   * `createEnvironment()`: a new factory whose `create()` builds the room
   * table; `draws` holds the random draws behind each belt's boxes.
   */
  method CreateEnvironment(draws: seq<seq<real>>) returns (f: Factory)
    requires DrawsFit(draws)
    ensures fresh(f) && f.Valid()
    ensures f.rooms.Keys == {"A", "B", "C"} && BuiltAsLaid(f.rooms)
    ensures f.Model == Table(|Layout|, draws)
    ensures f.conveyorSpeed == Conveyor.InitialSpeed && f.isConveyorRunning
  {
    f := new Factory();
    // A new factory owns no parts yet, so `create` writes to no object of the caller's.
    assert f.Owner.Keys == {};
    f.CreateRooms(draws);
  }

  /**
   * `init()` without the scene, the listeners and the render loop: the
   * environment is created first, then the broker client, which is left
   * waiting for its `connect` event.
   */
  method Init(draws: seq<seq<real>>) returns (app: Controller)
    requires DrawsFit(draws)
    ensures fresh(app) && app.Valid()
    ensures app.factory.rooms.Keys == {"A", "B", "C"} && app.factory.Model == Table(|Layout|, draws)
    ensures app.conveyorSpeed == InitialConveyorSpeed && app.isConveyorRunning
    ensures app.client != null && app.client.hasClient && !app.client.connected && app.client.outbox == []
  {
    var f := CreateEnvironment(draws);
    app := new Controller(f);
    app.InitMqtt();
  }

  /**
   * The script's globals once `createEnvironment` has set `factory`. Handlers
   * that run before it (and so find no factory) are not part of this model.
   */
  class Controller {
    const factory: Factory
    var client: Mqtt.Client?
    var conveyorSpeed: real
    var isConveyorRunning: bool

    /** The objects the factory's validity depends on. */
    ghost function FactoryFrame(): set<object>
      reads factory
    {
      {factory} + factory.Owner.Keys
    }

    ghost predicate Valid()
      reads this, FactoryFrame(), client
    {
      && factory.Valid() && this !in factory.Owner && client !in factory.Owner
      && (client != null ==> client.Valid())
    }

    /** The globals right after `createEnvironment`: no client yet, belts running at the initial speed. */
    constructor (f: Factory)
      requires f.Valid()
      ensures Valid()
      ensures factory == f && client == null
      ensures conveyorSpeed == InitialConveyorSpeed && isConveyorRunning
    {
      factory := f;
      client := null;
      conveyorSpeed := 0.5;
      isConveyorRunning := true;
    }

    /** `initMQTT`: a new client, asked to connect; the flag waits for the broker's `connect` event. */
    method InitMqtt()
      requires Valid()
      modifies this`client
      ensures Valid() && conveyorSpeed == old(conveyorSpeed) && isConveyorRunning == old(isConveyorRunning)
      ensures client != null && fresh(client)
      ensures client.hasClient && !client.connected && client.reconnectAttempts == 0
      ensures client.reconnectDelay == Mqtt.InitialDelay && client.outbox == []
      ensures client.retries == [] && client.pendingRetries == 0
    {
      var c := new Mqtt.Client();
      c.Connect();
      client := c;
    }

    /** `reconnectMQTT()`: the old client, if any, is ended and a new one, with a fresh back-off, takes its place. */
    method ReconnectMqtt()
      requires Valid()
      modifies this`client, client
      ensures Valid()
      ensures old(client) != null && old(client.hasClient) ==>
        !old(client).hasClient && old(client).outbox == old(client.outbox) + [Mqtt.End]
      ensures old(client) != null && !old(client.hasClient) ==>
        !old(client).hasClient && old(client).outbox == old(client.outbox)
      ensures old(client) != null ==>
        && old(client).pendingRetries == old(client.pendingRetries) && old(client).retries == old(client.retries)
        && old(client).reconnectAttempts == old(client.reconnectAttempts)
        && old(client).reconnectDelay == old(client.reconnectDelay)
      ensures client != null && fresh(client) && client != old(client)
      ensures client.hasClient && !client.connected && client.outbox == []
      ensures client.reconnectAttempts == 0 && client.reconnectDelay == Mqtt.InitialDelay
      ensures client.retries == [] && client.pendingRetries == 0
    {
      if client != null {
        client.Disconnect();
      }
      InitMqtt();
    }

    /**
     * `handleMQTTMessage(topic, message)` with the outcome of `JSON.parse`
     * (absent when it threw): a well-formed message sets the status of its
     * room, anything else changes nothing.
     */
    method OnBrokerMessage(topic: string, parsed: Option<Json.Value>)
      requires Valid()
      modifies FactoryFrame()
      ensures Valid() && client == old(client)
      ensures factory.rooms == old(factory.rooms) && factory.roomOrder == old(factory.roomOrder) && factory.Owner == old(factory.Owner)
      ensures factory.conveyorSpeed == old(factory.conveyorSpeed) && factory.isConveyorRunning == old(factory.isConveyorRunning)
      ensures
        var u := HandleMessage(topic, parsed);
        if u.Some? && u.value.roomId in factory.rooms
        then factory.Model == old(factory.Model)[u.value.roomId := WithAircon(old(factory.Model)[u.value.roomId], u.value.isOn)]
        else factory.Model == old(factory.Model)
    {
      var u := HandleMessage(topic, parsed);
      if u.Some? {
        factory.SetAirconStatus(u.value.roomId, u.value.isOn);
      }
    }

    /**
     * `toggleAircon(roomId)`: alerts and publishes nothing unless a client is
     * connected; otherwise publishes the negated status of the room to its
     * control topic. The factory is left to the broker's echo.
     */
    method ToggleAircon(roomId: string, timestamp: string) returns (alerted: bool)
      requires Valid()
      modifies client
      ensures Valid() && client == old(client)
      ensures alerted <==> old(client == null || !client.connected)
      ensures client != null ==>
        && client.hasClient == old(client.hasClient) && client.connected == old(client.connected)
        && client.reconnectAttempts == old(client.reconnectAttempts) && client.reconnectDelay == old(client.reconnectDelay)
        && client.retries == old(client.retries) && client.pendingRetries == old(client.pendingRetries)
      ensures client != null ==>
        client.outbox == old(client.outbox) + (if alerted then [] else
          Published([ToggleCommand(roomId, CurrentStatus(factory, ToggleRoomKey(roomId)), timestamp)]))
    {
      if client == null {
        return true;
      }
      var up := client.IsConnected();
      if !up {
        return true;
      }
      var room := ToggleRoomKey(roomId);
      var current := factory.GetAirconStatus(room);
      var cmd := ToggleCommand(roomId, current, timestamp);
      var sent := client.Publish(cmd.topic, cmd.payload);
      alerted := false;
    }

    /** `toggleAllAircons()`: when connected, an off command to rooms a, b and c, in that order. */
    method ToggleAllAircons(stamps: seq<string>) returns (alerted: bool)
      requires Valid() && |stamps| == 3
      modifies client
      ensures Valid() && client == old(client)
      ensures alerted <==> old(client == null || !client.connected)
      ensures client != null ==>
        && client.hasClient == old(client.hasClient) && client.connected == old(client.connected)
        && client.reconnectAttempts == old(client.reconnectAttempts) && client.reconnectDelay == old(client.reconnectDelay)
        && client.retries == old(client.retries) && client.pendingRetries == old(client.pendingRetries)
      ensures client != null ==>
        client.outbox == old(client.outbox) + (if alerted then [] else Published(AllOffCommands(stamps)))
    {
      if client == null {
        return true;
      }
      var up := client.IsConnected();
      if !up {
        return true;
      }
      var cmds := AllOffCommands(stamps);
      for i := 0 to 3
        invariant client.Valid() && client.connected
        invariant client.hasClient == old(client.hasClient) && client.reconnectAttempts == old(client.reconnectAttempts)
        invariant client.reconnectDelay == old(client.reconnectDelay) && client.retries == old(client.retries)
        invariant client.pendingRetries == old(client.pendingRetries)
        invariant client.outbox == old(client.outbox) + Published(cmds[..i])
      {
        assert cmds[..i + 1][..i] == cmds[..i];
        var sent := client.Publish(cmds[i].topic, cmds[i].payload);
      }
      assert cmds[..3] == cmds;
      alerted := false;
    }

    /** `toggleConveyor()`: flips the global flag and forwards it to every room. */
    method ToggleConveyor()
      requires Valid()
      modifies this`isConveyorRunning, FactoryFrame()
      ensures Valid() && client == old(client)
      ensures isConveyorRunning == !old(isConveyorRunning) && conveyorSpeed == old(conveyorSpeed)
      ensures
        && factory.rooms == old(factory.rooms) && factory.roomOrder == old(factory.roomOrder) && factory.Owner == old(factory.Owner)
        && factory.isConveyorRunning == isConveyorRunning && factory.conveyorSpeed == old(factory.conveyorSpeed)
        && factory.Model == RunningForwarded(old(factory.Model), old(factory.rooms).Keys, isConveyorRunning)
    {
      isConveyorRunning := !isConveyorRunning;
      factory.SetConveyorRunning(isConveyorRunning);
    }

    /** The speed slider's `input` handler, with the parsed slider value. */
    method OnSpeedInput(value: real)
      requires Valid()
      modifies this`conveyorSpeed, FactoryFrame()
      ensures Valid() && client == old(client)
      ensures conveyorSpeed == value && isConveyorRunning == old(isConveyorRunning)
      ensures
        && factory.rooms == old(factory.rooms) && factory.roomOrder == old(factory.roomOrder) && factory.Owner == old(factory.Owner)
        && factory.conveyorSpeed == value && factory.isConveyorRunning == old(factory.isConveyorRunning)
        && factory.Model == SpeedForwarded(old(factory.Model), old(factory.rooms).Keys, value)
    {
      conveyorSpeed := value;
      factory.SetConveyorSpeed(value);
    }

    /** `focusRoom(roomId)`: the camera target of the room, when the factory has it. */
    method FocusRoom(roomId: string) returns (target: Option<Vec3>)
      ensures target.Some? <==> roomId in factory.rooms
      ensures target.Some? ==>
        var p := factory.rooms[roomId].position;
        target.value == Vec3(p.x, p.y + 8.0, p.z + 12.0)
    {
      var room := factory.GetRoom(roomId);
      if room == null {
        return None;
      }
      var p := room.GetCameraPosition();
      target := Some(p);
    }

    /**
     * `onKeyDown(event)`: digits 1-3 focus rooms A-C, 0 the overview, space
     * toggles the conveyors; any other key does nothing.
     */
    method OnKeyDown(code: string) returns (target: Option<Vec3>)
      requires Valid()
      modifies this`isConveyorRunning, FactoryFrame()
      ensures Valid() && client == old(client)
      ensures KeyActionOf(code).ToggleConveyor? <==> isConveyorRunning != old(isConveyorRunning)
      ensures conveyorSpeed == old(conveyorSpeed)
      ensures factory.rooms == old(factory.rooms) && factory.roomOrder == old(factory.roomOrder) && factory.Owner == old(factory.Owner)
      ensures KeyActionOf(code).ToggleConveyor? ==>
        && factory.isConveyorRunning == isConveyorRunning && factory.conveyorSpeed == old(factory.conveyorSpeed)
        && factory.Model == RunningForwarded(old(factory.Model), old(factory.rooms).Keys, isConveyorRunning)
      ensures !KeyActionOf(code).ToggleConveyor? ==>
        && factory.Model == old(factory.Model)
        && factory.conveyorSpeed == old(factory.conveyorSpeed)
        && factory.isConveyorRunning == old(factory.isConveyorRunning)
      ensures KeyActionOf(code).FocusOverview? ==> target == Some(OverviewCamera)
      ensures KeyActionOf(code).FocusRoom? ==>
        var id := KeyActionOf(code).roomId;
        && (target.Some? <==> id in factory.rooms)
        && (target.Some? ==>
              var p := factory.rooms[id].position;
              target.value == Vec3(p.x, p.y + 8.0, p.z + 12.0))
      ensures KeyActionOf(code).ToggleConveyor? || KeyActionOf(code).Ignore? ==> target == None
    {
      match KeyActionOf(code)
      case FocusRoom(id) =>
        target := FocusRoom(id);
      case FocusOverview =>
        target := Some(OverviewCamera);
      case ToggleConveyor =>
        ToggleConveyor();
        target := None;
      case Ignore =>
        target := None;
    }

    /** One frame of `animate()`: the factory steps every room. */
    method OnFrame()
      requires Valid()
      modifies FactoryFrame()
      ensures Valid() && client == old(client)
      ensures
        && factory.rooms == old(factory.rooms) && factory.roomOrder == old(factory.roomOrder) && factory.Owner == old(factory.Owner)
        && factory.conveyorSpeed == old(factory.conveyorSpeed) && factory.isConveyorRunning == old(factory.isConveyorRunning)
        && factory.Model == Stepped(old(factory.Model), old(factory.rooms).Keys)
    {
      factory.Update();
    }
  }

  /**
   * Toggling room x twice through the broker restores the room: each
   * `toggleAircon("room-x")` reads the status the previous echo left, and the
   * second echo sets back the status, power, target fan speed and light the
   * room had before.
   */
  lemma ToggleTwiceRestores(x: char, r: RoomState, t1: string, t2: string)
    requires x in RoomLetters
    requires Synced(r) && (r.ac.Some? ==> Aircon.Consistent(r.ac.value))
    ensures
      var c1 := ToggleCommand(RoomMarker + [x], r.airconStatus, t1);
      var u1 := HandleMessage(c1.topic, Some(c1.payload));
      && u1.Some? && u1.value.roomId == [UpperChar(x)]
      && var r1 := WithAircon(r, u1.value.isOn);
      && r1.airconStatus == !r.airconStatus
      && var c2 := ToggleCommand(RoomMarker + [x], r1.airconStatus, t2);
      var u2 := HandleMessage(c2.topic, Some(c2.payload));
      && u2.Some? && u2.value.roomId == [UpperChar(x)]
      && WithAircon(r1, u2.value.isOn) == r
  {
    ToggleRoundTrip(x, r.airconStatus, t1);
    ToggleRoundTrip(x, !r.airconStatus, t2);
  }
}
