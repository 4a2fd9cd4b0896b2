/**
 * renderer/components/Room.js: one factory room, which owns an air
 * conditioner and a conveyor belt once built, keeps its own `airconStatus`
 * and forwards commands to the parts it owns. Walls, ceiling, label and the
 * scene graph are not modelled.
 */
module Rooms {
  import opened Optional
  import opened Vectors
  import opened Aircon
  import opened Conveyor

  datatype Size = Size(width: real, height: real, depth: real)

  const DefaultSize := Size(10.0, 4.0, 8.0)
  const DefaultWallColor := 0xffffff
  /** Offset from the room position to its camera viewpoint. */
  const CameraOffset := Vec3(0.0, 8.0, 12.0)

  /** The `options` object of the constructor; a missing key is `None`. */
  datatype RoomOptions = RoomOptions(
    position: Option<Vec3>,
    size: Option<Size>,
    wallColor: Option<int>,
    conveyorType: Option<string>,
    isHotRoom: Option<bool>)

  /** No options at all: `new Room(id, type)`. */
  const NoOptions := RoomOptions(None, None, None, None, None)

  /** `options.wallColor || 0xffffff`: a missing or zero colour falls back to white. */
  function WallColorOf(o: RoomOptions): (c: int)
    ensures (o.wallColor.Some? && o.wallColor.value != 0) ==> c == o.wallColor.value
    ensures (o.wallColor.None? || o.wallColor.value == 0) ==> c == DefaultWallColor
  {
    match o.wallColor
    case Some(c) => if c != 0 then c else DefaultWallColor
    case None => DefaultWallColor
  }

  /** `options.conveyorType || 'straight'`: a missing or empty type falls back to straight. */
  function ConveyorTypeOf(o: RoomOptions): (t: string)
    ensures (o.conveyorType.Some? && o.conveyorType.value != "") ==> t == o.conveyorType.value
    ensures (o.conveyorType.None? || o.conveyorType.value == "") ==> t == Straight
  {
    match o.conveyorType
    case Some(t) => if t != "" then t else Straight
    case None => Straight
  }

  /** `options.isHotRoom || false`. */
  function IsHotOf(o: RoomOptions): (h: bool)
    ensures h <==> o.isHotRoom == Some(true)
  {
    match o.isHotRoom
    case Some(h) => h
    case None => false
  }

  /** The floor colour `createFloor` picks for a room type. */
  function FloorColor(roomType: string, isHot: bool): (c: int)
    ensures roomType == "assembly" ==> c == 0xe8e8e8
    ensures roomType == "packaging" ==> c == (if isHot then 0xffeeee else 0xeeffee)
    ensures roomType == "inspection" ==> c == 0xeeeeff
    ensures roomType !in {"assembly", "packaging", "inspection"} ==> c == 0xf0f0f0
  {
    match roomType
    case "assembly" => 0xe8e8e8
    case "packaging" => if isHot then 0xffeeee else 0xeeffee
    case "inspection" => 0xeeeeff
    case _ => 0xf0f0f0
  }

  /** Only a hot room's floor is tinted red, and only a packaging room can be. */
  lemma HotTintOnlyForPackaging(roomType: string, isHot: bool)
    ensures FloorColor(roomType, isHot) == 0xffeeee <==> roomType == "packaging" && isHot
  {
  }

  /** The abstract state of one room: its flag, its floor colour and the parts built so far. */
  datatype RoomState = RoomState(airconStatus: bool, floor: Option<int>, ac: Option<AcState>, belt: Option<BeltState>)

  /** A room as its constructor leaves it: off, with no floor and no parts yet. */
  const Bare := RoomState(false, None, None, None)

  /** The room flag agrees with the power of its air conditioner, if it has one. */
  ghost predicate Synced(r: RoomState)
  {
    r.ac.Some? ==> r.ac.value.isPoweredOn == r.airconStatus
  }

  /** `setAirconStatus(isOn)`. */
  function WithAircon(r: RoomState, isOn: bool): (r': RoomState)
    ensures Synced(r') && r'.airconStatus == isOn && r'.floor == r.floor && r'.belt == r.belt
    ensures r'.ac.Some? == r.ac.Some?
    ensures r.ac.Some? ==> r'.ac.value.targetFanSpeed == TargetFor(isOn)
  {
    r.(airconStatus := isOn, ac := if r.ac.Some? then Some(SetPower(r.ac.value, isOn)) else None)
  }

  /** `setConveyorSpeed(speed)`: forwarded unchanged when a belt exists. */
  function WithBeltSpeed(r: RoomState, speed: real): (r': RoomState)
    ensures r'.airconStatus == r.airconStatus && r'.floor == r.floor && r'.ac == r.ac
    ensures r'.belt.Some? == r.belt.Some?
    ensures r.belt.Some? ==> r'.belt.value == WithSpeed(r.belt.value, speed)
    ensures Synced(r) ==> Synced(r')
  {
    r.(belt := if r.belt.Some? then Some(WithSpeed(r.belt.value, speed)) else None)
  }

  /** `setConveyorRunning(on)`: forwarded unchanged when a belt exists. */
  function WithBeltRunning(r: RoomState, on: bool): (r': RoomState)
    ensures r'.airconStatus == r.airconStatus && r'.floor == r.floor && r'.ac == r.ac
    ensures r'.belt.Some? == r.belt.Some?
    ensures r.belt.Some? ==> r'.belt.value.isRunning == on
    ensures Synced(r) ==> Synced(r')
  {
    r.(belt := if r.belt.Some? then Some(WithRunning(r.belt.value, on)) else None)
  }

  /** `update()`: one frame for each part that exists. */
  function RoomStep(r: RoomState): (r': RoomState)
    ensures r'.airconStatus == r.airconStatus && r'.floor == r.floor
    ensures r'.ac.Some? == r.ac.Some? && r'.belt.Some? == r.belt.Some?
    ensures Synced(r) ==> Synced(r')
  {
    r.(ac := if r.ac.Some? then Some(Tick(r.ac.value)) else None,
       belt := if r.belt.Some? then Some(Step(r.belt.value)) else None)
  }

  /** The last `setAirconStatus` wins, and belt commands never touch the air-conditioner side. */
  lemma AirconStatusSticks(r: RoomState, isOn: bool, speed: real, on: bool)
    ensures WithAircon(r, isOn).airconStatus == isOn
    ensures WithBeltSpeed(WithAircon(r, isOn), speed).airconStatus == isOn
    ensures WithBeltRunning(WithAircon(r, isOn), on).ac == WithAircon(r, isOn).ac
    ensures RoomStep(WithAircon(r, isOn)).airconStatus == isOn
  {
  }

  class Room {
    const id: string
    const roomType: string
    const position: Vec3
    const size: Size
    const wallColor: int
    const conveyorType: string
    const isHotRoom: bool

    var airconStatus: bool
    /** The floor colour, once `create` has built the floor. */
    var floorColor: Option<int>
    var airConditioner: AirConditioner?
    var conveyorBelt: ConveyorBelt?

    ghost function Footprint(): set<object>
      reads this
    {
      {this}
      + (if airConditioner != null then {airConditioner} else {})
      + (if conveyorBelt != null then {conveyorBelt} else {})
    }

    function State(): RoomState
      reads this, airConditioner, conveyorBelt
    {
      RoomState(airconStatus, floorColor,
                if airConditioner != null then Some(airConditioner.State()) else None,
                if conveyorBelt != null then Some(conveyorBelt.State()) else None)
    }

    ghost predicate Valid()
      reads this, airConditioner, conveyorBelt
    {
      && (airConditioner != null ==> airConditioner.Valid() && airConditioner.created)
      && (conveyorBelt != null ==>
            conveyorBelt.Valid() && conveyorBelt.kind == conveyorType && conveyorBelt.hot == isHotRoom)
    }

    ghost predicate InStep()
      reads this, airConditioner, conveyorBelt
    {
      Synced(State())
    }

    constructor (id: string, roomType: string, options: RoomOptions)
      ensures this.id == id && this.roomType == roomType
      ensures position == (if options.position.Some? then options.position.value else Origin)
      ensures size == (if options.size.Some? then options.size.value else DefaultSize)
      ensures wallColor == WallColorOf(options)
      ensures conveyorType == ConveyorTypeOf(options)
      ensures isHotRoom == IsHotOf(options)
      ensures Valid() && State() == Bare
    {
      this.id := id;
      this.roomType := roomType;
      position := if options.position.Some? then options.position.value else Origin;
      size := if options.size.Some? then options.size.value else DefaultSize;
      wallColor := WallColorOf(options);
      conveyorType := ConveyorTypeOf(options);
      isHotRoom := IsHotOf(options);
      floorColor := None;
      airConditioner := null;
      conveyorBelt := null;
      airconStatus := false;
    }

    /**
     * `create(scene)`: builds the floor, a fresh air conditioner (off) and a
     * fresh belt of the room's type, hot when the room is. The room flag is
     * left as it was, so a room switched on before it was built is out of step
     * with its new unit.
     */
    method Create(draws: seq<real>)
      requires RandomDraws(draws) && |draws| == BoxCount(conveyorType)
      modifies this
      ensures fresh(airConditioner) && fresh(conveyorBelt)
      ensures Valid()
      ensures State() == RoomState(old(airconStatus), Some(FloorColor(roomType, isHotRoom)),
                                   Some(Initial().(created := true)),
                                   Some(Build(InitialBelt(conveyorType), draws)))
      ensures InStep() <==> !airconStatus
    {
      floorColor := Some(FloorColor(roomType, isHotRoom));
      var ac := new AirConditioner();
      ac.Create();
      airConditioner := ac;
      var belt := new ConveyorBelt(conveyorType, isHotRoom);
      belt.Create(draws);
      conveyorBelt := belt;
    }

    /** `setAirconStatus(isOn)`. */
    method SetAirconStatus(isOn: bool)
      requires Valid()
      modifies this, airConditioner
      ensures airConditioner == old(airConditioner) && conveyorBelt == old(conveyorBelt)
      ensures Valid() && State() == WithAircon(old(State()), isOn)
      ensures InStep()
    {
      airconStatus := isOn;
      if airConditioner != null {
        airConditioner.SetPowerStatus(isOn);
      }
    }

    method GetAirconStatus() returns (r: bool)
      ensures r == airconStatus
    {
      r := airconStatus;
    }

    /** `setConveyorSpeed(speed)`. */
    method SetConveyorSpeed(speed: real)
      requires Valid()
      modifies conveyorBelt
      ensures Valid() && State() == WithBeltSpeed(old(State()), speed)
    {
      if conveyorBelt != null {
        conveyorBelt.SetSpeed(speed);
      }
    }

    /** `setConveyorRunning(on)`. */
    method SetConveyorRunning(on: bool)
      requires Valid()
      modifies conveyorBelt
      ensures Valid() && State() == WithBeltRunning(old(State()), on)
    {
      if conveyorBelt != null {
        conveyorBelt.SetRunning(on);
      }
    }

    /** `update()`. */
    method Update()
      requires Valid()
      modifies airConditioner, conveyorBelt
      ensures Valid() && State() == RoomStep(old(State()))
    {
      if airConditioner != null {
        airConditioner.Update();
      }
      if conveyorBelt != null {
        conveyorBelt.Update();
      }
    }

    /** `getCameraPosition()`: above and in front of the room position. */
    method GetCameraPosition() returns (p: Vec3)
      ensures p.x - position.x == CameraOffset.x
      ensures p.y - position.y == CameraOffset.y
      ensures p.z - position.z == CameraOffset.z
    {
      p := Vec3(position.x, position.y + 8.0, position.z + 12.0);
    }
  }
}
