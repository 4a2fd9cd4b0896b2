/**
 * renderer/components/Factory.js: the table of rooms A, B and C, the
 * factory-wide conveyor settings, and the commands it routes to one room or
 * forwards to every room in table order.
 */
module Factories {
  import opened Optional
  import opened Vectors
  import opened Aircon
  import opened Conveyor
  import opened Rooms

  /** What `createRooms` builds for one key of the table. */
  datatype RoomSpec = RoomSpec(
    id: string,
    roomType: string,
    position: Vec3,
    size: Size,
    wallColor: int,
    conveyorType: string,
    isHot: bool)

  /** Every room of the table has this size. */
  const RoomSize := Size(10.0, 4.0, 8.0)

  /** The room table built by `createRooms`, in insertion order. */
  const Layout: seq<RoomSpec> := [
    RoomSpec("A", "assembly", Vec3(-10.0, 0.0, 0.0), RoomSize, 0xE0E0E0, Straight, false),
    RoomSpec("B", "packaging", Vec3(0.0, 0.0, 0.0), RoomSize, 0xE8F5E8, LShape, true),
    RoomSpec("C", "inspection", Vec3(10.0, 0.0, 0.0), RoomSize, 0xE8F0FF, Circular, false)
  ]

  /** The options object `createRooms` passes; only room B carries `isHotRoom`. */
  function OptionsOf(s: RoomSpec): (o: RoomOptions)
    ensures IsHotOf(o) == s.isHot
    ensures s.wallColor != 0 ==> WallColorOf(o) == s.wallColor
    ensures s.conveyorType != "" ==> ConveyorTypeOf(o) == s.conveyorType
  {
    RoomOptions(Some(s.position), Some(s.size), Some(s.wallColor), Some(s.conveyorType),
                if s.isHot then Some(true) else None)
  }

  /** The fixed viewpoints of `getCameraPositions`, by key. */
  function CameraTable(id: string): Option<Vec3>
  {
    match id
    case "A" => Some(Vec3(-10.0, 8.0, 12.0))
    case "B" => Some(Vec3(0.0, 8.0, 12.0))
    case "C" => Some(Vec3(10.0, 8.0, 12.0))
    case _ => None
  }

  /** The camera viewpoint each room computes for itself agrees with the factory's fixed table. */
  lemma CameraTableAgrees(k: nat)
    requires k < |Layout|
    ensures var s := Layout[k];
      CameraTable(s.id) == Some(Vec3(s.position.x + CameraOffset.x, s.position.y + CameraOffset.y,
                                     s.position.z + CameraOffset.z))
  {
  }

  /** The table keys are A, B and C, and only B is hot. */
  lemma LayoutShape()
    ensures |Layout| == 3
    ensures forall k :: 0 <= k < |Layout| ==> (Layout[k].isHot <==> Layout[k].id == "B")
    ensures forall j, k :: 0 <= j < k < |Layout| ==> Layout[j].id != Layout[k].id
  {
  }

  /** No entry of `s` repeats an earlier one. */
  ghost predicate Distinct(s: seq<string>)
  {
    s == [] || (s[|s| - 1] !in s[..|s| - 1] && Distinct(s[..|s| - 1]))
  }

  /** In a duplicate-free list, no entry occurs before its own position. */
  lemma {:induction false} DistinctAt(s: seq<string>, i: nat)
    requires Distinct(s) && i < |s|
    ensures s[i] !in s[..i]
  {
    var n := |s| - 1;
    if i < n {
      DistinctAt(s[..n], i);
      assert s[..n][..i] == s[..i];
    }
  }

  /** A duplicate-free list has as many entries as the set of its entries. */
  lemma {:induction false} DistinctCount(s: seq<string>, keys: set<string>)
    requires Distinct(s)
    requires forall x :: x in keys <==> x in s
    ensures |s| == |keys|
  {
    if s != [] {
      var n := |s| - 1;
      var init := s[..n];
      assert s == init + [s[n]];
      DistinctCount(init, keys - {s[n]});
    }
  }

  /** The three table keys are different strings. */
  lemma KeysDiffer()
    ensures "A" != "B" && "A" != "C" && "B" != "C"
  {
    assert "A"[0] != "B"[0] && "A"[0] != "C"[0] && "B"[0] != "C"[0];
  }

  /** The keys of the table are distinct, and `Layout` lists them in table order. */
  lemma TableKeys()
    ensures "A" != "B" && "A" != "C" && "B" != "C"
    ensures Distinct(["A", "B", "C"])
    ensures forall k :: 0 <= k < |Layout| ==> Layout[k].id == ["A", "B", "C"][k]
  {
    assert "A"[0] != "B"[0] && "A"[0] != "C"[0] && "B"[0] != "C"[0];
    assert ["A", "B", "C"][..2] == ["A", "B"];
    assert ["A", "B"][..1] == ["A"];
    assert ["A"][..0] == [];
  }

  /** `owner` assigns the room and every part it has to the key `id`. */
  ghost predicate Owns(owner: map<object, string>, r: Room, id: string)
    reads r`airConditioner, r`conveyorBelt
  {
    && r in owner && owner[r] == id
    && (r.airConditioner != null ==> r.airConditioner in owner && owner[r.airConditioner] == id)
    && (r.conveyorBelt != null ==> r.conveyorBelt in owner && owner[r.conveyorBelt] == id)
  }

  /** A room of the table is well formed, in step with its unit, and in the state `m` records. */
  ghost predicate RoomOk(r: Room, m: RoomState)
    reads r, r.airConditioner, r.conveyorBelt
  {
    r.Valid() && r.InStep() && r.State() == m
  }

  /**
   * Every room of `rooms`, with its parts, belongs to its own key under
   * `owner`, so no two keys share a room, an air conditioner or a belt; each
   * room is well formed and in the state `m` records.
   */
  ghost predicate RoomsOk(rooms: map<string, Room>, owner: map<object, string>, m: map<string, RoomState>)
    reads owner.Keys
  {
    && m.Keys == rooms.Keys
    && (forall id :: id in rooms ==> rooms[id] in owner && Owns(owner, rooms[id], id) && RoomOk(rooms[id], m[id]))
  }

  /** `order` holds every key of `rooms` exactly once. */
  ghost predicate ListedIn(rooms: map<string, Room>, order: seq<string>)
  {
    Distinct(order) && (forall id :: id in rooms <==> id in order)
  }

  /** `setConveyorSpeed` applied to the rooms listed in `done`. */
  ghost function SpeedForwarded(m: map<string, RoomState>, done: set<string>, speed: real): map<string, RoomState>
  {
    map id | id in m :: if id in done then WithBeltSpeed(m[id], speed) else m[id]
  }

  /** `setConveyorRunning` applied to the rooms listed in `done`. */
  ghost function RunningForwarded(m: map<string, RoomState>, done: set<string>, on: bool): map<string, RoomState>
  {
    map id | id in m :: if id in done then WithBeltRunning(m[id], on) else m[id]
  }

  /** `update` applied to the rooms listed in `done`. */
  ghost function Stepped(m: map<string, RoomState>, done: set<string>): map<string, RoomState>
  {
    map id | id in m :: if id in done then RoomStep(m[id]) else m[id]
  }

  lemma SpeedForwardedStep(m0: map<string, RoomState>, done: set<string>, id: string, speed: real)
    requires id in m0 && id !in done
    ensures var m := SpeedForwarded(m0, done, speed);
      m[id := WithBeltSpeed(m[id], speed)] == SpeedForwarded(m0, done + {id}, speed)
  {
  }

  lemma RunningForwardedStep(m0: map<string, RoomState>, done: set<string>, id: string, on: bool)
    requires id in m0 && id !in done
    ensures var m := RunningForwarded(m0, done, on);
      m[id := WithBeltRunning(m[id], on)] == RunningForwarded(m0, done + {id}, on)
  {
  }

  lemma SteppedStep(m0: map<string, RoomState>, done: set<string>, id: string)
    requires id in m0 && id !in done
    ensures var m := Stepped(m0, done); m[id := RoomStep(m[id])] == Stepped(m0, done + {id})
  {
  }

  /** The random draws behind each belt of the table, one list per entry of `Layout`. */
  ghost predicate DrawsFit(draws: seq<seq<real>>)
  {
    |draws| == |Layout|
    && forall k :: 0 <= k < |Layout| ==> RandomDraws(draws[k]) && |draws[k]| == BoxCount(Layout[k].conveyorType)
  }

  /** A room of the table once `create` has run: off, floored, with a fresh unit and a freshly built belt. */
  function FreshRoom(s: RoomSpec, draws: seq<real>): (r: RoomState)
    requires RandomDraws(draws) && |draws| == BoxCount(s.conveyorType)
    ensures Synced(r) && !r.airconStatus
    ensures r.floor == Some(FloorColor(s.roomType, s.isHot))
  {
    RoomState(false, Some(FloorColor(s.roomType, s.isHot)), Some(Initial().(created := true)),
              Some(Build(InitialBelt(s.conveyorType), draws)))
  }

  /** Entry `k` of the table once the first `i` rooms have been created. */
  ghost function Stage(k: nat, i: nat, draws: seq<seq<real>>): RoomState
    requires k < |Layout| && DrawsFit(draws)
  {
    if k < i then FreshRoom(Layout[k], draws[k]) else Bare
  }

  /** The room states of the table once the first `i` rooms have been created. */
  ghost function Table(i: nat, draws: seq<seq<real>>): map<string, RoomState>
    requires DrawsFit(draws)
  {
    map["A" := Stage(0, i, draws), "B" := Stage(1, i, draws), "C" := Stage(2, i, draws)]
  }

  /** Creating room `i` turns its entry from bare to fresh and leaves the others alone. */
  lemma TableStep(i: nat, draws: seq<seq<real>>)
    requires i < |Layout| && DrawsFit(draws)
    ensures Layout[i].id in Table(i, draws) && Table(i, draws)[Layout[i].id] == Bare
    ensures Table(i, draws)[Layout[i].id := FreshRoom(Layout[i], draws[i])] == Table(i + 1, draws)
  {
    assert "A" != "B" && "A" != "C" && "B" != "C" by {
      assert "A"[0] != "B"[0] && "A"[0] != "C"[0] && "B"[0] != "C"[0];
    }
  }

  /** The per-room part of `getDebugInfo()`. */
  datatype RoomInfo = RoomInfo(position: Vec3, airconStatus: bool, conveyorSpeed: real, isRunning: bool)

  /** `getDebugInfo()`. */
  datatype DebugInfo = DebugInfo(
    totalRooms: nat,
    conveyorSpeed: real,
    isConveyorRunning: bool,
    rooms: map<string, RoomInfo>)

  /** The constructor arguments a room was built from, as its constant fields record them. */
  function SpecOf(r: Room): RoomSpec
  {
    RoomSpec(r.id, r.roomType, r.position, r.size, r.wallColor, r.conveyorType, r.isHotRoom)
  }

  /** Every entry of `Layout` has a room under its key, built from that entry. */
  ghost predicate BuiltAsLaid(rooms: map<string, Room>)
  {
    forall k :: 0 <= k < |Layout| ==> Layout[k].id in rooms && SpecOf(rooms[Layout[k].id]) == Layout[k]
  }

  /** Three rooms built from the entries of `Layout`, under their keys, are built as laid out. */
  lemma PlacedAsLaid(a: Room, b: Room, c: Room)
    requires SpecOf(a) == Layout[0] && SpecOf(b) == Layout[1] && SpecOf(c) == Layout[2]
    ensures var rooms := map["A" := a, "B" := b, "C" := c];
      rooms.Keys == {"A", "B", "C"} && BuiltAsLaid(rooms)
  {
    TableKeys();
  }

  /** Three distinct bare rooms under keys A, B and C, each owned by its key, satisfy the table invariant. */
  lemma PlacedOk(a: Room, b: Room, c: Room, owner: map<object, string>)
    requires a != b && a != c && b != c
    requires a.Valid() && a.State() == Bare && b.Valid() && b.State() == Bare && c.Valid() && c.State() == Bare
    ensures var rooms := map["A" := a, "B" := b, "C" := c];
      && RoomsOk(rooms, owner[a := "A"][b := "B"][c := "C"], map["A" := Bare, "B" := Bare, "C" := Bare])
      && ListedIn(rooms, ["A", "B", "C"])
  {
    TableKeys();
  }

  /** The constructor call `createRooms` makes for entry `k` of the table. */
  method NewRoom(k: nat) returns (r: Room)
    requires k < |Layout|
    ensures fresh(r) && r.Valid() && r.State() == Bare && SpecOf(r) == Layout[k]
  {
    var s := Layout[k];
    r := new Room(s.id, s.roomType, OptionsOf(s));
  }

  /** The three constructor calls of `createRooms`, one per entry of `Layout`. */
  method NewRooms() returns (a: Room, b: Room, c: Room)
    ensures fresh(a) && fresh(b) && fresh(c) && a != b && a != c && b != c
    ensures a.Valid() && a.State() == Bare && b.Valid() && b.State() == Bare && c.Valid() && c.State() == Bare
    ensures SpecOf(a) == Layout[0] && SpecOf(b) == Layout[1] && SpecOf(c) == Layout[2]
  {
    a := NewRoom(0);
    b := NewRoom(1);
    c := NewRoom(2);
  }

  /** Giving the new parts of the room under `key` to that key keeps every room owned and recorded. */
  lemma Registered(rooms: map<string, Room>, owner: map<object, string>, m: map<string, RoomState>, key: string)
    requires key in rooms && m.Keys == rooms.Keys
    requires forall id :: id in rooms && id != key ==>
      rooms[id] in owner && Owns(owner, rooms[id], id) && RoomOk(rooms[id], m[id])
    requires rooms[key] in owner && owner[rooms[key]] == key
    requires rooms[key].airConditioner != null && rooms[key].airConditioner !in owner
    requires rooms[key].conveyorBelt != null && rooms[key].conveyorBelt !in owner
    requires rooms[key].Valid() && rooms[key].InStep()
    ensures var r := rooms[key];
      RoomsOk(rooms, owner[r.airConditioner := key][r.conveyorBelt := key], m[key := r.State()])
  {
    var r := rooms[key];
    var owner' := owner[r.airConditioner := key][r.conveyorBelt := key];
    forall id | id in rooms && id != key
      ensures Owns(owner', rooms[id], id)
    {
    }
  }

  /** The rooms other than `key` are as recorded, so recording the state of `key` as well restores the table invariant. */
  lemma Reinstated(rooms: map<string, Room>, owner: map<object, string>, m: map<string, RoomState>, key: string)
    requires key in rooms && m.Keys == rooms.Keys
    requires forall id :: id in rooms && id != key ==>
      rooms[id] in owner && Owns(owner, rooms[id], id) && RoomOk(rooms[id], m[id])
    requires Owns(owner, rooms[key], key)
    requires rooms[key].Valid() && rooms[key].InStep() && rooms[key].State() == m[key]
    ensures RoomsOk(rooms, owner, m)
  {
  }

  class Factory {
    var rooms: map<string, Room>
    /** The keys of `rooms` in insertion order, the order `Object.values` visits them. */
    var roomOrder: seq<string>
    var conveyorSpeed: real
    var isConveyorRunning: bool
    /** The rooms and their parts, each mapped to the key of the room it belongs to. */
    ghost var Owner: map<object, string>
    /** The state of every room, by key. */
    ghost var Model: map<string, RoomState>

    /** Every room is owned by its key, well formed, in step with its unit, and in the state `m` records. */
    ghost predicate Inv(m: map<string, RoomState>)
      reads this`rooms, this`Owner, Owner.Keys
    {
      this !in Owner && RoomsOk(rooms, Owner, m)
    }

    /** The listing order holds every key of the table exactly once. */
    ghost predicate Listed()
      reads this`rooms, this`roomOrder
    {
      ListedIn(rooms, roomOrder)
    }

    ghost predicate Valid()
      reads this`rooms, this`roomOrder, this`Model, this`Owner, Owner.Keys
    {
      Inv(Model) && Listed()
    }

    constructor ()
      ensures Valid() && Owner == map[]
      ensures rooms == map[] && roomOrder == []
      ensures conveyorSpeed == InitialSpeed && isConveyorRunning
    {
      rooms := map[];
      roomOrder := [];
      conveyorSpeed := 0.5;
      isConveyorRunning := true;
      Owner := map[];
      Model := map[];
    }

    /**
     * `createRooms()` on the empty table the constructor leaves: rooms A, B
     * and C are constructed as `Layout` says, then created in table order.
     * `draws` holds the random draws behind each belt's boxes.
     */
    method CreateRooms(draws: seq<seq<real>>)
      requires Valid() && rooms == map[]
      requires DrawsFit(draws)
      modifies this`rooms, this`roomOrder, this`Owner, this`Model, Owner.Keys
      ensures Valid()
      ensures roomOrder == ["A", "B", "C"] && rooms.Keys == {"A", "B", "C"}
      ensures BuiltAsLaid(rooms)
      ensures Model == Table(|Layout|, draws)
      ensures conveyorSpeed == old(conveyorSpeed) && isConveyorRunning == old(isConveyorRunning)
    {
      PlaceRooms();
      CreateAll(draws);
    }

    /** The loop of `createRooms` that calls `create` on every room in table order. */
    method CreateAll(draws: seq<seq<real>>)
      requires Valid() && DrawsFit(draws)
      requires roomOrder == ["A", "B", "C"] && rooms.Keys == {"A", "B", "C"}
      requires BuiltAsLaid(rooms)
      requires Model == map["A" := Bare, "B" := Bare, "C" := Bare]
      modifies this`Owner, this`Model, Owner.Keys
      ensures Valid() && Model == Table(|Layout|, draws)
      ensures conveyorSpeed == old(conveyorSpeed) && isConveyorRunning == old(isConveyorRunning)
    {
      TableKeys();
      assert Model == Table(0, draws);
      var i := 0;
      while i < |Layout|
        modifies this`Owner, this`Model, Owner.Keys
        invariant i <= |Layout| && Valid() && BuiltAsLaid(rooms)
        invariant Model == Table(i, draws)
        invariant conveyorSpeed == old(conveyorSpeed) && isConveyorRunning == old(isConveyorRunning)
      {
        CreateNext(i, draws);
        i := i + 1;
      }
    }

    /** One turn of the loop of `createRooms`: `create` on the room under `Layout[i].id`. */
    method CreateNext(i: nat, draws: seq<seq<real>>)
      requires Valid() && i < |Layout| && DrawsFit(draws)
      requires BuiltAsLaid(rooms) && Model == Table(i, draws)
      modifies this`Owner, this`Model, rooms[Layout[i].id]
      ensures Valid() && BuiltAsLaid(rooms) && Model == Table(i + 1, draws)
      ensures conveyorSpeed == old(conveyorSpeed) && isConveyorRunning == old(isConveyorRunning)
    {
      TableStep(i, draws);
      CreateStep(i, draws);
    }

    /** The constructor calls of `createRooms`: three bare rooms under keys A, B and C. */
    method PlaceRooms()
      requires Valid() && rooms == map[]
      modifies this`rooms, this`roomOrder, this`Owner, this`Model
      ensures Valid() && fresh(Owner.Keys - old(Owner.Keys))
      ensures roomOrder == ["A", "B", "C"] && rooms.Keys == {"A", "B", "C"}
      ensures BuiltAsLaid(rooms)
      ensures Model == map["A" := Bare, "B" := Bare, "C" := Bare]
      ensures conveyorSpeed == old(conveyorSpeed) && isConveyorRunning == old(isConveyorRunning)
    {
      var a, b, c := NewRooms();
      Install(a, b, c);
      PlacedAsLaid(a, b, c);
    }

    /** Puts three distinct bare rooms into the empty table under keys A, B and C. */
    method Install(a: Room, b: Room, c: Room)
      requires this !in Owner
      requires a != b && a != c && b != c
      requires a.Valid() && a.State() == Bare && b.Valid() && b.State() == Bare && c.Valid() && c.State() == Bare
      requires SpecOf(a) == Layout[0] && SpecOf(b) == Layout[1] && SpecOf(c) == Layout[2]
      modifies this`rooms, this`roomOrder, this`Owner, this`Model
      ensures Valid() && Owner == old(Owner)[a := "A"][b := "B"][c := "C"]
      ensures rooms == map["A" := a, "B" := b, "C" := c] && roomOrder == ["A", "B", "C"]
      ensures Model == map["A" := Bare, "B" := Bare, "C" := Bare]
    {
      ghost var owner := Owner;
      rooms, roomOrder, Owner, Model :=
        map["A" := a, "B" := b, "C" := c], ["A", "B", "C"], Owner[a := "A"][b := "B"][c := "C"],
        map["A" := Bare, "B" := Bare, "C" := Bare];
      PlacedOk(a, b, c, owner);
    }

    /** The `create` call of `createRooms` on the room under `Layout[i].id`. */
    method CreateStep(i: nat, draws: seq<seq<real>>)
      requires Valid() && i < |Layout| && DrawsFit(draws)
      requires Layout[i].id in rooms && SpecOf(rooms[Layout[i].id]) == Layout[i]
      requires Model[Layout[i].id] == Bare
      modifies this`Owner, this`Model, rooms[Layout[i].id]
      ensures Valid()
      ensures Model == old(Model)[Layout[i].id := FreshRoom(Layout[i], draws[i])]
    {
      var key := Layout[i].id;
      var room := rooms[key];
      room.Create(draws[i]);
      forall id | id in rooms && id != key
        ensures rooms[id] in Owner && Owns(Owner, rooms[id], id) && RoomOk(rooms[id], Model[id])
      {
        assert old(Owns(Owner, rooms[id], id));
      }
      Register(key);
    }

    /** Records the parts the room under `key` has just built as that key's own. */
    method Register(key: string)
      requires this !in Owner && Listed() && key in rooms && Model.Keys == rooms.Keys
      requires forall id :: id in rooms && id != key ==>
        rooms[id] in Owner && Owns(Owner, rooms[id], id) && RoomOk(rooms[id], Model[id])
      requires rooms[key] in Owner && Owner[rooms[key]] == key
      requires rooms[key].airConditioner != null && rooms[key].airConditioner !in Owner
      requires rooms[key].conveyorBelt != null && rooms[key].conveyorBelt !in Owner
      requires rooms[key].Valid() && rooms[key].InStep()
      modifies this`Owner, this`Model
      ensures Valid() && Model == old(Model)[key := rooms[key].State()]
    {
      var room := rooms[key];
      Registered(rooms, Owner, Model, key);
      Owner, Model := Owner[room.airConditioner := key][room.conveyorBelt := key], Model[key := room.State()];
    }

    /** `setAirconStatus(roomId, isOn)`: only the named room changes; an unknown key changes nothing. */
    method SetAirconStatus(roomId: string, isOn: bool)
      requires Valid()
      modifies this, Owner.Keys
      ensures Valid() && Owner == old(Owner)
      ensures rooms == old(rooms) && roomOrder == old(roomOrder)
      ensures conveyorSpeed == old(conveyorSpeed) && isConveyorRunning == old(isConveyorRunning)
      ensures roomId in rooms ==> Model == old(Model)[roomId := WithAircon(old(Model)[roomId], isOn)]
      ensures roomId !in rooms ==> Model == old(Model)
    {
      if roomId in rooms {
        ForwardAircon(roomId, isOn);
      }
    }

    /** Forwards `setAirconStatus` to the room under `key`. */
    method ForwardAircon(key: string, isOn: bool)
      requires Valid() && key in rooms
      modifies this`Model, rooms[key], rooms[key].airConditioner
      ensures Valid() && Model == old(Model)[key := WithAircon(old(Model)[key], isOn)]
    {
      var room := rooms[key];
      room.SetAirconStatus(isOn);
      Model := Model[key := room.State()];
      forall id | id in rooms && id != key
        ensures rooms[id] in Owner && Owns(Owner, rooms[id], id) && RoomOk(rooms[id], Model[id])
      {
        assert old(Owns(Owner, rooms[id], id));
      }
      Reinstated(rooms, Owner, Model, key);
    }

    /** `getAirconStatus(roomId)`: the room's flag, or false for an unknown key. */
    method GetAirconStatus(roomId: string) returns (r: bool)
      requires Valid()
      ensures r <==> roomId in rooms && Model[roomId].airconStatus
    {
      if roomId in rooms {
        r := rooms[roomId].GetAirconStatus();
      } else {
        r := false;
      }
    }

    /** `setConveyorSpeed(speed)`: stored as given and forwarded to every room in table order. */
    method SetConveyorSpeed(speed: real)
      requires Valid()
      modifies this, Owner.Keys
      ensures Valid() && Owner == old(Owner)
      ensures rooms == old(rooms) && roomOrder == old(roomOrder)
      ensures conveyorSpeed == speed && isConveyorRunning == old(isConveyorRunning)
      ensures Model == SpeedForwarded(old(Model), old(rooms).Keys, speed)
    {
      conveyorSpeed := speed;
      ForwardSpeedAll(speed);
    }

    /** The loop of `setConveyorSpeed` over the rooms in table order. */
    method ForwardSpeedAll(speed: real)
      requires Valid()
      modifies this`Model, Owner.Keys
      ensures Valid() && Model == SpeedForwarded(old(Model), rooms.Keys, speed)
    {
      var i := 0;
      while i < |roomOrder|
        modifies this`Model, Owner.Keys
        invariant 0 <= i <= |roomOrder|
        invariant Valid()
        invariant Model == SpeedForwarded(old(Model), Done(i), speed)
      {
        SpeedStep(i, speed, old(Model));
        i := i + 1;
      }
      DoneAll();
    }

    /** Iteration `i` of `setConveyorSpeed`'s loop. */
    method SpeedStep(i: nat, speed: real, ghost m0: map<string, RoomState>)
      requires Valid() && i < |roomOrder|
      requires Model == SpeedForwarded(m0, Done(i), speed)
      modifies this`Model, rooms[roomOrder[i]].conveyorBelt
      ensures Valid()
      ensures Model == SpeedForwarded(m0, Done(i + 1), speed)
    {
      var key := roomOrder[i];
      assert key in Model;
      DoneStep(i);
      SpeedForwardedStep(m0, Done(i), key, speed);
      ForwardSpeed(key, speed);
    }

    /** `setConveyorRunning(on)`: stored and forwarded to every room in table order. */
    method SetConveyorRunning(on: bool)
      requires Valid()
      modifies this, Owner.Keys
      ensures Valid() && Owner == old(Owner)
      ensures rooms == old(rooms) && roomOrder == old(roomOrder)
      ensures conveyorSpeed == old(conveyorSpeed) && isConveyorRunning == on
      ensures Model == RunningForwarded(old(Model), old(rooms).Keys, on)
    {
      isConveyorRunning := on;
      ForwardRunningAll(on);
    }

    /** The loop of `setConveyorRunning` over the rooms in table order. */
    method ForwardRunningAll(on: bool)
      requires Valid()
      modifies this`Model, Owner.Keys
      ensures Valid() && Model == RunningForwarded(old(Model), rooms.Keys, on)
    {
      var i := 0;
      while i < |roomOrder|
        modifies this`Model, Owner.Keys
        invariant 0 <= i <= |roomOrder|
        invariant Valid()
        invariant Model == RunningForwarded(old(Model), Done(i), on)
      {
        RunningStep(i, on, old(Model));
        i := i + 1;
      }
      DoneAll();
    }

    /** Iteration `i` of `setConveyorRunning`'s loop. */
    method RunningStep(i: nat, on: bool, ghost m0: map<string, RoomState>)
      requires Valid() && i < |roomOrder|
      requires Model == RunningForwarded(m0, Done(i), on)
      modifies this`Model, rooms[roomOrder[i]].conveyorBelt
      ensures Valid()
      ensures Model == RunningForwarded(m0, Done(i + 1), on)
    {
      var key := roomOrder[i];
      assert key in Model;
      DoneStep(i);
      RunningForwardedStep(m0, Done(i), key, on);
      ForwardRunning(key, on);
    }

    /** `update()`: one frame for every room, in table order. */
    method Update()
      requires Valid()
      modifies this, Owner.Keys
      ensures Valid() && Owner == old(Owner)
      ensures rooms == old(rooms) && roomOrder == old(roomOrder)
      ensures conveyorSpeed == old(conveyorSpeed) && isConveyorRunning == old(isConveyorRunning)
      ensures Model == Stepped(old(Model), old(rooms).Keys)
    {
      StepAll();
    }

    /** The loop of `update` over the rooms in table order. */
    method StepAll()
      requires Valid()
      modifies this`Model, Owner.Keys
      ensures Valid() && Model == Stepped(old(Model), rooms.Keys)
    {
      var i := 0;
      while i < |roomOrder|
        modifies this`Model, Owner.Keys
        invariant 0 <= i <= |roomOrder|
        invariant Valid()
        invariant Model == Stepped(old(Model), Done(i))
      {
        UpdateStep(i, old(Model));
        i := i + 1;
      }
      DoneAll();
    }

    /** Iteration `i` of `update`'s loop. */
    method UpdateStep(i: nat, ghost m0: map<string, RoomState>)
      requires Valid() && i < |roomOrder|
      requires Model == Stepped(m0, Done(i))
      modifies this`Model, rooms[roomOrder[i]].airConditioner, rooms[roomOrder[i]].conveyorBelt
      ensures Valid()
      ensures Model == Stepped(m0, Done(i + 1))
    {
      var key := roomOrder[i];
      assert key in Model;
      DoneStep(i);
      SteppedStep(m0, Done(i), key);
      StepRoom(key);
    }

    /** Forwards `setConveyorSpeed` to the room under `key`. */
    method ForwardSpeed(key: string, speed: real)
      requires Valid() && key in rooms
      modifies this`Model, rooms[key].conveyorBelt
      ensures Valid() && Model == old(Model)[key := WithBeltSpeed(old(Model)[key], speed)]
    {
      var room := rooms[key];
      room.SetConveyorSpeed(speed);
      Model := Model[key := room.State()];
      forall id | id in rooms && id != key
        ensures rooms[id] in Owner && Owns(Owner, rooms[id], id) && RoomOk(rooms[id], Model[id])
      {
        assert old(Owns(Owner, rooms[id], id));
      }
      Reinstated(rooms, Owner, Model, key);
    }

    /** Forwards `setConveyorRunning` to the room under `key`. */
    method ForwardRunning(key: string, on: bool)
      requires Valid() && key in rooms
      modifies this`Model, rooms[key].conveyorBelt
      ensures Valid() && Model == old(Model)[key := WithBeltRunning(old(Model)[key], on)]
    {
      var room := rooms[key];
      room.SetConveyorRunning(on);
      Model := Model[key := room.State()];
      forall id | id in rooms && id != key
        ensures rooms[id] in Owner && Owns(Owner, rooms[id], id) && RoomOk(rooms[id], Model[id])
      {
        assert old(Owns(Owner, rooms[id], id));
      }
      Reinstated(rooms, Owner, Model, key);
    }

    /** Runs `update` on the room under `key`. */
    method StepRoom(key: string)
      requires Valid() && key in rooms
      modifies this`Model, rooms[key].airConditioner, rooms[key].conveyorBelt
      ensures Valid() && Model == old(Model)[key := RoomStep(old(Model)[key])]
    {
      var room := rooms[key];
      room.Update();
      Model := Model[key := room.State()];
      forall id | id in rooms && id != key
        ensures rooms[id] in Owner && Owns(Owner, rooms[id], id) && RoomOk(rooms[id], Model[id])
      {
        assert old(Owns(Owner, rooms[id], id));
      }
      Reinstated(rooms, Owner, Model, key);
    }

    /** The keys the forwarding loops have visited after `i` steps. */
    ghost function Done(i: nat): set<string>
      requires i <= |roomOrder|
      reads this`roomOrder
    {
      set k | k in roomOrder[..i]
    }

    lemma DoneStep(i: nat)
      requires Valid() && i < |roomOrder|
      ensures Done(i + 1) == Done(i) + {roomOrder[i]}
      ensures roomOrder[i] !in Done(i)
    {
      DistinctAt(roomOrder, i);
      assert roomOrder[..i + 1] == roomOrder[..i] + [roomOrder[i]];
    }

    lemma DoneAll()
      requires Valid()
      ensures Done(|roomOrder|) == rooms.Keys
    {
      assert roomOrder[..|roomOrder|] == roomOrder;
    }

    /** `getRoom(roomId)`: the room under that key, or nothing. */
    method GetRoom(roomId: string) returns (r: Room?)
      ensures r != null <==> roomId in rooms
      ensures roomId in rooms ==> r == rooms[roomId]
    {
      r := if roomId in rooms then rooms[roomId] else null;
    }

    /** `getDebugInfo()`: one entry per room, and the room count. */
    method GetDebugInfo() returns (info: DebugInfo)
      requires Valid()
      ensures info.totalRooms == |rooms|
      ensures info.conveyorSpeed == conveyorSpeed && info.isConveyorRunning == isConveyorRunning
      ensures info.rooms.Keys == rooms.Keys
      ensures forall id :: id in rooms ==>
        info.rooms[id] == RoomInfo(rooms[id].position, Model[id].airconStatus, conveyorSpeed, isConveyorRunning)
    {
      var entries: map<string, RoomInfo> := map[];
      var i := 0;
      while i < |roomOrder|
        invariant 0 <= i <= |roomOrder|
        invariant forall id :: id in entries <==> id in roomOrder[..i]
        invariant forall id :: id in entries ==>
          (id in rooms && entries[id] == RoomInfo(rooms[id].position, rooms[id].airconStatus, conveyorSpeed, isConveyorRunning))
      {
        var room := rooms[roomOrder[i]];
        var status := room.GetAirconStatus();
        entries := entries[roomOrder[i] := RoomInfo(room.position, status, conveyorSpeed, isConveyorRunning)];
        assert roomOrder[..i + 1] == roomOrder[..i] + [roomOrder[i]];
        i := i + 1;
      }
      assert roomOrder[..i] == roomOrder;
      DistinctCount(roomOrder, rooms.Keys);
      info := DebugInfo(|roomOrder|, conveyorSpeed, isConveyorRunning, entries);
    }
  }
}
