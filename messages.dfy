/**
 * The pure parts of renderer/app.js: turning an inbound (topic, payload) into a
 * room update (`handleMQTTMessage`), building the outbound control commands
 * (`toggleAircon`, `toggleAllAircons`) and mapping keys to actions (`onKeyDown`).
 */
module Messages {
  import opened Optional
  import Json
  import Mqtt

  const TopicPrefix: string := "kiot/zenit/room-"
  const TopicSuffix: string := "/aircon/control"
  const RoomMarker: string := "room-"
  /** The letters `/room-([abc])/` accepts. */
  const RoomLetters: string := "abc"
  /** The room identifiers of the factory's room table. */
  const RoomIds: set<string> := {"A", "B", "C"}

  /** A validated inbound event: `factory.setAirconStatus(roomId, isOn)`. */
  datatype Update = Update(roomId: string, isOn: bool)

  /** An outbound control command: a topic and the object given to `JSON.stringify`. */
  datatype Command = Command(topic: string, payload: Json.Value)

  // ---------------------------------------------------------------- characters

  function UpperChar(c: char): char { if 'a' <= c <= 'z' then (c as int - 32) as char else c }
  function LowerChar(c: char): char { if 'A' <= c <= 'Z' then (c as int + 32) as char else c }

  function Upper(s: string): (r: string)
    ensures |r| == |s| && forall i :: 0 <= i < |s| ==> r[i] == UpperChar(s[i])
  {
    if s == [] then [] else [UpperChar(s[0])] + Upper(s[1..])
  }

  function Lower(s: string): (r: string)
    ensures |r| == |s| && forall i :: 0 <= i < |s| ==> r[i] == LowerChar(s[i])
  {
    if s == [] then [] else [LowerChar(s[0])] + Lower(s[1..])
  }

  // ---------------------------------------------------------------- substring search

  /** `pat` occurs in `s` at index `i`. */
  predicate OccursAt(s: string, pat: string, i: nat)
  {
    i + |pat| <= |s| && s[i..i + |pat|] == pat
  }

  /** The first index at or after `from` where `pat` occurs. */
  function FindFrom(s: string, pat: string, from: nat): (r: Option<nat>)
    requires from <= |s|
    decreases |s| - from
    ensures r.Some? ==> (from <= r.value && OccursAt(s, pat, r.value)
      && forall j :: from <= j < r.value ==> !OccursAt(s, pat, j))
    ensures r.None? ==> forall j :: from <= j ==> !OccursAt(s, pat, j)
  {
    if from + |pat| > |s| then None
    else if OccursAt(s, pat, from) then Some(from)
    else FindFrom(s, pat, from + 1)
  }

  /** `s.replace(pat, '')` with a string pattern: drops the first occurrence only. */
  function RemoveFirst(s: string, pat: string): (r: string)
    ensures FindFrom(s, pat, 0).None? ==> r == s
    ensures FindFrom(s, pat, 0).Some? ==> |r| == |s| - |pat|
    ensures FindFrom(s, pat, 0).Some? ==>
      var i := FindFrom(s, pat, 0).value; i <= |r| && s == r[..i] + pat + r[i..]
  {
    match FindFrom(s, pat, 0)
    case None => s
    case Some(i) => s[..i] + s[i + |pat|..]
  }

  // ---------------------------------------------------------------- inbound

  /** `/room-([abc])/` matches at index `i`. */
  predicate RoomMatchAt(topic: string, i: nat)
  {
    OccursAt(topic, RoomMarker, i) && i + 5 < |topic| && topic[i + 5] in RoomLetters
  }

  /** The leftmost match of `/room-([abc])/` at or after `from`. */
  function FindRoomFrom(topic: string, from: nat): (r: Option<nat>)
    requires from <= |topic|
    decreases |topic| - from
    ensures r.Some? ==> (from <= r.value && RoomMatchAt(topic, r.value)
      && forall j :: from <= j < r.value ==> !RoomMatchAt(topic, j))
    ensures r.None? ==> forall j :: from <= j ==> !RoomMatchAt(topic, j)
  {
    if from + 6 > |topic| then None
    else if RoomMatchAt(topic, from) then Some(from)
    else FindRoomFrom(topic, from + 1)
  }

  /** The captured letter of `topic.match(/room-([abc])/)`, if any. */
  function RoomLetter(topic: string): (r: Option<char>)
    ensures r.Some? <==> exists i :: RoomMatchAt(topic, i)
    ensures r.Some? ==> (r.value in RoomLetters
      && exists i :: (RoomMatchAt(topic, i) && topic[i + 5] == r.value
                      && forall j :: 0 <= j < i ==> !RoomMatchAt(topic, j)))
  {
    match FindRoomFrom(topic, 0)
    case None => None
    case Some(i) => Some(topic[i + 5])
  }

  /** Reading `data.power`: absent on non-objects, a TypeError on `null`. */
  datatype Field = Present(value: Json.Value) | Missing | Throws

  function PowerField(data: Json.Value): (r: Field)
    ensures r.Throws? <==> data.Null?
    ensures r.Present? <==> data.Object? && "power" in data.members
    ensures r.Present? ==> r.value == data.members["power"]
  {
    match data
    case Null => Throws
    case Object(m) => if "power" in m then Present(m["power"]) else Missing
    case _ => Missing
  }

  /** Power normalisation: a string is on iff it lower-cases to "on"; a boolean is used as is. */
  function IsOn(power: Field): bool
  {
    match power
    case Present(v) => if v.String? then Lower(v.s) == "on" else if v.Bool? then v.b else false
    case _ => false
  }

  /**
   * `handleMQTTMessage` with the result of `JSON.parse` (absent when it threw):
   * the update handed to `factory.setAirconStatus`, if any.
   */
  function HandleMessage(topic: string, parsed: Option<Json.Value>): (r: Option<Update>)
    ensures r.Some? <==> parsed.Some? && !parsed.value.Null? && RoomLetter(topic).Some?
    ensures r.Some? ==> (r.value.roomId in RoomIds
      && r.value.roomId == [UpperChar(RoomLetter(topic).value)]
      && r.value.isOn == IsOn(PowerField(parsed.value)))
  {
    match parsed
    case None => None
    case Some(data) =>
      match RoomLetter(topic)
      case None => None
      case Some(c) =>
        var power := PowerField(data);
        if power.Throws? then None else Some(Update([UpperChar(c)], IsOn(power)))
  }

  /** A string power value is "on" exactly for the four capitalisations of "on". */
  lemma {:induction false} StringPowerOn(s: string)
    ensures IsOn(Present(Json.String(s))) <==> s in {"on", "On", "oN", "ON"}
  {
    if |s| == 2 {
      assert Lower(s) == [LowerChar(s[0]), LowerChar(s[1])];
      assert s == [s[0], s[1]];
    } else {
      assert |Lower(s)| != 2;
    }
  }

  /** A boolean power value is taken as is; any other type, or no field, is off. */
  lemma PowerOfOtherTypes(data: Json.Value)
    ensures data.Object? && "power" in data.members && data.members["power"].Bool? ==>
      IsOn(PowerField(data)) == data.members["power"].b
    ensures (!data.Object? || "power" !in data.members) ==> !IsOn(PowerField(data))
    ensures (data.Object? && "power" in data.members && !data.members["power"].Bool?
      && !data.members["power"].String?) ==> !IsOn(PowerField(data))
  {
  }

  // ---------------------------------------------------------------- outbound

  function ControlTopic(room: string): string { TopicPrefix + room + TopicSuffix }

  /** The object `{power, timestamp}` a command carries. */
  function CommandPayload(power: bool, timestamp: string): Json.Value
  {
    Json.Object(map["power" := Json.Bool(power), "timestamp" := Json.String(timestamp)])
  }

  /** The room key `toggleAircon` reads: `roomId.replace('room-', '').toUpperCase()`. */
  function ToggleRoomKey(roomId: string): string { Upper(RemoveFirst(roomId, RoomMarker)) }

  /** The command `toggleAircon(roomId)` publishes when the current status is `current`. */
  function ToggleCommand(roomId: string, current: bool, timestamp: string): (r: Command)
    ensures r.payload.Object? && "power" in r.payload.members
    ensures r.payload.members["power"] == Json.Bool(!current)
  {
    Command(ControlTopic(RemoveFirst(roomId, RoomMarker)), CommandPayload(!current, timestamp))
  }

  /**
   * The three commands `toggleAllAircons` publishes, rooms a, b, c in order;
   * each reads the clock anew, so each has its own timestamp.
   */
  function AllOffCommands(stamps: seq<string>): (r: seq<Command>)
    requires |stamps| == 3
    ensures |r| == 3
    ensures forall i :: 0 <= i < 3 ==>
      r[i] == Command(ControlTopic([RoomLetters[i]]), CommandPayload(false, stamps[i]))
  {
    seq(3, i requires 0 <= i < 3 => Command(ControlTopic([RoomLetters[i]]), CommandPayload(false, stamps[i])))
  }

  /** A topic with no `room-` marker before `room-<x>` is matched at the marker. */
  lemma {:induction false} RoomLetterAfterPrefix(prefix: string, x: char, rest: string)
    requires x in RoomLetters
    requires forall j :: 0 <= j < |prefix| ==> prefix[j] != 'r'
    ensures RoomLetter(prefix + RoomMarker + [x] + rest) == Some(x)
  {
    var t := prefix + RoomMarker + [x] + rest;
    var n := |prefix|;
    assert t[n..n + 5] == RoomMarker;
    assert t[n + 5] == x;
    assert RoomMatchAt(t, n);
    forall j | 0 <= j < n
      ensures !RoomMatchAt(t, j)
    {
      assert t[j] == prefix[j] != RoomMarker[0];
      if j + 5 <= |t| {
        assert t[j..j + 5][0] == t[j];
      }
    }
    var r := FindRoomFrom(t, 0);
    assert r == Some(n);
  }

  /** Topic round trip: the control topic of room x is matched as room x. */
  lemma ControlTopicRoundTrip(x: char)
    requires x in RoomLetters
    ensures RoomLetter(ControlTopic([x])) == Some(x)
  {
    var prefix := "kiot/zenit/";
    assert TopicPrefix == prefix + RoomMarker;
    assert ControlTopic([x]) == prefix + RoomMarker + [x] + TopicSuffix;
    RoomLetterAfterPrefix(prefix, x, TopicSuffix);
  }

  /** Any non-null payload on room x's control topic updates room X with its normalised power. */
  lemma MessageOnControlTopic(x: char, data: Json.Value)
    requires x in RoomLetters && !data.Null?
    ensures HandleMessage(ControlTopic([x]), Some(data)) == Some(Update([UpperChar(x)], IsOn(PowerField(data))))
  {
    ControlTopicRoundTrip(x);
  }

  /** A command published for room x, fed back through the normaliser, sets room X to its power. */
  lemma CommandRoundTrip(x: char, power: bool, timestamp: string)
    requires x in RoomLetters
    ensures HandleMessage(ControlTopic([x]), Some(CommandPayload(power, timestamp)))
      == Some(Update([UpperChar(x)], power))
  {
    MessageOnControlTopic(x, CommandPayload(power, timestamp));
  }

  /** `toggleAircon("room-x")` targets room x's control topic and asks for the negated status of room X. */
  lemma ToggleRoundTrip(x: char, current: bool, timestamp: string)
    requires x in RoomLetters
    ensures ToggleRoomKey(RoomMarker + [x]) == [UpperChar(x)]
    ensures var cmd := ToggleCommand(RoomMarker + [x], current, timestamp);
      cmd.topic == ControlTopic([x])
      && HandleMessage(cmd.topic, Some(cmd.payload)) == Some(Update([UpperChar(x)], !current))
  {
    var s := RoomMarker + [x];
    assert OccursAt(s, RoomMarker, 0);
    assert FindFrom(s, RoomMarker, 0) == Some(0);
    assert RemoveFirst(s, RoomMarker) == [x];
    assert Upper([x]) == [UpperChar(x)];
    CommandRoundTrip(x, !current, timestamp);
  }

  /** Each all-off command, fed back through the normaliser, switches off its own room: A, B, then C. */
  lemma AllOffRoundTrip(stamps: seq<string>)
    requires |stamps| == 3
    ensures var r := AllOffCommands(stamps);
      && HandleMessage(r[0].topic, Some(r[0].payload)) == Some(Update("A", false))
      && HandleMessage(r[1].topic, Some(r[1].payload)) == Some(Update("B", false))
      && HandleMessage(r[2].topic, Some(r[2].payload)) == Some(Update("C", false))
  {
    CommandRoundTrip('a', false, stamps[0]);
    CommandRoundTrip('b', false, stamps[1]);
    CommandRoundTrip('c', false, stamps[2]);
  }

  /** Entry `i` of the subscription list is the control topic of the `i`-th room letter. */
  lemma SubscribedTopic(i: nat)
    requires i < 3
    ensures Mqtt.SubscribeTopics[i] == ControlTopic([RoomLetters[i]])
  {
    if i == 0 {
      assert Mqtt.SubscribeTopics[0] == ControlTopic("a");
    } else if i == 1 {
      assert Mqtt.SubscribeTopics[1] == ControlTopic("b");
    } else {
      assert Mqtt.SubscribeTopics[2] == ControlTopic("c");
    }
  }

  /** The subscribed topics are the control topics of rooms a, b and c, matched as A, B and C. */
  lemma SubscriptionsAreControlTopics()
    ensures |Mqtt.SubscribeTopics| == 3
    ensures forall i :: 0 <= i < 3 ==> Mqtt.SubscribeTopics[i] == ControlTopic([RoomLetters[i]])
    ensures forall i :: 0 <= i < 3 ==> RoomLetter(Mqtt.SubscribeTopics[i]) == Some(RoomLetters[i])
  {
    forall i | 0 <= i < 3
      ensures Mqtt.SubscribeTopics[i] == ControlTopic([RoomLetters[i]])
      ensures RoomLetter(Mqtt.SubscribeTopics[i]) == Some(RoomLetters[i])
    {
      SubscribedTopic(i);
      ControlTopicRoundTrip(RoomLetters[i]);
    }
  }

  /** The test fixture turns A on, B on and C off. */
  lemma TestMessagesOutcome(timestamp: string)
    ensures var m := Mqtt.TestMessages(timestamp);
      && HandleMessage(m[0].0, Some(m[0].1)) == Some(Update("A", true))
      && HandleMessage(m[1].0, Some(m[1].1)) == Some(Update("B", true))
      && HandleMessage(m[2].0, Some(m[2].1)) == Some(Update("C", false))
  {
    var m := Mqtt.TestMessages(timestamp);
    SubscribedTopic(0);
    SubscribedTopic(1);
    SubscribedTopic(2);
    StringPowerOn("on");
    StringPowerOn("off");
    MessageOnControlTopic(RoomLetters[0], m[0].1);
    MessageOnControlTopic(RoomLetters[1], m[1].1);
    MessageOnControlTopic(RoomLetters[2], m[2].1);
  }

  // ---------------------------------------------------------------- keys

  datatype KeyAction = FocusRoom(roomId: string) | FocusOverview | ToggleConveyor | Ignore

  /** `onKeyDown`: digits 1-3 focus rooms A-C, 0 the overview, space toggles the conveyors. */
  function KeyActionOf(code: string): (r: KeyAction)
    ensures r.FocusRoom? <==> code in {"Digit1", "Digit2", "Digit3"}
    ensures r.FocusRoom? ==> r.roomId in RoomIds
    ensures r.FocusOverview? <==> code == "Digit0"
    ensures r.ToggleConveyor? <==> code == "Space"
  {
    if code == "Digit1" then FocusRoom("A")
    else if code == "Digit2" then FocusRoom("B")
    else if code == "Digit3" then FocusRoom("C")
    else if code == "Digit0" then FocusOverview
    else if code == "Space" then ToggleConveyor
    else Ignore
  }
}
