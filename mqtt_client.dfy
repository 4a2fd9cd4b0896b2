/**
 * The broker connection of renderer/components/MQTTClient.js: a connected flag,
 * a bounded retry counter and a growing back-off delay.
 *
 * The mqtt.js library and `setTimeout` are outside the model. Every request the
 * client hands to the library is appended to `outbox`; every retry handed to
 * `setTimeout` is appended to `retries` (its delay) and counted in
 * `pendingRetries` until the timer fires. Broker events (`connect`, `close`,
 * `error`, `offline`) and timer firings are method calls; each event handler
 * returns the arguments it passes to the `onConnectionChange` callback.
 */
module Mqtt {
  import opened Optional
  import Json

  const MaxReconnectAttempts: nat := 5
  /** Delay before the first retry, in milliseconds. */
  const InitialDelay: real := 3000.0
  /** Cap of the back-off delay, in milliseconds. */
  const MaxDelay: real := 30000.0
  /** Factor applied to the delay each time a retry is scheduled. */
  const Backoff: real := 1.5
  /** Quality of service used for subscriptions and, by default, for publishing. */
  const DefaultQos: nat := 1

  const SubscribeTopics: seq<string> := [
    "kiot/zenit/room-a/aircon/control",
    "kiot/zenit/room-b/aircon/control",
    "kiot/zenit/room-c/aircon/control"
  ]

  /** Detail string the `offline` handler reports. */
  const OfflineDetail: string := "오프라인"

  /** A call into the mqtt.js client object. */
  datatype Request =
    | Subscribe(topic: string, qos: nat)
    | Publish(topic: string, message: Json.Value, qos: nat)
    | End

  /** The arguments of one `onConnectionChange(isConnected, detail)` call. */
  datatype StatusNote = StatusNote(connected: bool, detail: Option<string>)

  function Min(a: real, b: real): real { if a <= b then a else b }

  /** `Math.min(delay * 1.5, 30000)`. */
  function NextDelay(d: real): real { Min(d * Backoff, MaxDelay) }

  /** The back-off delay after `n` retries have been scheduled. */
  function DelayAfter(n: nat): (d: real)
    ensures InitialDelay <= d <= MaxDelay
  {
    if n == 0 then InitialDelay else NextDelay(DelayAfter(n - 1))
  }

  function Pow(b: real, n: nat): real { if n == 0 then 1.0 else b * Pow(b, n - 1) }

  lemma {:induction false} PowAtLeastOne(b: real, n: nat)
    requires b >= 1.0
    ensures Pow(b, n) >= 1.0
  {
    if n > 0 {
      PowAtLeastOne(b, n - 1);
    }
  }

  /** Capping before or after the multiplication gives the same delay. */
  lemma MinBackoff(a: real)
    requires a >= 0.0
    ensures Min(Min(a, MaxDelay) * Backoff, MaxDelay) == Min(a * Backoff, MaxDelay)
  {
  }

  /** Closed form: the delay after `n` scheduled retries is min(3000 * 1.5^n, 30000). */
  lemma {:induction false} DelayClosedForm(n: nat)
    ensures DelayAfter(n) == Min(InitialDelay * Pow(Backoff, n), MaxDelay)
  {
    if n > 0 {
      DelayClosedForm(n - 1);
      PowAtLeastOne(Backoff, n - 1);
      MinBackoff(InitialDelay * Pow(Backoff, n - 1));
      assert InitialDelay * Pow(Backoff, n - 1) * Backoff == InitialDelay * Pow(Backoff, n);
    }
  }

  /** The delay never decreases. */
  lemma {:induction false} DelayMonotone(m: nat, n: nat)
    requires m <= n
    ensures DelayAfter(m) <= DelayAfter(n)
  {
    if m < n {
      DelayMonotone(m, n - 1);
    }
  }

  /** The first seven delays; from the seventh retry on the delay stays at the cap. */
  lemma DelaySchedule(n: nat)
    ensures DelayAfter(0) == 3000.0 && DelayAfter(1) == 4500.0 && DelayAfter(2) == 6750.0
    ensures DelayAfter(3) == 10125.0 && DelayAfter(4) == 15187.5 && DelayAfter(5) == 22781.25
    ensures n >= 6 ==> DelayAfter(n) == MaxDelay
  {
    assert DelayAfter(6) == MaxDelay;
    if n >= 6 {
      DelayMonotone(6, n);
    }
  }

  /** One `Subscribe` request per topic, at QoS 1, in order. */
  function Subscriptions(topics: seq<string>): (r: seq<Request>)
    ensures |r| == |topics|
    ensures forall i :: 0 <= i < |r| ==> r[i] == Subscribe(topics[i], DefaultQos)
  {
    if topics == [] then [] else Subscriptions(topics[..|topics| - 1]) + [Subscribe(topics[|topics| - 1], DefaultQos)]
  }

  /** `MQTTClient.generateTestMessages`: one message per room, payload already parsed. */
  function TestMessages(timestamp: string): (r: seq<(string, Json.Value)>)
    ensures |r| == |SubscribeTopics|
    ensures forall i :: 0 <= i < |r| ==> r[i].0 == SubscribeTopics[i]
  {
    [ (SubscribeTopics[0], Json.Object(map["power" := Json.String("on"), "timestamp" := Json.String(timestamp)])),
      (SubscribeTopics[1], Json.Object(map["power" := Json.Bool(true), "timestamp" := Json.String(timestamp)])),
      (SubscribeTopics[2], Json.Object(map["power" := Json.String("off"), "timestamp" := Json.String(timestamp)])) ]
  }

  class Client {
    /** `this.client !== null`: a library client object exists. */
    var hasClient: bool
    /** `isConnectedFlag`. */
    var connected: bool
    var reconnectAttempts: nat
    var reconnectDelay: real
    /** Requests handed to the library, oldest first. */
    var outbox: seq<Request>
    /** The delay of every retry handed to `setTimeout`, oldest first. */
    var retries: seq<real>
    /** Retries scheduled whose timer has not fired yet. */
    var pendingRetries: nat

    ghost predicate Valid()
      reads this
    {
      && reconnectAttempts <= MaxReconnectAttempts
      && reconnectAttempts <= |retries|
      && pendingRetries <= |retries|
      && reconnectDelay == DelayAfter(|retries|)
      && (forall k :: 0 <= k < |retries| ==> retries[k] == DelayAfter(k))
      && (connected ==> hasClient)
    }

    constructor ()
      ensures Valid()
      ensures !hasClient && !connected
      ensures reconnectAttempts == 0 && reconnectDelay == InitialDelay
      ensures outbox == [] && retries == [] && pendingRetries == 0
    {
      hasClient := false;
      connected := false;
      reconnectAttempts := 0;
      reconnectDelay := InitialDelay;
      outbox := [];
      retries := [];
      pendingRetries := 0;
    }

    /** `connect()`: creates a fresh library client; the connection flag waits for the `connect` event. */
    method Connect()
      requires Valid()
      modifies this`hasClient
      ensures Valid() && hasClient
    {
      hasClient := true;
    }

    /** The `connect` event: connected, attempts reset (the delay is not), topics subscribed. */
    method OnConnect() returns (note: StatusNote)
      requires Valid() && hasClient
      modifies this`connected, this`reconnectAttempts, this`outbox
      ensures Valid()
      ensures connected && reconnectAttempts == 0
      ensures outbox == old(outbox) + Subscriptions(SubscribeTopics)
      ensures note == StatusNote(true, None)
    {
      connected := true;
      reconnectAttempts := 0;
      SubscribeToTopics();
      note := StatusNote(true, None);
    }

    /** `subscribeToTopics`: one subscription at QoS 1 per fixed topic. */
    method SubscribeToTopics()
      requires hasClient
      modifies this`outbox
      ensures outbox == old(outbox) + Subscriptions(SubscribeTopics)
    {
      var i := 0;
      while i < |SubscribeTopics|
        invariant 0 <= i <= |SubscribeTopics|
        invariant outbox == old(outbox) + Subscriptions(SubscribeTopics[..i])
      {
        assert SubscribeTopics[..i + 1][..i] == SubscribeTopics[..i];
        outbox := outbox + [Subscribe(SubscribeTopics[i], DefaultQos)];
        i := i + 1;
      }
      assert SubscribeTopics[..i] == SubscribeTopics;
    }

    /** The `close` event: disconnected, and a retry is attempted. */
    method OnClose() returns (note: StatusNote)
      requires Valid()
      modifies this
      ensures Valid()
      ensures !connected && hasClient == old(hasClient) && outbox == old(outbox)
      ensures old(reconnectAttempts) >= MaxReconnectAttempts ==>
        reconnectAttempts == old(reconnectAttempts) && retries == old(retries)
        && pendingRetries == old(pendingRetries) && reconnectDelay == old(reconnectDelay)
      ensures old(reconnectAttempts) < MaxReconnectAttempts ==>
        reconnectAttempts == old(reconnectAttempts) + 1 && retries == old(retries) + [old(reconnectDelay)]
        && pendingRetries == old(pendingRetries) + 1 && reconnectDelay == NextDelay(old(reconnectDelay))
      ensures note == StatusNote(false, None)
    {
      connected := false;
      note := StatusNote(false, None);
      AttemptReconnect();
    }

    /** The `error` event: disconnected, the error message reported, no retry. */
    method OnError(message: string) returns (note: StatusNote)
      requires Valid()
      modifies this`connected
      ensures Valid() && !connected
      ensures note == StatusNote(false, Some(message))
    {
      connected := false;
      note := StatusNote(false, Some(message));
    }

    /** The `offline` event: disconnected, no retry. */
    method OnOffline() returns (note: StatusNote)
      requires Valid()
      modifies this`connected
      ensures Valid() && !connected
      ensures note == StatusNote(false, Some(OfflineDetail))
    {
      connected := false;
      note := StatusNote(false, Some(OfflineDetail));
    }

    /** `publish`: refused while disconnected, otherwise handed to the library. */
    method Publish(topic: string, message: Json.Value, qos: nat := DefaultQos) returns (ok: bool)
      requires Valid()
      modifies this`outbox
      ensures Valid()
      ensures ok == old(connected)
      ensures outbox == if ok then old(outbox) + [Request.Publish(topic, message, qos)] else old(outbox)
    {
      if !connected {
        return false;
      }
      outbox := outbox + [Request.Publish(topic, message, qos)];
      ok := true;
    }

    /** `disconnect`: ends and drops the client if there is one; pending retries stay scheduled. */
    method Disconnect()
      requires Valid()
      modifies this`hasClient, this`connected, this`outbox
      ensures Valid()
      ensures old(hasClient) ==> !hasClient && !connected && outbox == old(outbox) + [End]
      ensures !old(hasClient) ==> hasClient == old(hasClient) && connected == old(connected) && outbox == old(outbox)
    {
      if hasClient {
        outbox := outbox + [End];
        hasClient := false;
        connected := false;
      }
    }

    method IsConnected() returns (r: bool)
      ensures r == connected
    {
      r := connected;
    }

    /** `attemptReconnect`: a no-op after five attempts; otherwise schedules a retry and grows the delay. */
    method AttemptReconnect()
      requires Valid()
      modifies this`reconnectAttempts, this`reconnectDelay, this`retries, this`pendingRetries
      ensures Valid()
      ensures old(reconnectAttempts) >= MaxReconnectAttempts ==>
        reconnectAttempts == old(reconnectAttempts) && retries == old(retries)
        && pendingRetries == old(pendingRetries) && reconnectDelay == old(reconnectDelay)
      ensures old(reconnectAttempts) < MaxReconnectAttempts ==>
        reconnectAttempts == old(reconnectAttempts) + 1 && retries == old(retries) + [old(reconnectDelay)]
        && pendingRetries == old(pendingRetries) + 1 && reconnectDelay == NextDelay(old(reconnectDelay))
    {
      if reconnectAttempts >= MaxReconnectAttempts {
        return;
      }
      reconnectAttempts := reconnectAttempts + 1;
      retries := retries + [reconnectDelay];
      pendingRetries := pendingRetries + 1;
      reconnectDelay := NextDelay(reconnectDelay);
    }

    /** A scheduled retry's timer fires and calls `connect()`. */
    method FireRetry()
      requires Valid() && pendingRetries > 0
      modifies this`hasClient, this`pendingRetries
      ensures Valid() && hasClient && pendingRetries == old(pendingRetries) - 1
    {
      pendingRetries := pendingRetries - 1;
      Connect();
    }
  }

  /**
   * The k-th retry scheduled since construction (counting from 0) waits
   * min(3000 * 1.5^k, 30000) milliseconds, whatever connects happened in between.
   */
  lemma RetryDelay(c: Client, k: nat)
    requires c.Valid() && k < |c.retries|
    ensures c.retries[k] == Min(InitialDelay * Pow(Backoff, k), MaxDelay)
  {
    DelayClosedForm(k);
  }
}
