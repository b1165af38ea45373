/**
  The device (`Device`): its lifecycle status computed from three readiness
  signals, and the stage actions the driver loop calls. The Wi-Fi join, the
  SHTC3 sensor and the meteorological formulas are outside the model; their
  outcomes are parameters.
 */
module DeviceAgent {
  import opened Wrappers
  import opened Sas
  import opened Mqtt

  /** The four ordered stages; `Rank` is the enum's integer value. */
  datatype DeviceStatus = Disconnected | ConnectedToNetwork | ConnectedToServices | ConfiguredIoCDevice

  function Rank(s: DeviceStatus): nat
  {
    match s
    case Disconnected => 0
    case ConnectedToNetwork => 1
    case ConnectedToServices => 2
    case ConfiguredIoCDevice => 3
  }

  /**
    `GetStatus` as a decision over the three readiness signals: no network
    means disconnected whatever the rest says; a network without a live MQTT
    session means connected to the network; with both, the sensor handle
    decides between the last two stages.
   */
  function StatusOf(networkReady: bool, mqttReady: bool, sensorPresent: bool): (r: DeviceStatus)
    ensures r == Disconnected <==> !networkReady
    ensures r == ConnectedToNetwork <==> networkReady && !mqttReady
    ensures r == ConnectedToServices <==> networkReady && mqttReady && !sensorPresent
    ensures r == ConfiguredIoCDevice <==> networkReady && mqttReady && sensorPresent
    ensures Rank(r) == (if !networkReady then 0 else if !mqttReady then 1 else if !sensorPresent then 2 else 3)
  {
    if !networkReady then Disconnected
    else if !mqttReady then ConnectedToNetwork
    else if sensorPresent then ConfiguredIoCDevice
    else ConnectedToServices
  }

  const Temperature := "Temperature"
  const RelativeHumidity := "RelativeHumidity"
  const DewPoint := "DewPoint"
  const HeatIndex := "HeatIndex"
  const VaporPressure := "VaporPressure"

  /** The instrument names in publish order. */
  const InstrumentNames: seq<string> := [Temperature, RelativeHumidity, DewPoint, HeatIndex, VaporPressure]

  /** A successful sensor read with the derived quantities, each already rendered by `ToString()`. */
  datatype Reading = Reading(temperature: string, relativeHumidity: string, dewPoint: string,
                             heatIndex: string, vaporPressure: string)

  function Values(r: Reading): seq<string>
  {
    [r.temperature, r.relativeHumidity, r.dewPoint, r.heatIndex, r.vaporPressure]
  }

  /** The five publishes of one reading, in `SendSensorData`'s order. */
  function Batch(deviceId: string, r: Reading): (b: seq<Message>)
    ensures |b| == |InstrumentNames| == 5
    ensures forall i :: 0 <= i < 5 ==> b[i] == Telemetry(deviceId, InstrumentNames[i], Values(r)[i])
  {
    [ Telemetry(deviceId, Temperature, r.temperature),
      Telemetry(deviceId, RelativeHumidity, r.relativeHumidity),
      Telemetry(deviceId, DewPoint, r.dewPoint),
      Telemetry(deviceId, HeatIndex, r.heatIndex),
      Telemetry(deviceId, VaporPressure, r.vaporPressure) ]
  }

  /** `TimeSpan.FromMinutes(1)` in ticks. */
  const OneMinuteTicks: nat := 60 * TicksPerSecond

  /** `DateTime.MinValue`, the initial `_lastMessageSent`. */
  const MinTime: nat := 0

  /** The gate of `SendSensorData`: less than a minute since the last stamp. */
  predicate RateLimited(now: nat, lastMessageSent: nat)
  {
    now - lastMessageSent < OneMinuteTicks
  }

  /** Everything the driver loop can observe of the device, as a value. */
  datatype DeviceState = DeviceState(networkReady: bool, client: Option<Client>, published: seq<Message>,
                                     sensorPresent: bool, lastMessageSent: nat)

  const Initial := DeviceState(false, None, [], false, MinTime)

  function Status(s: DeviceState): DeviceStatus
  {
    StatusOf(s.networkReady, s.client.Some? && s.client.value.connected, s.sensorPresent)
  }

  function Min(a: nat, b: nat): nat
  {
    if a < b then a else b
  }

  datatype SendResult = SendResult(state: DeviceState, faulted: bool)

  /**
    One `SendSensorData`. Inside the minute, or when the read fails, nothing
    changes. Otherwise the stamp takes the clock reading taken after the read
    before anything is published, then the five messages go out in order; a
    publish that throws ends the batch there with the stamp already set, and
    the exception leaves the method (`faulted`).
   */
  function AfterSend(s: DeviceState, deviceId: string, now: nat, reading: Option<Reading>,
                     readTime: nat, publishesBeforeFault: nat): (r: SendResult)
    ensures RateLimited(now, s.lastMessageSent) ==> r == SendResult(s, false)
    ensures reading.None? ==> r == SendResult(s, false)
    ensures !RateLimited(now, s.lastMessageSent) && reading.Some? ==>
      && r.state.lastMessageSent == readTime
      && r.state.published == s.published + Batch(deviceId, reading.value)[..Min(publishesBeforeFault, 5)]
      && r.faulted == (publishesBeforeFault < 5)
    ensures r.state.networkReady == s.networkReady && r.state.client == s.client
    ensures r.state.sensorPresent == s.sensorPresent
  {
    if RateLimited(now, s.lastMessageSent) || reading.None? then SendResult(s, false)
    else
      var sent := Min(publishesBeforeFault, 5);
      SendResult(s.(lastMessageSent := readTime,
                    published := s.published + Batch(deviceId, reading.value)[..sent]),
                 sent < 5)
  }

  class Device {
    const mqtt: MqttManager
    /** `WifiNetworkHelper.Status == NetworkIsReady`. */
    var networkReady: bool
    /** `_ioCDevice != null`. */
    var sensorPresent: bool
    /** `_lastMessageSent`, in ticks. */
    var lastMessageSent: nat

    constructor (identity: Identity, crypto: Crypto)
      ensures fresh(mqtt) && mqtt.identity == identity && mqtt.crypto == crypto
      ensures State() == Initial
    {
      mqtt := new MqttManager(identity, crypto);
      networkReady := false;
      sensorPresent := false;
      lastMessageSent := MinTime;
    }

    function State(): DeviceState
      reads this, mqtt
    {
      DeviceState(networkReady, mqtt.client, mqtt.published, sensorPresent, lastMessageSent)
    }

    /** Recomputed from the live signals on every call; nothing is cached. */
    function GetStatus(): (r: DeviceStatus)
      reads this, mqtt
      ensures r == Status(State())
    {
      StatusOf(networkReady, mqtt.IsConnected(), sensorPresent)
    }

    /** `WifiNetworkHelper.Status` leaving `NetworkIsReady` between two iterations. */
    method NetworkLost()
      modifies this`networkReady
      ensures !networkReady
    {
      networkReady := false;
    }

    /** The Wi-Fi join; `joined` is its outcome. */
    method ConnectToNetwork(joined: bool)
      modifies this`networkReady
      ensures networkReady == joined
    {
      networkReady := joined;
    }

    /** `Connect` with every exception caught: the error is dropped and the loop retries. */
    method ConnectToServices(nowTicks: nat, reply: BrokerReply)
      modifies mqtt`client
      ensures mqtt.client == Some(AfterConnect(mqtt.identity, mqtt.crypto, nowTicks, reply).client)
    {
      var err := mqtt.Connect(nowTicks, reply);
    }

    /** Sensor set-up; a failure is caught and leaves the handle as it was. */
    method SetupIoCDevice(succeeds: bool)
      modifies this`sensorPresent
      ensures sensorPresent == (old(sensorPresent) || succeeds)
    {
      if succeeds {
        sensorPresent := true;
      }
    }

    /**
      The rate-limited telemetry batch. `reading` is the sensor's answer,
      `readTime` the clock read after it, and `publishesBeforeFault` how many
      publishes go through before one throws (5 or more: none throws).
     */
    method SendSensorData(now: nat, reading: Option<Reading>, readTime: nat, publishesBeforeFault: nat)
      returns (faulted: bool)
      requires !RateLimited(now, lastMessageSent) ==> sensorPresent
      requires !RateLimited(now, lastMessageSent) && reading.Some? ==> mqtt.client.Some?
      modifies this`lastMessageSent, mqtt`published
      ensures State() == AfterSend(old(State()), mqtt.identity.deviceId, now, reading, readTime,
                                   publishesBeforeFault).state
      ensures faulted == AfterSend(old(State()), mqtt.identity.deviceId, now, reading, readTime,
                                   publishesBeforeFault).faulted
    {
      if now - lastMessageSent < OneMinuteTicks {
        return false;
      }
      if reading.None? {
        return false;
      }
      var r := reading.value;
      lastMessageSent := readTime;
      var ok := mqtt.PublishTelemetry(Temperature, r.temperature, 0 < publishesBeforeFault);
      if !ok { return true; }
      ok := mqtt.PublishTelemetry(RelativeHumidity, r.relativeHumidity, 1 < publishesBeforeFault);
      if !ok { return true; }
      ok := mqtt.PublishTelemetry(DewPoint, r.dewPoint, 2 < publishesBeforeFault);
      if !ok { return true; }
      ok := mqtt.PublishTelemetry(HeatIndex, r.heatIndex, 3 < publishesBeforeFault);
      if !ok { return true; }
      ok := mqtt.PublishTelemetry(VaporPressure, r.vaporPressure, 4 < publishesBeforeFault);
      if !ok { return true; }
      return false;
    }
  }

  // ---------------------------------------------------------------------
  // Properties
  // ---------------------------------------------------------------------

  /**
    A batch is five publishes on the events topic, at least once and not
    retained, whose payloads read back as Temperature, RelativeHumidity,
    DewPoint, HeatIndex and VaporPressure with the reading's values, in that order.
   */
  lemma BatchOrder(deviceId: string, r: Reading, i: nat)
    requires i < 5
    ensures |Batch(deviceId, r)| == 5
    ensures Batch(deviceId, r)[i].topic == TelemetryTopic(deviceId)
    ensures Batch(deviceId, r)[i].qos == AtLeastOnce && !Batch(deviceId, r)[i].retain
    ensures ParsePayload(Batch(deviceId, r)[i].payload) == Some((InstrumentNames[i], Values(r)[i]))
  {
    assert ':' !in InstrumentNames[i];
    PayloadRoundTrip(InstrumentNames[i], Values(r)[i]);
  }

  /** Two calls within a minute of the first batch's stamp publish one batch: the second changes nothing. */
  lemma AtMostOneBatchPerMinute(s: DeviceState, deviceId: string, now1: nat, reading: Reading, readTime: nat,
                                now2: nat, reading2: Option<Reading>, readTime2: nat, k1: nat, k2: nat)
    requires !RateLimited(now1, s.lastMessageSent)
    requires now2 - readTime < OneMinuteTicks
    ensures var first := AfterSend(s, deviceId, now1, Some(reading), readTime, k1).state;
      AfterSend(first, deviceId, now2, reading2, readTime2, k2) == SendResult(first, false)
  {
  }

  /** A failed read leaves the stamp alone, so a later call at a later clock is not rate-limited either. */
  lemma FailedReadKeepsGateOpen(s: DeviceState, deviceId: string, now: nat, readTime: nat, k: nat, later: nat)
    requires !RateLimited(now, s.lastMessageSent)
    requires later >= now
    ensures var after := AfterSend(s, deviceId, now, None, readTime, k).state;
      after.published == s.published && !RateLimited(later, after.lastMessageSent)
  {
  }
}
