/**
  The broker session (`MqttManager`): the fixed connection parameters, the
  telemetry topic and payload, the subscription list, and the manager object
  that owns the current MQTT client. The client library (M2Mqtt), TLS and the
  socket are outside the model: the broker's answer to a connection attempt is
  a parameter, and a client is a value held in the manager's `client` field.
 */
module Mqtt {
  import opened Wrappers
  import opened Text
  import opened Sas
  import opened Topics

  datatype QoS = AtMostOnce | AtLeastOnce | ExactlyOnce

  /** The device's configuration resources: host name, device id, shared access key. */
  datatype Identity = Identity(hostName: string, deviceId: string, sasKey: string)

  datatype Message = Message(topic: string, payload: string, qos: QoS, retain: bool)

  datatype Subscription = Subscription(filter: string, qos: QoS)

  /** Where a client connects: host, port, and whether the transport is TLS. */
  datatype Endpoint = Endpoint(host: string, port: nat, secure: bool)

  /** The arguments of the MQTT CONNECT the manager issues. */
  datatype ConnectPacket = ConnectPacket(
    clientId: string, username: string, password: string,
    willRetain: bool, willQos: QoS, willFlag: bool, willTopic: string, willMessage: string,
    cleanSession: bool, keepAliveSeconds: nat)

  /** One MQTT client: its endpoint, the CONNECT it sent (if any), liveness and subscriptions. */
  datatype Client = Client(endpoint: Endpoint, login: Option<ConnectPacket>, connected: bool,
                           subscriptions: seq<Subscription>)

  /** How the transport and the broker answer a connection attempt. */
  datatype BrokerReply = TransportFailure | Refused | Accepted

  /** The exceptions `Connect` lets escape. */
  datatype ConnectError = InvalidSasKey | TransportError

  const BrokerPort: nat := 8883
  const KeepAliveSeconds: nat := 60
  const TokenTtlSeconds: nat := 24 * 60 * 60
  const ApiVersion := "api-version=2018-06-30"
  const WillTopic := "$iothub/twin/GET/?$rid=999"
  const WillMessage := "Disconnected"

  /** `DateTime` ticks are 100 ns; tick 0 is `DateTime.MinValue`. */
  const TicksPerSecond: nat := 10_000_000
  const UnixEpochSeconds: nat := 62_135_596_800

  /** `DateTime.ToUnixTimeSeconds()`. */
  function UnixSeconds(ticks: nat): int
  {
    ticks / TicksPerSecond - UnixEpochSeconds
  }

  /** The MQTT user name IoT Hub expects: `<host>/<device>/api-version=...`. */
  function Username(id: Identity): string
  {
    id.hostName + "/" + id.deviceId + "/" + ApiVersion
  }

  /** The resource the password token is issued for: `<host>/devices/<device>`. */
  function TokenResource(id: Identity): string
  {
    id.hostName + "/devices/" + id.deviceId
  }

  function TelemetryTopic(deviceId: string): string
  {
    "devices/" + deviceId + "/messages/events/"
  }

  /** The telemetry payload `{ <name>: <value> }` (not strict JSON: nothing is quoted). */
  function Payload(name: string, value: string): string
  {
    "{ " + name + ": " + value + " }"
  }

  /** Reads a payload back into its instrument name and value. */
  function ParsePayload(p: string): Option<(string, string)>
  {
    if |p| < 4 || p[..2] != "{ " || p[|p| - 2..] != " }" then None
    else
      var inner := p[2..|p| - 2];
      var k := IndexOf(inner, ": ");
      if k < 0 then None else Some((inner[..k], inner[k + 2..]))
  }

  /** One telemetry publish: the events topic, at least once, not retained. */
  function Telemetry(deviceId: string, name: string, value: string): Message
  {
    Message(TelemetryTopic(deviceId), Payload(name, value), AtLeastOnce, false)
  }

  /** The four filters subscribed after a successful connect. */
  function SubscriptionList(deviceId: string): (r: seq<Subscription>)
    ensures |r| == 4
    ensures forall i :: 0 <= i < |r| ==> r[i].qos == AtLeastOnce
  {
    [ Subscription("$iothub/methods/POST/#", AtLeastOnce),
      Subscription("devices/" + deviceId + "/messages/devicebound/#", AtLeastOnce),
      Subscription("$iothub/twin/PATCH/properties/desired/#", AtLeastOnce),
      Subscription("$iothub/twin/res/#", AtLeastOnce) ]
  }

  /** A client just constructed: TLS to the hub on port 8883, not yet connected. */
  function NewClient(id: Identity): Client
  {
    Client(Endpoint(id.hostName, BrokerPort, true), None, false, [])
  }

  /** The CONNECT the manager sends, with the token as password. */
  function LoginPacket(id: Identity, password: string): ConnectPacket
  {
    ConnectPacket(id.deviceId, Username(id), password,
                  false, AtLeastOnce, false, WillTopic, WillMessage, false, KeepAliveSeconds)
  }

  /**
    The transport closing under a client (the `ConnectionClosed` event): the
    client object stays, with everything it sent, but is no longer connected.
   */
  function Dropped(client: Option<Client>): (r: Option<Client>)
    ensures r.Some? == client.Some?
    ensures r.Some? ==> !r.value.connected && r.value.(connected := true) == client.value.(connected := true)
  {
    if client.Some? then Some(client.value.(connected := false)) else client
  }

  datatype ConnectResult = ConnectResult(client: Client, error: Option<ConnectError>)

  /**
    What one `Connect` leaves behind: always a new client; a CONNECT only when
    the token could be built and the transport came up; connected only when
    the broker accepted; the four subscriptions only when connected.
   */
  function AfterConnect(id: Identity, c: Crypto, nowTicks: nat, reply: BrokerReply): (r: ConnectResult)
    ensures r.client.endpoint == Endpoint(id.hostName, BrokerPort, true)
    ensures r.client.login.Some? <==> c.fromBase64(id.sasKey).Some? && reply != TransportFailure
    ensures r.client.connected <==> c.fromBase64(id.sasKey).Some? && reply == Accepted
    ensures r.client.subscriptions == if r.client.connected then SubscriptionList(id.deviceId) else []
    ensures r.error == None <==> r.client.login.Some?
    ensures r.client.login.Some? ==>
      r.client.login.value == LoginPacket(id, Token(c, c.fromBase64(id.sasKey).value, TokenResource(id),
                                                    UnixSeconds(nowTicks) + TokenTtlSeconds, None))
  {
    var token := SharedAccessSignature(c, None, id.sasKey, TokenResource(id), UnixSeconds(nowTicks), TokenTtlSeconds);
    if token.Failure? then ConnectResult(NewClient(id), Some(InvalidSasKey))
    else if reply == TransportFailure then ConnectResult(NewClient(id), Some(TransportError))
    else
      var connected := reply == Accepted;
      ConnectResult(Client(Endpoint(id.hostName, BrokerPort, true), Some(LoginPacket(id, token.value)), connected,
                           if connected then SubscriptionList(id.deviceId) else []),
                    None)
  }

  class MqttManager {
    const identity: Identity
    const crypto: Crypto
    /** `_mqttClient`: None until the first `Connect`. */
    var client: Option<Client>
    /** Every message handed to a client's `Publish`, in order. */
    var published: seq<Message>

    constructor (identity: Identity, crypto: Crypto)
      ensures this.identity == identity && this.crypto == crypto
      ensures client == None && published == []
      ensures !IsConnected()
    {
      this.identity := identity;
      this.crypto := crypto;
      client := None;
      published := [];
    }

    /** `_mqttClient is { IsConnected: true }`. */
    function IsConnected(): (r: bool)
      reads this
      ensures client == None ==> !r
    {
      client.Some? && client.value.connected
    }

    /**
      Replaces the client, builds the password token from the clock, sends
      the CONNECT and, only if the client is then connected, subscribes to the
      four filters at least once. An invalid key or a transport failure is
      returned as the exception the C# `Connect` throws.
     */
    method Connect(nowTicks: nat, reply: BrokerReply) returns (err: Option<ConnectError>)
      modifies this`client
      ensures client == Some(AfterConnect(identity, crypto, nowTicks, reply).client)
      ensures err == AfterConnect(identity, crypto, nowTicks, reply).error
    {
      client := Some(NewClient(identity));
      var password := GetSharedAccessSignature(crypto, None, identity.sasKey, TokenResource(identity),
                                               UnixSeconds(nowTicks), TokenTtlSeconds);
      if password.Failure? {
        return Some(InvalidSasKey);
      }
      if reply == TransportFailure {
        return Some(TransportError);
      }
      var c := client.value;
      client := Some(c.(login := Some(LoginPacket(identity, password.value)), connected := reply == Accepted));
      if client.value.connected {
        client := Some(client.value.(subscriptions := SubscriptionList(identity.deviceId)));
      }
      return None;
    }

    /**
      Publishes `{ name: value }` on the events topic. `delivered` is false
      when the client's `Publish` throws; then nothing is recorded.
     */
    method PublishTelemetry(instrumentName: string, instrumentValue: string, delivered: bool) returns (ok: bool)
      requires client.Some?
      modifies this`published
      ensures ok == delivered
      ensures published == old(published) +
        (if delivered then [Telemetry(identity.deviceId, instrumentName, instrumentValue)] else [])
    {
      if !delivered {
        return false;
      }
      var message := "{ " + instrumentName + ": " + instrumentValue + " }";
      published := published + [Message(TelemetryTopic(identity.deviceId), message, AtLeastOnce, false)];
      return true;
    }

    /**
      The broker or the network closed the session: M2Mqtt clears the
      client's `IsConnected`, and the handler attached in `Connect` only logs.
     */
    method ConnectionClosed()
      modifies this`client
      ensures client == Dropped(old(client))
      ensures !IsConnected()
    {
      if client.Some? {
        client := Some(client.value.(connected := false));
      }
    }
  }

  // ---------------------------------------------------------------------
  // Properties
  // ---------------------------------------------------------------------

  /** A payload reads back to its name and value when the name has no colon. */
  lemma PayloadRoundTrip(name: string, value: string)
    requires ':' !in name
    ensures ParsePayload(Payload(name, value)) == Some((name, value))
  {
    var p := Payload(name, value);
    var inner := name + ": " + value;
    assert p == "{ " + inner + " }";
    assert p[..2] == "{ " && p[|p| - 2..] == " }";
    assert p[2..|p| - 2] == inner;
    assert OccursAt(inner, ": ", |name|) by {
      assert inner[|name|..|name| + 2] == ": ";
    }
    forall j | 0 <= j < |name|
      ensures !OccursAt(inner, ": ", j)
    {
      assert inner[j] == name[j];
      assert inner[j] != ':';
      assert j + 2 <= |inner| ==> inner[j..j + 2][0] == inner[j];
    }
    var k := IndexOf(inner, ": ");
    assert k == |name|;
    assert inner[..k] == name;
    assert inner[k + 2..] == value;
  }

  /**
    Every subscription is at least once, and every message the broker can
    deliver under one of the four filters (the filter's stem followed by more
    topic levels) is classified, never left unclassified.
   */
  lemma {:induction false} SubscribedTopicsAreClassified(deviceId: string, i: nat, rest: string)
    requires i < |SubscriptionList(deviceId)|
    ensures |SubscriptionList(deviceId)| == 4
    ensures SubscriptionList(deviceId)[i].qos == AtLeastOnce
    ensures var f := SubscriptionList(deviceId)[i].filter;
      |f| > 0 && f[|f| - 1] == '#' && Classify(f[..|f| - 1] + rest, deviceId) != Unclassified
  {
    var f := SubscriptionList(deviceId)[i].filter;
    var t := f[..|f| - 1] + rest;
    if i == 0 {
      assert f[..|f| - 1] == MethodPrefix;
      assert t[..|MethodPrefix|] == MethodPrefix;
      assert t[8] == 'm';
      assert !StartsWith(t, DesiredPropertiesPrefix) by { assert DesiredPropertiesPrefix[8] == 't'; }
      assert !StartsWith(t, TwinPrefix) by { assert TwinPrefix[8] == 't'; }
    } else if i == 1 {
      assert f[..|f| - 1] == DeviceBoundPrefix(deviceId);
      DeviceBoundFollowsDeviceId(deviceId, rest);
    } else if i == 2 {
      assert f[..|f| - 1] == DesiredPropertiesPrefix;
      assert t[..|DesiredPropertiesPrefix|] == DesiredPropertiesPrefix;
    } else {
      assert f[..|f| - 1] == TwinResponsePrefix;
      assert t[..|TwinPrefix|] == TwinPrefix;
    }
  }
}
