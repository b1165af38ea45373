# Connectivity agent for a nanoFramework device, modelled in Dafny

The agent runs on an ESP32 with an SHTC3 temperature/humidity sensor. It joins
Wi-Fi, opens an MQTT-over-TLS session to an Azure IoT Hub, arms the sensor and
then publishes telemetry at most once a minute. Its single driver loop
recomputes the device status on every iteration from three live readiness
signals: network ready, MQTT client connected, sensor handle present. It then
calls the one stage action that fits the status.

This project models the logic under that glue:

- `DeviceAgent` covers the `Device` class. It has the four-stage `DeviceStatus` and `GetStatus` as a
  decision over the three signals. `Device` is a class whose fields are the
  network flag, the sensor handle (as "present") and `_lastMessageSent`. Its
  methods are the stage actions. `SendSensorData` is specified by the value
  function `AfterSend`: a one-minute gate, then the stamp, then the five ordered publishes.
- `Program` covers `Main`. `Step` is the loop body. `RunLoop` is the loop itself,
  run over a finite sequence of environment outcomes. Each outcome says whether
  the Wi-Fi went away or the broker session closed since the previous
  iteration, and how that iteration's calls answer. `NextState` and `Run` are
  the value-level specifications that the progress and dispatch lemmas are about.
- `Mqtt` covers `MqttManager`. It holds the connection constants, the telemetry
  topic and payload, the four subscriptions, and the manager class. The class owns
  the current client and records every publish. `AfterConnect` specifies
  `Connect`.
- `Topics` covers `Client_MqttMsgReceived`. It is the first-match-wins topic
  classification, with an independent per-category reading (`Matches`,
  `Precedence`) that the classification is proved equal to.
- `Sas` covers `GetSharedAccessSignature`. It is the IoT Hub Shared Access
  Signature token. The C# builder overwrites the named-key format with the
  unnamed one (see Findings).
- `Text` holds ordinal `StartsWith`/`IndexOf`, and `long.ToString()` with its inverse.

Time is `DateTime` ticks (100 ns) as a `nat`. `DateTime.MinValue` is tick 0,
so the one-minute gate compares tick differences with 600,000,000.
`ToUnixTimeSeconds` is `ticks / 10^7 - 62,135,596,800`.

Behaviour of the code worth noting:

- The stamp is set before the publishes (Device.cs:83), not after the batch.
- A publish that throws is not caught. It ends the batch and leaves
  `SendSensorData` and `Main`. Publish failures are not logged per instrument.
- The desired-properties test comes before the general twin test
  (MqttManager.cs:117-121).
- The token never carries `skn`.

## Model

| member | source | states |
|---|---|---|
| `DeviceAgent.StatusOf` | NanoframeworkExampleCFNet/Device.cs:17-33 | Disconnected iff the network is not ready, whatever the other flags. ConnectedToNetwork iff the network is ready and MQTT is not. With both ready, ConfiguredIoCDevice iff the sensor is present, ConnectedToServices otherwise. The enum value counts the leading ready signals. |
| `DeviceAgent.Device.GetStatus` | NanoframeworkExampleCFNet/Device.cs:17-33 | The status is recomputed from the live fields (network flag, client connected, sensor present) on every call. |
| `DeviceAgent.Device.constructor` | NanoframeworkExampleCFNet/Device.cs:14-16 | A fresh manager with no client, no sensor handle, network not ready, and `_lastMessageSent` = `DateTime.MinValue`. |
| `DeviceAgent.Device.ConnectToNetwork` | NanoframeworkExampleCFNet/Device.cs:35 | The network flag becomes the join's outcome. Nothing else changes. |
| `DeviceAgent.Device.ConnectToServices` | NanoframeworkExampleCFNet/Device.cs:37-50 | Runs `Connect` and swallows its exception. The client becomes the one `AfterConnect` describes, and nothing else changes. |
| `DeviceAgent.Device.SetupIoCDevice` | NanoframeworkExampleCFNet/Device.cs:52-68 | Success sets the sensor handle. A failure is caught and leaves the handle as it was. |
| `DeviceAgent.RateLimited` | NanoframeworkExampleCFNet/Device.cs:72 | The gate holds while fewer than 600,000,000 ticks (one minute) have passed since the stamp. |
| `DeviceAgent.AfterSend` | NanoframeworkExampleCFNet/Device.cs:70-104 | Inside the minute, or on a failed read: no publish and no field change. Otherwise the stamp becomes the clock read after the sensor. The publish log grows by the batch's prefix that went through, and the call faults iff a publish threw. Flags and client never change. |
| `DeviceAgent.Device.SendSensorData` | NanoframeworkExampleCFNet/Device.cs:70-104 | The device state after the call, and whether an exception escaped, are exactly those of `AfterSend`. |
| `DeviceAgent.BatchOrder` | NanoframeworkExampleCFNet/Device.cs:85-98 | Five publishes on the events topic, at least once, not retained. Their payloads read back as Temperature, RelativeHumidity, DewPoint, HeatIndex, VaporPressure with the reading's values, in that order. |
| `DeviceAgent.AtMostOneBatchPerMinute` | NanoframeworkExampleCFNet/Device.cs:72-83 | After a batch, any call less than a minute after its stamp is a no-op. |
| `DeviceAgent.FailedReadKeepsGateOpen` | NanoframeworkExampleCFNet/Device.cs:78-103 | A failed read publishes nothing and leaves the stamp, so a later call is not rate-limited. |
| `DeviceAgent.Batch` | NanoframeworkExampleCFNet/Device.cs:85-98 | The i-th of the five publishes is the telemetry message for the i-th instrument name (Temperature, RelativeHumidity, DewPoint, HeatIndex, VaporPressure) with the matching reading. |
| `DeviceAgent.Device.NetworkLost` | NanoframeworkExampleCFNet/Device.cs:19 | The Wi-Fi status leaving `NetworkIsReady` clears the network flag, and nothing else. |
| `Program.Dispatch` | NanoframeworkExampleCFNet/Program.cs:20-35 | Disconnected is the only status that joins the network, and ConfiguredIoCDevice the only one that sends telemetry. |
| `Program.DispatchInjective` | NanoframeworkExampleCFNet/Program.cs:20-35 | The four statuses get four distinct actions. |
| `Program.Disturbed` | NanoframeworkExampleCFNet/Device.cs:19-21 | What an iteration finds: a lost network clears the network flag, a closed session leaves a client that is not connected. The log, the sensor handle and the stamp are untouched, and the status can only go down. |
| `Program.NextState` | NanoframeworkExampleCFNet/Program.cs:20-35 | The action is the dispatch of the status computed at the start of the iteration, after any drop. Only a telemetry step can fault. |
| `Program.Step` | NanoframeworkExampleCFNet/Program.cs:18-36 | One loop iteration on the device object re-reads the status and performs exactly the one action and state change of `NextState`. |
| `Program.Run` | NanoframeworkExampleCFNet/Program.cs:18-37 | A bounded run takes one action per iteration. It stops early only when an exception escapes, and then its last action is SendTelemetry. |
| `Program.RunDispatches` | NanoframeworkExampleCFNet/Program.cs:18-37 | The i-th action of a run is the dispatch of the status found at the start of iteration i. The i-th step faults exactly when it is the last step of a halted run. The final state is the state after the last step taken. |
| `Program.RunLoop` | NanoframeworkExampleCFNet/Program.cs:18-37 | The imperative loop's final state, action trace and halting agree with `Run`. |
| `Program.StepProgress` | NanoframeworkExampleCFNet/Program.cs:20-33 | When every outcome succeeds, one iteration moves a device below the last stage up at least one stage, and keeps a configured device configured. |
| `Program.RunProgress` | NanoframeworkExampleCFNet/Program.cs:18-33 | A successful run never halts, and it ends at a stage whose rank is at least min(3, start rank + number of iterations). |
| `Program.ReachesConfiguredWithinThree` | NanoframeworkExampleCFNet/Program.cs:18-33 | From any state, three successful iterations reach ConfiguredIoCDevice, and further ones stay there. |
| `Program.JoinFailuresStayDisconnected` | NanoframeworkExampleCFNet/Program.cs:22-24 | While the join keeps failing, the only action is JoinNetwork, so the broker is never contacted. The state is unchanged except that the old session may have closed. |
| `Program.NetworkLossRejoins` | NanoframeworkExampleCFNet/Device.cs:19 | When the Wi-Fi has gone, the next iteration rejoins whatever stage the device was at. The network flag becomes the join's outcome, and the log, the sensor handle and the stamp are kept. |
| `Program.DropReopensSession` | NanoframeworkExampleCFNet/Program.cs:20-27 | If the session closes at the last stage while the network stays, the next iteration opens a new session instead of publishing. Its token is issued at that iteration's clock. |
| `Program.SetupFailureStays` | NanoframeworkExampleCFNet/Device.cs:52-68 | With nothing dropped, a failed sensor set-up leaves the state, and so the status ConnectedToServices, unchanged. |
| `Program.StampUntouchedUntilFirstPublish` | NanoframeworkExampleCFNet/Device.cs:16-83 | The publish log only grows. In a run that has not halted and has published nothing, the stamp is still `DateTime.MinValue`, so the first `SendSensorData` at a clock past the calendar's first minute passes the gate. |
| `Mqtt.MqttManager.constructor` | NanoframeworkExampleCFNet/Infrastructure/MqttManager.cs:21-26 | No client yet, so not connected, and nothing published. |
| `Mqtt.MqttManager.IsConnected` | NanoframeworkExampleCFNet/Infrastructure/MqttManager.cs:23-26 | False when no client has been created. |
| `Mqtt.AfterConnect` | NanoframeworkExampleCFNet/Infrastructure/MqttManager.cs:28-96 | Always a new TLS client for the hub on port 8883. A CONNECT is sent iff the key decodes and the transport comes up. Its user is `<host>/<device>/api-version=2018-06-30` and its password is the token for `<host>/devices/<device>`, expiring 24 h after the clock. It uses no will flag, no clean session and a 60 s keep-alive. The client is connected iff the broker accepts. The four subscriptions are made iff connected. An exception escapes iff no CONNECT was sent. |
| `Mqtt.MqttManager.Connect` | NanoframeworkExampleCFNet/Infrastructure/MqttManager.cs:28-96 | Replaces the client with the one `AfterConnect` describes, and returns its exception. The password comes from the as-written `GetSharedAccessSignature` with no key name. |
| `Mqtt.UnixSeconds` | NanoframeworkExampleCFNet/Infrastructure/MqttManager.cs:166 | `ToUnixTimeSeconds`: whole seconds of the ticks minus the 62,135,596,800 seconds from `DateTime.MinValue` to 1970-01-01. |
| `Mqtt.NewClient` | NanoframeworkExampleCFNet/Infrastructure/MqttManager.cs:35-41 | A new client is a TLS client for the host on port 8883, with no CONNECT sent, not connected, and with no subscriptions. |
| `Mqtt.Username` | NanoframeworkExampleCFNet/Infrastructure/MqttManager.cs:63 | The MQTT user name is `<host>/<device>/api-version=2018-06-30`. |
| `Mqtt.TokenResource` | NanoframeworkExampleCFNet/Infrastructure/MqttManager.cs:64 | The password token is issued for `<host>/devices/<device>`. |
| `Mqtt.LoginPacket` | NanoframeworkExampleCFNet/Infrastructure/MqttManager.cs:61-72 | The CONNECT arguments: the device id as client id, the user name, the token as password, will retain off, will QoS at least once, will flag off, will topic `$iothub/twin/GET/?$rid=999`, will message `Disconnected`, clean session off, keep-alive 60 s. |
| `Mqtt.SubscriptionList` | NanoframeworkExampleCFNet/Infrastructure/MqttManager.cs:77-92 | Four filters (direct methods, device-bound messages, desired properties, twin responses), each at least once. |
| `Mqtt.Dropped` | NanoframeworkExampleCFNet/Infrastructure/MqttManager.cs:46-47 | A closed session keeps the client and everything it sent, but the client is no longer connected. |
| `Mqtt.MqttManager.ConnectionClosed` | NanoframeworkExampleCFNet/Infrastructure/MqttManager.cs:46-47 | The client becomes `Dropped` of the old one, so the manager reports not connected. |
| `Mqtt.TelemetryTopic` | NanoframeworkExampleCFNet/Infrastructure/MqttManager.cs:15 | Telemetry goes to `devices/<device>/messages/events/`. |
| `Mqtt.Payload` | NanoframeworkExampleCFNet/Infrastructure/MqttManager.cs:101 | The payload is `{ <name>: <value> }`, nothing quoted. |
| `Mqtt.Telemetry` | NanoframeworkExampleCFNet/Infrastructure/MqttManager.cs:101-107 | One publish: the payload `{ <name>: <value> }` on the telemetry topic, at least once, not retained. |
| `Mqtt.MqttManager.PublishTelemetry` | NanoframeworkExampleCFNet/Infrastructure/MqttManager.cs:98-110 | Appends exactly one message when the client's publish does not throw: `{ name: value }` on `devices/<device>/messages/events/`, at least once, not retained. |
| `Mqtt.PayloadRoundTrip` | NanoframeworkExampleCFNet/Infrastructure/MqttManager.cs:101 | The payload reads back to its instrument name and value whenever the name has no colon. |
| `Mqtt.SubscribedTopicsAreClassified` | NanoframeworkExampleCFNet/Infrastructure/MqttManager.cs:77-92 | Exactly four filters, each at least once and ending in `#`. Every topic under a filter's stem gets a category other than Unclassified. |
| `Topics.DeviceBoundPrefix` | NanoframeworkExampleCFNet/Infrastructure/MqttManager.cs:133 | The device-bound prefix is `devices/<DeviceId>/messages/devicebound/`. |
| `Topics.HasErrorStatus` | NanoframeworkExampleCFNet/Infrastructure/MqttManager.cs:123-124 | The twin-response test as written: `res/400/`, `res/404/` or `res/500/` is found at an index above 0. |
| `Topics.Classify` | NanoframeworkExampleCFNet/Infrastructure/MqttManager.cs:117-156 | The handler's chain of prefix tests. The category it returns is always one whose own test admits the topic. |
| `Topics.ClassifyIsFirstMatch` | NanoframeworkExampleCFNet/Infrastructure/MqttManager.cs:117-156 | A topic gets category c iff c's own test admits it and no earlier test in the chain does, so each topic gets exactly one category. |
| `Topics.UnclassifiedIffNoPrefix` | NanoframeworkExampleCFNet/Infrastructure/MqttManager.cs:117-156 | A topic is unclassified iff it starts with none of the nine prefixes. |
| `Topics.DesiredPropertiesPrecedeTwin` | NanoframeworkExampleCFNet/Infrastructure/MqttManager.cs:117-121 | A desired-properties topic also passes the twin test, and is still classified as desired properties. |
| `Topics.TwinErrorIffContainsCode` | NanoframeworkExampleCFNet/Infrastructure/MqttManager.cs:121-128 | On a twin topic, "IndexOf(code) > 0" for 400, 404 or 500 is the same as containing the code, because such a topic starts with `$`. |
| `Topics.DeviceBoundFollowsDeviceId` | NanoframeworkExampleCFNet/Infrastructure/MqttManager.cs:133 | Every topic under `devices/<DeviceId>/messages/devicebound/` is classified as device-bound for that id. |
| `Sas.StringToSign` | NanoframeworkExampleCFNet/Infrastructure/MqttManager.cs:166-173 | What is signed starts with the encoded resource, then one line feed, and there is no further line feed. |
| `Sas.Signature` | NanoframeworkExampleCFNet/Infrastructure/MqttManager.cs:172-174 | The signature is the base64 of the HMAC-SHA256, keyed by the decoded shared key, of the UTF-8 bytes of the string to sign. |
| `Sas.UnnamedToken` | NanoframeworkExampleCFNet/Infrastructure/MqttManager.cs:185-189 | The format `SharedAccessSignature sr=<uri>&sig=<sig>&se=<expiry>`. |
| `Sas.Token` | NanoframeworkExampleCFNet/Infrastructure/MqttManager.cs:176-189 | The token starts with `SharedAccessSignature sr=<encoded uri>&sig=`, and it carries `&skn=` whenever a key name is given. |
| `Sas.SharedAccessSignature` | NanoframeworkExampleCFNet/Infrastructure/MqttManager.cs:159-192 | Fails iff the key is not base64. Otherwise it builds the token for expiry `now + ttl` (the corrected definition, see Findings). |
| `Sas.GetSharedAccessSignature` | NanoframeworkExampleCFNet/Infrastructure/MqttManager.cs:159-192 | As written, the result is the unnamed-key token whatever `keyName` is. |
| `Sas.ExpiryReadBack` | NanoframeworkExampleCFNet/Infrastructure/MqttManager.cs:166-173 | The signed string is the encoded URI, a line feed, then a decimal that reads back as exactly `now + ttl`. |
| `Sas.FreshClockSignsFreshString` | NanoframeworkExampleCFNet/Infrastructure/MqttManager.cs:166-173 | Reconnects at different clock seconds sign different strings. |
| `Sas.UnnamedTokenHasNoKeyName` | NanoframeworkExampleCFNet/Infrastructure/MqttManager.cs:185-189 | The unnamed format has no `&skn=` field when its encoded parts carry no `&`. |
| `Sas.AsWrittenTokenOmitsKeyName` | NanoframeworkExampleCFNet/Infrastructure/MqttManager.cs:176-191 | The token the C# builder returns never contains `&skn=`. |
| `Sas.NamedKeyIsDropped` | NanoframeworkExampleCFNet/Infrastructure/MqttManager.cs:178-189 | With key name "iothubowner", the as-written token lacks `&skn=` and the intended one has it. |
| `Sas.NamedTokenCarriesKeyName` | NanoframeworkExampleCFNet/Infrastructure/MqttManager.cs:178-184 | The corrected token contains `&skn=` iff a key name is given. |
| `Text.IndexOf` | NanoframeworkExampleCFNet/Infrastructure/MqttManager.cs:123-124 | The first index at which the pattern occurs, or -1 exactly when it occurs nowhere. |
| `Text.IntDecimalRoundTrip` | NanoframeworkExampleCFNet/Infrastructure/MqttManager.cs:168 | The decimal rendering of the expiry reads back to the same integer. |

## Left out

- Wi-Fi/DHCP join (NetworkManager.cs) is not modelled. Its outcome is a boolean parameter, and the 60 s cancellation is part of "failed".
- Logging (Logger.cs) and the log text of every branch are not modelled. The topic classifier returns the category it would log.
- The five InstrumentNames.cs constants are inlined in `DeviceAgent`.
- The M2Mqtt client is not modelled: TLS 1.2, the X509 root certificate, the socket, message ids and CONNACK codes. The broker's answer is the parameter `BrokerReply`.
- The client is a value in the manager's `client` field, so aliasing of the client object is not captured. A client constructor that throws is not modelled: the model always creates the new client.
- A `Subscribe` that throws is not modelled. Its exception would be caught by `ConnectToServices`, so the session stays connected without subscriptions.
- The asynchronous handlers (`ConnectionClosed`, `MqttMsgPublished`, `MqttMsgSubscribed`, `MqttMsgUnsubscribed`) only log, and their logging is left out. A closed session and a lost Wi-Fi are modelled only between iterations: `Step` applies them before it reads the status. A drop during an iteration, racing with `GetStatus` or a publish, is not modelled. A publish on a closed client is modelled only as a publish that throws.
- HMAC-SHA256, base64 and `HttpUtility.UrlEncode` are function-valued fields of `Sas.Crypto`, and so is UTF-8 encoding. The only fact assumed of UrlEncode is that it escapes `&`, and only the `skn` lemmas assume it. Payloads stay strings, not UTF-8 bytes.
- The `WeatherHelper` formulas, unit conversions and floating-point `ToString()` are not modelled. The five published values are opaque strings in `Reading`.
- SHTC3 pin set-up and reads are not modelled. Set-up success and the read result are parameters.
- `Thread.Sleep(1000)` after a failed connect and `Thread.SpinWait(1)` inside the minute are timing only, and are not modelled.
- `Main` never terminates. The model proves properties of one iteration and of bounded runs.
- The `default` branch that throws `ArgumentOutOfRangeException` cannot be written: `DeviceStatus` has exactly four values and `Dispatch` matches them all.
- `_mqttManager != null` in `GetStatus` always holds, because the field is readonly and initialised, so it is omitted.
- String tests are ordinal. Culture-sensitive comparison is not modelled.
- `ToUnixTimeSeconds` truncates ticks to whole seconds before subtracting the epoch. Clocks before 1970 may round differently between runtime versions. The expiry `long` cannot overflow for any `DateTime`, so it is unbounded here.

## Findings

| source | as written | input that shows it | evidently intended | confidence | as-written member | corrected member |
|---|---|---|---|---|---|---|
| NanoframeworkExampleCFNet/Infrastructure/MqttManager.cs:178-189 | The named-key token (`...&se=<exp>&skn=<key>`) is assigned, then unconditionally overwritten by the unnamed format. The key name never reaches the token. | `keyName` = "iothubowner" with a valid base64 key: the result has no `&skn=` field (`Sas.NamedKeyIsDropped`). | `&skn=<UrlEncode(keyName)>` is appended exactly when a key name is given, which needs an `else`. | medium, not executed | `Sas.GetSharedAccessSignature` | `Sas.SharedAccessSignature` |

The only caller, `Connect`, passes a null key name, and `Mqtt.MqttManager.Connect`
calls the as-written method the same way. On that input the two definitions
agree: the as-written method's contract is the corrected function applied to
`None`. So the connection behaviour modelled here is that of the code as written.
