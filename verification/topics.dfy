/**
  Classification of inbound MQTT messages by topic
  (`MqttManager.Client_MqttMsgReceived`): a chain of ordinal prefix tests in
  which the first test that matches decides, and a topic that matches none
  is left unclassified. The handler only logs; the category is what it logs.
 */
module Topics {
  import opened Text

  datatype Category =
    | DesiredProperties
    | TwinError
    | TwinSuccess
    | DirectMethod
    | DeviceBound
    | ClientProxyDisconnect
    | LogInfo
    | LogHighlightInfo
    | LogError
    | LogWarning
    | Unclassified

  const DesiredPropertiesPrefix := "$iothub/twin/PATCH/properties/desired/"
  const TwinPrefix := "$iothub/twin/"
  const TwinResponsePrefix := "$iothub/twin/res/"
  const MethodPrefix := "$iothub/methods/POST/"
  const ClientProxyPrefix := "$iothub/clientproxy/"
  const LogInfoPrefix := "$iothub/logmessage/Info"
  const LogHighlightInfoPrefix := "$iothub/logmessage/HighlightInfo"
  const LogErrorPrefix := "$iothub/logmessage/Error"
  const LogWarningPrefix := "$iothub/logmessage/Warning"

  function DeviceBoundPrefix(deviceId: string): string
  {
    "devices/" + deviceId + "/messages/devicebound/"
  }

  /** The twin-response test as written: one of the error codes found at an index above 0. */
  predicate HasErrorStatus(topic: string)
  {
    IndexOf(topic, "res/400/") > 0 || IndexOf(topic, "res/404/") > 0 || IndexOf(topic, "res/500/") > 0
  }

  /** The handler's if/else-if chain. */
  function Classify(topic: string, deviceId: string): (r: Category)
    ensures Matches(topic, deviceId, r)
  {
    if StartsWith(topic, DesiredPropertiesPrefix) then DesiredProperties
    else if StartsWith(topic, TwinPrefix) then
      (if HasErrorStatus(topic) then TwinError else TwinSuccess)
    else if StartsWith(topic, MethodPrefix) then DirectMethod
    else if StartsWith(topic, DeviceBoundPrefix(deviceId)) then DeviceBound
    else if StartsWith(topic, ClientProxyPrefix) then ClientProxyDisconnect
    else if StartsWith(topic, LogInfoPrefix) then LogInfo
    else if StartsWith(topic, LogHighlightInfoPrefix) then LogHighlightInfo
    else if StartsWith(topic, LogErrorPrefix) then LogError
    else if StartsWith(topic, LogWarningPrefix) then LogWarning
    else Unclassified
  }

  // ---------------------------------------------------------------------
  // An independent reading of the chain: each category's own test, and the
  // position of that test in the chain.
  // ---------------------------------------------------------------------

  /** The position of a category's test in the chain; the fallback comes last. */
  function Precedence(c: Category): nat
  {
    match c
    case DesiredProperties => 0
    case TwinError => 1
    case TwinSuccess => 2
    case DirectMethod => 3
    case DeviceBound => 4
    case ClientProxyDisconnect => 5
    case LogInfo => 6
    case LogHighlightInfo => 7
    case LogError => 8
    case LogWarning => 9
    case Unclassified => 10
  }

  /** The test that admits a topic to a category, taken on its own. */
  predicate Matches(topic: string, deviceId: string, c: Category)
  {
    match c
    case DesiredProperties => StartsWith(topic, DesiredPropertiesPrefix)
    case TwinError => StartsWith(topic, TwinPrefix) && HasErrorStatus(topic)
    case TwinSuccess => StartsWith(topic, TwinPrefix) && !HasErrorStatus(topic)
    case DirectMethod => StartsWith(topic, MethodPrefix)
    case DeviceBound => StartsWith(topic, DeviceBoundPrefix(deviceId))
    case ClientProxyDisconnect => StartsWith(topic, ClientProxyPrefix)
    case LogInfo => StartsWith(topic, LogInfoPrefix)
    case LogHighlightInfo => StartsWith(topic, LogHighlightInfoPrefix)
    case LogError => StartsWith(topic, LogErrorPrefix)
    case LogWarning => StartsWith(topic, LogWarningPrefix)
    case Unclassified => true
  }

  /**
    First match wins: a topic gets category `c` exactly when `c`'s test admits
    it and no test earlier in the chain does. So every topic gets exactly one
    category.
   */
  lemma ClassifyIsFirstMatch(topic: string, deviceId: string, c: Category)
    ensures Classify(topic, deviceId) == c <==>
      Matches(topic, deviceId, c) &&
      forall d :: Precedence(d) < Precedence(c) ==> !Matches(topic, deviceId, d)
  {
    var r := Classify(topic, deviceId);
    // the chosen category's own test holds, and every earlier test fails
    assert Matches(topic, deviceId, r);
    forall d | Precedence(d) < Precedence(r)
      ensures !Matches(topic, deviceId, d)
    {
    }
  }

  /** Classification falls back to `Unclassified` exactly when none of the nine prefixes matches. */
  lemma UnclassifiedIffNoPrefix(topic: string, deviceId: string)
    ensures Classify(topic, deviceId) == Unclassified <==>
      !StartsWith(topic, DesiredPropertiesPrefix) && !StartsWith(topic, TwinPrefix) &&
      !StartsWith(topic, MethodPrefix) && !StartsWith(topic, DeviceBoundPrefix(deviceId)) &&
      !StartsWith(topic, ClientProxyPrefix) && !StartsWith(topic, LogInfoPrefix) &&
      !StartsWith(topic, LogHighlightInfoPrefix) && !StartsWith(topic, LogErrorPrefix) &&
      !StartsWith(topic, LogWarningPrefix)
  {
  }

  /** Every desired-properties topic is also a twin topic, and the earlier test claims it. */
  lemma {:induction false} DesiredPropertiesPrecedeTwin(topic: string, deviceId: string)
    requires StartsWith(topic, DesiredPropertiesPrefix)
    ensures StartsWith(topic, TwinPrefix)
    ensures Matches(topic, deviceId, TwinError) || Matches(topic, deviceId, TwinSuccess)
    ensures Classify(topic, deviceId) == DesiredProperties
  {
    assert DesiredPropertiesPrefix[..|TwinPrefix|] == TwinPrefix;
    assert topic[..|TwinPrefix|] == topic[..|DesiredPropertiesPrefix|][..|TwinPrefix|];
  }

  /**
    On a twin topic the test `IndexOf(code) > 0` is the same as "contains the
    code": the topic starts with `$`, so no error code can be found at index 0.
   */
  lemma TwinErrorIffContainsCode(topic: string)
    requires StartsWith(topic, TwinPrefix)
    ensures HasErrorStatus(topic) <==>
      Contains(topic, "res/400/") || Contains(topic, "res/404/") || Contains(topic, "res/500/")
  {
    assert topic[0] == TwinPrefix[0] == '$';
    NotAtStart(topic, "res/400/");
    NotAtStart(topic, "res/404/");
    NotAtStart(topic, "res/500/");
  }

  lemma NotAtStart(topic: string, code: string)
    requires |topic| > 0 && topic[0] == '$'
    requires |code| > 0 && code[0] == 'r'
    ensures IndexOf(topic, code) > 0 <==> Contains(topic, code)
  {
    assert !OccursAt(topic, code, 0) by {
      assert |topic| >= |code| ==> topic[0..|code|][0] == topic[0] != code[0];
    }
  }

  /** The device-bound test depends on the device id: any topic under the id's prefix is device-bound. */
  lemma DeviceBoundFollowsDeviceId(deviceId: string, rest: string)
    ensures Classify(DeviceBoundPrefix(deviceId) + rest, deviceId) == DeviceBound
  {
    var t := DeviceBoundPrefix(deviceId) + rest;
    assert t[..|DeviceBoundPrefix(deviceId)|] == DeviceBoundPrefix(deviceId);
    assert t[0] == 'd';
    assert !StartsWith(t, DesiredPropertiesPrefix) by { assert DesiredPropertiesPrefix[0] == '$'; }
    assert !StartsWith(t, TwinPrefix) by { assert TwinPrefix[0] == '$'; }
    assert !StartsWith(t, MethodPrefix) by { assert MethodPrefix[0] == '$'; }
  }
}
