/**
  The Azure IoT Hub Shared Access Signature the device presents as its MQTT
  password (`MqttManager.GetSharedAccessSignature`). The token signs the
  URL-encoded resource and the expiry time, one per line, with HMAC-SHA256
  keyed by the base64-decoded shared key, and carries the encoded resource,
  the encoded signature and the encoded expiry.
 */
module Sas {
  import opened Wrappers
  import opened Text

  /**
    The foreign primitives the token builder calls, as total functions:
    `HttpUtility.UrlEncode`, `Convert.FromBase64String` (None where it throws),
    `Convert.ToBase64String`, `HMACSHA256.HashData` (key, data) and
    `Encoding.UTF8.GetBytes`.
   */
  datatype Crypto = Crypto(
    urlEncode: string -> string,
    fromBase64: string -> Option<seq<bv8>>,
    toBase64: seq<bv8> -> string,
    hmacSha256: (seq<bv8>, seq<bv8>) -> seq<bv8>,
    utf8: string -> seq<bv8>)

  /** `Convert.FromBase64String` rejected the shared key. */
  datatype SasError = InvalidKeyEncoding

  /** `HttpUtility.UrlEncode` escapes every `&` (as `%26`). */
  ghost predicate UrlEncodeEscapesAmpersand(c: Crypto)
  {
    forall s :: '&' !in c.urlEncode(s)
  }

  const TokenPrefix := "SharedAccessSignature sr="
  const SignatureField := "&sig="
  const ExpiryField := "&se="
  const KeyNameField := "&skn="

  /** What the token signs: the encoded resource, a line feed, the expiry in Unix seconds. */
  function StringToSign(c: Crypto, resource: string, expiry: int): (r: string)
    ensures |r| > |c.urlEncode(resource)| && r[..|c.urlEncode(resource)|] == c.urlEncode(resource)
    ensures r[|c.urlEncode(resource)|] == '\n' && '\n' !in r[|c.urlEncode(resource)| + 1..]
  {
    c.urlEncode(resource) + "\n" + IntToDecimal(expiry)
  }

  /** The base64 HMAC-SHA256 of the string to sign, keyed by the decoded shared key. */
  function Signature(c: Crypto, key: seq<bv8>, resource: string, expiry: int): string
  {
    c.toBase64(c.hmacSha256(key, c.utf8(StringToSign(c, resource, expiry))))
  }

  /** The token format without a key name. */
  function UnnamedToken(encodedUri: string, encodedSig: string, encodedExpiry: string): string
  {
    TokenPrefix + encodedUri + SignatureField + encodedSig + ExpiryField + encodedExpiry
  }

  /** The token for a decoded key, with the `skn` field exactly when a key name is given. */
  function Token(c: Crypto, key: seq<bv8>, resource: string, expiry: int, keyName: Option<string>): (r: string)
    ensures StartsWith(r, TokenPrefix + c.urlEncode(resource) + SignatureField)
    ensures keyName.Some? ==> Contains(r, KeyNameField)
  {
    var unnamed := UnnamedToken(c.urlEncode(resource),
                                c.urlEncode(Signature(c, key, resource, expiry)),
                                c.urlEncode(IntToDecimal(expiry)));
    if keyName.Some? then
      var named := unnamed + KeyNameField + c.urlEncode(keyName.value);
      assert named[|unnamed|..|unnamed| + |KeyNameField|] == KeyNameField;
      assert OccursAt(named, KeyNameField, |unnamed|);
      named
    else unnamed
  }

  /**
    The evidently intended token builder: expiry `nowUnix + ttl`, failure
    exactly when the shared key is not base64, and the key-name field when a
    named policy key is used.
   */
  function SharedAccessSignature(c: Crypto, keyName: Option<string>, sharedAccessKey: string,
                                 resource: string, nowUnix: int, ttl: nat): (r: Result<string, SasError>)
    ensures r.Failure? <==> c.fromBase64(sharedAccessKey).None?
    ensures r.Success? ==>
      r.value == Token(c, c.fromBase64(sharedAccessKey).value, resource, nowUnix + ttl, keyName)
  {
    match c.fromBase64(sharedAccessKey)
    case None => Failure(InvalidKeyEncoding)
    case Some(key) => Success(Token(c, key, resource, nowUnix + ttl, keyName))
  }

  /**
    The builder as the C# `GetSharedAccessSignature` writes it: the named-key format is assigned and
    then unconditionally overwritten by the unnamed one, so the key name never
    reaches the token.
   */
  method GetSharedAccessSignature(c: Crypto, keyName: Option<string>, sharedAccessKey: string,
                                  resource: string, nowUnix: int, ttl: nat)
    returns (r: Result<string, SasError>)
    ensures r == SharedAccessSignature(c, None, sharedAccessKey, resource, nowUnix, ttl)
  {
    var exp := nowUnix + ttl;
    var expiry := IntToDecimal(exp);
    var encodedUri := c.urlEncode(resource);
    var key := c.fromBase64(sharedAccessKey);
    if key.None? {
      return Failure(InvalidKeyEncoding);
    }
    var hmac := c.hmacSha256(key.value, c.utf8(encodedUri + "\n" + expiry));
    var sig := c.toBase64(hmac);
    var result := "";
    if keyName.Some? {
      result := TokenPrefix + encodedUri + SignatureField + c.urlEncode(sig)
                + ExpiryField + c.urlEncode(expiry) + KeyNameField + c.urlEncode(keyName.value);
    }
    result := TokenPrefix + encodedUri + SignatureField + c.urlEncode(sig)
              + ExpiryField + c.urlEncode(expiry);
    return Success(result);
  }

  // ---------------------------------------------------------------------
  // Properties
  // ---------------------------------------------------------------------

  /** The expiry can be read back from the signed string: it is exactly `now + ttl`. */
  lemma ExpiryReadBack(c: Crypto, resource: string, nowUnix: int, ttl: nat)
    ensures var s := StringToSign(c, resource, nowUnix + ttl);
      |s| > |c.urlEncode(resource)| + 1 &&
      s[|c.urlEncode(resource)|] == '\n' &&
      ParseInt(s[|c.urlEncode(resource)| + 1..]) == nowUnix + ttl
  {
    var s := StringToSign(c, resource, nowUnix + ttl);
    assert s[|c.urlEncode(resource)| + 1..] == IntToDecimal(nowUnix + ttl);
    IntDecimalRoundTrip(nowUnix + ttl);
  }

  /** Two clock readings a whole second apart never sign the same string. */
  lemma FreshClockSignsFreshString(c: Crypto, resource: string, now1: int, now2: int, ttl: nat)
    requires now1 != now2
    ensures StringToSign(c, resource, now1 + ttl) != StringToSign(c, resource, now2 + ttl)
  {
    ExpiryReadBack(c, resource, now1, ttl);
    ExpiryReadBack(c, resource, now2, ttl);
  }

  /** An unnamed token has no `&skn=` field when the encoded parts carry no `&`. */
  lemma UnnamedTokenHasNoKeyName(u: string, g: string, e: string)
    requires '&' !in u && '&' !in g && '&' !in e
    ensures !Contains(UnnamedToken(u, g, e), KeyNameField)
  {
    var t := UnnamedToken(u, g, e);
    var a := |TokenPrefix| + |u|;
    var b := a + 5 + |g|;
    assert '&' !in TokenPrefix;
    assert '&' !in "sig=" && '&' !in "se=";
    forall i | 0 <= i <= |t|
      ensures !OccursAt(t, KeyNameField, i)
    {
      if i + 5 <= |t| {
        assert t[i] != '&' || t[i + 2] != 'k' by {
          if i < |TokenPrefix| {
            assert t[i] == TokenPrefix[i];
          } else if i < a {
            assert t[i] == u[i - |TokenPrefix|];
          } else if i == a {
            assert t[a + 2] == 'i';
          } else if i < a + 5 {
            assert t[i] == "sig="[i - a - 1];
          } else if i < b {
            assert t[i] == g[i - a - 5];
          } else if i == b {
            assert t[b + 2] == 'e';
          } else if i < b + 4 {
            assert t[i] == "se="[i - b - 1];
          } else {
            assert t[i] == e[i - b - 4];
          }
        }
        assert t[i..i + 5][0] == t[i] && t[i..i + 5][2] == t[i + 2];
      }
    }
  }

  /**
    The token the C# `GetSharedAccessSignature` returns never carries a key
    name. The method's contract makes its result the unnamed token whatever
    `keyName` is, so the lemma is stated about that token.
   */
  lemma AsWrittenTokenOmitsKeyName(c: Crypto, sharedAccessKey: string,
                                   resource: string, nowUnix: int, ttl: nat)
    requires UrlEncodeEscapesAmpersand(c)
    requires c.fromBase64(sharedAccessKey).Some?
    ensures var r := SharedAccessSignature(c, None, sharedAccessKey, resource, nowUnix, ttl);
      r.Success? && !Contains(r.value, KeyNameField)
  {
    var key := c.fromBase64(sharedAccessKey).value;
    var e := nowUnix + ttl;
    UnnamedTokenHasNoKeyName(c.urlEncode(resource), c.urlEncode(Signature(c, key, resource, e)),
                             c.urlEncode(IntToDecimal(e)));
  }

  /**
    Counterexample to the C# builder: with a named key ("iothubowner") the
    token it returns lacks the `&skn=` field the named-key branch computed.
   */
  lemma NamedKeyIsDropped(c: Crypto, sharedAccessKey: string, resource: string, nowUnix: int, ttl: nat)
    requires UrlEncodeEscapesAmpersand(c)
    requires c.fromBase64(sharedAccessKey).Some?
    ensures var asWritten := SharedAccessSignature(c, None, sharedAccessKey, resource, nowUnix, ttl);
            var intended := SharedAccessSignature(c, Some("iothubowner"), sharedAccessKey, resource, nowUnix, ttl);
      asWritten.Success? && intended.Success? &&
      !Contains(asWritten.value, KeyNameField) && Contains(intended.value, KeyNameField)
  {
    AsWrittenTokenOmitsKeyName(c, sharedAccessKey, resource, nowUnix, ttl);
    NamedTokenCarriesKeyName(c, Some("iothubowner"), sharedAccessKey, resource, nowUnix, ttl);
  }

  /** The intended builder writes the key-name field if and only if a key name is given. */
  lemma NamedTokenCarriesKeyName(c: Crypto, keyName: Option<string>, sharedAccessKey: string,
                                 resource: string, nowUnix: int, ttl: nat)
    requires UrlEncodeEscapesAmpersand(c)
    requires c.fromBase64(sharedAccessKey).Some?
    ensures var r := SharedAccessSignature(c, keyName, sharedAccessKey, resource, nowUnix, ttl);
      r.Success? && (Contains(r.value, KeyNameField) <==> keyName.Some?)
  {
    var key := c.fromBase64(sharedAccessKey).value;
    var e := nowUnix + ttl;
    var unnamed := UnnamedToken(c.urlEncode(resource), c.urlEncode(Signature(c, key, resource, e)),
                                c.urlEncode(IntToDecimal(e)));
    if keyName.Some? {
      var t := unnamed + KeyNameField + c.urlEncode(keyName.value);
      assert OccursAt(t, KeyNameField, |unnamed|) by {
        assert t[|unnamed|..|unnamed| + 5] == KeyNameField;
      }
    } else {
      UnnamedTokenHasNoKeyName(c.urlEncode(resource), c.urlEncode(Signature(c, key, resource, e)),
                               c.urlEncode(IntToDecimal(e)));
    }
  }
}
