/** The MoMo gateway (app/services/momo.py): the signed create-payment
    request, its lower-case HMAC-SHA256 signature, the webhook check, and the
    service's transaction ledger. */
module Momo {
  import opened Wrappers
  import opened Strings
  import opened Ascii
  import opened Decimal
  import opened PyValue
  import opened Config
  import Security

  const SignatureKey: string := "signature"

  /** `create_signature(raw)`: the lower-case hex HMAC-SHA256 of `raw` under
      the secret key. */
  function CreateSignature(secretKey: string, mac: Mac, raw: string): (sig: string)
    ensures |sig| == 64 && IsLowerHex(sig)
    ensures sig == HexDigest(mac(secretKey, raw))
  {
    HexDigest(mac(secretKey, raw))
  }

  // -----------------------------------------------------------------------
  // Create payment

  /** The signed fields, in the order the raw signature lists them. */
  const SignedKeys: seq<string> :=
    ["accessKey", "amount", "extraData", "ipnUrl", "orderId", "orderInfo",
     "partnerCode", "redirectUrl", "requestId", "requestType"]

  /** The signed field names are listed in ascending order. */
  lemma SignedKeysAscending()
    ensures Increasing(SignedKeys)
  {
    var k := SignedKeys;
    LessAt(k[0], k[1], 1);
    LessAt(k[1], k[2], 0);
    LessAt(k[2], k[3], 0);
    LessAt(k[3], k[4], 0);
    LessAt(k[4], k[5], 6) by { assert k[4][..6] == "orderI" == k[5][..6]; }
    LessAt(k[5], k[6], 0);
    LessAt(k[6], k[7], 0);
    LessAt(k[7], k[8], 2) by { assert k[7][..2] == "re" == k[8][..2]; }
    LessAt(k[8], k[9], 7) by { assert k[8][..7] == "request" == k[9][..7]; }
    IncreasingFromAdjacent(k);
  }

  /** No signed field name is listed twice. */
  lemma SignedKeysDistinct()
    ensures Distinct(SignedKeys)
  {
    SignedKeysAscending();
    forall i, j | 0 <= i < j < |SignedKeys| ensures SignedKeys[i] != SignedKeys[j] {
      LessIrreflexive(SignedKeys[i]);
    }
  }

  /** The values of the signed fields, in the order of `SignedKeys`. */
  function SignedValues(st: Settings, requestId: string, amount: int, orderId: string,
                        orderInfo: string, extraData: string): seq<Value>
  {
    [VStr(st.momoAccessKey), VInt(amount), VStr(extraData), VStr(st.momoNotifyUrl),
     VStr(orderId), VStr(orderInfo), VStr(st.momoPartnerCode), VStr(st.momoReturnUrl),
     VStr(requestId), VStr("captureWallet")]
  }

  /** The string the create-payment request signs,
      `accessKey=…&amount=…&extraData=…&…&requestType=captureWallet`: the
      signed keys in their fixed order, each with its value, joined with `&`. */
  function RawCreateSignature(st: Settings, requestId: string, amount: int, orderId: string,
                              orderInfo: string, extraData: string): (raw: string)
    ensures Distinct(SignedKeys)
    ensures raw == Security.HashData(MapOf(SignedKeys, SignedValues(st, requestId, amount, orderId, orderInfo, extraData)))
  {
    var vs := SignedValues(st, requestId, amount, orderId, orderInfo, extraData);
    SignedKeysAscending();
    HashDataOfAscending(SignedKeys, vs);
    Join(seq(|SignedKeys|, i requires 0 <= i < |SignedKeys| => Security.Field(SignedKeys[i], vs[i])), "&")
  }

  /** The JSON body posted to MoMo, before the signature is added: the ten
      signed fields and `lang`, which is `vi`. */
  function RequestData(st: Settings, requestId: string, amount: int, orderId: string,
                       orderInfo: string, extraData: string): (data: map<string, Value>)
    ensures data.Keys == Elems(SignedKeys) + {"lang"}
    ensures data["lang"] == VStr("vi")
  {
    SignedKeysDistinct();
    MapOf(SignedKeys, SignedValues(st, requestId, amount, orderId, orderInfo, extraData))["lang" := VStr("vi")]
  }

  /** `lang` is not among the signed keys. */
  lemma LangNotSigned()
    ensures "lang" !in Elems(SignedKeys)
  {
    forall i | 0 <= i < |SignedKeys| ensures SignedKeys[i] != "lang" {
      assert |SignedKeys[i]| != 4;
    }
  }

  /** The signature does not sign itself. */
  lemma SignatureNotSigned()
    ensures SignatureKey !in Elems(SignedKeys)
  {
    forall i | 0 <= i < |SignedKeys| ensures SignedKeys[i] != SignatureKey {
      assert SignedKeys[i][0] != 's';
    }
  }

  /** HashData of a map built from keys in ascending order is the joined
      `key=value` texts in that order. */
  lemma HashDataOfAscending(ks: seq<string>, vs: seq<Value>)
    requires Increasing(ks) && |ks| == |vs|
    ensures Distinct(ks)
    ensures Security.HashData(MapOf(ks, vs)) ==
      Join(seq(|ks|, i requires 0 <= i < |ks| => Security.Field(ks[i], vs[i])), "&")
  {
    forall i, j | 0 <= i < j < |ks| ensures ks[i] != ks[j] {
      LessIrreflexive(ks[i]);
    }
    var m := MapOf(ks, vs);
    SortedKeysOfIncreasing(ks);
    assert Security.Fields(ks, m) == seq(|ks|, i requires 0 <= i < |ks| => Security.Field(ks[i], vs[i]));
  }

  /** The raw signature is the payload's fields other than `lang`, sorted by
      key and joined as `key=value` with `&`: `lang` is sent but not signed,
      and the signed `amount` is the posted one. */
  lemma CreateSignsPayloadButLang(st: Settings, requestId: string, amount: int, orderId: string,
                                  orderInfo: string, extraData: string)
    ensures RawCreateSignature(st, requestId, amount, orderId, orderInfo, extraData) ==
      Security.HashData(RequestData(st, requestId, amount, orderId, orderInfo, extraData) - {"lang"})
  {
    var vs := SignedValues(st, requestId, amount, orderId, orderInfo, extraData);
    LangNotSigned();
    SignedKeysDistinct();
    var m := MapOf(SignedKeys, vs);
    assert m["lang" := VStr("vi")] - {"lang"} == m;
  }

  /** MoMo is sent the amount as given, not scaled by 100 as VNPAY is. */
  lemma AmountUnscaled(st: Settings, requestId: string, amount: int, orderId: string,
                       orderInfo: string, extraData: string)
    ensures RequestData(st, requestId, amount, orderId, orderInfo, extraData)["amount"] == VInt(amount)
  {
    var vs := SignedValues(st, requestId, amount, orderId, orderInfo, extraData);
    SignedKeysDistinct();
    var m := MapOf(SignedKeys, vs);
    assert m[SignedKeys[1]] == VInt(amount);
    assert SignedKeys[1] == "amount";
  }

  /** The body posted to MoMo: the payload with its signature added. */
  function SignedRequest(st: Settings, mac: Mac, requestId: string, amount: int, orderId: string,
                         orderInfo: string, extraData: string): (request: map<string, Value>)
    ensures SignatureKey in request && request[SignatureKey].VStr?
    ensures |request[SignatureKey].s| == 64 && IsLowerHex(request[SignatureKey].s)
    ensures request - {SignatureKey} == RequestData(st, requestId, amount, orderId, orderInfo, extraData)
  {
    SignatureNotSigned();
    var raw := RawCreateSignature(st, requestId, amount, orderId, orderInfo, extraData);
    RequestData(st, requestId, amount, orderId, orderInfo, extraData)[SignatureKey := VStr(CreateSignature(st.momoSecretKey, mac, raw))]
  }

  /** The posted signature is the lower-case HMAC of the posted fields other
      than `signature` and `lang`, sorted and joined as `key=value` with `&`. */
  lemma RequestSignsItsFields(st: Settings, mac: Mac, requestId: string, amount: int, orderId: string,
                              orderInfo: string, extraData: string)
    ensures var request := SignedRequest(st, mac, requestId, amount, orderId, orderInfo, extraData);
      && SignatureKey in request && "lang" in request
      && request[SignatureKey] ==
           VStr(CreateSignature(st.momoSecretKey, mac, Security.HashData(request - {SignatureKey, "lang"})))
  {
    var data := RequestData(st, requestId, amount, orderId, orderInfo, extraData);
    var request := SignedRequest(st, mac, requestId, amount, orderId, orderInfo, extraData);
    CreateSignsPayloadButLang(st, requestId, amount, orderId, orderInfo, extraData);
    LangNotSigned();
    SignatureNotSigned();
    assert request - {SignatureKey, "lang"} == data - {"lang"};
  }

  /** What the provider's reply to the create-payment request turns into:
      the HTTP call failing, a body that is not JSON, or a JSON document. */
  datatype Reply =
    | TransportFailure(error: string)
    | NotJson(error: string)
    | JsonObject(fields: map<string, Value>)
    | JsonOther(value: Value)

  /** The exceptions `create_payment_url` lets escape, with their `str()`. */
  datatype CreateError = CreateError(message: string)

  /** `response_data.get("resultCode") == 0`. */
  predicate Accepted(reply: Reply)
  {
    reply.JsonObject? && "resultCode" in reply.fields && EqualsZero(reply.fields["resultCode"])
  }

  /** The MoMo service object and its in-memory ledger
      (`transaction_store`), keyed by order id. */
  class MomoService {
    var store: map<HashKey, Status>

    constructor()
      ensures store == map[]
    {
      store := map[];
    }

    /** `create_payment_url`: an amount with more digits than `str()`
        accepts fails while the signature string is formatted, before anything
        is sent; otherwise sign and post the request; on `resultCode == 0`
        record the order as pending and return `payUrl` (default `""`);
        otherwise raise and leave the ledger alone. The request id and the
        provider's reply are inputs. */
    method CreatePaymentUrl(st: Settings, mac: Mac, orderId: string, amount: int, orderInfo: string,
                            extraData: string, requestId: string, reply: Reply)
      returns (request: map<string, Value>, r: Result<Value, CreateError>)
      modifies this
      ensures ExceedsStrDigits(amount) ==>
                request == map[] && r == Err(CreateError(StrDigitsLimitMessage)) && store == old(store)
      ensures !ExceedsStrDigits(amount) ==>
                request == SignedRequest(st, mac, requestId, amount, orderId, orderInfo, extraData)
      ensures r.Ok? <==> !ExceedsStrDigits(amount) && Accepted(reply)
      ensures !ExceedsStrDigits(amount) && (reply.TransportFailure? || reply.NotJson?) ==>
                r == Err(CreateError(reply.error))
      ensures r.Ok? ==> r.value == (if "payUrl" in reply.fields then reply.fields["payUrl"] else VStr(""))
      ensures !ExceedsStrDigits(amount) && r.Err? && reply.JsonObject? ==>
                r.error.message == "MoMo payment creation failed: " +
                  Str(if "message" in reply.fields then reply.fields["message"] else VNone)
      ensures !ExceedsStrDigits(amount) && r.Err? && reply.JsonOther? ==>
                r.error.message == "'" + TypeName(reply.value) + "' object has no attribute 'get'"
      ensures store == if r.Ok? then old(store)[KStr(orderId) := Pending] else old(store)
    {
      if ExceedsStrDigits(amount) {
        return map[], Err(CreateError(StrDigitsLimitMessage));
      }
      var raw := RawCreateSignature(st, requestId, amount, orderId, orderInfo, extraData);
      var signature := CreateSignature(st.momoSecretKey, mac, raw);
      request := RequestData(st, requestId, amount, orderId, orderInfo, extraData)[SignatureKey := VStr(signature)];
      match reply
      case TransportFailure(e) =>
        r := Err(CreateError(e));
      case NotJson(e) =>
        r := Err(CreateError(e));
      case JsonOther(v) =>
        r := Err(CreateError("'" + TypeName(v) + "' object has no attribute 'get'"));
      case JsonObject(fields) =>
        if "resultCode" in fields && EqualsZero(fields["resultCode"]) {
          var paymentUrl := if "payUrl" in fields then fields["payUrl"] else VStr("");
          store := store[KStr(orderId) := Pending];
          r := Ok(paymentUrl);
        } else {
          var message := if "message" in fields then fields["message"] else VNone;
          r := Err(CreateError("MoMo payment creation failed: " + Str(message)));
        }
    }

    /** `verify_webhook(data)`: without a `signature` field, false and `data`
        untouched; otherwise the field is popped from `data` and compared,
        exactly, with the signature of the webhook string of what is left. */
    method VerifyWebhook(data: PyDict, st: Settings, mac: Mac) returns (ok: bool)
      requires data.Valid()
      modifies data
      ensures data.Valid()
      ensures ok == WebhookVerifies(st, mac, old(data.vals))
      ensures SignatureKey !in old(data.vals) ==> data.keys == old(data.keys) && data.vals == old(data.vals)
      ensures SignatureKey in old(data.vals) ==>
        data.keys == RemoveKey(old(data.keys), SignatureKey) && data.vals == old(data.vals) - {SignatureKey}
    {
      if SignatureKey !in data.vals {
        return false;
      }
      var received := data.Pop(SignatureKey);
      var sortedKeys := Sorted(data.keys);
      WebhookRawOfSorted(st.momoAccessKey, data.keys, data.vals);
      var raw := BuildWebhookRaw(st.momoAccessKey, sortedKeys, data.vals);
      var calculated := CreateSignature(st.momoSecretKey, mac, raw);
      ok := received == VStr(calculated);
    }
  }

  // -----------------------------------------------------------------------
  // Webhook verification

  /** The loop of `verify_webhook` that builds the signed string from the
      notification's sorted keys and their values. */
  method BuildWebhookRaw(accessKey: string, sortedKeys: seq<string>, vals: map<string, Value>)
    returns (raw: string)
    requires forall i :: 0 <= i < |sortedKeys| ==> sortedKeys[i] in vals
    ensures raw == "accessKey=" + accessKey + AppendFields(sortedKeys, vals)
  {
    ghost var prefix := "accessKey=" + accessKey;
    raw := "accessKey=" + accessKey;
    var n := 0;
    while n < |sortedKeys|
      invariant 0 <= n <= |sortedKeys|
      invariant raw == prefix + AppendFields(sortedKeys[..n], vals)
    {
      WebhookStep(prefix, sortedKeys, n, vals, raw);
      raw := raw + "&" + sortedKeys[n] + "=" + Str(vals[sortedKeys[n]]);
      n := n + 1;
    }
    assert sortedKeys[..n] == sortedKeys;
  }

  /** `&key=value` for every key of `ks`, in order. */
  function AppendFields(ks: seq<string>, m: map<string, Value>): string
    requires forall i :: 0 <= i < |ks| ==> ks[i] in m
  {
    if |ks| == 0 then "" else "&" + Security.Field(ks[0], m[ks[0]]) + AppendFields(ks[1..], m)
  }

  lemma {:induction false} AppendFieldsSnoc(ks: seq<string>, n: int, m: map<string, Value>)
    requires 0 <= n < |ks| && forall i :: 0 <= i < |ks| ==> ks[i] in m
    ensures AppendFields(ks[..n + 1], m) == AppendFields(ks[..n], m) + "&" + ks[n] + "=" + Str(m[ks[n]])
  {
    if n > 0 {
      assert ks[..n + 1][1..] == ks[1..][..n];
      assert ks[..n][1..] == ks[1..][..n - 1];
      AppendFieldsSnoc(ks[1..], n - 1, m);
    }
  }

  /** The string a webhook's signature is checked against:
      `accessKey=<access key>` first, then `&key=value` for every field of the
      notification in ascending key order. */
  ghost function WebhookRaw(accessKey: string, m: map<string, Value>): string
  {
    SortedKeysOfProperties(m.Keys);
    var ks := SortedKeysOf(m.Keys);
    assert forall j :: 0 <= j < |ks| ==> ks[j] in Elems(ks);
    "accessKey=" + accessKey + AppendFields(ks, m)
  }

  /** What `verify_webhook` answers for the notification `m`. */
  ghost predicate WebhookVerifies(st: Settings, mac: Mac, m: map<string, Value>)
  {
    && SignatureKey in m
    && m[SignatureKey] == VStr(CreateSignature(st.momoSecretKey, mac,
                                               WebhookRaw(st.momoAccessKey, m - {SignatureKey})))
  }

  lemma {:induction false} AppendFieldsIsJoin(ks: seq<string>, m: map<string, Value>)
    requires forall i :: 0 <= i < |ks| ==> ks[i] in m
    ensures AppendFields(ks, m) == if |ks| == 0 then "" else "&" + Join(Security.Fields(ks, m), "&")
  {
    if |ks| > 1 {
      AppendFieldsIsJoin(ks[1..], m);
      assert Security.Fields(ks, m)[1..] == Security.Fields(ks[1..], m);
    }
  }

  /** The webhook string, from the keys in insertion order. */
  lemma WebhookRawOfSorted(accessKey: string, keys: seq<string>, vals: map<string, Value>)
    requires Distinct(keys) && Elems(keys) == vals.Keys
    ensures forall j :: 0 <= j < |Sorted(keys)| ==> Sorted(keys)[j] in vals
    ensures WebhookRaw(accessKey, vals) == "accessKey=" + accessKey + AppendFields(Sorted(keys), vals)
  {
    SortedKeysOfAgrees(keys, vals.Keys);
    SortedKeysOfProperties(vals.Keys);
    var ks := Sorted(keys);
    assert forall j :: 0 <= j < |ks| ==> ks[j] in Elems(ks);
  }

  /** One turn of the loop that builds the webhook string. */
  lemma WebhookStep(prefix: string, ks: seq<string>, n: int, m: map<string, Value>, acc: string)
    requires 0 <= n < |ks| && forall i :: 0 <= i < |ks| ==> ks[i] in m
    requires acc == prefix + AppendFields(ks[..n], m)
    ensures prefix + AppendFields(ks[..n + 1], m) == acc + "&" + ks[n] + "=" + Str(m[ks[n]])
  {
    AppendFieldsSnoc(ks, n, m);
  }

  /** The webhook string is the access-key field, kept out of the sort, in
      front of the same sorted `key=value` string VNPAY signs. */
  lemma WebhookRawShape(accessKey: string, m: map<string, Value>)
    ensures WebhookRaw(accessKey, m) ==
      "accessKey=" + accessKey + (if m == map[] then "" else "&" + Security.HashData(m))
  {
    SortedKeysOfProperties(m.Keys);
    var ks := SortedKeysOf(m.Keys);
    assert forall j :: 0 <= j < |ks| ==> ks[j] in Elems(ks);
    AppendFieldsIsJoin(ks, m);
    if m != map[] {
      assert |m.Keys| > 0 by {
        var k :| k in m;
      }
    }
  }

  /** A notification carrying the signature of its other fields verifies. */
  lemma WebhookSignThenVerify(st: Settings, mac: Mac, p: map<string, Value>)
    requires SignatureKey !in p
    ensures WebhookVerifies(st, mac,
      p[SignatureKey := VStr(CreateSignature(st.momoSecretKey, mac, WebhookRaw(st.momoAccessKey, p)))])
  {
    var sig := CreateSignature(st.momoSecretKey, mac, WebhookRaw(st.momoAccessKey, p));
    assert p[SignatureKey := VStr(sig)] - {SignatureKey} == p;
  }

  /** The comparison is case-sensitive: the signature sent in upper case is
      rejected whenever the computed one holds a hex letter. */
  lemma WebhookRejectsUpperCase(st: Settings, mac: Mac, p: map<string, Value>, i: int)
    requires SignatureKey !in p
    requires var sig := CreateSignature(st.momoSecretKey, mac, WebhookRaw(st.momoAccessKey, p));
      0 <= i < |sig| && 'a' <= sig[i] <= 'f'
    ensures !WebhookVerifies(st, mac,
      p[SignatureKey := VStr(Upper(CreateSignature(st.momoSecretKey, mac, WebhookRaw(st.momoAccessKey, p))))])
  {
    var sig := CreateSignature(st.momoSecretKey, mac, WebhookRaw(st.momoAccessKey, p));
    assert p[SignatureKey := VStr(Upper(sig))] - {SignatureKey} == p;
    UpperChangesLetter(sig, i);
  }

  /** A signature that is not a string never matches. */
  lemma WebhookRejectsNonString(st: Settings, mac: Mac, m: map<string, Value>)
    requires SignatureKey in m && !m[SignatureKey].VStr?
    ensures !WebhookVerifies(st, mac, m)
  {
  }
}
