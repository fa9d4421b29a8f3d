/** The VNPAY gateway (app/services/vnpay.py): the fifteen parameters of a
    payment, their signed query string, and the service's transaction
    ledger. */
module Vnpay {
  import opened Wrappers
  import opened Strings
  import opened Ascii
  import opened Decimal
  import opened PyValue
  import opened Config
  import opened UrlEncoding
  import opened Security
  import Calendar

  /** The parameter names in the order the parameter dict is written. */
  const ParamKeys: seq<string> :=
    ["vnp_Version", "vnp_Command", "vnp_TmnCode", "vnp_Amount", "vnp_CurrCode", "vnp_TxnRef",
     "vnp_OrderInfo", "vnp_OrderType", "vnp_Locale", "vnp_BankCode", "vnp_TransactionNo",
     "vnp_ReturnUrl", "vnp_CreateDate", "vnp_ExpireDate", "vnp_IpAddr"]

  lemma ParamKeysDistinct()
    ensures Distinct(ParamKeys)
    ensures SecureHashKey !in ParamKeys
  {
  }

  /** The contents of `vnp_params` before it is signed: the amount goes out
      in hundredths, the order id is both the merchant reference and the
      transaction number, and five fields are fixed literals. */
  function Params(st: Settings, orderId: string, amount: int, orderInfo: string,
                  ipAddr: string, createDate: string, expireDate: string): (p: map<string, Value>)
    ensures p.Keys == Elems(ParamKeys)
    ensures forall k | k in p :: p[k].VStr?
  {
    map[
      "vnp_Version" := VStr(st.vnpayApiVersion),
      "vnp_Command" := VStr("pay"),
      "vnp_TmnCode" := VStr(st.vnpayTmnCode),
      "vnp_Amount" := VStr(DecimalString(amount * 100)),
      "vnp_CurrCode" := VStr("VND"),
      "vnp_TxnRef" := VStr(orderId),
      "vnp_OrderInfo" := VStr(orderInfo),
      "vnp_OrderType" := VStr("other"),
      "vnp_Locale" := VStr("vn"),
      "vnp_BankCode" := VStr("VISA"),
      "vnp_TransactionNo" := VStr(orderId),
      "vnp_ReturnUrl" := VStr(st.vnpayReturnUrl),
      "vnp_CreateDate" := VStr(createDate),
      "vnp_ExpireDate" := VStr(expireDate),
      "vnp_IpAddr" := VStr(ipAddr)]
  }

  /** `f"{key}={quote_plus(str(value))}"`. */
  function QueryPart(k: string, v: Value): string
  {
    k + "=" + QuotePlus(Str(v))
  }

  /** The query parts of the keys `ks`, in the order of `ks`. */
  function QueryParts(ks: seq<string>, m: map<string, Value>): (r: seq<string>)
    requires forall i :: 0 <= i < |ks| ==> ks[i] in m
    ensures |r| == |ks|
  {
    seq(|ks|, i requires 0 <= i < |ks| => QueryPart(ks[i], m[ks[i]]))
  }

  /** The parameters with their hash added under `vnp_SecureHash`. */
  ghost function Signed(st: Settings, mac: Mac, p: map<string, Value>): map<string, Value>
  {
    p[SecureHashKey := VStr(SecureHash(st.vnpayHashSecret, mac, p))]
  }

  /** The query string of a payment: every parameter in insertion order, the
      hash last. */
  ghost function Query(st: Settings, mac: Mac, p: map<string, Value>): string
    requires p.Keys == Elems(ParamKeys)
  {
    var keys := ParamKeys + [SecureHashKey];
    assert forall i :: 0 <= i < |keys| ==> keys[i] in Elems(keys);
    Join(QueryParts(keys, Signed(st, mac, p)), "&")
  }

  /** The payment URL handed to the payer. */
  ghost function PaymentUrl(st: Settings, mac: Mac, p: map<string, Value>): string
    requires p.Keys == Elems(ParamKeys)
  {
    st.vnpayUrl + "?" + Query(st, mac, p)
  }

  /** The message of the `ValueError` that `datetime.replace` raises. */
  const DayOutOfRange: string := "day is out of range for month"

  /** The VNPAY service object and its in-memory ledger
      (`transaction_store`), keyed by order id. */
  class VNPayService {
    var store: map<string, Status>

    constructor()
      ensures store == map[]
    {
      store := map[];
    }

    /** `create_payment_url`: `str(amount * 100)` fails when that number has
        more digits than `str()` accepts; the expiry date is the creation time
        with the day of the month moved on by one, which fails on a month's
        last day; otherwise the parameters are signed, the hash appended, the query
        string built in insertion order, and the order recorded as pending.
        The clock reading is an input. */
    method CreatePaymentUrl(st: Settings, mac: Mac, orderId: string, amount: int, orderInfo: string,
                            ipAddr: string, now: Calendar.DateTime)
      returns (r: Result<string, string>)
      requires Calendar.Valid(now)
      modifies this
      ensures ExceedsStrDigits(amount * 100) ==> r == Err(StrDigitsLimitMessage) && store == old(store)
      ensures !ExceedsStrDigits(amount * 100) && Calendar.ReplaceDay(now, now.day + 1).None? ==>
                r == Err(DayOutOfRange) && store == old(store)
      ensures !ExceedsStrDigits(amount * 100) && Calendar.ReplaceDay(now, now.day + 1).Some? ==>
                && r == Ok(PaymentUrl(st, mac, Params(st, orderId, amount, orderInfo, ipAddr, Calendar.Format(now),
                                                      Calendar.Format(Calendar.ReplaceDay(now, now.day + 1).value))))
                && store == old(store)[orderId := Pending]
    {
      if ExceedsStrDigits(amount * 100) {
        return Err(StrDigitsLimitMessage);
      }
      var expiry := Calendar.ReplaceDay(now, now.day + 1);
      if expiry.None? {
        return Err(DayOutOfRange);
      }
      var p := Params(st, orderId, amount, orderInfo, ipAddr, Calendar.Format(now), Calendar.Format(expiry.value));
      var paymentUrl := SignAndEncode(st, mac, p);
      store := store[orderId := Pending];
      r := Ok(paymentUrl);
    }

    /** `verify_webhook(data)`: exactly `verify_vnpay_response(data)`. */
    method VerifyWebhook(data: PyDict, st: Settings, mac: Mac) returns (ok: bool)
      requires data.Valid()
      requires SecureHashKey in data.vals ==> data.vals[SecureHashKey].VStr?
      modifies data
      ensures data.Valid()
      ensures ok == Verifies(st.vnpayHashSecret, mac, old(data.vals))
      ensures SecureHashKey !in old(data.vals) ==>
        data.keys == old(data.keys) && data.vals == old(data.vals)
      ensures SecureHashKey in old(data.vals) ==>
        && data.keys == RemoveKey(old(data.keys), SecureHashKey)
        && data.vals == Stringified(old(data.vals) - {SecureHashKey})
    {
      ok := VerifyVnpayResponse(data, st.vnpayHashSecret, mac);
    }
  }

  /** The middle of `create_payment_url`: put the parameters in a dict in
      their insertion order, sign it, add the hash under `vnp_SecureHash`,
      and encode every entry into the query string. */
  method SignAndEncode(st: Settings, mac: Mac, p: map<string, Value>) returns (paymentUrl: string)
    requires p.Keys == Elems(ParamKeys) && forall k | k in p :: p[k].VStr?
    ensures paymentUrl == PaymentUrl(st, mac, p)
  {
    ParamKeysDistinct();
    var params := new PyDict.Of(ParamKeys, p);
    var secureHash := CreateVnpaySecureHash(params, st.vnpayHashSecret, mac);
    ParamsAreStrings(p);
    params.Set(SecureHashKey, VStr(secureHash));
    var parts := BuildQuery(params.keys, params.vals);
    var queryString := Join(parts, "&");
    paymentUrl := st.vnpayUrl + "?" + queryString;
  }

  /** The loop that collects the query parts, in the order of `keys`. */
  method BuildQuery(keys: seq<string>, vals: map<string, Value>) returns (parts: seq<string>)
    requires forall i :: 0 <= i < |keys| ==> keys[i] in vals
    ensures parts == QueryParts(keys, vals)
  {
    parts := [];
    var n := 0;
    while n < |keys|
      invariant 0 <= n <= |keys|
      invariant parts == QueryParts(keys[..n], vals)
    {
      parts := parts + [keys[n] + "=" + QuotePlus(Str(vals[keys[n]]))];
      n := n + 1;
    }
    assert keys[..n] == keys;
  }

  /** Every parameter is already a string, so `str()` leaves them alone. */
  lemma ParamsAreStrings(p: map<string, Value>)
    requires forall k | k in p :: p[k].VStr?
    requires SecureHashKey !in p
    ensures Stringified(p - {SecureHashKey}) == p
  {
    assert p - {SecureHashKey} == p;
  }

  // -----------------------------------------------------------------------
  // Properties of the parameters and the URL

  /** The amount is sent in hundredths and the order id twice. */
  lemma ParamsCarryOrder(st: Settings, orderId: string, amount: int, orderInfo: string,
                         ipAddr: string, createDate: string, expireDate: string)
    ensures var p := Params(st, orderId, amount, orderInfo, ipAddr, createDate, expireDate);
      && p["vnp_Amount"] == VStr(DecimalString(amount * 100))
      && p["vnp_TxnRef"] == VStr(orderId) && p["vnp_TransactionNo"] == VStr(orderId)
      && p["vnp_OrderInfo"] == VStr(orderInfo) && p["vnp_IpAddr"] == VStr(ipAddr)
  {
  }

  /** Five fields are fixed literals. */
  lemma ParamsFixedFields(st: Settings, orderId: string, amount: int, orderInfo: string,
                          ipAddr: string, createDate: string, expireDate: string)
    ensures var p := Params(st, orderId, amount, orderInfo, ipAddr, createDate, expireDate);
      && p["vnp_Command"] == VStr("pay") && p["vnp_CurrCode"] == VStr("VND")
      && p["vnp_OrderType"] == VStr("other") && p["vnp_Locale"] == VStr("vn")
      && p["vnp_BankCode"] == VStr("VISA")
  {
  }

  /** The configured values and both timestamps, under their names. */
  lemma ParamsSettingsAndDates(st: Settings, orderId: string, amount: int, orderInfo: string,
                               ipAddr: string, createDate: string, expireDate: string)
    ensures var p := Params(st, orderId, amount, orderInfo, ipAddr, createDate, expireDate);
      && p["vnp_Version"] == VStr(st.vnpayApiVersion) && p["vnp_TmnCode"] == VStr(st.vnpayTmnCode)
      && p["vnp_ReturnUrl"] == VStr(st.vnpayReturnUrl)
      && p["vnp_CreateDate"] == VStr(createDate) && p["vnp_ExpireDate"] == VStr(expireDate)
  {
  }

  /** The amount string is the amount's digits followed by `00`: 100000
      VND goes out as `10000000`. */
  lemma AmountInHundredths(amount: int)
    requires amount != 0
    ensures DecimalString(amount * 100) == DecimalString(amount) + "00"
  {
    var n: nat := if amount < 0 then -amount else amount;
    assert Digits(n * 100) == Digits(n * 10) + "0" by {
      assert (n * 100) / 10 == n * 10 && (n * 100) % 10 == 0;
    }
    assert Digits(n * 10) == Digits(n) + "0" by {
      assert (n * 10) / 10 == n && (n * 10) % 10 == 0;
    }
    if amount < 0 {
      assert -(amount * 100) == n * 100;
    }
  }

  /** No parameter name holds `&` or `=`. */
  lemma KeysArePlain()
    ensures forall i :: 0 <= i < |ParamKeys + [SecureHashKey]| ==>
      '&' !in (ParamKeys + [SecureHashKey])[i] && '=' !in (ParamKeys + [SecureHashKey])[i]
  {
  }

  /** The query string splits on `&` into one `key=value` part per
      parameter, in insertion order and with the hash last; each part splits
      at its first `=` into the name and the URL-encoded `str()` of the
      value; and the hash, being upper-case hex, goes out unencoded. */
  lemma QueryLayout(st: Settings, mac: Mac, p: map<string, Value>)
    requires p.Keys == Elems(ParamKeys)
    ensures var keys := ParamKeys + [SecureHashKey];
      var parts := Split(Query(st, mac, p), '&');
      && |parts| == 16
      && (forall i :: 0 <= i < 16 ==>
            keys[i] in Signed(st, mac, p) &&
            Partition(parts[i], '=') == (keys[i], QuotePlus(Str(Signed(st, mac, p)[keys[i]]))))
      && parts[15] == SecureHashKey + "=" + SecureHash(st.vnpayHashSecret, mac, p)
  {
    var keys := ParamKeys + [SecureHashKey];
    var m := Signed(st, mac, p);
    assert forall i :: 0 <= i < |keys| ==> keys[i] in Elems(keys);
    var parts := QueryParts(keys, m);
    KeysArePlain();
    forall i | 0 <= i < |parts| ensures '&' !in parts[i] {
      QuotePlusHasNoSeparators(Str(m[keys[i]]));
      assert parts[i] == keys[i] + "=" + QuotePlus(Str(m[keys[i]]));
    }
    SplitJoin(parts, '&');
    forall i | 0 <= i < 16
      ensures Partition(parts[i], '=') == (keys[i], QuotePlus(Str(m[keys[i]])))
    {
      PartitionPair(keys[i], '=', QuotePlus(Str(m[keys[i]])));
      assert parts[i] == keys[i] + "=" + QuotePlus(Str(m[keys[i]]));
    }
    var h := SecureHash(st.vnpayHashSecret, mac, p);
    SecureHashIsUpperHex(st.vnpayHashSecret, mac, p);
    forall i | 0 <= i < |h| ensures IsUnreserved(h[i]) {
      assert IsUpperHexChar(h[i]);
    }
    QuotePlusKeepsUnreserved(h);
  }

  /** The parameters a payment URL carries, hash included, pass
      `verify_vnpay_response`. */
  lemma PaymentUrlVerifies(st: Settings, mac: Mac, p: map<string, Value>)
    requires SecureHashKey !in p
    ensures Verifies(st.vnpayHashSecret, mac, Signed(st, mac, p))
  {
    SignThenVerify(st.vnpayHashSecret, mac, p);
  }
}
