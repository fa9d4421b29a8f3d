/** The HTTP handlers of app/api/endpoints/payment.py that read and write the
    two ledgers: status lookup, the VNPAY webhook and return page, and the
    MoMo webhook and return page. Each handler is modelled from the request
    it has parsed to the response it sends. */
module Endpoints {
  import opened Wrappers
  import opened Decimal
  import opened PyValue
  import opened Config
  import opened Security
  import opened Strings
  import Vnpay
  import Momo

  /** An `HTTPException`, or an uncaught exception turned into a 500. */
  datatype HttpError = HttpError(code: int, detail: string)

  const InternalServerError: HttpError := HttpError(500, "Internal Server Error")

  // -----------------------------------------------------------------------
  // Status lookup

  /** The `PaymentStatus` body. */
  datatype StatusReply = StatusReply(transactionId: string, status: Status)

  /** `get_payment_status(transaction_id)` over the two ledgers: the VNPAY
      ledger is asked first; an id in neither is a 404. */
  function GetPaymentStatus(vnStore: map<string, Status>, moStore: map<HashKey, Status>, id: string)
    : (r: Result<StatusReply, HttpError>)
    ensures r.Err? <==> id !in vnStore && KStr(id) !in moStore
    ensures r.Err? ==> r.error == HttpError(404, "Transaction not found")
    ensures r.Ok? ==> r.value.transactionId == id
    ensures id in vnStore ==> r.Ok? && r.value.status == vnStore[id]
    ensures id !in vnStore && KStr(id) in moStore ==> r.Ok? && r.value.status == moStore[KStr(id)]
  {
    if id in vnStore then Ok(StatusReply(id, vnStore[id]))
    else if KStr(id) in moStore then Ok(StatusReply(id, moStore[KStr(id)]))
    else Err(HttpError(404, "Transaction not found"))
  }

  /** What a VNPAY handler writes is what the lookup reports next. */
  lemma VnpayWriteIsVisible(vnStore: map<string, Status>, moStore: map<HashKey, Status>, id: string, s: Status)
    ensures GetPaymentStatus(vnStore[id := s], moStore, id) == Ok(StatusReply(id, s))
  {
  }

  /** A MoMo write under an id the VNPAY ledger also holds is hidden behind
      the VNPAY entry; otherwise it is what the lookup reports. */
  lemma MomoWriteVisibility(vnStore: map<string, Status>, moStore: map<HashKey, Status>, id: string, s: Status)
    ensures id in vnStore ==>
      GetPaymentStatus(vnStore, moStore[KStr(id) := s], id) == Ok(StatusReply(id, vnStore[id]))
    ensures id !in vnStore ==>
      GetPaymentStatus(vnStore, moStore[KStr(id) := s], id) == Ok(StatusReply(id, s))
  {
  }

  /** Writes under other ids do not change what an id reports. */
  lemma LookupIgnoresOtherIds(vnStore: map<string, Status>, moStore: map<HashKey, Status>, id: string,
                              other: string, k: HashKey, s: Status, t: Status)
    requires other != id && k != KStr(id)
    ensures GetPaymentStatus(vnStore[other := s], moStore[k := t], id) == GetPaymentStatus(vnStore, moStore, id)
  {
  }

  // -----------------------------------------------------------------------
  // VNPAY webhook

  /** The `WebhookRequest` body. */
  datatype WebhookRequest = WebhookRequest(txnRef: string, transactionNo: string, responseCode: string,
                                           secureHash: string)

  /** The `WebhookResponse` body. */
  datatype WebhookResponse = WebhookResponse(rspCode: string, message: string)

  /** The field names of `WebhookRequest`, in declaration order. */
  const WebhookKeys: seq<string> := ["vnp_TxnRef", "vnp_TransactionNo", "vnp_ResponseCode", SecureHashKey]

  /** `webhook.dict()`: the four declared fields and nothing else. */
  function WebhookFields(req: WebhookRequest): (fields: map<string, Value>)
    ensures fields.Keys == Elems(WebhookKeys)
    ensures forall k | k in fields :: fields[k].VStr?
    ensures fields[SecureHashKey] == VStr(req.secureHash)
  {
    map["vnp_TxnRef" := VStr(req.txnRef), "vnp_TransactionNo" := VStr(req.transactionNo),
        "vnp_ResponseCode" := VStr(req.responseCode), SecureHashKey := VStr(req.secureHash)]
  }

  /** Only three fields are signed: the reference, the transaction number and
      the response code. */
  lemma WebhookSignsThreeFields(req: WebhookRequest)
    ensures (WebhookFields(req) - {SecureHashKey}).Keys == {"vnp_TxnRef", "vnp_TransactionNo", "vnp_ResponseCode"}
  {
  }

  /** `handle_webhook`: an invalid signature is answered `97` and changes
      nothing; a valid one records `success` exactly when the response code
      is `00`, `failed` otherwise, and is answered `00`. */
  method HandleWebhook(vn: Vnpay.VNPayService, req: WebhookRequest, st: Settings, mac: Ascii.Mac)
    returns (resp: WebhookResponse)
    modifies vn
    ensures Verifies(st.vnpayHashSecret, mac, WebhookFields(req)) ==>
              && resp == WebhookResponse("00", "Confirm Success")
              && vn.store == old(vn.store)[req.txnRef := Outcome(req.responseCode == "00")]
    ensures !Verifies(st.vnpayHashSecret, mac, WebhookFields(req)) ==>
              resp == WebhookResponse("97", "Invalid Signature") && vn.store == old(vn.store)
  {
    var data := new PyDict.Of(WebhookKeys, WebhookFields(req));
    var ok := vn.VerifyWebhook(data, st, mac);
    if !ok {
      return WebhookResponse("97", "Invalid Signature");
    }
    var status := Outcome(req.responseCode == "00");
    vn.store := vn.store[req.txnRef := status];
    resp := WebhookResponse("00", "Confirm Success");
  }

  /** The three fields VNPAY signs in a notification. */
  function SignedWebhookFields(txnRef: string, transactionNo: string, responseCode: string): map<string, Value>
  {
    map["vnp_TxnRef" := VStr(txnRef), "vnp_TransactionNo" := VStr(transactionNo),
        "vnp_ResponseCode" := VStr(responseCode)]
  }

  lemma SignedWebhookKeys(txnRef: string, transactionNo: string, responseCode: string)
    ensures Distinct(["vnp_TxnRef", "vnp_TransactionNo", "vnp_ResponseCode"])
    ensures Elems(["vnp_TxnRef", "vnp_TransactionNo", "vnp_ResponseCode"]) ==
      SignedWebhookFields(txnRef, transactionNo, responseCode).Keys
  {
    assert "vnp_TxnRef"[5] != "vnp_TransactionNo"[5];
    assert "vnp_TxnRef"[4] != "vnp_ResponseCode"[4] && "vnp_TransactionNo"[4] != "vnp_ResponseCode"[4];
  }

  /** A notification carrying the hash of its three signed fields, in either
      case, passes the signature check. */
  lemma SignedWebhookAccepted(st: Settings, mac: Ascii.Mac, req: WebhookRequest)
    requires Ascii.Upper(req.secureHash) ==
      SecureHash(st.vnpayHashSecret, mac, SignedWebhookFields(req.txnRef, req.transactionNo, req.responseCode))
    ensures Verifies(st.vnpayHashSecret, mac, WebhookFields(req))
  {
    var m := WebhookFields(req);
    var signed := SignedWebhookFields(req.txnRef, req.transactionNo, req.responseCode);
    assert m - {SecureHashKey} == signed[SecureHashKey := m[SecureHashKey]] - {SecureHashKey};
    SecureHashIgnoresItsField(st.vnpayHashSecret, mac, signed, m[SecureHashKey]);
    SecureHashIsUpperHex(st.vnpayHashSecret, mac, signed);
    assert signed[SecureHashKey := m[SecureHashKey]] == m;
  }

  /** End to end: a notification VNPAY signed is confirmed with `00`, and the
      order is settled as `success` exactly when the response code is `00`. */
  method SignedWebhookSettles(vn: Vnpay.VNPayService, st: Settings, mac: Ascii.Mac,
                              txnRef: string, transactionNo: string, responseCode: string)
    returns (resp: WebhookResponse)
    modifies vn
    ensures resp == WebhookResponse("00", "Confirm Success")
    ensures vn.store == old(vn.store)[txnRef := Outcome(responseCode == "00")]
  {
    SignedWebhookKeys(txnRef, transactionNo, responseCode);
    var unsigned := new PyDict.Of(["vnp_TxnRef", "vnp_TransactionNo", "vnp_ResponseCode"],
                                  SignedWebhookFields(txnRef, transactionNo, responseCode));
    var hash := CreateVnpaySecureHash(unsigned, st.vnpayHashSecret, mac);
    SecureHashIsUpperHex(st.vnpayHashSecret, mac, SignedWebhookFields(txnRef, transactionNo, responseCode));
    var req := WebhookRequest(txnRef, transactionNo, responseCode, hash);
    SignedWebhookAccepted(st, mac, req);
    resp := HandleWebhook(vn, req, st, mac);
  }

  // -----------------------------------------------------------------------
  // Return pages

  /** The JSON page the return handlers answer with. */
  datatype ReturnPage = ReturnPage(status: string, orderId: string, message: string)

  const SuccessMessage: string := "Payment processed successfully"
  const FailureMessage: string := "Payment failed"

  /** The page for a settled order. */
  function ReturnPageOf(status: Status, orderId: string): (page: ReturnPage)
    requires status != Pending
    ensures page.message == SuccessMessage <==> status == Success
    ensures page.message == FailureMessage <==> status == Failed
    ensures page.status == status.Name() && page.orderId == orderId
  {
    ReturnPage(status.Name(), orderId, if status == Success then SuccessMessage else FailureMessage)
  }

  // -----------------------------------------------------------------------
  // VNPAY return

  /** `dict(request.query_params)`: every parameter as a string. */
  function QueryValues(query: map<string, string>): (m: map<string, Value>)
    ensures m.Keys == query.Keys
    ensures forall k | k in m :: m[k] == VStr(query[k])
  {
    map k | k in query :: VStr(query[k])
  }

  /** `vnpay_return` as written: it asks the service for
      `verify_vnpay_response`, a method `VNPayService` does not have, so every
      request fails with an `AttributeError`, answered 500, before the
      ledger is touched. */
  method VnpayReturnAsWritten(vn: Vnpay.VNPayService, keys: seq<string>, query: map<string, string>)
    returns (r: Result<ReturnPage, HttpError>)
    ensures r == Err(InternalServerError)
  {
    r := Err(InternalServerError);
  }

  /** `vnpay_return` as intended, verifying through the service's
      `verify_webhook`: an invalid signature is a 400 and changes nothing; a
      valid one settles `vnp_TxnRef` (default `""`) as `success` exactly when
      `vnp_ResponseCode` (default `""`) is `00`. The query parameters arrive
      parsed, their names in order of appearance. */
  method VnpayReturn(vn: Vnpay.VNPayService, keys: seq<string>, query: map<string, string>,
                     st: Settings, mac: Ascii.Mac)
    returns (r: Result<ReturnPage, HttpError>)
    requires Distinct(keys) && Elems(keys) == query.Keys
    modifies vn
    ensures !Verifies(st.vnpayHashSecret, mac, QueryValues(query)) ==>
              r == Err(HttpError(400, "Invalid signature")) && vn.store == old(vn.store)
    ensures Verifies(st.vnpayHashSecret, mac, QueryValues(query)) ==>
              var txn := GetOr(query, "vnp_TxnRef", "");
              var status := Outcome(GetOr(query, "vnp_ResponseCode", "") == "00");
              && r == Ok(ReturnPageOf(status, txn))
              && vn.store == old(vn.store)[txn := status]
  {
    var params := new PyDict.Of(keys, QueryValues(query));
    var ok := vn.VerifyWebhook(params, st, mac);
    if !ok {
      return Err(HttpError(400, "Invalid signature"));
    }
    ReturnFieldsSurvive(query);
    var responseCode := GetOr(params.vals, "vnp_ResponseCode", VStr(""));
    var transactionId := GetOr(params.vals, "vnp_TxnRef", VStr(""));
    var status := Outcome(responseCode == VStr("00"));
    vn.store := vn.store[transactionId.s := status];
    r := Ok(ReturnPageOf(status, transactionId.s));
  }

  /** Verification keeps the two fields the return page reads, as strings. */
  lemma ReturnFieldsSurvive(query: map<string, string>)
    ensures var after := Stringified(QueryValues(query) - {SecureHashKey});
      && GetOr(after, "vnp_TxnRef", VStr("")) == VStr(GetOr(query, "vnp_TxnRef", ""))
      && GetOr(after, "vnp_ResponseCode", VStr("")) == VStr(GetOr(query, "vnp_ResponseCode", ""))
  {
    assert "vnp_TxnRef"[4] != SecureHashKey[4] && "vnp_ResponseCode"[4] != SecureHashKey[4];
  }

  /** A return request signed by VNPAY, paid, is answered 500 by the handler
      as written and settled as `success` by the intended one. */
  method SignedReturnDiscrepancy(st: Settings, mac: Ascii.Mac, txn: string)
    returns (asWritten: Result<ReturnPage, HttpError>, intended: Result<ReturnPage, HttpError>)
    ensures asWritten == Err(InternalServerError)
    ensures intended == Ok(ReturnPage("success", txn, SuccessMessage))
  {
    var vn := new Vnpay.VNPayService();
    var keys, query := SignedReturnQuery(st, mac, txn);
    asWritten := VnpayReturnAsWritten(vn, keys, query);
    intended := VnpayReturn(vn, keys, query, st, mac);
  }

  /** The query of a paid return for `txn`, signed as VNPAY signs it. */
  method SignedReturnQuery(st: Settings, mac: Ascii.Mac, txn: string)
    returns (keys: seq<string>, query: map<string, string>)
    ensures Distinct(keys) && Elems(keys) == query.Keys
    ensures Verifies(st.vnpayHashSecret, mac, QueryValues(query))
    ensures GetOr(query, "vnp_TxnRef", "") == txn && GetOr(query, "vnp_ResponseCode", "") == "00"
  {
    PaidReturnSigned(txn, "");
    var unsigned := new PyDict.Of(["vnp_TxnRef", "vnp_ResponseCode"], QueryValues(PaidReturn(txn, "")));
    var hash := CreateVnpaySecureHash(unsigned, st.vnpayHashSecret, mac);
    PaidReturnSigned(txn, hash);
    SignThenVerify(st.vnpayHashSecret, mac, QueryValues(PaidReturn(txn, "")));
    keys := ["vnp_TxnRef", "vnp_ResponseCode", SecureHashKey];
    query := PaidReturn(txn, hash);
  }

  /** The query of a paid return for `txn` carrying `hash`; without a hash
      when `hash` is empty. */
  function PaidReturn(txn: string, hash: string): map<string, string>
  {
    if hash == "" then map["vnp_TxnRef" := txn, "vnp_ResponseCode" := "00"]
    else map["vnp_TxnRef" := txn, "vnp_ResponseCode" := "00", SecureHashKey := hash]
  }

  lemma PaidReturnSigned(txn: string, hash: string)
    ensures SecureHashKey !in PaidReturn(txn, "")
    ensures Distinct(["vnp_TxnRef", "vnp_ResponseCode"])
    ensures Elems(["vnp_TxnRef", "vnp_ResponseCode"]) == PaidReturn(txn, "").Keys
    ensures hash != "" ==>
      && Distinct(["vnp_TxnRef", "vnp_ResponseCode", SecureHashKey])
      && Elems(["vnp_TxnRef", "vnp_ResponseCode", SecureHashKey]) == PaidReturn(txn, hash).Keys
      && QueryValues(PaidReturn(txn, hash)) == QueryValues(PaidReturn(txn, ""))[SecureHashKey := VStr(hash)]
      && GetOr(PaidReturn(txn, hash), "vnp_TxnRef", "") == txn
      && GetOr(PaidReturn(txn, hash), "vnp_ResponseCode", "") == "00"
  {
    assert SecureHashKey[4] != "vnp_TxnRef"[4] && SecureHashKey[4] != "vnp_ResponseCode"[4];
  }

  // -----------------------------------------------------------------------
  // MoMo webhook

  /** The request body of the MoMo webhook: not JSON, a JSON object (its keys
      in document order), or some other JSON value. */
  datatype JsonBody =
    | Malformed(error: string)
    | Object(keys: seq<string>, fields: map<string, Value>)
    | NonObject(value: Value)

  /** The `MomoWebhookResponse` body; its defaults are status 0, `success`. */
  datatype MomoWebhookResponse = MomoWebhookResponse(status: int, message: string)

  const MomoAck: MomoWebhookResponse := MomoWebhookResponse(0, "success")

  /** The ledger entry a verified notification writes: the key `orderId`
      (default `""`) stands for, or `None` when it is unhashable; and
      `success` exactly when `resultCode` (default 99) equals 0. */
  function MomoSettlement(fields: map<string, Value>): (r: (Option<HashKey>, Status))
    ensures r.0 == KeyOf(GetOr(fields, "orderId", VStr("")))
    ensures r.0.None? <==> GetOr(fields, "orderId", VStr("")).VComposite?
    ensures "orderId" in fields && fields["orderId"].VStr? ==> r.0 == Some(KStr(fields["orderId"].s))
    ensures r.1 == Success <==> "resultCode" in fields && EqualsZero(fields["resultCode"])
    ensures "orderId" !in fields ==> r.0 == Some(KStr(""))
  {
    (KeyOf(GetOr(fields, "orderId", VStr(""))), Outcome(EqualsZero(GetOr(fields, "resultCode", VInt(99)))))
  }

  /** `momo_webhook`: every failure is answered with status 1 and the
      exception's text; a bad signature is answered `Invalid signature`; a
      verified notification settles its order and is acknowledged. The
      ledger changes only in that last case. */
  method MomoWebhook(mo: Momo.MomoService, body: JsonBody, st: Settings, mac: Ascii.Mac)
    returns (resp: MomoWebhookResponse)
    requires body.Object? ==> Distinct(body.keys) && Elems(body.keys) == body.fields.Keys
    modifies mo
    ensures body.Malformed? ==> resp == MomoWebhookResponse(1, body.error) && mo.store == old(mo.store)
    ensures body.NonObject? ==>
              && resp == MomoWebhookResponse(1, "'" + TypeName(body.value) + "' object has no attribute 'items'")
              && mo.store == old(mo.store)
    ensures body.Object? && !Momo.WebhookVerifies(st, mac, body.fields) ==>
              resp == MomoWebhookResponse(1, "Invalid signature") && mo.store == old(mo.store)
    ensures body.Object? && Momo.WebhookVerifies(st, mac, body.fields) ==>
              var (key, status) := MomoSettlement(body.fields);
              && (key.None? ==>
                    && resp == MomoWebhookResponse(1, "unhashable type: '" +
                                 TypeName(GetOr(body.fields, "orderId", VStr(""))) + "'")
                    && mo.store == old(mo.store))
              && (key.Some? ==> resp == MomoAck && mo.store == old(mo.store)[key.value := status])
  {
    if body.Malformed? {
      resp := MomoWebhookResponse(1, body.error);
    } else if body.NonObject? {
      resp := MomoWebhookResponse(1, "'" + TypeName(body.value) + "' object has no attribute 'items'");
    } else {
      var data := new PyDict.Of(body.keys, body.fields);
      var ok := mo.VerifyWebhook(data, st, mac);
      if !ok {
        resp := MomoWebhookResponse(1, "Invalid signature");
      } else {
        resp := SettleMomoOrder(mo, data.vals);
        assert MomoSettlement(data.vals) == MomoSettlement(body.fields);
      }
    }
  }

  /** The end of `momo_webhook` once the signature holds: read `orderId` and
      `resultCode` and write the ledger, or fail on an unhashable order id. */
  method SettleMomoOrder(mo: Momo.MomoService, fields: map<string, Value>) returns (resp: MomoWebhookResponse)
    modifies mo
    ensures var (key, status) := MomoSettlement(fields);
            && (key.None? ==>
                  && resp == MomoWebhookResponse(1, "unhashable type: '" +
                               TypeName(GetOr(fields, "orderId", VStr(""))) + "'")
                  && mo.store == old(mo.store))
            && (key.Some? ==> resp == MomoAck && mo.store == old(mo.store)[key.value := status])
  {
    var orderId := GetOr(fields, "orderId", VStr(""));
    var resultCode := GetOr(fields, "resultCode", VInt(99));
    var status := Outcome(EqualsZero(resultCode));
    var key := KeyOf(orderId);
    if key.None? {
      resp := MomoWebhookResponse(1, "unhashable type: '" + TypeName(orderId) + "'");
    } else {
      mo.store := mo.store[key.value := status];
      resp := MomoAck;
    }
  }

  // -----------------------------------------------------------------------
  // MoMo return

  /** The settlement `momo_return` derives from its query parameters, with
      no signature check: `None` when `resultCode` (default `"99"`) is not
      an integer. */
  function MomoReturnStatus(params: map<string, string>): (r: Option<Status>)
    ensures r.Some? <==> ParseInt(GetOr(params, "resultCode", "99")).Some?
    ensures r.Some? ==> (r.value == Success <==> ParseInt(GetOr(params, "resultCode", "99")) == Some(0))
    ensures r != Some(Pending)
  {
    match ParseInt(GetOr(params, "resultCode", "99"))
    case None => None
    case Some(code) => Some(Outcome(code == 0))
  }

  /** `momo_return`: a `resultCode` that is not an integer is a 500 and
      changes nothing; otherwise the order, when `orderId` is not empty, is
      settled as the code says, and the page reports it. */
  method MomoReturn(mo: Momo.MomoService, params: map<string, string>) returns (r: Result<ReturnPage, HttpError>)
    modifies mo
    ensures MomoReturnStatus(params).None? ==> r == Err(InternalServerError) && mo.store == old(mo.store)
    ensures MomoReturnStatus(params).Some? ==>
              var orderId := GetOr(params, "orderId", "");
              var status := MomoReturnStatus(params).value;
              && r == Ok(ReturnPageOf(status, orderId))
              && mo.store == if orderId != "" then old(mo.store)[KStr(orderId) := status] else old(mo.store)
  {
    var orderId := GetOr(params, "orderId", "");
    var resultCode := ParseInt(GetOr(params, "resultCode", "99"));
    if resultCode.None? {
      return Err(InternalServerError);
    }
    var status := Outcome(resultCode.value == 0);
    if orderId != "" {
      mo.store := mo.store[KStr(orderId) := status];
    }
    r := Ok(ReturnPageOf(status, orderId));
  }

  /** Anyone can settle a MoMo order as paid through the return page: the
      page checks no signature. */
  lemma MomoReturnUnauthenticated(orderId: string)
    ensures MomoReturnStatus(map["orderId" := orderId, "resultCode" := "0"]) == Some(Success)
  {
    ParseIntOfDecimal(0);
    assert DecimalString(0) == "0";
  }

  /** Without a `resultCode` the order is settled as failed. */
  lemma MomoReturnDefaultsToFailed(params: map<string, string>)
    requires "resultCode" !in params
    ensures MomoReturnStatus(params) == Some(Failed)
  {
    ParseIntOfDecimal(99);
    assert DecimalString(99) == "99";
  }
}
