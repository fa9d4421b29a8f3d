# payment-API — signing, verification and ledgers, in Dafny

This project models the core of payment-API, a FastAPI service that sits
between a shop and two Vietnamese payment gateways, VNPAY and MoMo:

- **VNPAY signing** (`app/core/security.py`). The service drops
  `vnp_SecureHash` from the parameter dict, turns every value into its
  `str()`, and joins the sorted `key=value` pairs with `&`. The resulting
  HMAC-SHA256 hex digest is upper-cased. Verification pops the received
  hash and compares the two without regard to case.
- **The VNPAY service** (`app/services/vnpay.py`). It builds the 15 payment
  parameters. The amount is given in hundredths, and the expiry date is the
  creation time with the day of the month moved on by one. It signs the
  parameters and encodes the query string with `quote_plus` in insertion
  order, then records the order as `pending` in its in-memory ledger.
- **The MoMo service** (`app/services/momo.py`). It signs the ten request
  fields with a lower-case HMAC-SHA256 hex digest and posts them. When the
  reply says `resultCode == 0` it records the order as `pending`. Webhook
  verification pops `signature` and signs `accessKey=…` followed by every
  remaining field in sorted order. The comparison is exact.
- **The handlers** (`app/api/endpoints/payment.py`). These are the status
  lookup over both ledgers, the VNPAY webhook and return page, and the MoMo
  webhook and return page. The model covers every branch of these handlers: the
  404, the `97` answer, the 500s raised by uncaught exceptions, and the MoMo
  webhook's catch-all `status=1` answer. The 400 of the VNPAY return page
  exists only in the corrected handler (see "## Findings"), because the
  handler as written fails with a 500 first. The two creation endpoints
  are not modelled, and neither are their 500s (see "## Left out").

Modules:

- `Security`, `Vnpay`, `Momo` and `Endpoints` follow the four source files.
- The supporting modules model the Python built-ins that those files rely
  on:
  - `PyValue`: Python values and a dict that remembers insertion order;
  - `Strings`: `sorted`, `join`, `split` and `partition`;
  - `Ascii`: `upper`, `lower` and `hexdigest`;
  - `Decimal`: `str(int)` and `int(str)`;
  - `UrlEncoding`: `quote_plus`;
  - `Calendar`: `datetime.replace(day=…)` and `strftime('%Y%m%d%H%M%S')`;
  - `Config`: the settings and the three status words.

Both ledgers are fields of the service classes, and the handlers update
them in place. The dicts that the source mutates (`params.pop`,
`params[key] = str(...)`) are a `PyDict` class. HMAC-SHA256 is a parameter
`mac` of type `(key, message) -> 32 bytes`. The clock reading, the MoMo
request id and the MoMo gateway's reply are inputs to the operations that
use them.

## Model

| member | source | states |
|---|---|---|
| Security.CreateVnpaySecureHash | app/core/security.py:16-47 | The hash is the upper-cased HMAC hex digest of the canonical string of the dict's contents without `vnp_SecureHash`. Whatever the insertion order, the dict loses that key and every value becomes its `str()`, and the remaining keys keep their order. |
| Security.StringifyValues | app/core/security.py:23-24 | Every value is replaced by its string form in place. The keys and their order are unchanged. |
| Security.BuildHashData | app/core/security.py:30-34 | The loop yields the `key=value` texts of the sorted keys, joined by `&` with no leading or trailing separator. |
| Security.HashDataOfSortedKeys | app/core/security.py:27-34 | Sorting any enumeration of the keys gives the canonical string of the map, so the hash depends only on the contents. |
| Security.VerifyVnpayResponse | app/core/security.py:49-64 | Without `vnp_SecureHash` the answer is false and the dict is untouched. Otherwise the answer is true exactly when the received hash equals, up to case, the hash of the other fields, and the dict has lost the hash and holds strings. |
| Security.HashDataOfEmpty | app/core/security.py:30-34 | An empty dict signs the empty string. |
| Security.HashDataRoundTrip | app/core/security.py:27-34 | When no key holds `=` or `&` and no value holds `&`, the canonical string parses back into the key/`str(value)` map. |
| Security.HashDataInjective | app/core/security.py:27-34 | Under the same conditions, two dicts with the same canonical string hold the same strings, so the signature covers every field. |
| Security.SecureHashIsUpperHex | app/core/security.py:40-45 | The hash is 64 upper-case hex digits and upper-casing leaves it unchanged. |
| Security.SecureHashIgnoresItsField | app/core/security.py:19-20 | Whatever `vnp_SecureHash` holds does not affect the hash. |
| Security.SignThenVerify | app/core/security.py:16-64 | Parameters sent with their own hash verify, in upper or lower case. |
| Security.VerifiesIgnoresCase | app/core/security.py:64 | A received hash is accepted exactly when it matches the computed one letter for letter, ignoring ASCII case. |
| Ascii.HexDigest | app/core/security.py:45 | `hexdigest()` gives two lower-case hex digits per byte. |
| Ascii.UpperOfLowerHex | app/core/security.py:45 | Upper-casing a lower-case hex string gives an upper-case hex string of the same length. |
| Ascii.UpperEqualIff | app/core/security.py:64 | `a.upper() == b.upper()` holds exactly when the strings agree up to ASCII case. |
| Ascii.UpperOfLower | app/core/security.py:64 | Upper-casing after lower-casing is upper-casing. |
| Strings.Sorted | app/core/security.py:27 | `sorted(keys)` is in non-decreasing order and a permutation of the keys. |
| Strings.SortedKeysOfProperties | app/core/security.py:27 | The sorted enumeration of a map's keys holds each key exactly once, in increasing order. |
| Strings.SplitJoin | app/services/vnpay.py:56 | Splitting a `&`-join of parts that hold no `&` gives the parts back. |
| Strings.PartitionPair | app/services/vnpay.py:54 | A `key=value` part whose key has no `=` partitions at its first `=` back into the key and the value. |
| UrlEncoding.QuotePlusHasNoSeparators | app/services/vnpay.py:54 | `quote_plus` output never holds `&` or `=`, so every query part is unambiguous. |
| UrlEncoding.QuotePlusKeepsUnreserved | app/services/vnpay.py:54 | `quote_plus` leaves a string of unreserved characters unchanged. |
| UrlEncoding.QuotePlus | app/services/vnpay.py:54 | `quote_plus` output holds only unreserved characters, `+` and `%XX` escapes, and is never shorter than its input. |
| Vnpay.VNPayService.CreatePaymentUrl | app/services/vnpay.py:15-63 | When `amount * 100` has more than 4300 digits, `str()` raises the integer-string limit error and the ledger is unchanged. Otherwise, on a month's last day, the day-plus-one expiry raises `day is out of range for month` and the ledger is unchanged. Otherwise the URL is the gateway URL, `?` and the signed query over the 15 parameters. The order is then `pending`. |
| Vnpay.SignAndEncode | app/services/vnpay.py:44-57 | The parameters are signed, the hash is appended last, and every entry is encoded as `key=quote_plus(value)` in insertion order. |
| Vnpay.BuildQuery | app/services/vnpay.py:52-54 | The loop builds one encoded part per key, in the order of the keys. |
| Vnpay.QueryLayout | app/services/vnpay.py:52-57 | The query string splits into 16 parts. Part `i` partitions into the `i`-th key and the encoded value, and the last part is `vnp_SecureHash=` followed by the hash. |
| Vnpay.PaymentUrlVerifies | app/services/vnpay.py:44-45 | The parameters the service signs pass `verify_vnpay_response`. |
| Vnpay.ParamKeysDistinct | app/services/vnpay.py:20-36 | The 15 parameter names are distinct and do not include `vnp_SecureHash`. |
| Vnpay.Params | app/services/vnpay.py:20-36 | The parameter dict has exactly the 15 names, and every value is a string. |
| Vnpay.ParamsAreStrings | app/core/security.py:23-24 | Stringifying the all-string parameters leaves them unchanged. |
| Vnpay.ParamsCarryOrder | app/services/vnpay.py:24-35 | The amount goes out multiplied by 100. The order id is both `vnp_TxnRef` and `vnp_TransactionNo`, the description is `vnp_OrderInfo`, and the client address is `vnp_IpAddr`. |
| Vnpay.ParamsFixedFields | app/services/vnpay.py:22-30 | The command is `pay`, the currency `VND`, the order type `other`, the locale `vn` and the bank `VISA`. |
| Vnpay.ParamsSettingsAndDates | app/services/vnpay.py:21-34 | The version, terminal code and return URL come from the settings, and the two dates are the formatted creation and expiry times. |
| Vnpay.AmountInHundredths | app/services/vnpay.py:24 | For a non-zero amount, `vnp_Amount` is the decimal amount followed by `00`. |
| Vnpay.KeysArePlain | app/services/vnpay.py:53-54 | No parameter name needs escaping. |
| Vnpay.VNPayService.VerifyWebhook | app/services/vnpay.py:65-70 | Gives the same answer and the same effect on the dict as `verify_vnpay_response`. |
| Calendar.ReplaceDay | app/services/vnpay.py:34 | `replace(day=d)` succeeds exactly when `d` is a day of the month, and then changes only the day. |
| Calendar.DayIncrementFailsOnLastDay | app/services/vnpay.py:34 | Moving the day on by one fails exactly on the last day of the month. |
| Calendar.Format | app/services/vnpay.py:33-34 | `%Y%m%d%H%M%S` gives digits only, 14 of them from year 1000 on. |
| Decimal.DecimalString | app/core/security.py:24 | `str(n)` is a `-` exactly for negative `n`, then decimal digits with no leading zero except for 0 itself. |
| Decimal.ParseInt | app/api/endpoints/payment.py:145 | After stripping white space and one leading sign, `int(s)` succeeds exactly when 1 to 4300 digits remain, and its value is those digits read in base 10, negated after a `-`. |
| Decimal.ParseIntSkipsOnlyAsciiSpace | app/api/endpoints/payment.py:145 | `int()` skips a vertical tab and a form feed around the digits but refuses a leading file separator `\x1c`. |
| Decimal.ParseIntOfDecimal | app/api/endpoints/payment.py:145 | `int(str(n)) == n` for every `n` within the 4300-digit limit. |
| Decimal.ParseIntRefusesLongNumbers | app/api/endpoints/payment.py:145 | A 4301-digit number is refused by `int()`. |
| PyValue.Str | app/core/security.py:24 | `str()` of a string is the string itself; `str()` of an integer starts with `-` exactly when it is negative. |
| Ascii.Upper | app/core/security.py:45 | `upper()` keeps the length, leaves no lower-case ASCII letter and changes no other character. |
| Momo.CreateSignature | app/services/momo.py:87-94 | The signature is the 64-digit lower-case hex HMAC of the raw string under the secret key. |
| Momo.RequestData | app/services/momo.py:23-35 | The request body has the ten signed fields plus `lang`, which is `vi`. |
| Momo.RawCreateSignature | app/services/momo.py:38-49 | The raw signature string is the canonical sorted `key=value` string of the ten signed fields. |
| Momo.SignedRequest | app/services/momo.py:54-55 | The body gains a `signature` of 64 lower-case hex digits, and nothing else changes. |
| Momo.SignedKeysAscending | app/services/momo.py:38-49 | The raw signature string lists its ten fields in strictly increasing key order. |
| Momo.CreateSignsPayloadButLang | app/services/momo.py:23-49 | The raw signature string is the canonical sorted `key=value` string of the request body minus `lang`. |
| Momo.LangNotSigned | app/services/momo.py:34 | `lang` is sent but not signed. |
| Momo.RequestSignsItsFields | app/services/momo.py:23-55 | The request body's `signature` is the signature of the body's other fields except `lang`. |
| Momo.AmountUnscaled | app/services/momo.py:27 | MoMo receives the amount as given, an integer, not in hundredths. |
| Momo.MomoService.CreatePaymentUrl | app/services/momo.py:17-85 | An amount of more than 4300 digits fails with the integer-string limit error before any request is sent. Otherwise the request is the signed body, and the call succeeds exactly when the reply's `resultCode` equals 0. On success the result is `payUrl` (default `""`) and the order becomes `pending`. Otherwise the error text is the one raised: for a transport failure or a body that is not JSON it is that failure's text. The ledger is unchanged. |
| Momo.MomoService.VerifyWebhook | app/services/momo.py:96-118 | Without `signature` the answer is false and the dict is untouched. Otherwise the signature is popped and compared exactly with the signature of `accessKey=…` followed by `&key=value` for each remaining key in sorted order. |
| Momo.BuildWebhookRaw | app/services/momo.py:105-109 | The loop appends `&key=value` for every sorted key after `accessKey=…`. |
| Momo.WebhookRawOfSorted | app/services/momo.py:108 | Sorting any enumeration of the webhook's keys gives the same raw string. |
| Momo.WebhookRawShape | app/services/momo.py:105-109 | The raw webhook string is `accessKey=…`, then `&` and the canonical string of the fields, unless there are no fields. |
| Momo.WebhookSignThenVerify | app/services/momo.py:96-118 | Fields sent with their own signature verify. |
| Momo.WebhookRejectsUpperCase | app/services/momo.py:118 | The same signature with one hex letter upper-cased is rejected, because the comparison is exact. |
| Momo.WebhookRejectsNonString | app/services/momo.py:118 | A non-string `signature` never verifies. |
| Endpoints.GetPaymentStatus | app/api/endpoints/payment.py:26-39 | The result is a 404 exactly when the id is in neither ledger. Otherwise it is the VNPAY entry, or, only when VNPAY lacks the id, the MoMo entry. |
| Endpoints.VnpayWriteIsVisible | app/api/endpoints/payment.py:29-33 | A VNPAY write is what the lookup reports next. |
| Endpoints.MomoWriteVisibility | app/api/endpoints/payment.py:29-38 | A MoMo write is visible unless the VNPAY ledger holds the same id, which then hides it. |
| Endpoints.LookupIgnoresOtherIds | app/api/endpoints/payment.py:26-39 | Writes under other ids do not change a lookup. |
| Endpoints.WebhookSignsThreeFields | app/api/endpoints/payment.py:43 | Only `vnp_TxnRef`, `vnp_TransactionNo` and `vnp_ResponseCode` are signed in a webhook. |
| Endpoints.HandleWebhook | app/api/endpoints/payment.py:41-57 | A bad signature gets `97 Invalid Signature` and the ledger is unchanged. A good one records `success` exactly when the code is `00`, and `failed` otherwise, and gets `00 Confirm Success`. |
| Endpoints.WebhookFields | app/api/endpoints/payment.py:43 | `webhook.dict()` has exactly the four fields, all strings, and `vnp_SecureHash` is the received hash. |
| Endpoints.SignedWebhookAccepted | app/api/endpoints/payment.py:41-44 | A webhook carrying, in either case, the hash of its three signed fields passes the signature check. |
| Endpoints.SignedWebhookSettles | app/api/endpoints/payment.py:41-57 | A webhook signed with the secret is answered `00 Confirm Success`, and its order is recorded as `success` exactly when the code is `00`. |
| Endpoints.ReturnPageOf | app/api/endpoints/payment.py:82-86 | The page says `Payment processed successfully` exactly for `success` and `Payment failed` exactly for `failed`. |
| Endpoints.VnpayReturnAsWritten | app/api/endpoints/payment.py:59-71 | Every request is a 500 and the ledger is not touched. |
| Endpoints.VnpayReturn | app/api/endpoints/payment.py:59-86 | The dict is built from the parsed query. A bad signature is a 400 and changes nothing. A good one settles `vnp_TxnRef` (default `""`) as `success` exactly when `vnp_ResponseCode` (default `""`) is `00`, and reports it. |
| Endpoints.SignedReturnDiscrepancy | app/api/endpoints/payment.py:70 | For a return that VNPAY signed and that was paid, the handler as written answers 500, while the corrected one reports `success` for the order. |
| Endpoints.SignedReturnQuery | app/api/endpoints/payment.py:63-75 | The query of a paid return signed as VNPAY signs it verifies and carries the order and the code `00`. |
| Endpoints.MomoSettlement | app/api/endpoints/payment.py:121-124 | The entry is keyed by the hash key of `orderId` (default `""`): a string order id keys as itself, and there is none when the value is unhashable. The status is `success` exactly when `resultCode` (default 99) equals 0. |
| Endpoints.MomoWebhook | app/api/endpoints/payment.py:104-131 | A body that is not JSON, a body that is not an object, a bad signature and an unhashable order id are each answered with status 1 and the exception's text, and the ledger is unchanged. A verified notification settles its order and gets `0 success`. |
| Endpoints.SettleMomoOrder | app/api/endpoints/payment.py:121-127 | After verification the ledger gets exactly the `MomoSettlement` entry, or nothing when the order id is unhashable. |
| Endpoints.MomoReturnStatus | app/api/endpoints/payment.py:144-148 | The status is defined exactly when `resultCode` (default `"99"`) parses as an integer, and is `success` exactly when that integer is 0. |
| Endpoints.MomoReturn | app/api/endpoints/payment.py:133-157 | A non-integer `resultCode` is a 500 and changes nothing. Otherwise a non-empty `orderId` is settled as the code says, and the page reports it. |
| Endpoints.MomoReturnUnauthenticated | app/api/endpoints/payment.py:133-150 | Anyone can mark a MoMo order as paid through the return page: `resultCode=0` settles it as `success` with no signature. |
| Endpoints.MomoReturnDefaultsToFailed | app/api/endpoints/payment.py:145 | A return without `resultCode` settles the order as `failed`. |
| Config.Outcome | app/api/endpoints/payment.py:51 | The status is `success` exactly when the condition holds, and is never `pending`. |
| PyValue.KeyOf | app/api/endpoints/payment.py:125 | A value can key the dict exactly when it is not a list or an object, and a string keys as itself. |
| PyValue.PyDict.Pop | app/core/security.py:55 | `pop(k)` returns the value and removes the key, and the other keys keep their order. |
| PyValue.PyDict.Set | app/services/vnpay.py:45 | `d[k] = v` adds a new key last, and an existing key keeps its place. |

## Left out

- HMAC-SHA256 itself is the parameter `mac`, about which nothing is assumed. So is `hmacsha256` (`app/core/security.py:10-14`), which no code calls.
- Non-ASCII text: `str.upper` and `str.lower` are modelled on ASCII letters only. UTF-8 encoding is used only inside `quote_plus`.
- Security.VerifyVnpayResponse: the comparison `upper() == upper()` is modelled on ASCII case only, so a received hash that writes `FF` as the ligature `ﬀ` (U+FB00), which Python upper-cases to `FF`, is accepted by the source and rejected by the model; the "exactly when" of `Security.VerifiesIgnoresCase` holds for ASCII hashes only.
- Floating point: a JSON `resultCode` of `0.0` would equal 0 in Python, but the model only has integers, strings, booleans, `None` and composite values.
- `int()` is modelled for ASCII digits and ASCII white space (the space and `\t` to `\r`), with no underscores, no non-ASCII digits and no non-ASCII white space, which Python's `int()` also skips.
- The integer-string limit is CPython's default of 4300 digits; `sys.set_int_max_str_digits` is not modelled.
- PyValue.Str: does not raise the 4300-digit limit error for an integer value. Such integers only reach it from JSON, and JSON parsing refuses them first, so they arrive as a malformed body.
- Momo.CreateSignature: lone surrogates are not modelled, so the `UnicodeEncodeError` of `encode('utf-8')` cannot occur. Dafny strings hold Unicode scalar values only, and this also removes that route to the MoMo webhook's `status=1` answer.
- Security.CreateVnpaySecureHash: lone surrogates are not modelled, for the same reason, so `encode('utf-8')` never raises.
- UrlEncoding.QuotePlus: lone surrogates are not modelled, for the same reason, so `quote_plus` never raises.
- Decimal.ParseInt: does not accept `_` digit separators or Unicode digits, which Python's `int()` does.
- Logging, `print`, JSON serialisation of the logged request, FastAPI routing, pydantic validation and query-string parsing are left out. The handlers start from the parsed request.
- `create_payment` and `create_momo_payment` are not modelled separately. They only forward to the service methods modelled here, and the latter turns any exception into a 500 carrying its text.
- The HTTP post to MoMo is left out. Its outcome is the `reply` input: a transport failure, a body that is not JSON, a JSON object or another JSON value.
- `uuid.uuid4()` and `datetime.now` are inputs (`requestId`, `now`). Time zones are not modelled.
- Calendar.Format: `%Y` for years below 1000 is not modelled as zero-padded.
- Settings loading from the environment is left out. Settings are a record of strings.
- `extra_data=None`, which `MomoPaymentRequest` allows, is not modelled: `extraData` is a string.
- Concurrency between handlers sharing the ledgers is left out. Each handler runs to completion.
- Momo.RawCreateSignature is written as a `&`-join of the ten `key=value` fields rather than one formatted string. Its equality to the canonical string is proved in `CreateSignsPayloadButLang`.

## Findings

| source | as written | input that shows it | evidently intended | confidence | as-written member | corrected member |
|---|---|---|---|---|---|---|
| app/api/endpoints/payment.py:70 | `vnpay_return` calls `vnpay_service.verify_vnpay_response`, which `VNPayService` does not define, so every request raises `AttributeError`. That is answered 500 before the ledger is written. | Any query, e.g. a paid return correctly signed by VNPAY (`vnp_TxnRef=t`, `vnp_ResponseCode=00`, valid `vnp_SecureHash`) | Verify through the service (`verify_webhook`, i.e. `verify_vnpay_response`), settle the order and show the result page | high (not executed) | Endpoints.VnpayReturnAsWritten | Endpoints.VnpayReturn |
