/** VNPAY's secure hash (app/core/security.py): the canonical string of a
    parameter set, its upper-case HMAC-SHA256, and the case-insensitive check
    of a received hash. Both operations change the caller's dict in place. */
module Security {
  import opened Strings
  import opened Ascii
  import opened PyValue

  /** The field that carries the signature; it is never signed itself. */
  const SecureHashKey: string := "vnp_SecureHash"

  /** `f"{key}={value}"`. */
  function Field(k: string, v: Value): string
  {
    k + "=" + Str(v)
  }

  /** The `key=value` texts of the keys `ks`, in the order of `ks`. */
  function Fields(ks: seq<string>, m: map<string, Value>): (r: seq<string>)
    requires forall i :: 0 <= i < |ks| ==> ks[i] in m
  {
    seq(|ks|, i requires 0 <= i < |ks| => Field(ks[i], m[ks[i]]))
  }

  /** The string VNPAY signs for the parameters `m`: every key in ascending
      order as `key=value`, joined by `&`. */
  ghost function HashData(m: map<string, Value>): string
  {
    SortedKeysOfProperties(m.Keys);
    Join(Fields(SortedKeysOf(m.Keys), m), "&")
  }

  /** The hash `create_vnpay_secure_hash` returns for the dict contents `m`:
      the upper-case hex HMAC-SHA256, under the hash secret, of the hash data
      of `m` without its `vnp_SecureHash` entry. */
  ghost function SecureHash(secret: string, mac: Mac, m: map<string, Value>): string
  {
    Upper(HexDigest(mac(secret, HashData(m - {SecureHashKey}))))
  }

  /** The dict contents after every value has been replaced by `str(value)`. */
  ghost function Stringified(m: map<string, Value>): map<string, Value>
  {
    map k | k in m :: VStr(Str(m[k]))
  }

  /** What `verify_vnpay_response` answers for the dict contents `m`. */
  ghost predicate Verifies(secret: string, mac: Mac, m: map<string, Value>)
  {
    && SecureHashKey in m
    && m[SecureHashKey].VStr?
    && Upper(m[SecureHashKey].s) == Upper(SecureHash(secret, mac, m))
  }

  /** `create_vnpay_secure_hash(params)`: drops `vnp_SecureHash`, turns
      every value into its `str()`, and hashes the sorted `key=value` string. */
  method CreateVnpaySecureHash(params: PyDict, secret: string, mac: Mac) returns (h: string)
    requires params.Valid()
    modifies params
    ensures params.Valid()
    ensures params.keys == RemoveKey(old(params.keys), SecureHashKey)
    ensures params.vals == Stringified(old(params.vals) - {SecureHashKey})
    ensures h == SecureHash(secret, mac, old(params.vals))
  {
    if SecureHashKey in params.vals {
      var _ := params.Pop(SecureHashKey);
    }
    ghost var popped := params.vals;
    assert popped == old(params.vals) - {SecureHashKey};
    StringifyValues(params);
    var sortedKeys := Sorted(params.keys);
    HashDataOfSortedKeys(params.keys, popped);
    var hashData := BuildHashData(sortedKeys, params.vals);
    h := Upper(HexDigest(mac(secret, hashData)));
  }

  /** `for key in params: params[key] = str(params[key])`: every value is
      replaced by its string form, in place, and the key order is kept. */
  method StringifyValues(params: PyDict)
    requires params.Valid()
    modifies params
    ensures params.Valid()
    ensures params.keys == old(params.keys)
    ensures params.vals == Stringified(old(params.vals))
  {
    ghost var ks := params.keys;
    ghost var before := params.vals;
    var i := 0;
    while i < |params.keys|
      invariant 0 <= i <= |ks| && params.keys == ks
      invariant params.Valid()
      invariant params.vals.Keys == before.Keys
      invariant forall j :: 0 <= j < i ==> params.vals[ks[j]] == VStr(Str(before[ks[j]]))
      invariant forall j :: i <= j < |ks| ==> params.vals[ks[j]] == before[ks[j]]
    {
      var k := params.keys[i];
      params.Set(k, VStr(Str(params.vals[k])));
      i := i + 1;
    }
    StringifiedByIndex(ks, params.vals, before);
  }

  /** The loop that builds `hash_data`: `&` goes before every field but the
      first, so the result is the fields joined by `&`. */
  method BuildHashData(sortedKeys: seq<string>, vals: map<string, Value>) returns (hashData: string)
    requires forall i :: 0 <= i < |sortedKeys| ==> sortedKeys[i] in vals
    ensures hashData == Join(Fields(sortedKeys, vals), "&")
  {
    hashData := "";
    var n := 0;
    while n < |sortedKeys|
      invariant 0 <= n <= |sortedKeys|
      invariant hashData == Join(Fields(sortedKeys[..n], vals), "&")
    {
      HashDataStep(sortedKeys, n, vals, hashData);
      if |hashData| > 0 {
        hashData := hashData + "&";
      }
      hashData := hashData + sortedKeys[n] + "=" + Str(vals[sortedKeys[n]]);
      n := n + 1;
    }
    assert sortedKeys[..n] == sortedKeys;
  }

  /** One turn of the loop that builds the hash data. */
  lemma HashDataStep(ks: seq<string>, n: int, m: map<string, Value>, acc: string)
    requires 0 <= n < |ks| && forall i :: 0 <= i < |ks| ==> ks[i] in m
    requires acc == Join(Fields(ks[..n], m), "&")
    ensures n > 0 <==> |acc| > 0
    ensures Join(Fields(ks[..n + 1], m), "&") ==
      (if |acc| > 0 then acc + "&" else acc) + ks[n] + "=" + Str(m[ks[n]])
  {
    var fs := Fields(ks[..n], m);
    var field := ks[n] + "=" + Str(m[ks[n]]);
    assert Fields(ks[..n + 1], m) == fs + [field];
    if n > 0 {
      assert |fs[0]| > 0;
      JoinSnoc(fs, field, "&");
      JoinNonEmpty(fs, "&");
    }
  }

  lemma StringifiedByIndex(ks: seq<string>, vals: map<string, Value>, m: map<string, Value>)
    requires Elems(ks) == m.Keys == vals.Keys
    requires forall j :: 0 <= j < |ks| ==> vals[ks[j]] == VStr(Str(m[ks[j]]))
    ensures vals == Stringified(m)
  {
    forall k | k in m ensures vals[k] == VStr(Str(m[k])) {
      assert k in Elems(ks);
      var j :| 0 <= j < |ks| && ks[j] == k;
    }
  }

  /** The string built from any insertion order of the keys is the hash data
      of the contents, and `str()`-ing the values first does not change it. */
  lemma HashDataOfSortedKeys(keys: seq<string>, m: map<string, Value>)
    requires Distinct(keys) && Elems(keys) == m.Keys
    ensures forall j :: 0 <= j < |Sorted(keys)| ==> Sorted(keys)[j] in m
    ensures Join(Fields(Sorted(keys), Stringified(m)), "&") == HashData(m)
  {
    SortedKeysOfAgrees(keys, m.Keys);
    SortedKeysOfProperties(m.Keys);
    FieldsOfStringified(SortedKeysOf(m.Keys), m);
  }

  /** `str()`-ing the values does not change their `key=value` texts. */
  lemma FieldsOfStringified(ks: seq<string>, m: map<string, Value>)
    requires forall j :: 0 <= j < |ks| ==> ks[j] in m
    ensures Fields(ks, Stringified(m)) == Fields(ks, m)
  {
    forall j | 0 <= j < |ks| ensures Fields(ks, Stringified(m))[j] == Fields(ks, m)[j] {
      assert Stringified(m)[ks[j]] == VStr(Str(m[ks[j]]));
    }
  }

  /** `verify_vnpay_response(params)`. */
  method VerifyVnpayResponse(params: PyDict, secret: string, mac: Mac) returns (ok: bool)
    requires params.Valid()
    requires SecureHashKey in params.vals ==> params.vals[SecureHashKey].VStr?
    modifies params
    ensures params.Valid()
    ensures ok == Verifies(secret, mac, old(params.vals))
    ensures SecureHashKey !in old(params.vals) ==>
      params.keys == old(params.keys) && params.vals == old(params.vals)
    ensures SecureHashKey in old(params.vals) ==>
      && params.keys == RemoveKey(old(params.keys), SecureHashKey)
      && params.vals == Stringified(old(params.vals) - {SecureHashKey})
  {
    if SecureHashKey !in params.vals {
      return false;
    }
    var received := params.Pop(SecureHashKey);
    assert params.vals - {SecureHashKey} == params.vals;
    var calculated := CreateVnpaySecureHash(params, secret, mac);
    ok := Upper(received.s) == Upper(calculated);
  }

  // -----------------------------------------------------------------------
  // Properties of the hash data and the hash

  /** An empty parameter set is signed as the empty string. */
  lemma HashDataOfEmpty()
    ensures HashData(map[]) == ""
  {
    SortedKeysOfProperties({});
  }

  /** `str()` of every value, as a map of strings. */
  ghost function StrMap(m: map<string, Value>): map<string, string>
  {
    map k | k in m :: Str(m[k])
  }

  /** Reads `key=value` texts back into a map. */
  function ParseFields(parts: seq<string>): map<string, string>
  {
    if |parts| == 0 then map[]
    else
      var (k, v) := Partition(parts[0], '=');
      ParseFields(parts[1..])[k := v]
  }

  /** Reads a hash-data string back into the parameters it was built from. */
  function ParseHashData(s: string): map<string, string>
  {
    if s == "" then map[] else ParseFields(Split(s, '&'))
  }

  /** A parameter set whose keys hold neither `&` nor `=` and whose values
      hold no `&`: the hash data then separates every field. */
  ghost predicate PlainFields(m: map<string, Value>)
  {
    forall k | k in m :: '&' !in k && '=' !in k && '&' !in Str(m[k])
  }

  lemma {:induction false} ParseFieldsOfFields(ks: seq<string>, m: map<string, Value>)
    requires forall i :: 0 <= i < |ks| ==> ks[i] in m
    requires forall i :: 0 <= i < |ks| ==> '=' !in ks[i]
    ensures ParseFields(Fields(ks, m)) == map k | k in Elems(ks) :: Str(m[k])
  {
    if |ks| > 0 {
      var fs := Fields(ks, m);
      assert fs[1..] == Fields(ks[1..], m);
      ParseFieldsOfFields(ks[1..], m);
      PartitionPair(ks[0], '=', Str(m[ks[0]]));
      assert fs[0] == ks[0] + ['='] + Str(m[ks[0]]);
      assert Elems(ks) == {ks[0]} + Elems(ks[1..]) by {
        assert ks == [ks[0]] + ks[1..];
      }
    }
  }

  /** The hash data determines the parameters it was built from: reading it
      back gives every key with the `str()` of its value. */
  lemma HashDataRoundTrip(m: map<string, Value>)
    requires PlainFields(m)
    ensures ParseHashData(HashData(m)) == StrMap(m)
  {
    SortedKeysOfProperties(m.Keys);
    var s := SortedKeysOf(m.Keys);
    assert forall j :: 0 <= j < |s| ==> s[j] in Elems(s);
    var fs := Fields(s, m);
    if |s| == 0 {
      assert m == map[];
    } else {
      assert fs[0] == s[0] + "=" + Str(m[s[0]]);
      assert forall i :: 0 <= i < |fs| ==> '&' !in fs[i] by {
        forall i | 0 <= i < |fs| ensures '&' !in fs[i] {
          assert fs[i] == s[i] + "=" + Str(m[s[i]]);
        }
      }
      SplitJoin(fs, '&');
      JoinNonEmpty(fs, "&");
      ParseFieldsOfFields(s, m);
    }
  }

  lemma JoinNonEmpty(parts: seq<string>, sep: string)
    requires |parts| > 0 && |parts[0]| > 0
    ensures Join(parts, sep) != ""
  {
  }

  /** Two parameter sets with the same hash data agree on every field: the
      signed string changes when any field is changed, added or removed. */
  lemma HashDataInjective(m1: map<string, Value>, m2: map<string, Value>)
    requires PlainFields(m1) && PlainFields(m2)
    requires HashData(m1) == HashData(m2)
    ensures StrMap(m1) == StrMap(m2)
  {
    HashDataRoundTrip(m1);
    HashDataRoundTrip(m2);
  }

  /** The hash is 64 upper-case hex digits, so upper-casing it again changes
      nothing. */
  lemma SecureHashIsUpperHex(secret: string, mac: Mac, m: map<string, Value>)
    ensures |SecureHash(secret, mac, m)| == 64
    ensures IsUpperHex(SecureHash(secret, mac, m))
    ensures Upper(SecureHash(secret, mac, m)) == SecureHash(secret, mac, m)
  {
    var hex := HexDigest(mac(secret, HashData(m - {SecureHashKey})));
    UpperOfLowerHex(hex);
    UpperHexFixed(Upper(hex));
  }

  /** Whatever `vnp_SecureHash` holds, it does not change the hash. */
  lemma SecureHashIgnoresItsField(secret: string, mac: Mac, m: map<string, Value>, x: Value)
    ensures SecureHash(secret, mac, m[SecureHashKey := x]) == SecureHash(secret, mac, m)
  {
    assert m[SecureHashKey := x] - {SecureHashKey} == m - {SecureHashKey};
  }

  /** Signing parameters and sending the hash along with them verifies,
      also when the hash arrives in lower case. */
  lemma SignThenVerify(secret: string, mac: Mac, p: map<string, Value>)
    requires SecureHashKey !in p
    ensures Verifies(secret, mac, p[SecureHashKey := VStr(SecureHash(secret, mac, p))])
    ensures Verifies(secret, mac, p[SecureHashKey := VStr(Lower(SecureHash(secret, mac, p)))])
  {
    var h := SecureHash(secret, mac, p);
    SecureHashIgnoresItsField(secret, mac, p, VStr(h));
    SecureHashIgnoresItsField(secret, mac, p, VStr(Lower(h)));
    UpperOfLower(h);
  }

  /** A received hash is accepted exactly when it equals the computed one up
      to ASCII case. */
  lemma VerifiesIgnoresCase(secret: string, mac: Mac, m: map<string, Value>)
    requires SecureHashKey in m && m[SecureHashKey].VStr?
    ensures Verifies(secret, mac, m) <==>
      EqualIgnoringCase(m[SecureHashKey].s, SecureHash(secret, mac, m))
  {
    UpperEqualIff(m[SecureHashKey].s, SecureHash(secret, mac, m));
  }
}
