/**
 * The credential record of the current key collection, its JSON encoding, and the
 * secret hasher, which stays abstract.
 */
module Common {
  import opened Wrappers
  import opened Values

  /** The collection of the current credential records. */
  const KeysCollection := "api_keys_v2"
  /** The prefix of a presented secret. */
  const SecretPrefix := "as_"
  /** The status of a credential that may be used. */
  const ActiveStatus := "active"
  /** The collection of the older credential records, still used by assignment and the service. */
  const LegacyKeysCollection := "api_keys"

  datatype RateLimits = RateLimits(requestsPerMinute: int, requestsPerHour: int)

  /** The usage counter; the last-used timestamp is not modelled. */
  datatype Usage = Usage(totalRequests: int)

  /** A credential record. `permissions` is `None` when the issuing request sent none (a nil slice). */
  datatype APIKeyData = APIKeyData(
    id: string,
    name: string,
    projectId: string,
    description: string,
    apiKey: string,
    hashedSecret: string,
    userId: string,
    userEmail: string,
    status: string,
    environment: string,
    permissions: Option<seq<string>>,
    rateLimits: RateLimits,
    usage: Usage)

  function PermissionsValue(p: Option<seq<string>>): Value {
    match p
    case None => Null
    case Some(items) => StrArray(items)
  }

  /**
   * The record as encoding it to JSON and decoding it into a map yields it: one entry per
   * JSON tag. The hash is tagged "-" and so is left out; timestamps are abstract.
   */
  function JsonView(k: APIKeyData): (m: Fields)
    ensures "hashedSecret" !in m
    ensures FieldIs(m, "id", Str(k.id)) && FieldIs(m, "api_key", Str(k.apiKey))
    ensures FieldIs(m, "user_id", Str(k.userId)) && FieldIs(m, "status", Str(k.status))
    ensures FieldIs(m, "permissions", PermissionsValue(k.permissions))
    ensures m.Keys == {"id", "name", "project_id", "description", "api_key", "user_id", "user_email",
                       "status", "environment", "permissions", "rate_limits", "usage", "created_at", "updated_at"}
  {
    map[
      "id" := Str(k.id),
      "name" := Str(k.name),
      "project_id" := Str(k.projectId),
      "description" := Str(k.description),
      "api_key" := Str(k.apiKey),
      "user_id" := Str(k.userId),
      "user_email" := Str(k.userEmail),
      "status" := Str(k.status),
      "environment" := Str(k.environment),
      "permissions" := PermissionsValue(k.permissions),
      "rate_limits" := Object(map[
        "requests_per_minute" := Num(k.rateLimits.requestsPerMinute),
        "requests_per_hour" := Num(k.rateLimits.requestsPerHour)]),
      "usage" := Object(map["total_requests" := Num(k.usage.totalRequests)]),
      "created_at" := Time,
      "updated_at" := Time]
  }

  /** The map that is stored: the JSON view with the hash added back under "hashedSecret". */
  function StoredFields(k: APIKeyData): (m: Fields)
    ensures m.Keys == JsonView(k).Keys + {"hashedSecret"}
    ensures FieldIs(m, "hashedSecret", Str(k.hashedSecret))
    ensures forall f :: f in JsonView(k) ==> m[f] == JsonView(k)[f]
  {
    JsonView(k)["hashedSecret" := Str(k.hashedSecret)]
  }

  /**
   * The secret hasher: `hash` is the adaptive one-way function (None when it fails) and
   * `check` the comparison of a plaintext with a stored hash.
   */
  datatype Hasher = Hasher(hash: string -> Option<string>, check: (string, string) -> bool)

  /** A plaintext always matches a hash made from it. */
  ghost predicate Sound(h: Hasher) {
    forall s :: h.hash(s).Some? ==> h.check(s, h.hash(s).value)
  }

  /** A hash made from one plaintext matches no other plaintext. */
  ghost predicate Exact(h: Hasher) {
    forall s, t :: h.hash(s).Some? && h.check(t, h.hash(s).value) ==> t == s
  }

  /** HashSecret with its error discarded: a failed hash leaves the empty string. */
  function HashOrEmpty(h: Hasher, secret: string): string {
    h.hash(secret).GetOr("")
  }

  const HexDigits := "0123456789abcdef"

  /** Lower-case hexadecimal, two digits per byte, high nibble first. */
  function HexEncode(bytes: seq<bv8>): (r: string)
    ensures |r| == 2 * |bytes|
    ensures forall i :: 0 <= i < |r| ==> r[i] in HexDigits
  {
    if bytes == [] then []
    else [HexDigits[(bytes[0] >> 4) as int], HexDigits[(bytes[0] & 15) as int]] + HexEncode(bytes[1..])
  }

  /** Two digits give back the byte they encode. */
  lemma HexByteInjective(a: bv8, b: bv8)
    requires HexDigits[(a >> 4) as int] == HexDigits[(b >> 4) as int]
    requires HexDigits[(a & 15) as int] == HexDigits[(b & 15) as int]
    ensures a == b
  {
    forall i, j | 0 <= i < j < |HexDigits| ensures HexDigits[i] != HexDigits[j] {
    }
    assert a >> 4 == b >> 4 && a & 15 == b & 15;
    assert a == ((a >> 4) << 4) | (a & 15);
    assert b == ((b >> 4) << 4) | (b & 15);
  }

  /** Different random bytes give different keys. */
  lemma {:induction false} HexEncodeInjective(a: seq<bv8>, b: seq<bv8>)
    requires HexEncode(a) == HexEncode(b)
    ensures a == b
  {
    if a != [] {
      var ea, eb := HexEncode(a), HexEncode(b);
      assert ea[0] == eb[0] && ea[1] == eb[1];
      HexByteInjective(a[0], b[0]);
      assert ea[2..] == HexEncode(a[1..]) && eb[2..] == HexEncode(b[1..]);
      HexEncodeInjective(a[1..], b[1..]);
      assert a == [a[0]] + a[1..] && b == [b[0]] + b[1..];
    }
  }

  /**
   * A key of `length` random bytes in hex. `random` is what the system's random reader
   * produced; a read that did not fill the buffer reports an error, and so gives no key.
   */
  function GenerateSecureKey(length: nat, random: Option<seq<bv8>>): (r: Option<string>)
    ensures r.Some? <==> random.Some? && |random.value| == length
    ensures r.Some? ==> |r.value| == 2 * length && r.value == HexEncode(random.value)
  {
    if random.Some? && |random.value| == length then Some(HexEncode(random.value)) else None
  }
}
