/**
 * The key service: issues a key and a secret for a client, storing the record in the
 * "api_keys" collection under the key itself as document id, and checks a presented key and
 * secret against that record.
 */
module Auth {
  import opened Wrappers
  import opened Values
  import opened Firestore
  import Common

  const MsgInvalidAPIKey := "invalid API Key"
  const MsgInvalidCredentials := "invalid credentials"

  /** Lengths, in random bytes, of a key and of a secret. */
  const KeyBytes := 16
  const SecretBytes := 32

  /** The record the service stores; its creation time is not modelled. */
  datatype APIKeyData = APIKeyData(apiKey: string, hashedSecret: string, clientId: string, status: string)

  /** Why issuing a key failed: the random reader, the hasher, or the store. */
  datatype CreateError = RandomReadFailed | HashFailed | Store(cause: StoreError)

  /** The stored document, one field per storage tag. */
  function ToFields(k: APIKeyData): (data: Fields)
    ensures FieldIs(data, "apiKey", Str(k.apiKey)) && FieldIs(data, "hashedSecret", Str(k.hashedSecret))
    ensures FieldIs(data, "clientId", Str(k.clientId)) && FieldIs(data, "status", Str(k.status))
  {
    map["apiKey" := Str(k.apiKey), "hashedSecret" := Str(k.hashedSecret), "clientId" := Str(k.clientId),
        "status" := Str(k.status), "createdAt" := Time]
  }

  /** Decoding a stored document into the record: a field holding a string is copied, and a
      field that is missing or does not hold a string leaves the empty string. */
  function FromFields(data: Fields): (r: APIKeyData)
    ensures r.apiKey != "" ==> FieldIs(data, "apiKey", Str(r.apiKey))
    ensures r.hashedSecret != "" ==> FieldIs(data, "hashedSecret", Str(r.hashedSecret))
    ensures r.clientId != "" ==> FieldIs(data, "clientId", Str(r.clientId))
    ensures r.status != "" ==> FieldIs(data, "status", Str(r.status))
    ensures forall v :: FieldIs(data, "apiKey", Str(v)) ==> r.apiKey == v
    ensures forall v :: FieldIs(data, "hashedSecret", Str(v)) ==> r.hashedSecret == v
    ensures forall v :: FieldIs(data, "clientId", Str(v)) ==> r.clientId == v
    ensures forall v :: FieldIs(data, "status", Str(v)) ==> r.status == v
  {
    APIKeyData(StringField(data, "apiKey"), StringField(data, "hashedSecret"),
               StringField(data, "clientId"), StringField(data, "status"))
  }

  /** Decoding what was stored gives back the record. */
  lemma FieldsRoundTrip(k: APIKeyData)
    ensures FromFields(ToFields(k)) == k
  {
  }

  /** A key issued in plain text, with the record that is stored for it. */
  datatype Issued = Issued(apiKey: string, apiSecret: string, record: APIKeyData)

  /**
   * Issuing before the write: a key from 16 random bytes, a secret from 32, the secret's hash,
   * and an active record for the client. The first step that fails decides the error.
   */
  function PrepareKey(clientId: string, keyRandom: Option<seq<bv8>>, secretRandom: Option<seq<bv8>>,
                      h: Common.Hasher): (r: Result<Issued, CreateError>)
    ensures r == Failure(RandomReadFailed) <==>
              Common.GenerateSecureKey(KeyBytes, keyRandom).None?
              || Common.GenerateSecureKey(SecretBytes, secretRandom).None?
    ensures r == Failure(HashFailed) <==>
              && Common.GenerateSecureKey(KeyBytes, keyRandom).Some?
              && Common.GenerateSecureKey(SecretBytes, secretRandom).Some?
              && h.hash(Common.GenerateSecureKey(SecretBytes, secretRandom).value).None?
    ensures r.Success? <==>
              && Common.GenerateSecureKey(KeyBytes, keyRandom).Some?
              && Common.GenerateSecureKey(SecretBytes, secretRandom).Some?
              && h.hash(Common.GenerateSecureKey(SecretBytes, secretRandom).value).Some?
    ensures r.Success? ==>
              && |r.value.apiKey| == 2 * KeyBytes && |r.value.apiSecret| == 2 * SecretBytes
              && h.hash(r.value.apiSecret).Some?
              && r.value.record == APIKeyData(r.value.apiKey, h.hash(r.value.apiSecret).value, clientId, Common.ActiveStatus)
  {
    match Common.GenerateSecureKey(KeyBytes, keyRandom)
    case None => Failure(RandomReadFailed)
    case Some(apiKey) =>
      match Common.GenerateSecureKey(SecretBytes, secretRandom)
      case None => Failure(RandomReadFailed)
      case Some(apiSecret) =>
        match h.hash(apiSecret)
        case None => Failure(HashFailed)
        case Some(hashed) => Success(Issued(apiKey, apiSecret, APIKeyData(apiKey, hashed, clientId, Common.ActiveStatus)))
  }

  /**
   * The outcome of checking a presented key and secret: "invalid API Key" when the document
   * cannot be read, "invalid credentials" when the record is not active or the secret does not
   * match its hash, otherwise the record.
   */
  function Validation(docs: seq<Document>, apiKey: string, apiSecret: string, unavailable: bool,
                      h: Common.Hasher): (r: Result<APIKeyData, string>)
    ensures r.Failure? ==> r.error == MsgInvalidAPIKey || r.error == MsgInvalidCredentials
    ensures r == Failure(MsgInvalidAPIKey) <==> Lookup(docs, apiKey, unavailable).Failure?
    ensures r.Success? <==>
              && Lookup(docs, apiKey, unavailable).Success?
              && FromFields(Lookup(docs, apiKey, unavailable).value.data).status == Common.ActiveStatus
              && h.check(apiSecret, FromFields(Lookup(docs, apiKey, unavailable).value.data).hashedSecret)
    ensures r.Success? ==>
              && Lookup(docs, apiKey, unavailable).Success?
              && r.value == FromFields(Lookup(docs, apiKey, unavailable).value.data)
              && r.value.status == Common.ActiveStatus && h.check(apiSecret, r.value.hashedSecret)
  {
    match Lookup(docs, apiKey, unavailable)
    case Failure(_) => Failure(MsgInvalidAPIKey)
    case Success(doc) =>
      var keyData := FromFields(doc.data);
      if keyData.status != Common.ActiveStatus || !h.check(apiSecret, keyData.hashedSecret) then
        Failure(MsgInvalidCredentials)
      else
        Success(keyData)
  }

  class AuthService {
    const db: Store
    const collectionName: string

    /** The service over an opened store, on the "api_keys" collection. */
    constructor (db: Store)
      ensures this.db == db && collectionName == Common.LegacyKeysCollection
    {
      this.db := db;
      collectionName := Common.LegacyKeysCollection;
    }

    /**
     * Issues a key for `clientId`. A failed generation or hash returns its error without touching
     * the store; a failed write returns empty strings with the store's error; otherwise the
     * record is written under the key and the key and secret are returned in plain text.
     */
    method CreateNewKey(clientId: string, keyRandom: Option<seq<bv8>>, secretRandom: Option<seq<bv8>>,
                        h: Common.Hasher)
      returns (apiKey: string, apiSecret: string, err: Option<CreateError>)
      requires db.Valid()
      modifies db
      ensures db.Valid()
      ensures var p := PrepareKey(clientId, keyRandom, secretRandom, h);
        && (p.Failure? ==>
              && apiKey == "" && apiSecret == "" && err == Some(p.error)
              && db.calls == old(db.calls) && db.collections == old(db.collections))
        && (p.Success? && old(db.NextFails()) ==>
              && apiKey == "" && apiSecret == "" && err == Some(Store(Unavailable))
              && db.calls == old(db.calls) + 1 && db.collections == old(db.collections))
        && (p.Success? && !old(db.NextFails()) ==>
              && apiKey == p.value.apiKey && apiSecret == p.value.apiSecret && err.None?
              && db.calls == old(db.calls) + 1
              && db.collections == old(db.collections)[collectionName :=
                   Put(old(db.Collection(collectionName)), apiKey, ToFields(p.value.record))])
    {
      // 1. Key and secret.
      var key := Common.GenerateSecureKey(KeyBytes, keyRandom);
      if key.None? {
        return "", "", Some(RandomReadFailed);
      }
      var secret := Common.GenerateSecureKey(SecretBytes, secretRandom);
      if secret.None? {
        return "", "", Some(RandomReadFailed);
      }
      // 2. The secret's hash.
      var hashed := h.hash(secret.value);
      if hashed.None? {
        return "", "", Some(HashFailed);
      }
      // 3. The record.
      var newKeyData := APIKeyData(key.value, hashed.value, clientId, Common.ActiveStatus);
      // 4. The write, under the key as document id.
      var writeErr := db.SetDocument(collectionName, key.value, ToFields(newKeyData));
      if writeErr.Some? {
        return "", "", Some(Store(writeErr.value));
      }
      // 5. Key and secret in plain text.
      return key.value, secret.value, None;
    }

    /** Reads the record stored under `apiKey` and checks its status and the secret. */
    method ValidateCredentials(apiKey: string, apiSecret: string, h: Common.Hasher)
      returns (r: Result<APIKeyData, string>)
      modifies db`calls
      ensures db.calls == old(db.calls) + 1
      ensures r == Validation(old(db.Collection(collectionName)), apiKey, apiSecret, old(db.NextFails()), h)
    {
      var doc := db.GetDocument(collectionName, apiKey);
      if doc.Failure? {
        return Failure(MsgInvalidAPIKey);
      }
      var keyData := FromFields(doc.value.data);
      if keyData.status != Common.ActiveStatus || !h.check(apiSecret, keyData.hashedSecret) {
        return Failure(MsgInvalidCredentials);
      }
      return Success(keyData);
    }
  }

  /** A key just issued validates with its secret, and gives back the stored record. */
  lemma IssuedKeyValidates(docs: seq<Document>, clientId: string, keyRandom: Option<seq<bv8>>,
                           secretRandom: Option<seq<bv8>>, h: Common.Hasher)
    requires UniqueIds(docs) && Common.Sound(h)
    requires PrepareKey(clientId, keyRandom, secretRandom, h).Success?
    ensures var p := PrepareKey(clientId, keyRandom, secretRandom, h).value;
            Validation(Put(docs, p.apiKey, ToFields(p.record)), p.apiKey, p.apiSecret, false, h)
              == Success(p.record)
  {
    var p := PrepareKey(clientId, keyRandom, secretRandom, h).value;
    PutThenLookup(docs, p.apiKey, ToFields(p.record));
    FieldsRoundTrip(p.record);
  }

  /** With a hasher that matches only the hashed plaintext, no other secret validates the key. */
  lemma OnlyIssuedSecretValidates(docs: seq<Document>, clientId: string, keyRandom: Option<seq<bv8>>,
                                  secretRandom: Option<seq<bv8>>, h: Common.Hasher, other: string)
    requires UniqueIds(docs) && Common.Exact(h)
    requires PrepareKey(clientId, keyRandom, secretRandom, h).Success?
    requires other != PrepareKey(clientId, keyRandom, secretRandom, h).value.apiSecret
    ensures var p := PrepareKey(clientId, keyRandom, secretRandom, h).value;
            Validation(Put(docs, p.apiKey, ToFields(p.record)), p.apiKey, other, false, h)
              == Failure(MsgInvalidCredentials)
  {
    var p := PrepareKey(clientId, keyRandom, secretRandom, h).value;
    PutThenLookup(docs, p.apiKey, ToFields(p.record));
    FieldsRoundTrip(p.record);
  }

  /** A record whose status is not "active" fails validation with every secret. */
  lemma InactiveRecordRejected(docs: seq<Document>, apiKey: string, apiSecret: string, h: Common.Hasher)
    requires Lookup(docs, apiKey, false).Success?
    requires StringField(Lookup(docs, apiKey, false).value.data, "status") != Common.ActiveStatus
    ensures Validation(docs, apiKey, apiSecret, false, h) == Failure(MsgInvalidCredentials)
  {
  }
}
