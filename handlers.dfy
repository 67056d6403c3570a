/**
 * The issuing and assignment endpoints, and the protected dashboard.
 *
 * Issuing binds the request body, fetches the owner from the identity provider and its
 * profile from the "profiles" collection, generates a key and a secret, builds the credential
 * record and stores its JSON view, with the hash added back, in "api_keys_v2" under a fresh
 * document id; the response carries the hash-free view and the secret with its "as_" prefix.
 *
 * Assignment binds a key of the "api_keys" collection to a user once: the user, its profile
 * and the profile's project are checked, a key that already names a user is refused, and
 * otherwise exactly `userId`, `clientId` and `status` are written.
 */
module Handlers {
  import opened Wrappers
  import opened Values
  import opened GoStrings
  import opened Firestore
  import opened FirebaseAuth
  import opened Gin
  import opened Common

  const ProfilesCollection := "profiles"
  const KeyPrefix := "ak_"
  const AssignedStatus := "assigned"
  const KeyRandomBytes := 24
  const SecretRandomBytes := 32
  const DefaultRequestsPerMinute := 60

  const MsgInvalidBody := "Invalid request body"
  const MsgUserNotFound := "User specified not found in Firebase Auth"
  const MsgProfileNotFound := "User profile not found in Firestore"
  const MsgSaveFailed := "Failed to save API key"
  const MsgAPIKeyRequired := "Invalid request: apiKey is required in body"
  const MsgAuthUserNotFound := "Firebase Auth user not found"
  const MsgNoProjectId := "User profile does not have a valid project_id"
  const MsgKeyNotFound := "API Key not found"
  const MsgAlreadyAssigned := "API Key is already assigned to a user"
  const MsgAssignFailed := "Failed to assign API key"

  /** The decoded body of an issuing request; `permissions` is `None` when it was not sent. */
  datatype CreateKeyRequest = CreateKeyRequest(
    name: string, description: string, userId: string, environment: string,
    permissions: Option<seq<string>>)

  /** Binding with `name` and `userId` required: `None` is a body that did not decode, and a
      required field that is empty fails like a missing one. */
  predicate BindsCreateRequest(body: Option<CreateKeyRequest>) {
    body.Some? && body.value.name != "" && body.value.userId != ""
  }

  /** The generated key part, the generated secret, and the secret's hash. A failed generation
      or hash leaves the empty string, as the handler discards those errors. */
  function GeneratedKey(keyRandom: Option<seq<bv8>>): string {
    GenerateSecureKey(KeyRandomBytes, keyRandom).GetOr("")
  }

  function GeneratedSecret(secretRandom: Option<seq<bv8>>): string {
    GenerateSecureKey(SecretRandomBytes, secretRandom).GetOr("")
  }

  /** The record built for an issuing request. */
  function NewKeyRecord(req: CreateKeyRequest, projectId: string, userEmail: string, docId: string,
                        apiKey: string, apiSecret: string, h: Hasher): (k: APIKeyData)
    ensures k.id == docId && k.apiKey == KeyPrefix + apiKey && k.status == ActiveStatus
    ensures k.hashedSecret == HashOrEmpty(h, apiSecret)
    ensures k.usage.totalRequests == 0 && k.rateLimits.requestsPerMinute == DefaultRequestsPerMinute
    ensures k.userId == req.userId && k.projectId == projectId && k.permissions == req.permissions
  {
    APIKeyData(
      id := docId,
      name := req.name,
      projectId := projectId,
      description := req.description,
      apiKey := KeyPrefix + apiKey,
      hashedSecret := HashOrEmpty(h, apiSecret),
      userId := req.userId,
      userEmail := userEmail,
      status := ActiveStatus,
      environment := req.environment,
      permissions := req.permissions,
      rateLimits := RateLimits(DefaultRequestsPerMinute, 0),
      usage := Usage(0))
  }

  /** What issuing does: the response, the document created (if any), and the number of store
      calls made. */
  datatype CreateOutcome = CreateOutcome(response: Response, created: Option<Document>, calls: nat)

  /**
   * The outcome of an issuing request, over the "profiles" and "api_keys_v2" collections as they
   * were; `profileQueryFails` and `createFails` say whether the backend was unreachable at the
   * first and at the second store call.
   */
  function CreateKey(body: Option<CreateKeyRequest>, users: Users, profiles: seq<Document>,
                     profileQueryFails: bool, keys: seq<Document>, createFails: bool, docId: string,
                     keyRandom: Option<seq<bv8>>, secretRandom: Option<seq<bv8>>, h: Hasher): (o: CreateOutcome)
    ensures o.created.Some? <==> o.response.status == StatusCreated
    ensures o.calls <= 2 && (o.created.Some? ==> o.calls == 2)
  {
    if !BindsCreateRequest(body) then
      CreateOutcome(Response(StatusBadRequest, ErrorBody(MsgInvalidBody)), None, 0)
    else
      var req := body.value;
      match GetUser(users, req.userId)
      case Failure(_) => CreateOutcome(Response(StatusNotFound, ErrorBody(MsgUserNotFound)), None, 0)
      case Success(user) =>
        IssueForOwner(req, user, profiles, profileQueryFails, keys, createFails, docId, keyRandom, secretRandom, h)
  }

  /** Issuing once the owner is known: 404 when the owner's profile cannot be found, otherwise the
      record built from the request, the profile's project and the owner's email is stored. */
  function IssueForOwner(req: CreateKeyRequest, user: UserRecord, profiles: seq<Document>,
                         profileQueryFails: bool, keys: seq<Document>, createFails: bool, docId: string,
                         keyRandom: Option<seq<bv8>>, secretRandom: Option<seq<bv8>>, h: Hasher): (o: CreateOutcome)
    ensures o.created.Some? <==> o.response.status == StatusCreated
    ensures 1 <= o.calls <= 2 && (o.created.Some? ==> o.calls == 2)
  {
    var found := QueryOne(profiles, "user_id", Str(req.userId));
    if profileQueryFails || |found| == 0 then
      CreateOutcome(Response(StatusNotFound, ErrorBody(MsgProfileNotFound)), None, 1)
    else
      var apiSecret := GeneratedSecret(secretRandom);
      var newKey := NewKeyRecord(req, StringField(found[0].data, "project_id"), user.email, docId,
                                 GeneratedKey(keyRandom), apiSecret, h);
      var saved := SaveKey(newKey, apiSecret, keys, createFails);
      saved.(calls := saved.calls + 1)
  }

  /** Storing a built record (one store call): 500 when its document cannot be created,
      otherwise 201 with the hash-free view and the prefixed secret. */
  function SaveKey(newKey: APIKeyData, apiSecret: string, keys: seq<Document>, createFails: bool): (o: CreateOutcome)
    ensures o.created.Some? <==> o.response.status == StatusCreated
    ensures o.calls == 1
    ensures o.created.Some? ==> o.created.value.id == newKey.id && forall j :: 0 <= j < |keys| ==> keys[j].id != newKey.id
  {
    if CreateError(keys, newKey.id, createFails).Some? then
      CreateOutcome(Response(StatusInternalServerError, ErrorBody(MsgSaveFailed)), None, 1)
    else
      CreateOutcome(Response(StatusCreated, KeyCreated(JsonView(newKey), SecretPrefix + apiSecret)),
                    Some(Document(newKey.id, StoredFields(newKey))), 1)
  }

  /**
   * POST /keys. `docId` is the fresh document id and `keyRandom`/`secretRandom` what the random
   * reader produced for the key and the secret.
   */
  method CreateAPIKeyHandler(c: Context, body: Option<CreateKeyRequest>, db: Store, users: Users, docId: string,
                             keyRandom: Option<seq<bv8>>, secretRandom: Option<seq<bv8>>, h: Hasher)
    requires db.Valid()
    modifies c`response, db
    ensures db.Valid()
    ensures var o := CreateKey(body, users, old(db.Collection(ProfilesCollection)), old(db.NextFails()),
                               old(db.Collection(KeysCollection)), old(db.calls) + 1 in db.outages,
                               docId, keyRandom, secretRandom, h);
      && c.response == Some(o.response)
      && db.calls == old(db.calls) + o.calls
      && db.collections == if o.created.None? then old(db.collections)
                           else old(db.collections)[KeysCollection := old(db.Collection(KeysCollection)) + [o.created.value]]
  {
    // 1. Binding.
    if !BindsCreateRequest(body) {
      c.Respond(Response(StatusBadRequest, ErrorBody(MsgInvalidBody)));
      return;
    }
    var req := body.value;

    // 2. The owner and its profile.
    var userRecord := GetUser(users, req.userId);
    if userRecord.Failure? {
      c.Respond(Response(StatusNotFound, ErrorBody(MsgUserNotFound)));
      return;
    }
    IssueKey(c, db, req, userRecord.value, docId, keyRandom, secretRandom, h);
  }

  /** Steps 2 (the profile) to 4 of issuing, once the owner is known. */
  method IssueKey(c: Context, db: Store, req: CreateKeyRequest, user: UserRecord, docId: string,
                  keyRandom: Option<seq<bv8>>, secretRandom: Option<seq<bv8>>, h: Hasher)
    requires db.Valid()
    modifies c`response, db
    ensures db.Valid()
    ensures var o := IssueForOwner(req, user, old(db.Collection(ProfilesCollection)), old(db.NextFails()),
                                   old(db.Collection(KeysCollection)), old(db.calls) + 1 in db.outages,
                                   docId, keyRandom, secretRandom, h);
      && c.response == Some(o.response)
      && db.calls == old(db.calls) + o.calls
      && db.collections == if o.created.None? then old(db.collections)
                           else old(db.collections)[KeysCollection := old(db.Collection(KeysCollection)) + [o.created.value]]
  {
    ghost var collectionsBefore, createFails := db.collections, db.calls + 1 in db.outages;
    var profiles := db.QueryDocuments(ProfilesCollection, "user_id", Str(req.userId));
    if profiles.Failure? || |profiles.value| == 0 {
      c.Respond(Response(StatusNotFound, ErrorBody(MsgProfileNotFound)));
      return;
    }
    var projectId := StringField(profiles.value[0].data, "project_id");

    // 3. Key, secret and hash; their errors are discarded.
    var apiKey := GeneratedKey(keyRandom);
    var apiSecret := GeneratedSecret(secretRandom);

    // 4. The record.
    var newKey := NewKeyRecord(req, projectId, user.email, docId, apiKey, apiSecret, h);

    // 5-7. The stored map, the write and the response.
    assert db.collections == collectionsBefore && db.NextFails() == createFails;
    StoreKey(c, db, newKey, apiSecret);
  }

  /** Steps 5 to 7 of issuing: stores the record's JSON view with the hash put back, then answers
      with the hash-free view and the prefixed secret. */
  method StoreKey(c: Context, db: Store, newKey: APIKeyData, apiSecret: string)
    requires db.Valid()
    modifies c`response, db
    ensures db.Valid()
    ensures var o := SaveKey(newKey, apiSecret, old(db.Collection(KeysCollection)), old(db.NextFails()));
      && c.response == Some(o.response)
      && db.calls == old(db.calls) + 1
      && db.collections == if o.created.None? then old(db.collections)
                           else old(db.collections)[KeysCollection := old(db.Collection(KeysCollection)) + [o.created.value]]
  {
    // 5. The stored map: the JSON view, with the hash put back.
    var dataMap := JsonView(newKey);
    dataMap := dataMap["hashedSecret" := Str(newKey.hashedSecret)];

    // 6. The write.
    var err := db.CreateDocumentWithID(KeysCollection, newKey.id, dataMap);
    if err.Some? {
      c.Respond(Response(StatusInternalServerError, ErrorBody(MsgSaveFailed)));
      return;
    }

    // 7. The hash-free view and the prefixed secret.
    c.Respond(Response(StatusCreated, KeyCreated(JsonView(newKey), SecretPrefix + apiSecret)));
  }

  /** GET /admin/dashboard: greets the user the gate put in the request context, if any. */
  method AdminDashboardHandler(c: Context)
    modifies c`response
    ensures c.response == Some(Response(StatusOK, Welcome(if "userId" in c.keys then Some(c.keys["userId"]) else None)))
  {
    var userId := if "userId" in c.keys then Some(c.keys["userId"]) else None;
    c.Respond(Response(StatusOK, Welcome(userId)));
  }

  /** The fields an assignment writes. */
  function AssignmentFields(uid: string, projectId: string): Fields {
    map["userId" := Str(uid), "clientId" := Str(projectId), "status" := Str(AssignedStatus)]
  }

  /** What assignment does: the response, the fields merged into the key document (if any), and
      the number of store calls made. */
  datatype AssignOutcome = AssignOutcome(response: Response, update: Option<Fields>, calls: nat)

  /**
   * The outcome of an assignment request for user `uid`; `body` is the bound `apiKey` (`None`
   * when the body did not decode). The three flags say whether the backend was unreachable at
   * the first, second and third store call.
   */
  function AssignKey(uid: string, body: Option<string>, users: Users, profiles: seq<Document>,
                     profileQueryFails: bool, keys: seq<Document>, getFails: bool, updateFails: bool)
    : (o: AssignOutcome)
    ensures o.update.Some? <==> o.response.status == StatusOK
    ensures o.calls <= 3
  {
    if body.None? || body.value == "" then
      AssignOutcome(Response(StatusBadRequest, ErrorBody(MsgAPIKeyRequired)), None, 0)
    else if GetUser(users, uid).Failure? then
      AssignOutcome(Response(StatusNotFound, ErrorDetail(MsgAuthUserNotFound, "uid", uid)), None, 0)
    else
      var found := QueryOne(profiles, "user_id", Str(uid));
      if profileQueryFails || |found| == 0 then
        AssignOutcome(Response(StatusNotFound, ErrorDetail(MsgProfileNotFound, "uid", uid)), None, 1)
      else
        var projectId := StringField(found[0].data, "project_id");
        if projectId == "" then
          AssignOutcome(Response(StatusBadRequest, ErrorBody(MsgNoProjectId)), None, 1)
        else
          var bound := AssignToKey(body.value, uid, projectId, keys, getFails, updateFails);
          bound.(calls := bound.calls + 1)
  }

  /**
   * The key part of an assignment, once user, profile and project are known: 404 when the key
   * document cannot be read, 409 when it already names a user, 500 when the merge fails, and
   * otherwise 200 with the three fields merged.
   */
  function AssignToKey(apiKey: string, uid: string, projectId: string, keys: seq<Document>,
                       getFails: bool, updateFails: bool): (o: AssignOutcome)
    ensures o.update.Some? <==> o.response.status == StatusOK
    ensures 1 <= o.calls <= 2
  {
    match Lookup(keys, apiKey, getFails)
    case Failure(_) =>
      AssignOutcome(Response(StatusNotFound, ErrorDetail(MsgKeyNotFound, "apiKey", apiKey)), None, 1)
    case Success(doc) =>
      if "userId" in doc.data then
        AssignOutcome(Response(StatusConflict, ErrorBody(MsgAlreadyAssigned)), None, 1)
      else if UpdateError(keys, apiKey, updateFails).Some? then
        AssignOutcome(Response(StatusInternalServerError, ErrorBody(MsgAssignFailed)), None, 2)
      else
        AssignOutcome(Response(StatusOK, KeyAssigned(apiKey, uid, projectId)),
                      Some(AssignmentFields(uid, projectId)), 2)
  }

  /** POST /users/:uid/assign-key. */
  method AssignAPIKeyToUserHandler(c: Context, body: Option<string>, db: Store, users: Users)
    requires db.Valid()
    modifies c`response, db
    ensures db.Valid()
    ensures var o := AssignKey(c.Param("uid"), body, users, old(db.Collection(ProfilesCollection)),
                               old(db.NextFails()), old(db.Collection(LegacyKeysCollection)),
                               old(db.calls) + 1 in db.outages, old(db.calls) + 2 in db.outages);
      && c.response == Some(o.response)
      && db.calls == old(db.calls) + o.calls
      && db.collections == if o.update.None? then old(db.collections)
                           else old(db.collections)[LegacyKeysCollection :=
                                  WithData(old(db.Collection(LegacyKeysCollection)), body.value,
                                    Lookup(old(db.Collection(LegacyKeysCollection)), body.value, false).value.data
                                    + o.update.value)]
  {
    ghost var collectionsBefore, getFails := db.collections, db.calls + 1 in db.outages;
    // 1. Parameters.
    var uid := c.Param("uid");
    if body.None? || body.value == "" {
      c.Respond(Response(StatusBadRequest, ErrorBody(MsgAPIKeyRequired)));
      return;
    }
    var apiKey := body.value;

    // 2. The user.
    if GetUser(users, uid).Failure? {
      c.Respond(Response(StatusNotFound, ErrorDetail(MsgAuthUserNotFound, "uid", uid)));
      return;
    }

    // 3. The profile.
    var profiles := db.QueryDocuments(ProfilesCollection, "user_id", Str(uid));
    if profiles.Failure? || |profiles.value| == 0 {
      c.Respond(Response(StatusNotFound, ErrorDetail(MsgProfileNotFound, "uid", uid)));
      return;
    }
    var userProfile := profiles.value[0];

    // 4. The project and the key.
    var projectId := StringField(userProfile.data, "project_id");
    if projectId == "" {
      c.Respond(Response(StatusBadRequest, ErrorBody(MsgNoProjectId)));
      return;
    }
    assert db.collections == collectionsBefore && db.NextFails() == getFails;
    BindKey(c, db, apiKey, uid, projectId);
  }

  /** Steps 4 (the key) to 6 of an assignment: reads the key document, refuses one that already
      names a user, merges the three fields and answers. */
  method BindKey(c: Context, db: Store, apiKey: string, uid: string, projectId: string)
    requires db.Valid()
    modifies c`response, db
    ensures db.Valid()
    ensures var o := AssignToKey(apiKey, uid, projectId, old(db.Collection(LegacyKeysCollection)),
                                 old(db.NextFails()), old(db.calls) + 1 in db.outages);
      && c.response == Some(o.response)
      && db.calls == old(db.calls) + o.calls
      && db.collections == if o.update.None? then old(db.collections)
                           else old(db.collections)[LegacyKeysCollection :=
                                  WithData(old(db.Collection(LegacyKeysCollection)), apiKey,
                                    Lookup(old(db.Collection(LegacyKeysCollection)), apiKey, false).value.data
                                    + o.update.value)]
  {
    ghost var collectionsBefore, updateFails := db.collections, db.calls + 1 in db.outages;
    var apiKeyDoc := db.GetDocument(LegacyKeysCollection, apiKey);
    if apiKeyDoc.Failure? {
      c.Respond(Response(StatusNotFound, ErrorDetail(MsgKeyNotFound, "apiKey", apiKey)));
      return;
    }
    if "userId" in apiKeyDoc.value.data {
      c.Respond(Response(StatusConflict, ErrorBody(MsgAlreadyAssigned)));
      return;
    }
    assert db.collections == collectionsBefore && db.NextFails() == updateFails;

    // 5. The three fields.
    var err := db.UpdateDocument(LegacyKeysCollection, apiKey, AssignmentFields(uid, projectId));
    if err.Some? {
      c.Respond(Response(StatusInternalServerError, ErrorBody(MsgAssignFailed)));
      return;
    }

    // 6. Success.
    c.Respond(Response(StatusOK, KeyAssigned(apiKey, uid, projectId)));
  }

  // ---------------------------------------------------------------------------------------
  // Properties of issuing.

  /** A prefixed string has the prefix. */
  lemma PrefixedHasPrefix(prefix: string, s: string)
    ensures HasPrefix(prefix + s, prefix)
  {
    assert (prefix + s)[..|prefix|] == prefix;
  }

  /** The stored map is the response view with the hash added, and only that. */
  lemma StoredIsViewPlusHash(k: APIKeyData)
    ensures JsonView(k) == StoredFields(k) - {"hashedSecret"}
    ensures FieldIs(StoredFields(k), "hashedSecret", Str(k.hashedSecret))
  {
    AddedKeyRemoved(JsonView(k), "hashedSecret", Str(k.hashedSecret));
  }

  /** Removing a key just added to a map that lacked it gives back the map. */
  lemma AddedKeyRemoved(m: Fields, key: string, v: Value)
    requires key !in m
    ensures m[key := v] - {key} == m
  {
    assert (m[key := v] - {key}).Keys == m.Keys;
  }

  /**
   * An issued record is stored under its own id, is active, has an "ak_" key, a zero usage count
   * and the default rate limits, and belongs to the requested user. The secret returned carries
   * the "as_" prefix and the stored hash is that of the secret without it. The response view is
   * the stored map without the hash.
   */
  lemma CreatedKeyShape(body: Option<CreateKeyRequest>, users: Users, profiles: seq<Document>,
                        profileQueryFails: bool, keys: seq<Document>, createFails: bool, docId: string,
                        keyRandom: Option<seq<bv8>>, secretRandom: Option<seq<bv8>>, h: Hasher)
    requires CreateKey(body, users, profiles, profileQueryFails, keys, createFails, docId,
                       keyRandom, secretRandom, h).created.Some?
    ensures var o := CreateKey(body, users, profiles, profileQueryFails, keys, createFails, docId,
                               keyRandom, secretRandom, h);
            var d := o.created.value;
      && d.id == docId && FieldIs(d.data, "id", Str(docId))
      && FieldIs(d.data, "status", Str(ActiveStatus))
      && HasPrefix(StringField(d.data, "api_key"), KeyPrefix)
      && FieldIs(d.data, "user_id", Str(body.value.userId))
      && FieldIs(d.data, "usage", Object(map["total_requests" := Num(0)]))
      && FieldIs(d.data, "rate_limits", Object(map["requests_per_minute" := Num(DefaultRequestsPerMinute),
                                                   "requests_per_hour" := Num(0)]))
      && o.response.body.KeyCreated?
      && HasPrefix(o.response.body.apiSecret, SecretPrefix)
      && FieldIs(d.data, "hashedSecret", Str(HashOrEmpty(h, TrimPrefix(o.response.body.apiSecret, SecretPrefix))))
      && "hashedSecret" !in o.response.body.data
      && o.response.body.data == d.data - {"hashedSecret"}
  {
    var req := body.value;
    var user := GetUser(users, req.userId).value;
    var found := QueryOne(profiles, "user_id", Str(req.userId));
    var apiSecret := GeneratedSecret(secretRandom);
    var k := NewKeyRecord(req, StringField(found[0].data, "project_id"), user.email, docId,
                          GeneratedKey(keyRandom), apiSecret, h);
    StoredIsViewPlusHash(k);
    PrefixedHasPrefix(KeyPrefix, GeneratedKey(keyRandom));
    PrefixedHasPrefix(SecretPrefix, apiSecret);
    TrimPrefixOfPrefixed(SecretPrefix, apiSecret);
  }

  /** Without the owner in the identity provider, or without its profile, issuing answers 404
      and creates nothing. */
  lemma NoOwnerNoKey(body: Option<CreateKeyRequest>, users: Users, profiles: seq<Document>,
                     profileQueryFails: bool, keys: seq<Document>, createFails: bool, docId: string,
                     keyRandom: Option<seq<bv8>>, secretRandom: Option<seq<bv8>>, h: Hasher)
    requires BindsCreateRequest(body)
    requires || GetUser(users, body.value.userId).Failure?
             || profileQueryFails
             || forall j :: 0 <= j < |profiles| ==> !Matches(profiles[j], "user_id", Str(body.value.userId))
    ensures var o := CreateKey(body, users, profiles, profileQueryFails, keys, createFails, docId,
                               keyRandom, secretRandom, h);
            o.response.status == StatusNotFound && o.created.None? && o.calls <= 1
  {
  }

  // ---------------------------------------------------------------------------------------
  // Properties of assignment.

  /** Assignment writes only to a key document that exists and names no user yet. */
  lemma AssignWriteOnce(uid: string, body: Option<string>, users: Users, profiles: seq<Document>,
                        profileQueryFails: bool, keys: seq<Document>, getFails: bool, updateFails: bool)
    requires AssignKey(uid, body, users, profiles, profileQueryFails, keys, getFails, updateFails).update.Some?
    ensures body.Some? && Lookup(keys, body.value, false).Success?
    ensures "userId" !in Lookup(keys, body.value, false).value.data
  {
  }

  /** A key document that already names a user gets 409 and is not written. */
  lemma AssignConflict(uid: string, apiKey: string, users: Users, profiles: seq<Document>,
                       profileQueryFails: bool, keys: seq<Document>, getFails: bool, updateFails: bool)
    requires apiKey != "" && GetUser(users, uid).Success? && !profileQueryFails
    requires FirstMatch(profiles, "user_id", Str(uid)).Some?
    requires StringField(profiles[FirstMatch(profiles, "user_id", Str(uid)).value].data, "project_id") != ""
    requires Lookup(keys, apiKey, getFails).Success? && "userId" in Lookup(keys, apiKey, getFails).value.data
    ensures AssignKey(uid, Some(apiKey), users, profiles, profileQueryFails, keys, getFails, updateFails)
            == AssignOutcome(Response(StatusConflict, ErrorBody(MsgAlreadyAssigned)), None, 2)
  {
    assert QueryOne(profiles, "user_id", Str(uid)) == [profiles[FirstMatch(profiles, "user_id", Str(uid)).value]];
  }

  /**
   * A successful assignment writes exactly `userId`, `clientId` (the non-empty project) and
   * `status` = "assigned" into the key document: every other field of it, and every other
   * document, stays as it was.
   */
  lemma AssignChangesExactlyThree(uid: string, body: Option<string>, users: Users, profiles: seq<Document>,
                                  profileQueryFails: bool, keys: seq<Document>, getFails: bool, updateFails: bool)
    requires UniqueIds(keys)
    requires AssignKey(uid, body, users, profiles, profileQueryFails, keys, getFails, updateFails).update.Some?
    ensures var o := AssignKey(uid, body, users, profiles, profileQueryFails, keys, getFails, updateFails);
            var before := Lookup(keys, body.value, false).value.data;
            var after := before + o.update.value;
            var written := WithData(keys, body.value, after);
      && Lookup(written, body.value, false) == Success(Document(body.value, after))
      && after.Keys == before.Keys + {"userId", "clientId", "status"}
      && (forall f :: f in before && f != "userId" && f != "clientId" && f != "status" ==> after[f] == before[f])
      && after["userId"] == Str(uid) && after["status"] == Str(AssignedStatus)
      && o.response.body.KeyAssigned? && o.response.body.clientId != ""
      && after["clientId"] == Str(o.response.body.clientId)
      && FirstMatch(profiles, "user_id", Str(uid)).Some?
      && after["clientId"] == Str(StringField(profiles[FirstMatch(profiles, "user_id", Str(uid)).value].data, "project_id"))
      && (forall j :: 0 <= j < |keys| && keys[j].id != body.value ==> written[j] == keys[j])
  {
    var o := AssignKey(uid, body, users, profiles, profileQueryFails, keys, getFails, updateFails);
    var before := Lookup(keys, body.value, false).value.data;
    WithDataThenLookup(keys, body.value, before + o.update.value);
  }

  /** A profile without a project gets 400 before the key is looked up: one store call only,
      whatever the key collection holds. */
  lemma ProjectCheckedBeforeKey(uid: string, apiKey: string, users: Users, profiles: seq<Document>,
                                keys: seq<Document>, getFails: bool, updateFails: bool)
    requires apiKey != "" && GetUser(users, uid).Success?
    requires FirstMatch(profiles, "user_id", Str(uid)).Some?
    requires StringField(profiles[FirstMatch(profiles, "user_id", Str(uid)).value].data, "project_id") == ""
    ensures AssignKey(uid, Some(apiKey), users, profiles, false, keys, getFails, updateFails)
            == AssignOutcome(Response(StatusBadRequest, ErrorBody(MsgNoProjectId)), None, 1)
  {
    assert QueryOne(profiles, "user_id", Str(uid)) == [profiles[FirstMatch(profiles, "user_id", Str(uid)).value]];
  }

  /** A key that cannot be read gets 404 naming the key, and nothing is written. */
  lemma MissingKeyNotFound(uid: string, apiKey: string, users: Users, profiles: seq<Document>,
                           keys: seq<Document>, getFails: bool, updateFails: bool)
    requires apiKey != "" && GetUser(users, uid).Success?
    requires FirstMatch(profiles, "user_id", Str(uid)).Some?
    requires StringField(profiles[FirstMatch(profiles, "user_id", Str(uid)).value].data, "project_id") != ""
    requires Lookup(keys, apiKey, getFails).Failure?
    ensures AssignKey(uid, Some(apiKey), users, profiles, false, keys, getFails, updateFails)
            == AssignOutcome(Response(StatusNotFound, ErrorDetail(MsgKeyNotFound, "apiKey", apiKey)), None, 2)
  {
    assert QueryOne(profiles, "user_id", Str(uid)) == [profiles[FirstMatch(profiles, "user_id", Str(uid)).value]];
  }
}
