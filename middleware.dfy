/**
 * The request gate put in front of protected routes. Checks run in a fixed order and the
 * first one that fails decides the response: both credential headers present; the key found
 * by its `api_key` field (first match only); the secret, without one leading "as_", matches
 * the stored hash and the key is "active"; the permission set holds the required permission
 * or the wildcard "super:admin"; a subdomain can be resolved; the key is bound to a user; the
 * user can be fetched; and one of the user's `subdomain` claims equals the subdomain, ignoring
 * case. On success three request values are set, the usage counter is incremented and the
 * chain continues.
 */
module Middleware {
  import opened Wrappers
  import opened Values
  import opened GoStrings
  import opened Firestore
  import opened FirebaseAuth
  import opened Gin
  import opened Common

  const HeaderAPIKey := "X-API-Key"
  const HeaderAPISecret := "X-API-Secret"
  const HeaderSubdomain := "X-Client-Subdomain"
  const SuperAdmin := "super:admin"

  const MsgHeadersRequired := "X-API-Key and X-API-Secret headers are required"
  const MsgInvalidKey := "Invalid API Key"
  const MsgInvalidCredentials := "Invalid credentials or inactive key"
  const MsgInsufficientPermissions := "Insufficient permissions"
  const MsgSubdomainNotFound := "Subdomain not found in X-Client-Subdomain header or Host"
  const MsgNoUser := "API Key not associated with a user"
  const MsgUserLookupFailed := "Could not retrieve user data"
  const MsgSubdomainNotAllowed := "Subdomain not allowed"

  /** The counter path the usage recorder increments: the storage-tag name `totalRequests` of
      the usage counter. */
  const UsageCounter := FieldPath("usage", "totalRequests")

  /** The counter path of the issued documents: they are stored through their JSON view, which
      keeps the usage count under `total_requests`, so the recorder's path is not theirs. */
  const IssuedCounter := FieldPath("usage", "total_requests")

  /** The two field updates of the usage recorder: +1 on the counter, and the last-used time. */
  function UsageUpdates(counter: FieldPath): seq<FieldUpdate> {
    [FieldUpdate(counter, Increment(1)), FieldUpdate(FieldPath("usage", "lastUsedAt"), SetTo(Time))]
  }

  /** The collection after the usage updates are applied to document `id`. */
  function UsageRecorded(docs: seq<Document>, id: string, counter: FieldPath): seq<Document> {
    match Lookup(docs, id, false)
    case Failure(_) => docs
    case Success(doc) => WithData(docs, id, ApplyUpdates(doc.data, UsageUpdates(counter)))
  }

  datatype Decision =
    | Deny(response: Response)
    | Allow(docId: string, subdomain: string, userId: string, permissions: seq<string>)

  function Denial(status: int, message: string): Decision {
    Deny(Response(status, ErrorBody(message)))
  }

  /** The permission set grants `required` when it holds it or holds the wildcard. */
  predicate Permits(permissions: seq<string>, required: string) {
    required in permissions || SuperAdmin in permissions
  }

  /** The tenant a request asks for: the explicit header when non-empty, otherwise the first
      dot-separated label of the host when it has at least two, otherwise none (""). */
  function ResolveSubdomain(header: string, host: string): (r: string)
    ensures header != "" ==> r == header
    ensures header == "" && '.' in host ==> r == host[..IndexOf(host, '.')]
    ensures header == "" && '.' !in host ==> r == ""
    ensures r != "" ==> '.' !in r || r == header
  {
    SplitHead(host, '.');
    if header != "" then header
    else
      var parts := Split(host, '.');
      if |parts| >= 2 then parts[0] else ""
  }

  /** The user's `subdomain` claim list; none when the claims are nil or hold no list there. */
  function SubdomainClaims(claims: Option<Fields>): seq<string> {
    if claims.Some? then ArrayField(claims.value, "subdomain") else []
  }

  /** Some claimed subdomain equals `subdomain`, ignoring case. */
  predicate ClaimsAllow(claims: Option<Fields>, subdomain: string) {
    exists i :: 0 <= i < |SubdomainClaims(claims)| && EqualFold(SubdomainClaims(claims)[i], subdomain)
  }

  predicate HashIsString(data: Fields) {
    "hashedSecret" in data && data["hashedSecret"].Str?
  }

  /**
   * The credential stage. A stored hash that is not a string makes the handler panic; the
   * framework's recovery then answers 500 with no body.
   */
  function Authenticate(apiKey: string, apiSecret: string, keys: seq<Document>, queryFails: bool, h: Hasher)
    : (r: Result<Document, Response>)
    ensures apiKey == "" || apiSecret == "" || queryFails ==> r.Failure? && r.error.status == StatusUnauthorized
    ensures r.Failure? ==> r.error.status in {StatusUnauthorized, StatusInternalServerError}
    ensures r.Success? ==>
              && r.value in keys && FieldIs(r.value.data, "api_key", Str(apiKey))
              && FieldIs(r.value.data, "status", Str(ActiveStatus)) && HashIsString(r.value.data)
              && h.check(TrimPrefix(apiSecret, SecretPrefix), r.value.data["hashedSecret"].s)
  {
    if apiKey == "" || apiSecret == "" then
      Failure(Response(StatusUnauthorized, ErrorBody(MsgHeadersRequired)))
    else
      var found := QueryOne(keys, "api_key", Str(apiKey));
      if queryFails || |found| == 0 then
        Failure(Response(StatusUnauthorized, ErrorBody(MsgInvalidKey)))
      else if !HashIsString(found[0].data) then
        Failure(Response(StatusInternalServerError, NoBody))
      else if !h.check(TrimPrefix(apiSecret, SecretPrefix), found[0].data["hashedSecret"].s)
              || !FieldIs(found[0].data, "status", Str(ActiveStatus)) then
        Failure(Response(StatusUnauthorized, ErrorBody(MsgInvalidCredentials)))
      else
        Success(found[0])
  }

  /** The authorization stage, on the document that passed the credential stage. */
  function Authorize(doc: Document, required: string, subdomainHeader: string, host: string, users: Users)
    : (d: Decision)
    ensures !Permits(ArrayField(doc.data, "permissions"), required) ==>
              d == Denial(StatusForbidden, MsgInsufficientPermissions)
    ensures d.Deny? ==> d.response.status in {StatusBadRequest, StatusForbidden}
    ensures d.Allow? ==>
              && d.docId == doc.id && d.permissions == ArrayField(doc.data, "permissions")
              && Permits(d.permissions, required)
              && d.subdomain == ResolveSubdomain(subdomainHeader, host) && d.subdomain != ""
              && d.userId == StringField(doc.data, "user_id") && d.userId in users
              && ClaimsAllow(users[d.userId].customClaims, d.subdomain)
  {
    var permissions := ArrayField(doc.data, "permissions");
    if !Permits(permissions, required) then Denial(StatusForbidden, MsgInsufficientPermissions)
    else
      var subdomain := ResolveSubdomain(subdomainHeader, host);
      if subdomain == "" then Denial(StatusBadRequest, MsgSubdomainNotFound)
      else
        var userId := StringField(doc.data, "user_id");
        if userId == "" then Denial(StatusForbidden, MsgNoUser)
        else match GetUser(users, userId)
          case Failure(_) => Denial(StatusForbidden, MsgUserLookupFailed)
          case Success(user) =>
            if !ClaimsAllow(user.customClaims, subdomain) then Denial(StatusForbidden, MsgSubdomainNotAllowed)
            else Allow(doc.id, subdomain, userId, permissions)
  }

  /** The decision of the gate for one request. */
  function Decide(required: string, apiKey: string, apiSecret: string, subdomainHeader: string, host: string,
                  keys: seq<Document>, queryFails: bool, users: Users, h: Hasher): (d: Decision)
    ensures d.Deny? ==>
              d.response.status in {StatusBadRequest, StatusUnauthorized, StatusForbidden, StatusInternalServerError}
    ensures d.Allow? ==>
              && apiKey != "" && apiSecret != "" && !queryFails
              && (exists doc :: doc in keys && doc.id == d.docId && FieldIs(doc.data, "api_key", Str(apiKey)))
              && Permits(d.permissions, required) && d.subdomain != ""
  {
    match Authenticate(apiKey, apiSecret, keys, queryFails, h)
    case Failure(r) => Deny(r)
    case Success(doc) => Authorize(doc, required, subdomainHeader, host, users)
  }

  /** The three permission loops: the specific permission, then the wildcard, then the specific
      one again when still denied. */
  method HasPermission(permissions: seq<string>, required: string) returns (hasPermission: bool)
    ensures hasPermission <==> Permits(permissions, required)
  {
    hasPermission := false;
    for i := 0 to |permissions|
      invariant !hasPermission ==> required !in permissions[..i]
      invariant hasPermission ==> required in permissions
    {
      if permissions[i] == required {
        hasPermission := true;
        break;
      }
    }

    for i := 0 to |permissions|
      invariant hasPermission ==> Permits(permissions, required)
      invariant !hasPermission ==> required !in permissions && SuperAdmin !in permissions[..i]
    {
      if permissions[i] == SuperAdmin {
        hasPermission := true;
        break;
      }
    }

    if !hasPermission {
      for i := 0 to |permissions|
        invariant hasPermission ==> Permits(permissions, required)
        invariant !hasPermission ==> required !in permissions[..i]
      {
        if permissions[i] == required {
          hasPermission := true;
          break;
        }
      }
    }
  }

  /** The claim check: some entry of the `subdomain` claim list equals `subdomain`, ignoring case. */
  method SubdomainInClaims(claims: Option<Fields>, subdomain: string) returns (allowed: bool)
    ensures allowed <==> ClaimsAllow(claims, subdomain)
  {
    allowed := false;
    if claims.Some? {
      if "subdomain" in claims.value {
        var subs := claims.value["subdomain"];
        if subs.StrArray? {
          var subList := subs.items;
          assert SubdomainClaims(claims) == subList;
          for i := 0 to |subList|
            invariant !allowed ==> forall j :: 0 <= j < i ==> !EqualFold(subList[j], subdomain)
            invariant allowed ==> ClaimsAllow(claims, subdomain)
          {
            if EqualFold(subList[i], subdomain) {
              allowed := true;
              break;
            }
          }
        }
      }
    }
  }

  /**
   * Step 1 of the gate, the credential stage: on a failure it writes the response and aborts;
   * on success it returns the key's document. The store is queried only when both headers are
   * present, and never written.
   */
  method CheckCredentials(c: Context, db: Store, h: Hasher) returns (keyDoc: Option<Document>)
    modifies c`response, c`aborted, db`calls
    ensures var a := Authenticate(c.GetHeader(HeaderAPIKey), c.GetHeader(HeaderAPISecret),
                                  old(db.Collection(KeysCollection)), old(db.NextFails()), h);
      && (a.Failure? ==> keyDoc.None? && c.response == Some(a.error) && c.aborted)
      && (a.Success? ==> keyDoc == Some(a.value) && c.response == old(c.response) && c.aborted == old(c.aborted))
    ensures keyDoc.Some? ==> keyDoc.value in old(db.Collection(KeysCollection))
    ensures db.calls == old(db.calls) + (if c.GetHeader(HeaderAPIKey) == "" || c.GetHeader(HeaderAPISecret) == "" then 0 else 1)
  {
    var apiKey := c.GetHeader(HeaderAPIKey);
    var apiSecret := c.GetHeader(HeaderAPISecret);
    if apiKey == "" || apiSecret == "" {
      c.Abort(Response(StatusUnauthorized, ErrorBody(MsgHeadersRequired)));
      return None;
    }
    var keys := db.QueryDocuments(KeysCollection, "api_key", Str(apiKey));
    if keys.Failure? || |keys.value| == 0 {
      c.Abort(Response(StatusUnauthorized, ErrorBody(MsgInvalidKey)));
      return None;
    }
    var doc := keys.value[0];
    var secretWithoutPrefix := TrimPrefix(apiSecret, SecretPrefix);
    if !HashIsString(doc.data) {
      c.Abort(Response(StatusInternalServerError, NoBody));
      return None;
    }
    var hashedSecret := doc.data["hashedSecret"].s;
    if !h.check(secretWithoutPrefix, hashedSecret) || !FieldIs(doc.data, "status", Str(ActiveStatus)) {
      c.Abort(Response(StatusUnauthorized, ErrorBody(MsgInvalidCredentials)));
      return None;
    }
    return Some(doc);
  }

  /**
   * Steps 2 to 4 of the gate, on the document that passed the credential stage: on a denial it
   * writes the response and aborts; otherwise the context is left as it was.
   */
  method CheckAccess(c: Context, keyDoc: Document, requiredPermission: string, users: Users) returns (d: Decision)
    modifies c`response, c`aborted
    ensures d == Authorize(keyDoc, requiredPermission, c.GetHeader(HeaderSubdomain), c.host, users)
    ensures d.Allow? ==> d.docId == keyDoc.id
    ensures d.Deny? ==> c.response == Some(d.response) && c.aborted
    ensures d.Allow? ==> c.response == old(c.response) && c.aborted == old(c.aborted)
  {
    // 2. Permissions.
    var permissions := ArrayField(keyDoc.data, "permissions");
    var hasPermission := HasPermission(permissions, requiredPermission);
    if !hasPermission {
      d := Denial(StatusForbidden, MsgInsufficientPermissions);
      c.Abort(d.response);
      return;
    }

    // 3. Subdomain: the explicit header first, the host as a fallback.
    var subdomain := c.GetHeader(HeaderSubdomain);
    if subdomain == "" {
      var parts := Split(c.host, '.');
      if |parts| >= 2 {
        subdomain := parts[0];
      }
    }
    assert subdomain == ResolveSubdomain(c.GetHeader(HeaderSubdomain), c.host);
    if subdomain == "" {
      d := Denial(StatusBadRequest, MsgSubdomainNotFound);
      c.Abort(d.response);
      return;
    }

    // 4. The owning user and its subdomain claims.
    var userID := StringField(keyDoc.data, "user_id");
    if userID == "" {
      d := Denial(StatusForbidden, MsgNoUser);
      c.Abort(d.response);
      return;
    }
    var userRecord := GetUser(users, userID);
    if userRecord.Failure? {
      d := Denial(StatusForbidden, MsgUserLookupFailed);
      c.Abort(d.response);
      return;
    }
    var allowed := SubdomainInClaims(userRecord.value.customClaims, subdomain);
    if !allowed {
      d := Denial(StatusForbidden, MsgSubdomainNotAllowed);
      c.Abort(d.response);
      return;
    }
    d := Allow(keyDoc.id, subdomain, userID, permissions);
  }

  /**
   * Step 6 of the gate, run detached in the source: increments the usage counter and sets the
   * last-used time of document `id`. A failed write changes nothing and is not reported.
   */
  method RecordUsage(db: Store, id: string)
    requires db.Valid()
    requires Lookup(db.Collection(KeysCollection), id, false).Success?
    modifies db
    ensures db.Valid()
    ensures db.calls == old(db.calls) + 1
    ensures db.collections == if old(db.NextFails()) then old(db.collections)
                              else old(db.collections)[KeysCollection :=
                                     UsageRecorded(old(db.Collection(KeysCollection)), id, UsageCounter)]
  {
    var _ := db.UpdateDocumentFields(KeysCollection, id, UsageUpdates(UsageCounter));
  }

  /**
   * Steps 2 to 6 of the gate, on the document that passed the credential stage: a denial writes
   * its response and aborts, leaving the store alone; an allowed request sets the three request
   * values, records usage on the key's document and continues the chain.
   */
  method Admit(c: Context, db: Store, keyDoc: Document, requiredPermission: string, users: Users)
    returns (d: Decision)
    requires db.Valid() && keyDoc in db.Collection(KeysCollection)
    modifies c, db
    ensures db.Valid()
    ensures d == Authorize(keyDoc, requiredPermission, c.GetHeader(HeaderSubdomain), c.host, users)
    ensures d.Allow? ==> d.docId == keyDoc.id
    ensures d.Deny? ==>
              && c.response == Some(d.response) && c.aborted
              && c.keys == old(c.keys) && c.nextCalled == old(c.nextCalled)
              && db.collections == old(db.collections) && db.calls == old(db.calls)
    ensures d.Allow? ==>
              && c.keys == old(c.keys)["subdomain" := CtxString(d.subdomain)]["userId" := CtxString(d.userId)]
                                      ["permissions" := CtxList(d.permissions)]
              && c.nextCalled && c.response == old(c.response) && c.aborted == old(c.aborted)
              && db.calls == old(db.calls) + 1
              && db.collections ==
                   if old(db.NextFails()) then old(db.collections)
                   else old(db.collections)[KeysCollection :=
                          UsageRecorded(old(db.Collection(KeysCollection)), keyDoc.id, UsageCounter)]
  {
    d := CheckAccess(c, keyDoc, requiredPermission, users);
    if d.Deny? {
      return;
    }

    // 5. Request values.
    c.Set("subdomain", CtxString(d.subdomain));
    c.Set("userId", CtxString(d.userId));
    c.Set("permissions", CtxList(d.permissions));

    // 6. Usage recording; its outcome does not affect the request.
    LookupMember(db.Collection(KeysCollection), keyDoc);
    RecordUsage(db, keyDoc.id);
    c.Next();
  }

  /**
   * The gate. A denial writes its response, aborts the chain and leaves the store's documents
   * alone; an allowed request sets the three request values, records usage on the key's
   * document (a failed write is ignored) and continues the chain.
   */
  method AuthMiddleware(requiredPermission: string, c: Context, db: Store, users: Users, h: Hasher)
    requires db.Valid()
    modifies c, db
    ensures db.Valid()
    ensures var d := Decide(requiredPermission, c.GetHeader(HeaderAPIKey), c.GetHeader(HeaderAPISecret),
                            c.GetHeader(HeaderSubdomain), c.host, old(db.Collection(KeysCollection)),
                            old(db.NextFails()), users, h);
      && (d.Deny? ==>
            && c.response == Some(d.response) && c.aborted
            && c.keys == old(c.keys) && c.nextCalled == old(c.nextCalled)
            && db.collections == old(db.collections)
            && db.calls == old(db.calls) + (if c.GetHeader(HeaderAPIKey) == "" || c.GetHeader(HeaderAPISecret) == "" then 0 else 1))
      && (d.Allow? ==>
            && c.keys == old(c.keys)["subdomain" := CtxString(d.subdomain)]["userId" := CtxString(d.userId)]
                                    ["permissions" := CtxList(d.permissions)]
            && c.nextCalled && c.response == old(c.response) && c.aborted == old(c.aborted)
            && db.calls == old(db.calls) + 2
            && db.collections ==
                 if old(db.calls) + 1 in db.outages then old(db.collections)
                 else old(db.collections)[KeysCollection :=
                        UsageRecorded(old(db.Collection(KeysCollection)), d.docId, UsageCounter)])
  {
    ghost var a := Authenticate(c.GetHeader(HeaderAPIKey), c.GetHeader(HeaderAPISecret),
                                db.Collection(KeysCollection), db.NextFails(), h);
    ghost var collectionsBefore, usageFails := db.collections, db.calls + 1 in db.outages;
    // 1. Credentials.
    var found := CheckCredentials(c, db, h);
    if found.None? {
      return;
    }
    assert a == Success(found.value);
    assert db.collections == collectionsBefore && db.NextFails() == usageFails;
    // 2-6. Permissions, subdomain, user and claims; request values; usage.
    var d := Admit(c, db, found.value, requiredPermission, users);
  }
}
