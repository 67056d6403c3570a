/**
 * What the request gate promises, stated over its decision function: which request gets which
 * refusal and in which order, that only the first key matching the presented key counts, how
 * the secret prefix and the subdomain claims are compared, and what the usage recorder does to
 * an issued credential record.
 */
module GateProperties {
  import opened Wrappers
  import opened Values
  import opened GoStrings
  import opened Firestore
  import opened FirebaseAuth
  import opened Gin
  import opened Common
  import opened Middleware

  /** Without both credential headers the request is refused with 401, whatever the store holds,
      whether it is reachable and whoever the users are. */
  lemma MissingHeadersDenied(required: string, apiKey: string, apiSecret: string, sub: string, host: string,
                             keys: seq<Document>, queryFails: bool, users: Users, h: Hasher)
    requires apiKey == "" || apiSecret == ""
    ensures Decide(required, apiKey, apiSecret, sub, host, keys, queryFails, users, h)
            == Denial(StatusUnauthorized, MsgHeadersRequired)
  {
  }

  /** A key that is not found, or a lookup that fails, gives the same 401 whatever the secret. */
  lemma UnknownKeyDenied(required: string, apiKey: string, apiSecret: string, sub: string, host: string,
                         keys: seq<Document>, queryFails: bool, users: Users, h: Hasher)
    requires apiKey != "" && apiSecret != ""
    requires queryFails || forall j :: 0 <= j < |keys| ==> !Matches(keys[j], "api_key", Str(apiKey))
    ensures Decide(required, apiKey, apiSecret, sub, host, keys, queryFails, users, h)
            == Denial(StatusUnauthorized, MsgInvalidKey)
  {
  }

  /** Only the first document whose `api_key` matches counts: the decision is the one the
      collection holding just that document gives. */
  lemma OnlyFirstMatchCounts(required: string, apiKey: string, apiSecret: string, sub: string, host: string,
                             keys: seq<Document>, i: nat, queryFails: bool, users: Users, h: Hasher)
    requires FirstMatch(keys, "api_key", Str(apiKey)) == Some(i)
    ensures Decide(required, apiKey, apiSecret, sub, host, keys, queryFails, users, h)
            == Decide(required, apiKey, apiSecret, sub, host, [keys[i]], queryFails, users, h)
  {
    assert QueryOne(keys, "api_key", Str(apiKey)) == [keys[i]];
    assert FirstMatch([keys[i]], "api_key", Str(apiKey)) == Some(0);
    assert QueryOne([keys[i]], "api_key", Str(apiKey)) == [keys[i]];
  }

  /** The secret may be presented with or without its "as_" prefix. */
  lemma SecretPrefixOptional(required: string, apiKey: string, x: string, sub: string, host: string,
                             keys: seq<Document>, queryFails: bool, users: Users, h: Hasher)
    requires x != "" && !HasPrefix(x, SecretPrefix)
    ensures Decide(required, apiKey, SecretPrefix + x, sub, host, keys, queryFails, users, h)
            == Decide(required, apiKey, x, sub, host, keys, queryFails, users, h)
  {
    TrimPrefixOfPrefixed(SecretPrefix, x);
  }

  /** Exactly one leading "as_" is removed: a presented "as_" + s is compared with the stored hash
      as s, even when s itself starts with "as_". */
  lemma OnePrefixStripped(apiKey: string, s: string, keys: seq<Document>, i: nat, h: Hasher)
    requires apiKey != "" && FirstMatch(keys, "api_key", Str(apiKey)) == Some(i)
    requires HashIsString(keys[i].data) && FieldIs(keys[i].data, "status", Str(ActiveStatus))
    ensures Authenticate(apiKey, SecretPrefix + s, keys, false, h).Success?
            <==> h.check(s, keys[i].data["hashedSecret"].s)
  {
    TrimPrefixOfPrefixed(SecretPrefix, s);
    assert QueryOne(keys, "api_key", Str(apiKey)) == [keys[i]];
  }

  /** A wrong secret and an inactive key get the same 401, and nothing else gets it. */
  lemma CredentialFailuresLookAlike(required: string, apiKey: string, apiSecret: string, sub: string,
                                    host: string, keys: seq<Document>, i: nat, users: Users, h: Hasher)
    requires apiKey != "" && apiSecret != "" && FirstMatch(keys, "api_key", Str(apiKey)) == Some(i)
    requires HashIsString(keys[i].data)
    ensures Decide(required, apiKey, apiSecret, sub, host, keys, false, users, h)
              == Denial(StatusUnauthorized, MsgInvalidCredentials)
            <==> !h.check(TrimPrefix(apiSecret, SecretPrefix), keys[i].data["hashedSecret"].s)
                 || !FieldIs(keys[i].data, "status", Str(ActiveStatus))
  {
    assert QueryOne(keys, "api_key", Str(apiKey)) == [keys[i]];
  }

  /** After the credential stage, the request is refused for its permissions exactly when the key
      holds neither the required permission nor the wildcard. */
  lemma PermissionGate(required: string, apiKey: string, apiSecret: string, sub: string, host: string,
                       keys: seq<Document>, queryFails: bool, users: Users, h: Hasher, doc: Document)
    requires Authenticate(apiKey, apiSecret, keys, queryFails, h) == Success(doc)
    ensures Decide(required, apiKey, apiSecret, sub, host, keys, queryFails, users, h)
              == Denial(StatusForbidden, MsgInsufficientPermissions)
            <==> !Permits(ArrayField(doc.data, "permissions"), required)
  {
  }

  /**
   * The later stages in their order: a request that passed the earlier ones is refused for a
   * missing subdomain, a key without a user, a user that cannot be fetched, or a subdomain the
   * user's claims do not list, each exactly when that check is the first to fail.
   */
  lemma DenialsInOrder(required: string, sub: string, host: string, users: Users, doc: Document)
    requires Permits(ArrayField(doc.data, "permissions"), required)
    ensures var d := Authorize(doc, required, sub, host, users);
            var subdomain, userId := ResolveSubdomain(sub, host), StringField(doc.data, "user_id");
      && (d == Denial(StatusBadRequest, MsgSubdomainNotFound) <==> subdomain == "")
      && (d == Denial(StatusForbidden, MsgNoUser) <==> subdomain != "" && userId == "")
      && (d == Denial(StatusForbidden, MsgUserLookupFailed) <==>
            subdomain != "" && userId != "" && userId !in users)
      && (d == Denial(StatusForbidden, MsgSubdomainNotAllowed) <==>
            subdomain != "" && userId != "" && userId in users
            && !ClaimsAllow(users[userId].customClaims, subdomain))
  {
  }

  /** The conditions of an allowed request, stated without the gate's order of checks. */
  ghost predicate KeyAdmits(doc: Document, required: string, apiSecret: string, sub: string, host: string,
                            users: Users, h: Hasher)
  {
    && HashIsString(doc.data)
    && h.check(TrimPrefix(apiSecret, SecretPrefix), doc.data["hashedSecret"].s)
    && FieldIs(doc.data, "status", Str(ActiveStatus))
    && Permits(ArrayField(doc.data, "permissions"), required)
    && ResolveSubdomain(sub, host) != ""
    && StringField(doc.data, "user_id") != ""
    && StringField(doc.data, "user_id") in users
    && ClaimsAllow(users[StringField(doc.data, "user_id")].customClaims, ResolveSubdomain(sub, host))
  }

  /** Both headers are present, the lookup works, and the first key matching the presented one
      admits the request. */
  ghost predicate Grants(required: string, apiKey: string, apiSecret: string, sub: string, host: string,
                         keys: seq<Document>, queryFails: bool, users: Users, h: Hasher)
  {
    && apiKey != "" && apiSecret != "" && !queryFails
    && exists i :: 0 <= i < |keys| && Matches(keys[i], "api_key", Str(apiKey))
         && (forall j :: 0 <= j < i ==> !Matches(keys[j], "api_key", Str(apiKey)))
         && KeyAdmits(keys[i], required, apiSecret, sub, host, users, h)
  }

  /** The gate allows a request exactly when it is granted; an allowed request carries the
      resolved subdomain, a user whose claims list it, and permissions that permit the route. */
  lemma AllowedIff(required: string, apiKey: string, apiSecret: string, sub: string, host: string,
                   keys: seq<Document>, queryFails: bool, users: Users, h: Hasher)
    ensures Decide(required, apiKey, apiSecret, sub, host, keys, queryFails, users, h).Allow?
            <==> Grants(required, apiKey, apiSecret, sub, host, keys, queryFails, users, h)
    ensures var d := Decide(required, apiKey, apiSecret, sub, host, keys, queryFails, users, h);
            d.Allow? ==>
              && d.subdomain == ResolveSubdomain(sub, host) && d.subdomain != ""
              && d.userId in users && ClaimsAllow(users[d.userId].customClaims, d.subdomain)
              && Permits(d.permissions, required)
    ensures var d := Decide(required, apiKey, apiSecret, sub, host, keys, queryFails, users, h);
            var k := FirstMatch(keys, "api_key", Str(apiKey));
            d.Allow? ==>
              && k.Some?
              && d.docId == keys[k.value].id
              && d.userId == StringField(keys[k.value].data, "user_id")
              && d.permissions == ArrayField(keys[k.value].data, "permissions")
  {
    var k := FirstMatch(keys, "api_key", Str(apiKey));
    if k.Some? {
      assert QueryOne(keys, "api_key", Str(apiKey)) == [keys[k.value]];
    }
    if Grants(required, apiKey, apiSecret, sub, host, keys, queryFails, users, h) {
      var i :| 0 <= i < |keys| && Matches(keys[i], "api_key", Str(apiKey))
               && (forall j :: 0 <= j < i ==> !Matches(keys[j], "api_key", Str(apiKey)))
               && KeyAdmits(keys[i], required, apiSecret, sub, host, users, h);
      assert k.Some? && k.value == i;
    }
  }

  /** Claim comparison ignores case: a claimed entry allows a subdomain exactly when the two agree
      after lower-casing. */
  lemma ClaimsAllowIffLower(claims: Option<Fields>, subdomain: string)
    ensures ClaimsAllow(claims, subdomain)
            <==> exists i :: 0 <= i < |SubdomainClaims(claims)|
                   && ToLower(SubdomainClaims(claims)[i]) == ToLower(subdomain)
  {
    var subs := SubdomainClaims(claims);
    forall i | 0 <= i < |subs|
      ensures EqualFold(subs[i], subdomain) <==> ToLower(subs[i]) == ToLower(subdomain)
    {
      EqualFoldIsLowerEquality(subs[i], subdomain);
    }
  }

  /** Two spellings of a subdomain that differ only in case are allowed alike. */
  lemma ClaimsIgnoreCase(claims: Option<Fields>, a: string, b: string)
    requires ToLower(a) == ToLower(b)
    ensures ClaimsAllow(claims, a) <==> ClaimsAllow(claims, b)
  {
    ClaimsAllowIffLower(claims, a);
    ClaimsAllowIffLower(claims, b);
  }

  /** An explicit header wins over the host. */
  lemma SubdomainFromHeader()
    ensures ResolveSubdomain("acme", "foo.example.com") == "acme"
  {
  }

  /** Without the header, the first label of a host with at least two labels is taken. */
  lemma SubdomainFromHost()
    ensures ResolveSubdomain("", "acme.example.com") == "acme"
  {
    var host := "acme.example.com";
    assert host[4] == '.';
    assert forall j :: 0 <= j < 4 ==> host[j] != '.';
    assert host[..4] == "acme";
  }

  /** A host with a single label yields no subdomain, which the gate refuses with 400. */
  lemma NoSubdomainForSingleLabel()
    ensures ResolveSubdomain("", "localhost") == ""
  {
    var host := "localhost";
    assert forall j :: 0 <= j < |host| ==> host[j] != '.';
  }

  /** The permission check on a few sets: the specific permission, the wildcard, neither. */
  lemma PermissionExamples()
    ensures Permits(["read:docs"], "read:docs")
    ensures Permits(["read:docs", SuperAdmin], "read:admin")
    ensures !Permits(["read:docs"], "read:admin")
    ensures !Permits([], "read:docs")
  {
  }

  // ---------------------------------------------------------------------------------------
  // The usage recorder on an issued record.

  /** The usage updates applied to document `id` change its data and nothing else. */
  lemma UsageRecordedLookup(docs: seq<Document>, id: string, counter: FieldPath)
    requires UniqueIds(docs) && Lookup(docs, id, false).Success?
    ensures UniqueIds(UsageRecorded(docs, id, counter))
    ensures Lookup(UsageRecorded(docs, id, counter), id, false)
            == Success(Document(id, ApplyUpdates(Lookup(docs, id, false).value.data, UsageUpdates(counter))))
  {
    WithDataThenLookup(docs, id, ApplyUpdates(Lookup(docs, id, false).value.data, UsageUpdates(counter)));
  }

  /** The record's data after `n` usage recordings that increment `counter`. */
  function RecordedTimes(data: Fields, counter: FieldPath, n: nat): Fields
    decreases n
  {
    if n == 0 then data else RecordedTimes(ApplyUpdates(data, UsageUpdates(counter)), counter, n - 1)
  }

  /** The usage map stays a map. */
  predicate HasUsageMap(data: Fields) {
    "usage" in data && data["usage"].Object?
  }

  /** One recording adds 1 to `counter` and leaves every other usage count alone. */
  lemma RecordOnce(data: Fields, counter: FieldPath, p: FieldPath)
    requires HasUsageMap(data)
    requires counter.top == "usage" && counter.sub != "lastUsedAt"
    requires p.top == "usage" && p.sub != "lastUsedAt" && p != counter
    ensures HasUsageMap(ApplyUpdates(data, UsageUpdates(counter)))
    ensures NumberAt(ApplyUpdates(data, UsageUpdates(counter)), counter)
            == Some(NumberAt(data, counter).GetOr(0) + 1)
    ensures NumberAt(ApplyUpdates(data, UsageUpdates(counter)), p) == NumberAt(data, p)
  {
    var u := UsageUpdates(counter);
    var d1 := ApplyUpdate(data, u[0]);
    var d2 := ApplyUpdate(d1, u[1]);
    assert ApplyUpdates(data, u) == ApplyUpdates(d1, u[1..]);
    assert ApplyUpdates(d1, u[1..]) == ApplyUpdates(d2, u[1..][1..]);
    assert u[1..][1..] == [];
    ApplyUpdateElsewhere(data, u[0], p);
    ApplyUpdateElsewhere(d1, u[1], p);
    ApplyUpdateElsewhere(d1, u[1], counter);
  }

  /** `n` recordings add `n` to `counter` and leave every other usage count alone. */
  lemma {:induction false} RecordTimes(data: Fields, counter: FieldPath, p: FieldPath, n: nat)
    requires HasUsageMap(data)
    requires counter.top == "usage" && counter.sub != "lastUsedAt"
    requires p.top == "usage" && p.sub != "lastUsedAt" && p != counter
    ensures HasUsageMap(RecordedTimes(data, counter, n))
    ensures NumberAt(RecordedTimes(data, counter, n), counter)
            == if n == 0 then NumberAt(data, counter) else Some(NumberAt(data, counter).GetOr(0) + n)
    ensures NumberAt(RecordedTimes(data, counter, n), p) == NumberAt(data, p)
    decreases n
  {
    if n > 0 {
      var next := ApplyUpdates(data, UsageUpdates(counter));
      RecordOnce(data, counter, p);
      RecordTimes(next, counter, p, n - 1);
      assert RecordedTimes(data, counter, n) == RecordedTimes(next, counter, n - 1);
      assert NumberAt(next, counter).GetOr(0) == NumberAt(data, counter).GetOr(0) + 1;
    }
  }

  /** A stored record laid out as issuing lays it out: a usage map whose count sits under the
      JSON name `total_requests`, with nothing under `totalRequests`. */
  predicate IssuedLayout(data: Fields, total: int) {
    && HasUsageMap(data)
    && NumberAt(data, IssuedCounter) == Some(total)
    && NumberAt(data, UsageCounter) == None
  }

  /** Every issued record has that layout. */
  lemma IssuedRecordsHaveLayout(k: APIKeyData)
    ensures IssuedLayout(StoredFields(k), k.usage.totalRequests)
  {
  }

  /**
   * The code as written increments "usage.totalRequests", a field issued records do not have:
   * after `n` requests the record's own count still reads what it was issued with, and a second
   * count beside it, absent until the first request, reads `n`.
   */
  lemma AsWrittenCounterNeverMoves(data: Fields, total: int, n: nat)
    requires IssuedLayout(data, total)
    ensures NumberAt(RecordedTimes(data, UsageCounter, n), IssuedCounter) == Some(total)
    ensures NumberAt(RecordedTimes(data, UsageCounter, n), UsageCounter)
            == if n == 0 then None else Some(n)
  {
    RecordTimes(data, UsageCounter, IssuedCounter, n);
  }

  /** With the counter the issued records use, `n` requests add `n` to the record's own count. */
  lemma IssuedCounterCountsRequests(data: Fields, total: int, n: nat)
    requires IssuedLayout(data, total)
    ensures NumberAt(RecordedTimes(data, IssuedCounter, n), IssuedCounter) == Some(total + n)
    ensures NumberAt(RecordedTimes(data, IssuedCounter, n), UsageCounter) == None
  {
    RecordTimes(data, IssuedCounter, UsageCounter, n);
  }
}
