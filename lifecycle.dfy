/**
 * The credential lifecycle across components: a key issued by the issuing endpoint passes the
 * request gate with the secret it was issued with, and a key bound to a user by the
 * assignment endpoint no longer validates with the key service.
 */
module Lifecycle {
  import opened Wrappers
  import opened Values
  import opened GoStrings
  import opened Firestore
  import opened FirebaseAuth
  import opened Gin
  import opened Common
  import opened Middleware
  import Handlers
  import Auth

  /**
   * Create-then-authenticate: the key and the secret returned by issuing, presented to the gate
   * once the record is stored, pass the credential stage and yield the stored document, provided
   * the hasher's check accepts a hashed plaintext and no earlier record has the same key.
   */
  lemma IssuedKeyAuthenticates(body: Option<Handlers.CreateKeyRequest>, users: Users, profiles: seq<Document>,
                               profileQueryFails: bool, keys: seq<Document>, docId: string,
                               keyRandom: Option<seq<bv8>>, secretRandom: Option<seq<bv8>>, h: Hasher)
    requires Sound(h)
    requires Handlers.CreateKey(body, users, profiles, profileQueryFails, keys, false, docId,
                                keyRandom, secretRandom, h).created.Some?
    requires h.hash(Handlers.GeneratedSecret(secretRandom)).Some?
    requires FirstMatch(keys, "api_key", Str(Handlers.KeyPrefix + Handlers.GeneratedKey(keyRandom))).None?
    ensures var o := Handlers.CreateKey(body, users, profiles, profileQueryFails, keys, false, docId,
                                        keyRandom, secretRandom, h);
            var view := o.response.body.data;
      && StringField(view, "api_key") == Handlers.KeyPrefix + Handlers.GeneratedKey(keyRandom)
      && Authenticate(StringField(view, "api_key"), o.response.body.apiSecret, keys + [o.created.value], false, h)
         == Success(o.created.value)
  {
    var o := Handlers.CreateKey(body, users, profiles, profileQueryFails, keys, false, docId,
                                keyRandom, secretRandom, h);
    var d := o.created.value;
    var apiKey := Handlers.KeyPrefix + Handlers.GeneratedKey(keyRandom);
    var secret := Handlers.GeneratedSecret(secretRandom);
    Handlers.CreatedKeyShape(body, users, profiles, profileQueryFails, keys, false, docId,
                             keyRandom, secretRandom, h);
    assert FieldIs(d.data, "api_key", Str(apiKey));
    FirstMatchAppend(keys, d, "api_key", Str(apiKey));
    assert QueryOne(keys + [d], "api_key", Str(apiKey)) == [d];
    TrimPrefixOfPrefixed(SecretPrefix, secret);
    assert o.response.body.apiSecret == SecretPrefix + secret;
  }

  /** Storing a new record does not change how the gate treats a key already in the collection:
      that key's first match stays where it was. */
  lemma IssuingLeavesExistingKeys(required: string, apiKey: string, apiSecret: string, sub: string, host: string,
                                  keys: seq<Document>, created: Document, queryFails: bool, users: Users, h: Hasher)
    requires FirstMatch(keys, "api_key", Str(apiKey)).Some?
    ensures Decide(required, apiKey, apiSecret, sub, host, keys + [created], queryFails, users, h)
            == Decide(required, apiKey, apiSecret, sub, host, keys, queryFails, users, h)
  {
    var i := FirstMatch(keys, "api_key", Str(apiKey)).value;
    FirstMatchExtend(keys, [created], "api_key", Str(apiKey));
    assert (keys + [created])[i] == keys[i];
    assert QueryOne(keys + [created], "api_key", Str(apiKey)) == QueryOne(keys, "api_key", Str(apiKey));
  }

  /**
   * End to end: a key issued with the single permission "read:docs", for a user whose claims list
   * the subdomain asked for, is allowed on a route that needs "read:docs" and refused with 403
   * on the admin route, which needs "read:admin".
   */
  lemma IssuedKeyOnTwoRoutes(req: Handlers.CreateKeyRequest, users: Users, profiles: seq<Document>,
                             keys: seq<Document>, docId: string, keyRandom: Option<seq<bv8>>,
                             secretRandom: Option<seq<bv8>>, h: Hasher, subdomain: string, host: string)
    requires Sound(h)
    requires req.permissions == Some(["read:docs"]) && subdomain != ""
    requires Handlers.CreateKey(Some(req), users, profiles, false, keys, false, docId,
                                keyRandom, secretRandom, h).created.Some?
    requires h.hash(Handlers.GeneratedSecret(secretRandom)).Some?
    requires FirstMatch(keys, "api_key", Str(Handlers.KeyPrefix + Handlers.GeneratedKey(keyRandom))).None?
    requires req.userId in users && users[req.userId].customClaims == Some(map["subdomain" := StrArray([subdomain])])
    ensures var o := Handlers.CreateKey(Some(req), users, profiles, false, keys, false, docId,
                                        keyRandom, secretRandom, h);
            var apiKey, apiSecret := StringField(o.response.body.data, "api_key"), o.response.body.apiSecret;
      && Decide("read:docs", apiKey, apiSecret, subdomain, host, keys + [o.created.value], false, users, h)
         == Allow(docId, subdomain, req.userId, ["read:docs"])
      && Decide("read:admin", apiKey, apiSecret, subdomain, host, keys + [o.created.value], false, users, h)
         == Denial(StatusForbidden, MsgInsufficientPermissions)
  {
    var o := Handlers.CreateKey(Some(req), users, profiles, false, keys, false, docId,
                                keyRandom, secretRandom, h);
    IssuedKeyAuthenticates(Some(req), users, profiles, false, keys, docId, keyRandom, secretRandom, h);
    Handlers.CreatedKeyShape(Some(req), users, profiles, false, keys, false, docId,
                             keyRandom, secretRandom, h);
    var d := o.created.value;
    assert ArrayField(d.data, "permissions") == ["read:docs"];
    ReadDocsKeyAuthorized(d, req.userId, users, subdomain, host);
  }

  /** The authorization stage on a document holding only "read:docs", bound to a user whose
      claims list the subdomain. */
  lemma ReadDocsKeyAuthorized(d: Document, userId: string, users: Users, subdomain: string, host: string)
    requires ArrayField(d.data, "permissions") == ["read:docs"] && StringField(d.data, "user_id") == userId
    requires subdomain != "" && userId != "" && userId in users
    requires users[userId].customClaims == Some(map["subdomain" := StrArray([subdomain])])
    ensures Authorize(d, "read:docs", subdomain, host, users) == Allow(d.id, subdomain, userId, ["read:docs"])
    ensures Authorize(d, "read:admin", subdomain, host, users) == Denial(StatusForbidden, MsgInsufficientPermissions)
  {
    EqualFoldIsLowerEquality(subdomain, subdomain);
    assert SubdomainClaims(users[userId].customClaims) == [subdomain];
    assert EqualFold(SubdomainClaims(users[userId].customClaims)[0], subdomain);
    assert ClaimsAllow(users[userId].customClaims, subdomain);
  }

  /**
   * A key the assignment endpoint has bound to a user carries status "assigned", so the key
   * service rejects it afterwards with "invalid credentials", whatever secret is presented.
   */
  lemma AssignedKeyFailsValidation(uid: string, apiKey: string, users: Users, profiles: seq<Document>,
                                   keys: seq<Document>, updateFails: bool, secret: string, h: Hasher)
    requires UniqueIds(keys)
    requires Handlers.AssignKey(uid, Some(apiKey), users, profiles, false, keys, false, updateFails).update.Some?
    ensures var o := Handlers.AssignKey(uid, Some(apiKey), users, profiles, false, keys, false, updateFails);
            var after := WithData(keys, apiKey, Lookup(keys, apiKey, false).value.data + o.update.value);
            Auth.Validation(after, apiKey, secret, false, h) == Failure(Auth.MsgInvalidCredentials)
  {
    Handlers.AssignChangesExactlyThree(uid, Some(apiKey), users, profiles, false, keys, false, updateFails);
  }
}
