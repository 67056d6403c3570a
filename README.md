# apiKeyService credential core, in Dafny

This project models the credential core of apiKeyService, a small Go web service. The service
issues API keys and secrets to users of a multi-tenant platform and guards its protected routes
with them. The model has three parts:

- **The request gate** (`AuthMiddleware`) is modelled in `middleware.dfy`, with its properties
  in `gate_properties.dfy`. The gate checks, in a fixed order:
  - both credential headers are present;
  - the key exists, found by its `api_key` field (first match only);
  - the secret, with one leading `as_` removed, matches the stored hash, and the key is
    `active`;
  - the key holds the route's permission or the wildcard `super:admin`;
  - a subdomain comes from the `X-Client-Subdomain` header or from the first label of the host;
  - the key belongs to a user, and that user can be fetched;
  - one of the user's `subdomain` claims equals the subdomain, ignoring case.

  An allowed request stores the subdomain, the user id and the permissions in the request
  context, increments `usage.totalRequests` on the key's document, and continues the chain.
  Issued records keep their count under `usage.total_requests`, so that count does not move
  (see "## Findings").
- **The endpoints** are modelled in `handlers.dfy`:
  - issuing (`POST /keys`) builds an `ak_` key and an `as_` secret for a user who has a
    profile, and stores the record with its bcrypt hash;
  - the protected dashboard;
  - assignment (`POST /users/:uid/assign-key`) binds an unassigned key of the legacy
    collection to a user once.
- **The older key service** (`pkg/auth/service.go`) is modelled in `service.dfy`. It issues a
  key with `CreateNewKey` and checks it with `ValidateCredentials`.

Each endpoint and the gate is a method over two mutable objects, proved against a pure function
that gives the outcome of a request. The first object is a request context (`Gin.Context`): its
headers, its context values, the response written, and whether the chain was aborted or
continued. The second is a document store (`Firestore.Store`). It holds named collections, kept
as sequences of documents. It also has a schedule of the store calls at which the backend is
unreachable. Each store call takes the next call number, so every `err != nil` branch can be
reached, and "no store call was made" can be stated as `calls == old(calls)`.

`lifecycle.dfy` connects the parts. A key issued by the endpoint passes the gate with the secret
it was issued with. A key that assignment has bound to a user no longer validates with the key
service.

The identity provider is a map from uid to user record. The random reader is an input: the
bytes it produced, or none when it failed. The uuid document id is also an input. bcrypt is an
abstract `Hasher` with two functions, `hash` and `check`. Lemmas that need a property of the
hasher require it: `Sound` (a plaintext matches its own hash) or `Exact` (it matches no other).

## Model

| member | source | states |
|---|---|---|
| Middleware.ResolveSubdomain | pkg/middleware/auth_middleware.go:77-97 | a non-empty `X-Client-Subdomain` header wins; otherwise the host's text before its first dot when it has a dot; otherwise none ("") |
| Middleware.HasPermission | pkg/middleware/auth_middleware.go:44-75 | the three permission loops end with `true` exactly when the key holds the required permission or `super:admin` |
| Middleware.SubdomainInClaims | pkg/middleware/auth_middleware.go:112-124 | the claim loop answers `true` exactly when some entry of the user's `subdomain` claim list equals the subdomain, ignoring case; missing claims, a missing entry or a non-list entry allow nothing |
| Middleware.CheckCredentials | pkg/middleware/auth_middleware.go:19-42 | each credential failure writes its 401 (or 500 for a hash that is not a string) and aborts; success returns the first matching document of `api_keys_v2`; the store is queried once, and only when both headers are present |
| Middleware.CheckAccess | pkg/middleware/auth_middleware.go:44-128 | the permission, subdomain, user and claim checks give the authorization decision; a denial writes its response and aborts; an allowed request leaves the response alone |
| Middleware.Authenticate | pkg/middleware/auth_middleware.go:19-42 | a missing header or a failed query is a 401; every failure is a 401 or a 500; a passing document is in the collection, carries the presented key and status `active`, and its string hash matches the secret with `as_` stripped |
| Middleware.Authorize | pkg/middleware/auth_middleware.go:44-128 | permissions that grant neither the route nor the wildcard give 403 "Insufficient permissions"; every denial is a 400 or a 403; an allowed request carries the document's id, its permissions (which permit the route), the resolved non-empty subdomain and the document's `user_id`, a known user whose claims list that subdomain |
| Middleware.Decide | pkg/middleware/auth_middleware.go:17-146 | a denial answers 400, 401, 403 or 500; an allowed request had both headers and a working store, names a document of the collection that carries the presented key, and holds permissions that permit the route and a non-empty subdomain |
| Middleware.RecordUsage | pkg/middleware/auth_middleware.go:135-142 | one store call that adds 1 to `usage.totalRequests` of the key document (the path as written) and sets its last-used time; a failed write changes nothing |
| Middleware.Admit | pkg/middleware/auth_middleware.go:44-144 | after the credential stage: a denial leaves the context values, the chain and the store alone; an allowed request sets exactly `subdomain`, `userId` and `permissions`, increments `usage.totalRequests` on the key's own document and continues the chain |
| Middleware.AuthMiddleware | pkg/middleware/auth_middleware.go:17-146 | the response, context values, chain flag, store calls and documents after one request are those given by the gate's decision `Decide`; an allowed request increments `usage.totalRequests` on the key's document |
| GateProperties.MissingHeadersDenied | pkg/middleware/auth_middleware.go:19-25 | a missing key or secret header gets 401 "X-API-Key and X-API-Secret headers are required", whatever the store and the users hold |
| GateProperties.UnknownKeyDenied | pkg/middleware/auth_middleware.go:27-35 | an unknown key, or a failed lookup, gets 401 "Invalid API Key" whatever secret is presented |
| GateProperties.OnlyFirstMatchCounts | pkg/middleware/auth_middleware.go:27-36 | the decision depends only on the first document whose `api_key` matches; later duplicates are never consulted |
| GateProperties.SecretPrefixOptional | pkg/middleware/auth_middleware.go:37-39 | a secret presented with or without its `as_` prefix gets the same decision |
| GateProperties.OnePrefixStripped | pkg/middleware/auth_middleware.go:37-39 | `as_` + s passes the credential stage exactly when s matches the stored hash, even when s itself starts with `as_` |
| GateProperties.CredentialFailuresLookAlike | pkg/middleware/auth_middleware.go:37-42 | 401 "Invalid credentials or inactive key" is given exactly when the secret does not match or the key is not active; a wrong secret and an inactive key are indistinguishable |
| GateProperties.PermissionGate | pkg/middleware/auth_middleware.go:44-75 | once the credentials pass, 403 "Insufficient permissions" is given exactly when the key holds neither the required permission nor `super:admin` |
| GateProperties.DenialsInOrder | pkg/middleware/auth_middleware.go:77-128 | each later denial (400 no subdomain, 403 no user, 403 user lookup failed, 403 subdomain not allowed) is given exactly when its check is the first to fail |
| GateProperties.AllowedIff | pkg/middleware/auth_middleware.go:17-146 | a request is allowed exactly when both headers are present, the lookup works, and the first matching key has a matching secret, is active, permits the route, resolves a subdomain and names a fetchable user whose claims list the subdomain; an allowed request carries the resolved subdomain and that first matching key's own id, `user_id` and `permissions` |
| GateProperties.ClaimsAllowIffLower | pkg/middleware/auth_middleware.go:112-124 | a claim allows a subdomain exactly when the two are equal after ASCII lower-casing |
| GateProperties.ClaimsIgnoreCase | pkg/middleware/auth_middleware.go:117 | two subdomains that differ only in letter case are allowed alike |
| GateProperties.SubdomainFromHeader | pkg/middleware/auth_middleware.go:80-81 | header "acme" with host "foo.example.com" resolves to "acme" |
| GateProperties.SubdomainFromHost | pkg/middleware/auth_middleware.go:84-91 | no header and host "acme.example.com" resolve to "acme" |
| GateProperties.NoSubdomainForSingleLabel | pkg/middleware/auth_middleware.go:84-97 | no header and host "localhost" resolve to no subdomain, which the gate refuses with 400 |
| GateProperties.PermissionExamples | pkg/middleware/auth_middleware.go:44-75 | the specific permission and the wildcard grant a route; neither an unrelated permission nor the empty set does |
| GateProperties.UsageRecordedLookup | pkg/middleware/auth_middleware.go:136-142 | after usage recording, reading the key's document gives its data with the usage updates applied, and document ids stay distinct |
| GateProperties.RecordOnce | pkg/middleware/auth_middleware.go:137-141 | one recording adds 1 to the chosen counter and leaves every other usage count unchanged |
| GateProperties.RecordTimes | pkg/middleware/auth_middleware.go:136-142 | n recordings add n to the chosen counter (a missing counter counts from 0) and leave every other usage count unchanged |
| GateProperties.IssuedRecordsHaveLayout | pkg/common/types.go:30-34 | an issued record stores its count under `usage.total_requests` (its JSON tag) and has nothing under `usage.totalRequests` |
| GateProperties.AsWrittenCounterNeverMoves | pkg/middleware/auth_middleware.go:138 | with the path as written, n requests leave the issued record's own count where it started and grow a separate `totalRequests` entry to n |
| GateProperties.IssuedCounterCountsRequests | pkg/middleware/auth_middleware.go:138 | with the record's own counter path, n requests add n to the issued count, and no second counter appears |
| Handlers.NewKeyRecord | pkg/handlers/apikey_handlers.go:62-79 | the new record has the fresh document id, an `ak_` key, status `active`, the hash of the secret, 0 requests, 60 requests per minute, and the requested user, project and permissions |
| Handlers.CreateKey | pkg/handlers/apikey_handlers.go:20-108 | an issuing request creates a document exactly when it answers 201; it makes at most two store calls, and exactly two when it creates one |
| Handlers.IssueForOwner | pkg/handlers/apikey_handlers.go:43-107 | once the owner is known, a document is created exactly on 201; the profile query is always made |
| Handlers.SaveKey | pkg/handlers/apikey_handlers.go:81-107 | the store step creates a document exactly on 201, under the record's id, which no earlier document used |
| Handlers.CreateAPIKeyHandler | pkg/handlers/apikey_handlers.go:20-108 | the response, the store calls and the key collection after a request are those of `CreateKey`; a created document is appended to `api_keys_v2` and nothing else changes |
| Handlers.IssueKey | pkg/handlers/apikey_handlers.go:43-107 | profile lookup, record and store step as `IssueForOwner` gives them |
| Handlers.StoreKey | pkg/handlers/apikey_handlers.go:81-107 | the stored map, the write and the 201 or 500 answer as `SaveKey` gives them |
| Handlers.AdminDashboardHandler | pkg/handlers/apikey_handlers.go:110-117 | answers 200 with the `userId` the gate put in the context, or none |
| Handlers.AssignKey | pkg/handlers/apikey_handlers.go:119-192 | an assignment merges fields exactly when it answers 200, with at most three store calls |
| Handlers.AssignToKey | pkg/handlers/apikey_handlers.go:162-191 | the key stage merges fields exactly on 200, with one or two store calls |
| Handlers.AssignAPIKeyToUserHandler | pkg/handlers/apikey_handlers.go:119-192 | the response, the store calls and the documents after a request are those of `AssignKey`; a merge touches only the key's document in `api_keys` |
| Handlers.BindKey | pkg/handlers/apikey_handlers.go:162-191 | key read, conflict check, merge and answer as `AssignToKey` gives them |
| Handlers.StoredIsViewPlusHash | pkg/handlers/apikey_handlers.go:81-91 | the stored map is the response view plus `hashedSecret` and nothing else; the view has no hash |
| Handlers.CreatedKeyShape | pkg/handlers/apikey_handlers.go:56-107 | a created document has the document id as `id`, status `active`, an `ak_` key, the requested user, 0 requests and 60 per minute; the returned secret starts with `as_`, the stored hash is that of the secret without it, and the response view is the stored map without the hash |
| Handlers.NoOwnerNoKey | pkg/handlers/apikey_handlers.go:36-53 | without the owner in the identity provider, or without its profile, issuing answers 404, creates nothing and makes at most one store call |
| Handlers.AssignWriteOnce | pkg/handlers/apikey_handlers.go:162-178 | assignment writes only to a key document that exists and does not yet name a user |
| Handlers.AssignConflict | pkg/handlers/apikey_handlers.go:167-170 | a key document that already has `userId` gets 409 "API Key is already assigned to a user" and no write is attempted |
| Handlers.AssignChangesExactlyThree | pkg/handlers/apikey_handlers.go:172-191 | a successful assignment adds or replaces exactly `userId` (the uid), `clientId` (the non-empty project) and `status` = `assigned`; `clientId` is the profile's `project_id`; every other field and every other document stays as it was |
| Handlers.ProjectCheckedBeforeKey | pkg/handlers/apikey_handlers.go:155-162 | a profile without a string `project_id` gets 400 before the key is read: one store call, whatever the key collection holds |
| Handlers.MissingKeyNotFound | pkg/handlers/apikey_handlers.go:162-166 | a key document that cannot be read gets 404 naming the key, after two store calls and with no write |
| Auth.ToFields | pkg/auth/service.go:15-22 | the stored document holds each field of the record under its storage tag |
| Auth.FromFields | pkg/auth/service.go:89-90 | each field that holds a string in the document is copied into the record; a non-empty record field comes from a string field of that name |
| Auth.FieldsRoundTrip | pkg/auth/service.go:89-90 | decoding a stored record gives back the record |
| Auth.PrepareKey | pkg/auth/service.go:45-69 | a failed random read (of the key, then of the secret) or a failed hash is reported as that error, in that order; success exactly when both reads and the hash succeed, and then the key is 32 hex digits, the secret is 64, and the record is active and holds the secret's hash |
| Auth.Validation | pkg/auth/service.go:83-95 | "invalid API Key" exactly when the document cannot be read; success exactly when the document is read, its decoded status is `active` and the secret matches its hash, and then the result is the decoded record; every other failure is "invalid credentials" |
| Auth.AuthService.constructor | pkg/auth/service.go:30-42 | the service works on the "api_keys" collection |
| Auth.AuthService.CreateNewKey | pkg/auth/service.go:45-79 | a generation or hash failure returns empty strings and its error without touching the store; a failed write returns empty strings and the store error; otherwise the record is written under the key, and the key and secret are returned in plain text |
| Auth.AuthService.ValidateCredentials | pkg/auth/service.go:83-95 | one read, and the answer `Validation` gives for the collection as it was |
| Auth.IssuedKeyValidates | pkg/auth/service.go:45-95 | with a sound hasher, a key just issued validates with its secret and gives back the stored record |
| Auth.OnlyIssuedSecretValidates | pkg/auth/service.go:83-95 | with an exact hasher, every other secret gets "invalid credentials" |
| Auth.InactiveRecordRejected | pkg/auth/service.go:91-93 | a record whose status is not `active` is rejected whatever the secret |
| Common.JsonView | pkg/common/types.go:6-22 | the JSON view has exactly one entry per JSON tag (its key set is the fourteen tags) and no `hashedSecret`; id, key, user, status and permissions are the record's |
| Common.StoredFields | pkg/handlers/apikey_handlers.go:87-91 | the stored map is the JSON view with one key added, `hashedSecret`, which holds the record's hash; every JSON-view entry is kept unchanged |
| Common.HexEncode | pkg/common/crypto.go:10-16 | two lower-case hex digits per byte |
| Common.HexEncodeInjective | pkg/common/crypto.go:15 | different random bytes give different keys |
| Common.GenerateSecureKey | pkg/common/crypto.go:10-16 | a key exactly when the random read filled the buffer, and then the hex of those bytes, twice as long as the byte count |
| Lifecycle.IssuedKeyAuthenticates | pkg/middleware/auth_middleware.go:27-42 | with a sound hasher and an issued key not already present, the key and secret returned by issuing pass the credential stage and find the created document |
| Lifecycle.IssuingLeavesExistingKeys | pkg/middleware/auth_middleware.go:27-36 | appending a newly created record leaves the gate's decision for a key already in the collection unchanged |
| Lifecycle.IssuedKeyOnTwoRoutes | main.go:53-58 | a key issued with only `read:docs`, for a user whose claims list the subdomain, is allowed on a `read:docs` route and refused with 403 on the admin route, which needs `read:admin` |
| Lifecycle.ReadDocsKeyAuthorized | pkg/middleware/auth_middleware.go:44-128 | the authorization stage on such a document: allowed for `read:docs`, 403 "Insufficient permissions" for `read:admin` |
| Lifecycle.AssignedKeyFailsValidation | pkg/auth/service.go:91-93 | a key bound by assignment carries status `assigned`, so the key service rejects it with "invalid credentials" whatever the secret |
| Firestore.QueryOne | pkg/middleware/auth_middleware.go:27-32 | a one-filter query limited to 1 returns at most one document; it returns one exactly when some document matches, and then a matching member of the collection |
| Firestore.FirstMatch | pkg/middleware/auth_middleware.go:27-36 | the position of the first matching document: it matches, and no earlier one does |
| Firestore.Lookup | pkg/handlers/apikey_handlers.go:162-166 | a read succeeds exactly when the backend is reachable, the id is non-empty and a document has that id; it returns that document |
| Firestore.PutThenLookup | pkg/auth/service.go:72 | reading back what `Set` wrote under a non-empty id gives exactly that document |
| Firestore.WithDataThenLookup | pkg/handlers/apikey_handlers.go:178 | reading back a merged document gives the merged data, and ids stay distinct |
| Firestore.ApplyUpdate | pkg/middleware/auth_middleware.go:137-141 | an increment adds to the numeric field at its path (a missing one counts as 0); a set puts its value at the path; other top-level fields are untouched |
| Firestore.Store.QueryDocuments | pkg/middleware/auth_middleware.go:31 | one call; fails when the backend is unreachable, otherwise returns the query's result |
| Firestore.Store.GetDocument | pkg/handlers/apikey_handlers.go:162 | one call; the read's result |
| Firestore.Store.CreateDocumentWithID | pkg/handlers/apikey_handlers.go:94 | one call; appends the document unless the backend is unreachable, the id is empty or already taken |
| Firestore.Store.SetDocument | pkg/auth/service.go:72 | one call; replaces or adds the document unless the backend is unreachable or the id is empty |
| Firestore.Store.UpdateDocument | pkg/handlers/apikey_handlers.go:178 | one call; merges the fields into the existing document, and fails on a missing one |
| Firestore.Store.UpdateDocumentFields | pkg/middleware/auth_middleware.go:141 | one call; applies the field-path updates to the existing document, and fails on a missing one |
| FirebaseAuth.GetUser | pkg/middleware/auth_middleware.go:106-110 | a user is found exactly when the uid is non-empty and known |
| GoStrings.TrimPrefix | pkg/middleware/auth_middleware.go:37 | removes the prefix once when present, and otherwise leaves the string unchanged |
| GoStrings.TrimPrefixOfPrefixed | pkg/middleware/auth_middleware.go:37 | trimming a prefix from prefix + x gives x |
| GoStrings.SplitHead | pkg/middleware/auth_middleware.go:86-90 | splitting on '.' gives at least two parts exactly when the host has a dot, and the first part is the text before the first dot |
| GoStrings.SplitJoin | pkg/middleware/auth_middleware.go:86 | joining the parts of a split with its separator gives back the string |
| GoStrings.Split | pkg/middleware/auth_middleware.go:86 | there is at least one part, and a string without the separator is its own single part |
| GoStrings.SplitPartsLackSeparator | pkg/middleware/auth_middleware.go:86 | no part of a split contains the separator |
| GoStrings.EqualFold | pkg/middleware/auth_middleware.go:117 | strings equal ignoring case have the same length, and every string equals itself ignoring case |
| GoStrings.EqualFoldIsLowerEquality | pkg/middleware/auth_middleware.go:117 | case-insensitive comparison is equality after lower-casing |
| Values.StringField | pkg/middleware/auth_middleware.go:100-101 | the comma-ok string read: exactly the field's value when it is a string, and "" otherwise (a non-empty result is a string field holding it) |
| Values.ArrayField | pkg/middleware/auth_middleware.go:45 | the comma-ok list read: exactly the field's elements when it is a list of strings, and [] otherwise (a non-empty result is a list field holding them) |

## Left out

- Concurrency: the usage recorder runs in a goroutine in the source. The model runs it before
  the chain continues, so other requests cannot interleave with it.
- Timestamps (`createdAt`, `updatedAt`, `lastUsedAt`) are an abstract value. No time is modelled.
- Letter case: `strings.EqualFold` is modelled with ASCII case folding only. Unicode folding is
  left out.
- bcrypt is abstract (`Common.Hasher`). Its salt and cost are not modelled, and neither is the
  72-byte input limit.
- Result order: collections keep creation order, and a query returns the first match in that
  order. Firestore returns query results in document-id order. The difference only matters when
  several documents carry the same `api_key` or `user_id`.
- JSON numbers are integers (`Values.Num`). int64 and float64 encodings are not told apart.
- `main.go` route wiring, the health check and `utility_handlers.go` are not part of this model.
  Routes appear only in doc comments and in `Lifecycle.IssuedKeyOnTwoRoutes`.
- Handlers.CreateKey: the `json.Marshal` error branch (500 "Failed to process key data") is left
  out. The record holds only strings, integers, string lists and times, so encoding it cannot
  fail.
- Handlers.CreateKey: the 400 response's `details` text is not modelled. Neither are the 201
  response's constant `success`, `message` and `warning` fields.
- Handlers.CreateKey: a failed random read or hash leaves an empty key part, secret or hash, as
  the handler discards those errors. The model follows that behaviour and does not flag it.
- Handlers.BindsCreateRequest: gin's `binding:"required"` is modelled as a non-empty string.
  Malformed JSON is the `None` body.
- Middleware.HasPermission: permission elements that are not strings (the source's `p.(string)`
  assertions panic on them) are not modelled. Permission lists hold strings only.
- Middleware.SubdomainInClaims: claim elements that are not strings (the source's `s.(string)`
  assertion panics on them) are not modelled. Claim lists hold strings only.
- Middleware.Authenticate: a `hashedSecret` that is not a string makes the source panic. It is
  modelled as the framework's recovery answer, 500 with no body.
- FirebaseAuth.GetUser: identity-provider outages are not modelled. A lookup fails only for an
  empty or unknown uid.
- Firestore.Lookup: document-id path syntax is not validated beyond the empty id.
- Auth.FromFields: `DataTo` of a document with fields of the wrong type is not modelled. Such a
  field decodes to the empty string, and the decode error the source ignores is not modelled.
- Auth.AuthService.constructor: opening the store client (`NewService`) and its fatal exit are
  left out. The service is given an open store.
- The uuid document id and the random bytes are inputs to the handlers and the service.

## Findings

| source | as written | input that shows it | evidently intended | confidence | as-written member | corrected member |
|---|---|---|---|---|---|---|
| pkg/middleware/auth_middleware.go:138 | the gate increments `usage.totalRequests`, the storage tag of `Usage.TotalRequests`; but issued records are stored through their JSON view (pkg/handlers/apikey_handlers.go:82-91), whose counter is `usage.total_requests` (pkg/common/types.go:32) | any issued key after n ≥ 1 allowed requests: its `usage.total_requests` still reads 0, and a separate `usage.totalRequests` reads n | the issued record's own usage counter counts the allowed requests | not executed | GateProperties.AsWrittenCounterNeverMoves | GateProperties.IssuedCounterCountsRequests (recording on `Middleware.IssuedCounter`, the record's own path) |
