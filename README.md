# Registry client model

A Dafny model of the registry client service `Registry(server)` of the Cesium
wallet (`www/js/services/registry-services.js`). The client talks to a record
registry server. The model covers its five pieces of logic:

- the URI templater `prepare`: it substitutes request parameters into an
  endpoint template and sends whatever did not substitute as query parameters;
- the error normaliser `processError`;
- the category cache behind `getCategories`;
- the challenge-response login `getToken`;
- the signed record writer `addRecord`, with the empty search hit `emptyHit`.

The HTTP transport and the crypto primitives are parameters of the model:
`Http` maps a request to the parsed body of a success or of a failure, and
`CryptoUtils` holds `sign`, `hash_sha256` and `encode_base58` as uninterpreted
functions. Each operation returns its result together with the trace of
external calls it made, in order. So "sign never runs" is a statement about
that trace.

Modules:

- `Values` (values.dfy): JavaScript values; truthiness; `String(v)`.
- `Text` (text.dfy): `String.replace` with a literal pattern, which replaces the first occurrence only.
- `Templater` (templater.dfy): `prepare`, as a specification fold and as the imperative loop.
- `Resources` (resources.dfy): `processError`; `getResource` and `postResource`; the endpoint templates.
- `PrepareExamples` (examples_prepare.dfy): `prepare` on the client's own endpoint templates, for any configured server.
- `Crypto` (crypto.dfy): key pairs and the crypto collaborators.
- `Auth` (auth.dfy): `getToken`.
- `Records` (records.dfy): `addRecord`.
- `Categories` (categories.dfy): `emptyHit`, and the `categories` cache as a class.

Placeholders are matched by substring. The value for key `k` replaces the
first occurrence of the text `":" + k`, so key `i` matches inside `:id`. A
description of the service as matching whole placeholder names would disagree
with the code here; the model follows the code (`Templater.Step`,
`PrepareExamples.PrefixKeyMatches`). Likewise `addRecord` hashes the
serialised record and only then signs it, so a failed hash means no signature
is ever requested. The model keeps that order.

## Model

| member | source | states |
|---|---|---|
| Text.IndexOfFirst | www/js/services/registry-services.js:26 | the position the pattern is looked up at is its first occurrence; no position at all means the text does not occur |
| Text.ReplaceFirstUnchanged | www/js/services/registry-services.js:26-27 | the replacement leaves the URI equal to what it was exactly when the placeholder does not occur or the substituted text is the placeholder itself |
| Text.ReplaceFirstAt | www/js/services/registry-services.js:26 | when the placeholder occurs, the URI keeps its text before the first occurrence, holds the value there, and keeps the text after it |
| Templater.StepQuery | www/js/services/registry-services.js:25-29 | one key adds at most its own entry to the query map |
| Templater.StepSubstitutes | www/js/services/registry-services.js:25-29 | a key whose placeholder first occurs at i, with a value whose text differs from the placeholder, splices the value in at i and leaves the query map alone |
| Templater.StepMisses | www/js/services/registry-services.js:25-29 | a key whose placeholder does not occur leaves the URI and adds `key: params[key]` to the query map |
| Templater.Prepare | www/js/services/registry-services.js:18-33 | the loop over the keys computes exactly the specification fold `PrepareSpec` |
| Templater.QueryHoldsParams | www/js/services/registry-services.js:24-30 | every query parameter is one of the parameter keys, with that parameter's value |
| Templater.PrepareWithoutKeys | www/js/services/registry-services.js:19-23 | without keys (params not an object, null, or an empty object) the URI is unchanged and no query parameter is sent |
| Templater.NoMatchAllQuery | www/js/services/registry-services.js:24-31 | when no placeholder occurs, the URI is unchanged and the query keys are exactly the parameter keys, each with its value |
| Templater.NoMatchQueryIsParams | www/js/services/registry-services.js:19-31 | when no placeholder occurs, the query map is the params object itself |
| Templater.QueryEntrySettled | www/js/services/registry-services.js:24-30 | once a key has been visited, later different keys do not change whether it is in the query map |
| Templater.KeyRouting | www/js/services/registry-services.js:24-31 | with distinct keys, a key is in the query map iff, at its turn, its placeholder did not occur or its value's text is the placeholder; then the URI is untouched, otherwise its first occurrence was replaced and the URI changed; no parameter is dropped |
| Resources.ProcessError | www/js/services/registry-services.js:9-16 | a body with a truthy `message` is the rejection itself; anything else rejects with exactly "Unknown error from ucoin node"; so a rejection is either that string or an object with a message |
| Resources.Settle | www/js/services/registry-services.js:44-49 | a success resolves with the body; a failure rejects with `processError` of the failure body |
| Resources.GetResource | www/js/services/registry-services.js:35-53 | exactly one GET, to the prepared URI with the prepared query parameters, and its answer settles the result |
| Resources.PostResource | www/js/services/registry-services.js:55-74 | exactly one POST of the data, to the prepared URI with the prepared query parameters, and its answer settles the result |
| PrepareExamples.RecordById | www/js/services/registry-services.js:200 | `record.get({id: v})` requests `.../registry/record/` followed by v with no query parameter, except for v = ":id", which stays in the URI and is sent as a query parameter |
| PrepareExamples.PrefixKeyMatches | www/js/services/registry-services.js:26 | key `i` matches the `:id` placeholder: `{i: v}` yields `.../registry/record/` + v + "d" and no query parameter |
| PrepareExamples.PrepareSnoc | www/js/services/registry-services.js:24-30 | the keys are visited in order, the last one after all the others |
| PrepareExamples.AvatarIssuer | www/js/services/registry-services.js:205 | the issuer value replaces the `:issuer` slot of the avatar template, whatever its text |
| PrepareExamples.AvatarCategory | www/js/services/registry-services.js:205 | when the text up to the category slot cannot start `:category`, the category value fills that slot |
| PrepareExamples.AvatarAfterIssuer | www/js/services/registry-services.js:205 | after the first key of `{issuer: "pk1", category: "avatar", size: 5}` the issuer is substituted and the query map is empty |
| PrepareExamples.AvatarAfterCategory | www/js/services/registry-services.js:205 | after the second key both placeholders are substituted and the query map is still empty |
| PrepareExamples.AvatarLookup | www/js/services/registry-services.js:205 | `record.avatar({issuer: "pk1", category: "avatar", size: 5})` fills both slots and sends only `size` as a query parameter, although the template already holds "size=1" |
| PrepareExamples.IssuerTakesCategorySlot | www/js/services/registry-services.js:205 | substitutions interfere: an issuer whose text is ":category" is matched by the next key, so the category lands in the issuer slot and the real placeholder stays |
| Auth.GetToken | www/js/services/registry-services.js:118-144 | the challenge is fetched first; a failed fetch stops everything with its rejection; the fetched challenge is what is signed; a failed signature stops before the post with its error; otherwise `{pubkey: base58(signPk), challenge, signature}` is posted to `/auth` and the answer is the result |
| Auth.TokenOnlyAfterSigning | www/js/services/registry-services.js:126-137 | a token is obtained only after the challenge fetch and its signature succeeded and the signed challenge was posted |
| Auth.TokenPostIsLast | www/js/services/registry-services.js:126-142 | the post to `/auth` happens at most once and only as the third call |
| Records.Canonical | www/js/services/registry-services.js:153-157 | the serialised object has `issuer` set to the public key, no `signature` and no `hash`, and every other field of the record unchanged and nothing else |
| Records.AddRecord | www/js/services/registry-services.js:148-175 | the serialisation of the canonical object is hashed first; a failed hash stops before signing; the same text is then signed; a failed signature stops before posting; otherwise the canonical object with `hash = base58(sha256(text))` and `signature = sign(text)` is posted to `/registry/record` and the answer is the result |
| Records.StaleProofIgnored | www/js/services/registry-services.js:155-156 | the `hash` and `signature` the caller's record already holds never influence the signed text |
| Records.PayloadStripsToCanonical | www/js/services/registry-services.js:158-166 | the posted object without `hash` and `signature` is exactly the object that was serialised |
| Records.ResignStable | www/js/services/registry-services.js:153-166 | adding an already posted record again, by the same issuer, signs the same text |
| Records.PayloadKeepsFields | www/js/services/registry-services.js:153-166 | the posted object has exactly the record's keys plus `issuer`, `hash` and `signature`; the three carry the public key, the hash and the signature, and every other field is the record's own |
| Categories.EmptyHit | www/js/services/registry-services.js:177-185 | the empty hit has null `_id`, `_index`, `_type` and `_version` and an empty `_source` |
| Categories.EmptyHitCategory | www/js/services/registry-services.js:177-185 | an empty hit would become the category `{id: null}`, filed under "null" |
| Categories.AnnotateAt | www/js/services/registry-services.js:100-104 | one category per hit, in hit order; category i is hit i's `_source` with `id` set to hit i's `_id` |
| Categories.IndexByIdKeys | www/js/services/registry-services.js:106-108 | the lookup has a key exactly for each category's id |
| Categories.IndexByIdLastWins | www/js/services/registry-services.js:106-108 | under each id the lookup holds one of the categories, the last one carrying that id |
| Categories.LookupCarriesId | www/js/services/registry-services.js:106-108 | looking up an id gives a category with that id |
| Categories.DuplicateIdLaterWins | www/js/services/registry-services.js:100-108 | two hits with the same id both stay in the list and the lookup keeps the later one |
| Categories.CacheFilledIff | www/js/services/registry-services.js:89-104 | after a successful fetch the cache is non-empty, so later calls are served from it, exactly when the total is non-zero and there are hits |
| Categories.CategoryCache.constructor | www/js/services/registry-services.js:7 | a new client starts with an empty cache |
| Categories.CategoryCache.GetCategories | www/js/services/registry-services.js:87-116 | a non-empty cache is returned at once with no request; otherwise one search request is made; a failure rejects with its error and leaves the cache as it was; a zero total empties the cache; otherwise the list is the annotated hits; the lookup is always the index of the list |

## Left out

- The transport: the 4000 ms timeout, the Content-Type header and `$q`
  promise scheduling. A timeout or network failure is a failure whose body is
  Undefined, which `processError` turns into the generic error.
- The `ws` WebSocket helper: raw I/O with a callback.
- The crypto algorithms: `sign`, `hash_sha256` and `encode_base58` are
  uninterpreted functions.
- `JSON.stringify`: an uninterpreted function of the object (`stringify`), so
  key order and escaping are not modelled.
- Deep copy by `angular.copy`: records are immutable values, so the caller's
  record is never changed by construction.
- `RegExp` metacharacters in keys and `$` patterns in replacement values: keys
  are taken as literal text and values are inserted verbatim.
- `String(v)` of floating-point numbers: numbers are integers.
- Categories.CategoryCache.GetCategories: the decoding of the search answer
  (`res.hits.total`, `res.hits.hits[i]._id` and `._source`) is the parameter
  `decode`. A body it cannot read rejects, as the thrown TypeError does.
- Categories.CategoryCache.GetCategories: the list and the lookup are two
  structures. In the code both live in one array, so an id that is an array
  index ("0", "1", ...) would overwrite a list element or change its length.
- Categories.CategoryCache.GetCategories: `_source` is an object; a `_source`
  that is an array would be flattened by `concat` and is not modelled. The
  code also writes `id` into the answer's own `_source` objects; that aliasing
  is not modelled.
- Concurrency: two overlapping `getCategories` calls that both fetch, or
  overlapping `addRecord` calls. The model is sequential.
- The service wiring: the `APP_CONFIG.UCOIN_NODE_ES` gating and the binding
  table. Its templates appear in `Resources` and are used by
  `PrepareExamples`.
