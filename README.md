# DID and context document loaders of vc-js's verification tests

vc-js issues and verifies Verifiable Credentials. Its verification tests
resolve every document through two small loaders defined in
`tests/10-verify.spec.js`, and this project models those loaders and proves
what they promise:

- **The test context loader** (`testContextLoader`). It copies each
  invalid-context fixture `{url, value}` into a shared `contexts` registry
  that starts as a copy of the real contexts. It then serves a URL when the
  registry holds a truthy value for it. Otherwise it throws `NotFoundError`,
  so a URL registered with a `null` document counts as unregistered.
- **The DID document loader** (`_createDidDocumentLoader`). It answers for one
  DID document `record`. A URL not starting with `did:` is rejected. So is a
  URL whose DID differs from `record.id`. The DID is the first piece of
  `url.split(/[;|\/|\?|#]/)`. A URL without `#` gets the whole document.
  A URL with `#` gets one node, plucked out by `_pluckDidNode`. That function
  flattens the document and takes the first node whose `@id` is the full URL.
  If no node has that `@id`, it fails with a 404 error. Otherwise it frames
  that node and puts the pair `[DID_CONTEXT_URL, VERES_ONE_CONTEXT_URL]`
  under `@context`.
- **Key ids** (`_generateKeyId`), which are `did + "#z" + fingerprint`.
  The test DIDs are `did:v1:test:nym:z<fingerprint>`.

Modules, one per concern:

- `Documents` (documents.dfy) holds JSON values, JavaScript truthiness, the
  `{contextUrl, document, documentUrl}` record and the two loader errors.
- `DidUrl` (did_url.dfy) holds the `did:` test, the split on the delimiter
  class, key ids and cryptonym DIDs.
- `ContextLoader` (context_loader.dfy) holds the shared registry. It is a
  class whose `contexts` map the fixture loop updates in place.
- `DidLoader` (did_loader.dfy) holds node plucking and DID URL resolution.
  Each is written twice: as a specification function and as a method that
  follows the source's loop and early returns. The method is proved equal to
  the function.

JSON values are Dafny datatype values. A `jsonld.clone` / `jsonld.util.clone`
is therefore a value copy. No loader can change the caller's `record` or the
registry entry it serves. While the registry and `record` are unchanged,
repeated resolutions of one URL give equal results.

The JSON-LD Flattening and Framing algorithms of the W3C JSON-LD 1.1 API and
JSON-LD 1.1 Framing recommendations are not reimplemented. They are the
fields `flatten` and `frame` of `DidLoader.Environment`, and every result is
proved for all such functions. The same datatype holds the two context URLs.
They are defined in `tests/constants.js`, which is not part of this model.

The delimiter class follows the code rather than the prose description of
the DID URL syntax. The written character class `[;|\/|\?|#]` contains `|` as
well as `;`, `/`, `?` and `#`. So a `|` also ends the DID here, although DID
URL syntax (section 3.2 of W3C DID Core) does not give `|` that role.

## Model

| member | source | states |
|---|---|---|
| DidUrl.Delimiters | tests/10-verify.spec.js:282 | the delimiters found in a URL are all drawn from `;`, vertical bar, `/`, `?`, `#` and are no more than the URL's length |
| DidUrl.Split | tests/10-verify.spec.js:282-291 | splitting yields exactly one piece more than there are delimiters, and no piece contains a delimiter |
| DidUrl.SplitRoundTrip | tests/10-verify.spec.js:282-291 | the pieces with the delimiters put back between them give back the original URL, so nothing is lost by the split |
| DidUrl.FirstDelimiterIndex | tests/10-verify.spec.js:282 | reference definition: the position before which no delimiter occurs and at which one does (or the end of the URL) |
| DidUrl.DidIsPrefixBeforeDelimiter | tests/10-verify.spec.js:291 | the DID compared with `record.id` is the URL's prefix up to the first `;`, vertical bar, `/`, `?` or `#`, or the whole URL when none occurs |
| DidUrl.DidOfSuffixed | tests/10-verify.spec.js:291 | a delimiter-free DID followed by nothing or by a suffix starting with a delimiter splits back to that DID |
| DidUrl.KeyId | tests/10-verify.spec.js:205-208 | a key id starts with its DID and always contains `#`, so the DID loader answers it by plucking |
| DidUrl.KeyIdRecoversDid | tests/10-verify.spec.js:205-208 | splitting a key id built from a delimiter-free DID recovers that DID |
| DidUrl.CryptonymDid | tests/10-verify.spec.js:250-252 | a test DID starts with `did:` and, for a base58 fingerprint, contains no delimiter |
| ContextLoader.LastFixtureValue | tests/10-verify.spec.js:22-25 | the value of the last fixture naming a URL, if any fixture names it, with no later fixture for that URL |
| ContextLoader.InstalledLookup | tests/10-verify.spec.js:22-25 | after the fixture loop a URL is registered if it was before or a fixture names it; the last fixture for a URL wins, and URLs no fixture names keep their earlier value |
| ContextLoader.ContextRegistry.constructor | tests/10-verify.spec.js:18 | the shared registry starts as a copy of the real contexts |
| ContextLoader.ContextRegistry.InstallFixtures | tests/10-verify.spec.js:22-25 | the loop writes each fixture's value under its URL, in fixture order, and changes nothing else |
| ContextLoader.ContextRegistry.Load | tests/10-verify.spec.js:26-35 | fails with `NotFoundError` exactly when the URL is absent or its value is falsy; otherwise returns the stored value with `documentUrl` the URL and no context URL |
| ContextLoader.FixtureDecidesLoad | tests/10-verify.spec.js:22-35 | after installation, a URL whose last fixture is falsy (the `null` document) is not found even if a real context existed, and a truthy fixture value is what is served |
| ContextLoader.RealContextSurvives | tests/10-verify.spec.js:18-35 | a URL that no fixture names is served exactly as the real contexts hold it, or not found when they hold nothing truthy |
| DidLoader.FirstMatch | tests/10-verify.spec.js:318-327 | finds the first node, in flattened order, whose `@id` equals the target; none is found exactly when no node has that `@id` |
| DidLoader.AssignContext | tests/10-verify.spec.js:344 | the result has the framed node's keys plus `@context`; `@context` is the fixed pair unless the node has its own, and every node key keeps the node's value |
| DidLoader.Pluck | tests/10-verify.spec.js:313-345 | plucking fails exactly when no flattened node has the target as `@id`, and then with `httpStatusCode` and `status` 404; a plucked node always has `@context` |
| DidLoader.PluckDidNode | tests/10-verify.spec.js:313-345 | the loop that stops at the first match, then the frame and the context merge, computes exactly `Pluck` |
| DidLoader.Resolve | tests/10-verify.spec.js:286-311 | non-`did:` URLs and URLs whose DID differs from `record.id` fail with `NotFoundError`; success means `contextUrl` null and `documentUrl` the URL; without `#` the whole record is served, with `#` the plucked node; the only other failure is the 404 of plucking |
| DidLoader.ResolveDidUrl | tests/10-verify.spec.js:286-311 | the loader's early-return code computes exactly `Resolve` |
| DidLoader.PluckFramesFirstMatch | tests/10-verify.spec.js:318-342 | the node framed is the first flattened node whose `@id` is the target, framed alone with the fixed context and `id` the target |
| DidLoader.PluckIgnoresLaterNodes | tests/10-verify.spec.js:320-327 | two documents whose flattenings agree up to and including the first match pluck to the same result, whatever follows |
| DidLoader.PluckedContext | tests/10-verify.spec.js:336-344 | a plucked node is served under the fixed context pair unless the framed node has its own `@context`, and with every framed key unchanged |
| DidLoader.SuffixedDidServesWholeDocument | tests/10-verify.spec.js:291-302 | the loader's DID followed by a `;`, `/`, `?` or vertical bar suffix without `#` is served the whole record |
| DidLoader.KeyIdIsPlucked | tests/10-verify.spec.js:291-304 | a key id under the loader's own delimiter-free DID passes the DID check and is answered exactly as plucking answers it |
| DidLoader.CryptonymKeyResolves | tests/10-verify.spec.js:250-256 | a key id under a test DID resolves exactly when the flattened document holds a node with that id |

## Left out

- `MultiLoader` (its `documentLoader` and `addLoader`) is not part of this model. Its source is not among the files modelled, and a model of it would be invented.
- The classification of context failures into `jsonld.InvalidUrl`, `jsonld.SyntaxError` and `jsonld.UnsupportedVersion` is left out. It happens inside jsonld and vc-js's `verify`, not in the loaders. The model only shows the loader half: a `null` fixture makes the context loader fail.
- Issuing, signing and verifying (`vc.issue`, `vc.verify`, `vc.verifyPresentation`, `jsigs.sign`) and Ed25519 key generation are left out. They are cryptography and library calls.
- `jsonld.flatten` and `jsonld.frame` are not reimplemented. They are arbitrary total functions, so their rejections are not modelled. The frame function yields the framed `@graph` array directly. A framed result without `@graph` would throw a `TypeError` in the source, and that case is not modelled.
- The `jsonld.documentLoader = documentLoader` assignment is left out. It changes a library singleton that only flatten and frame consult.
- The contents of `tests/constants.js`, `tests/contexts` and `lib/contexts` are not part of this model. The context URLs, the fixtures and the real contexts are parameters.
- Async/await and the mocha test bodies are left out.
- JSON numbers are integers. Floating point, `NaN` and `undefined` values are not modelled. An undefined entry is an absent key, which is falsy as in the source.
- `ContextLoader.ContextRegistry.Load` only sees the registry's own entries. In the source, `contexts` is a plain object, so a URL such as `constructor` would find an inherited prototype property.
- The registry holds object references, and the model stores values. In the source, an object registered and then changed through another reference is served changed. For example, `assertionController` is registered at tests/10-verify.spec.js:57 and its `assertionMethod` is extended in place at line 61. The loader clones at read time (line 32), so loads before line 57, between lines 57 and 61, and after line 61 give three different results. The model sees a change only when the registry's map is reassigned.
- JSON object key order is not modelled: `Node` is a map. `Object.assign({'@context': context}, …)` at tests/10-verify.spec.js:344 puts `@context` first, with the framed node's keys after it. No part of the loaders reads that order.
