# ZK-PRET core engine request handler, modelled in Dafny

`src/api/index.ts` is the serverless entry point of the ZK-PRET core engine.
One exported `handler(req, res)` does the following:
- sets three CORS headers;
- answers a CORS preflight;
- answers a health check;
- routes a POST under one of eight path prefixes to a proof handler (GLEIF, corporate registration, EXIM licence, risk, business process integrity, business data integrity, supply-chain finance, composed);
- answers any other GET with an endpoint catalog, and everything else with 404.

Every proof handler follows the same steps:
1. Destructure the request body. A missing body throws, and the throw is answered with 500.
2. Check one required field for truthiness. A falsy field is answered with 400.
3. Wait a random simulated proof-generation time.
4. Build the success envelope. Its `toolName` and `output` texts render some body fields with `${...}`. Rendering throws on an object whose own `toString` member holds data, and the throw is answered with 500.
5. Otherwise answer 200 with the success envelope. It carries:
   - constant verdicts;
   - per-type `||` fallbacks;
   - the echoed parameters;
   - a proof id built from the type, the clock and a random suffix;
   - proof metadata with a mock 64-digit hexadecimal Merkle root.

The modules follow that structure:

- `Wrappers`: `Option`.
- `Text`: decimal rendering and parsing of integers, and `startsWith`. Its round-trip and injectivity lemmas are what the proof-id facts rest on.
- `JsValues`: parsed JSON values, plus the three JavaScript operations the handlers apply to them:
  - property access;
  - truthiness, including `||`;
  - template rendering `${v}`, including the cases where it throws.
- `Identifiers`: `generateProofId` and `generateMockHash`, with their clock and random inputs as parameters, and the parsers that read them back.
- `ProofTypes`: the eight proof types and the per-type table, one function per column:
  - route prefix and proof-id prefix;
  - destructured fields;
  - required field and its 400 message;
  - 500 error text;
  - latency bounds.

  The module also models the simulated delay.
- `Http`: the request, the finished reply, and the `res` object as a class whose methods (`setHeader`, `status`, `json`, `end`) update its fields.
- `ProofHandler`: the eight handlers, modelled as one table-driven handler:
  - `ProofReply` is the pure description of the answer;
  - `HandleProof` is the method that writes that answer onto `res`;
  - lemmas cover each promised field of the three kinds of reply.
- `Dispatcher`:
  - `RouteOf`/`Dispatch` state the request-to-reply mapping;
  - `Handler` is the method that sets the headers and answers exactly `Dispatch`;
  - lemmas cover each branch and the route-prefix facts.

All clock reads, `Math.random()` draws, `new Date().toISOString()` and the messages of the two `TypeError`s (destructuring a nullish body, rendering an unrenderable field) are fields of one `Env` value passed to the handler.

## Model

| member | source | states |
|---|---|---|
| Text.NatText | src/api/index.ts:496 | the decimal text of a millisecond count has at least one character, is all digits, and has no leading zero unless it is "0" |
| Text.NatTextRoundTrip | src/api/index.ts:496 | parsing the decimal text of a clock reading gives the reading back |
| Text.NatTextInjective | src/api/index.ts:496 | different clock readings give different decimal texts |
| Text.IntTextRoundTrip | src/api/index.ts:114 | parsing the decimal text of an integer, sign included, gives the integer back |
| JsValues.Or | src/api/index.ts:117 | `a \|\| b` is `a` when `a` is truthy and `b` otherwise, and is truthy exactly when one of them is |
| JsValues.Truthy | src/api/index.ts:98 | JavaScript's ToBoolean on a parsed value: undefined, null, false, 0 and "" are falsy, everything else truthy (a definition; `Or` and the validation lemmas state its consequences) |
| JsValues.RenderThrows | src/api/index.ts:117 | when `${v}` throws: an object with an own `toString` member, or an array with a non-nullish element that throws (a definition, the reference for `ToText`) |
| JsValues.ToText | src/api/index.ts:117 | `${v}` fails exactly when `RenderThrows(v)`; of a string it is that string; of a number it is a numeral that parses back to it |
| JsValues.OrRenders | src/api/index.ts:117 | `${a \|\| 'default'}` throws exactly when `${a}` does |
| Identifiers.ProofId | src/api/index.ts:495-497 | the id text "<type>_proof_<ms>_<suffix>" (a definition; the round-trip and injectivity lemmas below state its properties) |
| Identifiers.ParseStampRoundTrip | src/api/index.ts:496 | the part after the type, "proof_<ms>_<suffix>", reads back to the clock reading and the suffix |
| Identifiers.ProofIdRoundTrip | src/api/index.ts:495-497 | for a type name without '_', the proof id parses back to the type name, the clock reading and the suffix |
| Identifiers.ProofIdInjective | src/api/index.ts:495-497 | two proof ids are equal exactly when type name, clock reading and suffix all are |
| Identifiers.ProofIdLeadsWithKind | src/api/index.ts:495-497 | a proof id starts with "<type>_proof_", and the text before its first '_' is the type name |
| Identifiers.HexDigit | src/api/index.ts:500 | `n.toString(16)` of a value below 16 is a lower-case hexadecimal digit |
| Identifiers.MockHash | src/api/index.ts:499-501 | the mock hash is exactly 64 characters, all from 0-9a-f |
| Identifiers.MockHashRoundTrip | src/api/index.ts:499-501 | the 64 random draws can be read back from the mock hash, so it loses nothing |
| ProofTypes.TableWellFormed | src/api/index.ts:94-487 | every type destructures `typeOfNet`; a required field, where the type has one, and every rendered field are destructured and are not `typeOfNet`; the latency window has 0 < min < max; the proof-id prefix is non-empty and has no '_' |
| ProofTypes.RoutePrefix | src/api/index.ts:36-64 | the path prefix each `url.startsWith(...)` test of the dispatcher names, one per type (a definition; `RoutePrefixesPrefixFree`, `MatchingPrefixesAgree` and `Dispatcher.RouteClassification` state its properties) |
| ProofTypes.IdPrefix | src/api/index.ts:109-451 | the argument of each handler's `generateProofId` call (lines 109, 159, 208, 253, 302, 352, 401, 451) (a definition; `TableWellFormed`, `IdPrefixesDistinct` and `ProofHandler.ProofIdNamesType` state its properties) |
| ProofTypes.Fields | src/api/index.ts:96-439 | the names each handler destructures from `req.body` (lines 96, 147, 196, 245, 290, 340, 389, 439) (a definition; `TableWellFormed`, `ProofHandler.DestructuredEcho` and `ProofHandler.ParametersEcho` state its properties) |
| ProofTypes.Required | src/api/index.ts:98-443 | the required field and its 400 message per type, none for risk (lines 98-100, 149-151, 198-200, 292-294, 342-344, 391-393, 441-443) (a definition; `TableWellFormed`, `ProofHandler.CompanyNameRequired`, `ProcessTypeRequired`, `FilePathRequired` and `RiskNeverRejects` state its properties) |
| ProofTypes.FailureText | src/api/index.ts:138-483 | the `error` text of each handler's catch block (lines 138, 187, 236, 281, 331, 380, 430, 483) (a definition; `ProofHandler.MissingBodyFails` and `UnrenderableFieldFails` state it of a reply) |
| ProofTypes.MinMs | src/api/index.ts:106-448 | the first argument of each handler's `simulateZKProofGeneration` call (lines 106, 156, 205, 250, 299, 349, 398, 448) (a definition; `TableWellFormed` and `SimulatedDelay` state its properties) |
| ProofTypes.MaxMs | src/api/index.ts:106-448 | the second argument of the same calls (a definition; `TableWellFormed` and `SimulatedDelay` state its properties) |
| ProofTypes.RoutePrefixesPrefixFree | src/api/index.ts:36-66 | no route prefix is a prefix of another one |
| ProofTypes.MatchingPrefixesAgree | src/api/index.ts:36-66 | a url that starts with the route prefixes of two types names the same type twice, so at most one route matches |
| ProofTypes.IdPrefixesDistinct | src/api/index.ts:109 | different types have different proof-id prefixes (gleif, corporate, exim, risk, process, data, scf, composed) |
| ProofTypes.RenderedFields | src/api/index.ts:113-459 | per type, the destructured fields that `toolName` and `output` render with `${...}` (a table column) |
| ProofTypes.SimulatedDelay | src/api/index.ts:490-492 | in exact arithmetic, `Math.random() * (maxMs - minMs) + minMs` lies in [minMs, maxMs) for every draw in [0, 1) |
| Http.Response.SetHeader | src/api/index.ts:4-6 | `res.setHeader` sets exactly that header and changes nothing else |
| Http.Response.Status | src/api/index.ts:9 | `res.status` sets the status code and changes nothing else |
| Http.Response.Json | src/api/index.ts:17 | `res.json` sends the body and finishes the response, keeping headers and status |
| Http.Response.End | src/api/index.ts:9 | `res.end` finishes the response with no body, keeping headers and status |
| ProofHandler.Binding | src/api/index.ts:96 | one destructured name: the body's member, and 'TESTNET' for `typeOfNet` only when it is undefined (a definition; `NetworkUsedDefault` states its effect) |
| ProofHandler.Destructure | src/api/index.ts:96 | destructuring fails (throws) exactly when the body is undefined or null |
| ProofHandler.DestructuredEcho | src/api/index.ts:96 | the destructured names are exactly the type's fields, and every field other than `typeOfNet` holds what the body holds |
| ProofHandler.ValidationBody | src/api/index.ts:99 | the 400 body `{ error: <message> }` (a definition; `FalsyRequiredFieldRejected` and `CompanyNameRequired` state it of a reply) |
| ProofHandler.FailureBody | src/api/index.ts:136-140 | the 500 body `{ success: false, error: <failure text>, message: error.message }` (a definition; `MissingBodyFails` and `UnrenderableFieldFails` state it of a reply) |
| ProofHandler.ToolName | src/api/index.ts:257 | the `toolName` text: a constant per type, and for risk `get-Risk-${riskType \|\| 'Basel3'}-verification-with-sign` (a definition; `RiskToolName` states it of a reply) |
| ProofHandler.OutputHead | src/api/index.ts:117-459 | the `output` text of each type before its proof-id line, decorative symbols dropped (a definition; `GleifJurisdiction` states the gleif one of a reply) |
| ProofHandler.Verdicts | src/api/index.ts:120-467 | the type-specific members of `result` (a definition; every one of them is stated of a reply by one of the per-type lemmas below, from `GleifEntityVerified` to `ComposedComponentFlags`) |
| ProofHandler.ExecutionTime | src/api/index.ts:114 | `${Date.now() - startTime}ms` (a definition; `ExecutionTimeText` states that it reads back) |
| ProofHandler.ProofReply | src/api/index.ts:94-487 | the reply of the handler of type t for a body (a definition; `ReplyPaths`, `Outcomes` and the lemmas below state its properties) |
| ProofHandler.HandleProof | src/api/index.ts:94-142 | the handler writes onto `res` exactly the reply `ProofReply` describes, a rendering failure's 500 included, finishes it, and leaves the headers alone |
| ProofHandler.ReplyPaths | src/api/index.ts:94-142 | `ProofReply` unfolded by case, the step `HandleProof` and `Outcomes` use (`Outcomes` states the outcomes over the raw body): a nullish body gives 500 with the destructuring message; a rejected required field gives 400 with its message; an unrenderable field past the validation gives 500 with the rendering message; anything else gives 200 with the success envelope |
| ProofHandler.RejectsFromBody | src/api/index.ts:96-100 | the validation of the destructured fields rejects exactly when the body's required field is falsy |
| ProofHandler.RendersFromBody | src/api/index.ts:96-117 | the destructured fields render exactly when none of the body's rendered fields throws |
| ProofHandler.Outcomes | src/api/index.ts:94-142 | the status is 200, 400 or 500; 500 exactly when the body is nullish or, with the required field truthy, a rendered field throws; 400 exactly when the required field is falsy; 200 exactly in the remaining case; there is always a body |
| ProofHandler.UnrenderableFieldFails | src/api/index.ts:111-141 | a body that passes the validation but has a rendered field that throws is answered 500 with the type's failure text and the rendering message |
| ProofHandler.GleifToStringMemberFails | src/api/index.ts:117 | gleif with body `{"companyName": {"toString": 1}}` is answered 500 |
| ProofHandler.MissingBodyFails | src/api/index.ts:134-141 | a nullish body is answered 500 with `success: false`, the type's failure text and the thrown message |
| ProofHandler.FalsyRequiredFieldRejected | src/api/index.ts:98-100 | a falsy required field is answered 400 with `{error: <message>}` and nothing else |
| ProofHandler.CompanyNameRequired | src/api/index.ts:98-100 | for gleif, corporate, exim, scf and composed: 400 exactly when `companyName` is falsy, with 'Company name is required' |
| ProofHandler.ProcessTypeRequired | src/api/index.ts:292-294 | for process integrity: 400 exactly when `processType` is falsy, with 'Process type is required' |
| ProofHandler.FilePathRequired | src/api/index.ts:342-344 | for data integrity: 400 exactly when `filePath` is falsy, with 'File path is required' |
| ProofHandler.RiskNeverRejects | src/api/index.ts:243-261 | risk never answers 400; a non-nullish body succeeds exactly when its `riskType` renders |
| ProofHandler.SuccessEnvelope | src/api/index.ts:111-124 | a 200 reply has a non-nullish body as input, `success: true`, the request's timestamp and the type's proof id |
| ProofHandler.SuccessVerdict | src/api/index.ts:118-123 | every successful result is VERIFIED and VALID, with `zkProofGenerated: true` |
| ProofHandler.ParametersEcho | src/api/index.ts:125 | `parameters` is exactly the destructured fields of the type, and every non-network field echoes the body |
| ProofHandler.MetadataShape | src/api/index.ts:126-131 | `signatureVerified` and `blockchainSubmitted` are true, and `merkleRoot` is the mock hash of the request's draws |
| ProofHandler.NetworkUsedDefault | src/api/index.ts:96-130 | `networkUsed` is the supplied `typeOfNet`, null included, and 'TESTNET' only when it is absent; it equals `parameters.typeOfNet` |
| ProofHandler.GleifEntityVerified | src/api/index.ts:120-122 | gleif: a success reports `entityVerified: true`, `leiStatus: 'ACTIVE'` and `jurisdictionMatch: true` |
| ProofHandler.EximLicenseValid | src/api/index.ts:219 | exim: a success reports `licenseValid: true` |
| ProofHandler.RiskCompliance | src/api/index.ts:264-265 | risk: a success reports `riskScore: 'ACCEPTABLE'` and `complianceStatus: 'VERIFIED'` |
| ProofHandler.ProcessMatched | src/api/index.ts:313-315 | process integrity: a success reports `processMatch: true` and `expectedVsActual: 'MATCHED'` |
| ProofHandler.DataMerkleRootVerified | src/api/index.ts:364 | data integrity: a success reports `merkleRootVerified: true` |
| ProofHandler.ScfFinancingApproved | src/api/index.ts:412-413 | scf: a success reports `financingApproved: true` and `riskScore: 'LOW'` |
| ProofHandler.CorporateCinVerified | src/api/index.ts:170-171 | corporate: `cinVerified` is the truthiness of `cin`, and `registrationValid` is true |
| ProofHandler.EximTradeAuthority | src/api/index.ts:220 | exim: `tradeAuthority` is `tradeType` when truthy, else 'EXPORT' |
| ProofHandler.ScfInvoiceAmount | src/api/index.ts:414 | scf: `invoiceAmount` is the supplied amount when truthy, else 'N/A' |
| ProofHandler.RiskToolName | src/api/index.ts:257 | risk: the tool name of a success embeds the rendered `riskType` when truthy, else 'Basel3' |
| ProofHandler.GleifJurisdiction | src/api/index.ts:117 | gleif: the `output` of a reply names the company, the jurisdiction when truthy (else 'Global'), and ends with the proof id |
| ProofHandler.ComposedComponents | src/api/index.ts:463-464 | composed: `componentsVerified` is 3 and equals `totalComponents` |
| ProofHandler.ComposedComponentFlags | src/api/index.ts:465-467 | composed: the gleif, corporate and exim components are reported verified |
| ProofHandler.ProofIdNamesType | src/api/index.ts:109 | a handler's proof id starts with its prefix and "_proof_", and parses back to the prefix, the clock reading and the suffix |
| ProofHandler.ProofIdsOfTypesDiffer | src/api/index.ts:495-497 | handlers of different types never produce the same proof id, whatever the clock and random inputs |
| ProofHandler.ExecutionTimeReported | src/api/index.ts:114 | `executionTime` of a 200 reply is the formatted clock difference |
| ProofHandler.ExecutionTimeText | src/api/index.ts:114 | the `executionTime` text ends in "ms", and what precedes reads back as exactly the clock difference |
| ProofHandler.WaitCoversMinimum | src/api/index.ts:490-492 | a clock that saw the (truncated) simulated delay measured at least the type's minimum latency |
| ProofHandler.ExecutionTimeCoversDelay | src/api/index.ts:105-107 | a 200 reply reports the clock difference as `executionTime`, and when the clock saw the wait that difference is at least the type's minimum latency |
| Dispatcher.HealthBody | src/api/index.ts:16-31 | the health body (a definition; `HealthReply` states its members) |
| Dispatcher.CatalogBody | src/api/index.ts:70-87 | the catalog body (a definition; `CatalogShape` and `CatalogListsRoutes` state its members) |
| Dispatcher.RouteOf | src/api/index.ts:8-90 | which branch of the handler a request takes (a definition; `RouteClassification` and `NotFoundExactly` characterise it) |
| Dispatcher.Dispatch | src/api/index.ts:8-90 | the reply of each branch (a definition; `Handler` is proved to send it, and the lemmas below state its properties) |
| Dispatcher.SetCorsHeaders | src/api/index.ts:4-6 | the three CORS headers are added to the response, and nothing else changes |
| Dispatcher.Handler | src/api/index.ts:2-91 | every response carries the three CORS headers on top of the previous ones, is finished, and sends exactly what `Dispatch` says |
| Dispatcher.Answer | src/api/index.ts:8-90 | the branches after the headers send exactly what `Dispatch` says, keeping the headers |
| Dispatcher.MatchProofRoute | src/api/index.ts:36-66 | the chain of prefix tests returns a type only when the url starts with that type's prefix, and returns none exactly when no prefix matches |
| Dispatcher.MatchExact | src/api/index.ts:36-66 | the chain picks type t exactly when the url starts with t's prefix, so the order of the tests does not matter |
| Dispatcher.PreflightReply | src/api/index.ts:8-10 | OPTIONS is answered 200 with an empty body, whatever the url |
| Dispatcher.BodyUnlessPreflight | src/api/index.ts:8-90 | a reply has no body exactly when the method is OPTIONS |
| Dispatcher.StatusCodes | src/api/index.ts:2-91 | the handler only answers 200, 400, 404 or 500 |
| Dispatcher.HealthReply | src/api/index.ts:16-32 | for any method but OPTIONS, '/api/health' and '/health' give 200 'healthy', version 3.6.0, the request's timestamp and the eight features |
| Dispatcher.ProofDelegation | src/api/index.ts:36-66 | a POST under a route prefix gets exactly the reply of that type's handler |
| Dispatcher.RouteClassification | src/api/index.ts:36-66 | a request reaches type t's handler exactly when it is a POST whose url starts with t's prefix |
| Dispatcher.CatalogReply | src/api/index.ts:69-88 | every GET that is not the health check gets the 200 catalog, a GET under a proof prefix included |
| Dispatcher.CatalogShape | src/api/index.ts:70-87 | the catalog has version 3.6.0, the request's timestamp and nine endpoint lines |
| Dispatcher.CatalogListsRoutes | src/api/index.ts:76-83 | the catalog lists a line for every proof route |
| Dispatcher.EndpointAdvertisesRoute | src/api/index.ts:76-83 | each proof route's catalog line starts with "POST <its prefix> " |
| Dispatcher.NotFoundExactly | src/api/index.ts:69-90 | 404 is answered exactly when the method is neither OPTIONS nor GET, the url is not the health check, and the request is not a POST under a route prefix |
| Dispatcher.OtherMethodsNotFound | src/api/index.ts:90 | a method other than OPTIONS, GET and POST gets 404 `{error: 'Endpoint not found'}` on every url except the health check |
| Dispatcher.UnknownPostNotFound | src/api/index.ts:90 | a POST under none of the prefixes, other than to the health check, gets 404 |

## Where the code and its description differ

The model follows the code in each of these cases:

- A GET on a proof route (for example `GET /api/gleif`) is answered with the 200 catalog, not 404, because the final `method === 'GET'` branch catches it (src/api/index.ts:69). `Dispatcher.CatalogReply` states this.
- The 500 error text is not uniformly "<Type> verification failed". For example, risk answers 'Risk assessment failed' and composed answers 'Composed proof verification failed'. `ProofTypes.FailureText` holds the texts as written.
- The random part of a proof id is `substr(2, 9)` of a base-36 rendering, so it has at most nine characters (it can be shorter).
- A proof id is unique only as far as its clock reading and random suffix are. `Identifiers.ProofIdInjective` and `ProofHandler.ProofIdsOfTypesDiffer` state what the format does guarantee: equal ids mean equal type, clock reading and suffix, and ids of different types never coincide. Nothing prevents two requests in the same millisecond from drawing the same suffix.
- Validation tests truthiness (`!companyName`). An empty string, 0, false or null is rejected as well as an absent field.
- A body that passes the validation can still be answered 500: a field rendered into `toolName` or `output` that is an object with its own `toString` member (or an array holding one) makes the template throw, and the catch block answers. `ProofHandler.Outcomes` states all three outcomes with this case.
- `typeOfNet` falls back to 'TESTNET' only when it is `undefined`. An explicit `null` (or any other value) is echoed, in `parameters` and in `networkUsed`.
- The health check matches the whole url, so `/api/health?x=1` is not the health check.

## Left out

- Logging (`console.log`, `console.error`): no observable effect on the reply.
- The wait itself (`setTimeout`, src/api/index.ts:490-493). The delay is computed (`ProofTypes.SimulatedDelay`), and the passing of time is represented by the two clock readings in `Env`.
- `ProofHandler.ClockSawDelay` is an assumption, not something the source guarantees: Node schedules the timer from its event loop's cached time, not from the `Date.now()` read before the wait. `WaitCoversMinimum` and `ExecutionTimeCoversDelay` hold only under it.
- `ProofTypes.SimulatedDelay`: computed in exact real arithmetic, where it lies in [min, max). In double precision the largest draw can round up to max (for risk, (1 − 2^-52) · 3000 + 3000 rounds to 6000), which the model does not capture.
- Clock reads, `Math.random()` and `new Date().toISOString()`: passed in as fields of `Env` rather than read.
- The order in which the clock and the random source are read: each reading is a separate `Env` field, so the model does not relate them beyond `ClockSawDelay`.
- The messages of the errors thrown when destructuring a nullish body and when rendering an unrenderable field: they are engine-specific, so they are the `thrownMessage` and `renderMessage` parameters.
- The floating-point score members (`integrityScore: 96.8` of process integrity, `dataIntegrityScore: 98.5` of data integrity, `overallScore: 94.2` of composed) and the decorative symbols in the `output` texts are not modelled. The symbols are mis-encoded in the source file.
- `JsValues.ToText`: numbers are the safe integers (`SafeInt`, magnitude at most 2^53 − 1), which JavaScript renders in plain decimal like the model. Fractions, larger integers and their exponent form (`${1e21}` is "1e+21") are not modelled.
- `ProofHandler.OutputHead`: the eight output texts are modelled, without their symbols; only the gleif text is stated of a reply by a lemma (`ProofHandler.GleifJurisdiction`).
- The `\\n` in the output templates is kept as written: the two characters backslash and `n`, not a newline.
- The order of members in JSON objects: objects are maps.
- The `Content-Type` header that `res.json` sets, and the serialisation of the body: both belong to the hosting platform.
- Parsing of the request body: `req.body` arrives already parsed.
- A `req.url` that is not a string. In the source, `url.startsWith` would then throw outside any `try`. The model's url is always a string.
- `Dispatcher.Answer` is a separate method only for the proof's sake. In the source the branches follow the three `setHeader` calls inside `handler`.
- `Dispatcher.MatchProofRoute` tests the method once. The source repeats `method === 'POST'` in each of the eight tests, which selects the same route.
- `test-infrastructure.mjs` and `copy-wasm.js` are not part of this model: they are file-system checks and copies.
