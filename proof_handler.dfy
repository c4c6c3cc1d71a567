/**
 * The eight proof handlers (`handleGLEIF` ... `handleComposedProof`) as one
 * handler driven by the per-type table: destructure the body (a nullish
 * body throws and is answered 500), check the required field for
 * truthiness (400), wait the simulated proof-generation time, and answer
 * 200 with the success envelope, unless rendering a field into its text
 * throws, which the catch block answers 500 as well.
 */
module ProofHandler {
  import opened Wrappers
  import opened Text
  import opened JsValues
  import opened Identifiers
  import opened ProofTypes
  import opened Http

  /**
   * Everything a request reads from the clock, from `Math.random()` and from
   * the runtime, in the order the success path reads it.
   */
  datatype Env = Env(
    startMs: nat,               // Date.now() before the wait
    latencyDraw: Fraction,      // Math.random() of simulateZKProofGeneration
    endMs: nat,                 // Date.now() after the wait
    idMs: nat,                  // Date.now() in generateProofId
    suffix: RandomSuffix,       // Math.random().toString(36).substr(2, 9)
    isoNow: string,             // new Date().toISOString()
    hashDraw: HashDraw,         // the 64 draws of generateMockHash
    thrownMessage: string,      // error.message of the TypeError a nullish body raises
    renderMessage: string)      // error.message of the TypeError a template raises on an unrenderable field

  const DEFAULT_NETWORK := "TESTNET"

  /** One destructured field: `typeOfNet` falls back to 'TESTNET' only when it is undefined. */
  function Binding(body: Value, field: string): Value {
    var v := Get(body, field);
    if field == NETWORK_FIELD && v == Undefined then Str(DEFAULT_NETWORK) else v
  }

  /** `const { f1, ..., typeOfNet = 'TESTNET' } = req.body`; None when it throws. */
  function Destructure(t: ProofType, body: Value): (r: Option<map<string, Value>>)
    ensures r.None? <==> Nullish(body)
  {
    if Nullish(body) then None else Some(map f | f in Fields(t) :: Binding(body, f))
  }

  /** The value a destructured name holds (`undefined` for a name the type does not destructure). */
  function Field(bindings: map<string, Value>, name: string): Value {
    Get(Obj(bindings), name)
  }

  /** The validation check `if (!field) return 400`: true when it rejects. */
  predicate Rejects(t: ProofType, bindings: map<string, Value>) {
    Required(t).Some? && !Truthy(Field(bindings, Required(t).value.field))
  }

  /** No field the envelope renders throws on `${...}`. */
  predicate Renders(t: ProofType, bindings: map<string, Value>) {
    forall f :: f in RenderedFields(t) ==> !RenderThrows(Field(bindings, f))
  }

  /** `${field}` of a rendered field. */
  function FieldText(t: ProofType, bindings: map<string, Value>, f: string): string
    requires Renders(t, bindings) && f in RenderedFields(t)
  {
    ToText(Field(bindings, f)).value
  }

  /** `${field || 'default'}` of a rendered field. */
  function FieldTextOr(t: ProofType, bindings: map<string, Value>, f: string, fallback: string): string
    requires Renders(t, bindings) && f in RenderedFields(t)
  {
    OrRenders(Field(bindings, f), Str(fallback));
    ToText(Or(Field(bindings, f), Str(fallback))).value
  }

  /** The `toolName` member. */
  function ToolName(t: ProofType, bindings: map<string, Value>): string
    requires Renders(t, bindings)
  {
    match t
    case Gleif => "get-GLEIF-verification-with-sign"
    case Corporate => "get-Corporate-Registration-verification-with-sign"
    case Exim => "get-EXIM-verification-with-sign"
    case Risk => "get-Risk-" + FieldTextOr(t, bindings, "riskType", "Basel3") + "-verification-with-sign"
    case ProcessIntegrity => "get-BPI-compliance-verification"
    case DataIntegrity => "get-BSDI-compliance-verification"
    case Scf => "get-SCF-verification-with-sign"
    case Composed => "get-Composed-Compliance-verification-with-sign"
  }

  /** The human-readable `output` text (decorative symbols dropped; "\\n" is the two characters the source writes). */
  function OutputHead(t: ProofType, bindings: map<string, Value>): string
    requires Renders(t, bindings)
  {
    match t
      case Gleif =>
        "GLEIF verification completed successfully for " + FieldText(t, bindings, "companyName")
        + "\\nEntity Status: ACTIVE\\nJurisdiction: " + FieldTextOr(t, bindings, "jurisdiction", "Global")
      case Corporate =>
        "Corporate registration verified successfully for " + FieldText(t, bindings, "companyName")
        + "\\nCIN Status: " + (if Truthy(Field(bindings, "cin")) then "VERIFIED" else "N/A")
        + "\\nRegistration: VALID"
      case Exim =>
        "EXIM license verified successfully for " + FieldText(t, bindings, "companyName")
        + "\\nTrade Type: " + FieldTextOr(t, bindings, "tradeType", "EXPORT")
        + "\\nCountry: " + FieldTextOr(t, bindings, "country", "Global")
      case Risk =>
        "Risk assessment completed for " + FieldTextOr(t, bindings, "riskType", "Basel3")
        + "\\nRisk Score: ACCEPTABLE\\nCompliance: VERIFIED"
      case ProcessIntegrity =>
        "Business Process Integrity verified\\nProcess Type: " + FieldText(t, bindings, "processType")
        + "\\nMatch Score: 96.8%"
      case DataIntegrity =>
        "Business Data Integrity verification completed\\nFile: " + FieldText(t, bindings, "filePath")
        + "\\nIntegrity Score: 98.5%"
      case Scf =>
        "SCF verification completed for " + FieldText(t, bindings, "companyName")
        + "\\nInvoice Amount: $" + FieldTextOr(t, bindings, "invoiceAmount", "N/A")
        + "\\nRisk Score: LOW"
      case Composed =>
        "Composed compliance verification completed\\nCompany: " + FieldText(t, bindings, "companyName")
        + "\\nOverall Score: 94.2%"
  }

  const PROOF_LINE := "\\nZK Proof Generated: "

  function Output(t: ProofType, bindings: map<string, Value>, proofId: string): string
    requires Renders(t, bindings)
  {
    OutputHead(t, bindings) + PROOF_LINE + proofId
  }

  /** The type-specific verdict members of `result` (the floating-point scores are not modelled). */
  function Verdicts(t: ProofType, bindings: map<string, Value>): map<string, Value> {
    match t
    case Gleif =>
      map["entityVerified" := Bool(true), "leiStatus" := Str("ACTIVE"), "jurisdictionMatch" := Bool(true)]
    case Corporate =>
      map["registrationValid" := Bool(true), "cinVerified" := Bool(Truthy(Field(bindings, "cin")))]
    case Exim =>
      map["licenseValid" := Bool(true), "tradeAuthority" := Or(Field(bindings, "tradeType"), Str("EXPORT"))]
    case Risk =>
      map["riskScore" := Str("ACCEPTABLE"), "complianceStatus" := Str("VERIFIED")]
    case ProcessIntegrity =>
      map["processMatch" := Bool(true), "expectedVsActual" := Str("MATCHED")]
    case DataIntegrity =>
      map["merkleRootVerified" := Bool(true)]
    case Scf =>
      map["financingApproved" := Bool(true), "riskScore" := Str("LOW"),
          "invoiceAmount" := Or(Field(bindings, "invoiceAmount"), Str("N/A"))]
    case Composed =>
      map["componentsVerified" := Num(3), "totalComponents" := Num(3),
          "gleifVerified" := Bool(true), "corporateVerified" := Bool(true), "eximVerified" := Bool(true)]
  }

  function ProofIdFor(t: ProofType, env: Env): string {
    ProofId(IdPrefix(t), env.idMs, env.suffix)
  }

  /** The `proofMetadata` object. */
  function Metadata(merkleRoot: string, networkUsed: Value): map<string, Value> {
    map[
      "merkleRoot" := Str(merkleRoot),
      "signatureVerified" := Bool(true),
      "blockchainSubmitted" := Bool(true),
      "networkUsed" := networkUsed]
  }

  function MetadataOf(bindings: map<string, Value>, env: Env): map<string, Value> {
    Metadata(MockHash(env.hashDraw), Field(bindings, NETWORK_FIELD))
  }

  /** The members of `result` every type shares, in the order the source writes them after the verdicts. */
  function SharedMembers(output: string, proofId: string, parameters: map<string, Value>, metadata: map<string, Value>)
    : map<string, Value>
  {
    map[
      "output" := Str(output),
      "status" := Str("VERIFIED"),
      "verdict" := Str("VALID"),
      "zkProofGenerated" := Bool(true),
      "proofId" := Str(proofId),
      "parameters" := Obj(parameters),
      "proofMetadata" := Obj(metadata)]
  }

  const SHARED_KEYS := {"output", "status", "verdict", "zkProofGenerated", "proofId", "parameters", "proofMetadata"}

  function Shared(t: ProofType, bindings: map<string, Value>, env: Env): map<string, Value>
    requires Renders(t, bindings)
  {
    var proofId := ProofIdFor(t, env);
    SharedMembers(Output(t, bindings, proofId), proofId, bindings, MetadataOf(bindings, env))
  }

  /** The `result` object: the type's verdict members, then the shared ones. */
  function Result(t: ProofType, bindings: map<string, Value>, env: Env): map<string, Value>
    requires Renders(t, bindings)
  {
    Verdicts(t, bindings) + Shared(t, bindings, env)
  }

  /** The success envelope `{ success, toolName, executionTime, timestamp, result }`. */
  function Envelope(toolName: string, executionTime: string, timestamp: string, result: map<string, Value>)
    : map<string, Value>
  {
    map[
      "success" := Bool(true),
      "toolName" := Str(toolName),
      "executionTime" := Str(executionTime),
      "timestamp" := Str(timestamp),
      "result" := Obj(result)]
  }

  /** `${Date.now() - startTime}ms` */
  function ExecutionTime(env: Env): string {
    IntText(env.endMs - env.startMs) + "ms"
  }

  function SuccessFields(t: ProofType, bindings: map<string, Value>, env: Env): map<string, Value>
    requires Renders(t, bindings)
  {
    Envelope(ToolName(t, bindings), ExecutionTime(env), env.isoNow, Result(t, bindings, env))
  }

  function ValidationBody(message: string): Value {
    Obj(map["error" := Str(message)])
  }

  function FailureBody(t: ProofType, message: string): Value {
    Obj(map["success" := Bool(false), "error" := Str(FailureText(t)), "message" := Str(message)])
  }

  /** What the handler of type t answers for a body. */
  function ProofReply(t: ProofType, body: Value, env: Env): Reply {
    match Destructure(t, body)
    case None => Reply(500, Some(FailureBody(t, env.thrownMessage)))
    case Some(bindings) =>
      if Rejects(t, bindings) then Reply(400, Some(ValidationBody(Required(t).value.message)))
      else if !Renders(t, bindings) then Reply(500, Some(FailureBody(t, env.renderMessage)))
      else Reply(200, Some(Obj(SuccessFields(t, bindings, env))))
  }

  /** The handler itself: answers on res exactly what ProofReply describes, and sets no header. */
  method HandleProof(t: ProofType, body: Value, res: Response, env: Env)
    modifies res
    ensures res.Sent() == ProofReply(t, body, env) && res.finished
    ensures res.headers == old(res.headers)
  {
    ReplyPaths(t, body, env);
    var destructured := Destructure(t, body);
    if destructured.None? {
      // destructuring throws; the catch block answers
      res.Status(500);
      res.Json(FailureBody(t, env.thrownMessage));
      return;
    }
    var bindings := destructured.value;
    if Rejects(t, bindings) {
      res.Status(400);
      res.Json(ValidationBody(Required(t).value.message));
      return;
    }
    // await simulateZKProofGeneration(minMs, maxMs): the wait changes nothing the response shows
    if !Renders(t, bindings) {
      // a template throws while the envelope is built; the catch block answers
      res.Status(500);
      res.Json(FailureBody(t, env.renderMessage));
      return;
    }
    res.Status(200);
    res.Json(Obj(SuccessFields(t, bindings, env)));
  }

  /** The body of a reply, `undefined` when it has none. */
  function BodyOf(r: Reply): Value {
    if r.body.Some? then r.body.value else Undefined
  }

  /** A member of the `result` object of a reply. */
  function ResultMember(r: Reply, key: string): Value {
    Get(Get(BodyOf(r), "result"), key)
  }

  /** A member of `result.proofMetadata`. */
  function MetadataMember(r: Reply, key: string): Value {
    Get(ResultMember(r, "proofMetadata"), key)
  }

  // ----- steps the property proofs share -----
  // A reply unfolds into many nested objects, and a proof that searches all of
  // them at once is slow. So each object's members are read off in a lemma
  // that sees only that object, and the property lemmas chain those facts.

  /** Object m holds key with value v. */
  predicate Holds(m: map<string, Value>, key: string, v: Value) {
    key in m && m[key] == v
  }

  /** A member of a reply whose body is the object m. */
  lemma BodyMember(r: Reply, m: map<string, Value>, key: string, v: Value)
    requires r.body == Some(Obj(m)) && Holds(m, key, v)
    ensures Get(BodyOf(r), key) == v
  {
  }

  /** A member of the `result` object of a reply. */
  lemma MemberOfResult(r: Reply, m: map<string, Value>, key: string, v: Value)
    requires Get(BodyOf(r), "result") == Obj(m) && Holds(m, key, v)
    ensures ResultMember(r, key) == v
  {
  }

  /** A member of the `result.proofMetadata` object of a reply. */
  lemma MemberOfMetadata(r: Reply, m: map<string, Value>, key: string, v: Value)
    requires ResultMember(r, "proofMetadata") == Obj(m) && Holds(m, key, v)
    ensures MetadataMember(r, key) == v
  {
  }

  /** In `{...verdicts, ...shared}` a shared member wins. */
  lemma SharedWins(verdicts: map<string, Value>, shared: map<string, Value>, key: string, v: Value)
    requires Holds(shared, key, v)
    ensures Holds(verdicts + shared, key, v)
  {
  }

  /** In `{...verdicts, ...shared}` a verdict member that is not shared survives. */
  lemma VerdictSurvives(verdicts: map<string, Value>, shared: map<string, Value>, key: string, v: Value)
    requires Holds(verdicts, key, v) && key !in shared
    ensures Holds(verdicts + shared, key, v)
  {
  }

  lemma EnvelopeHolds(toolName: string, executionTime: string, timestamp: string, result: map<string, Value>)
    ensures Holds(Envelope(toolName, executionTime, timestamp, result), "success", Bool(true))
    ensures Holds(Envelope(toolName, executionTime, timestamp, result), "toolName", Str(toolName))
    ensures Holds(Envelope(toolName, executionTime, timestamp, result), "executionTime", Str(executionTime))
    ensures Holds(Envelope(toolName, executionTime, timestamp, result), "timestamp", Str(timestamp))
    ensures Holds(Envelope(toolName, executionTime, timestamp, result), "result", Obj(result))
  {
  }

  lemma SharedMembersHold(output: string, proofId: string, parameters: map<string, Value>, metadata: map<string, Value>)
    ensures Holds(SharedMembers(output, proofId, parameters, metadata), "output", Str(output))
    ensures Holds(SharedMembers(output, proofId, parameters, metadata), "status", Str("VERIFIED"))
    ensures Holds(SharedMembers(output, proofId, parameters, metadata), "verdict", Str("VALID"))
    ensures Holds(SharedMembers(output, proofId, parameters, metadata), "zkProofGenerated", Bool(true))
    ensures Holds(SharedMembers(output, proofId, parameters, metadata), "proofId", Str(proofId))
    ensures Holds(SharedMembers(output, proofId, parameters, metadata), "parameters", Obj(parameters))
    ensures Holds(SharedMembers(output, proofId, parameters, metadata), "proofMetadata", Obj(metadata))
    ensures SharedMembers(output, proofId, parameters, metadata).Keys == SHARED_KEYS
  {
  }

  lemma MetadataHolds(merkleRoot: string, networkUsed: Value)
    ensures Holds(Metadata(merkleRoot, networkUsed), "merkleRoot", Str(merkleRoot))
    ensures Holds(Metadata(merkleRoot, networkUsed), "signatureVerified", Bool(true))
    ensures Holds(Metadata(merkleRoot, networkUsed), "blockchainSubmitted", Bool(true))
    ensures Holds(Metadata(merkleRoot, networkUsed), "networkUsed", networkUsed)
  {
  }

  /** The envelope members of a success. */
  lemma SuccessFieldsHold(t: ProofType, b: map<string, Value>, env: Env)
    requires Renders(t, b)
    ensures Holds(SuccessFields(t, b, env), "success", Bool(true))
    ensures Holds(SuccessFields(t, b, env), "toolName", Str(ToolName(t, b)))
    ensures Holds(SuccessFields(t, b, env), "executionTime", Str(ExecutionTime(env)))
    ensures Holds(SuccessFields(t, b, env), "timestamp", Str(env.isoNow))
    ensures Holds(SuccessFields(t, b, env), "result", Obj(Result(t, b, env)))
  {
    EnvelopeHolds(ToolName(t, b), ExecutionTime(env), env.isoNow, Result(t, b, env));
  }

  /** The shared members of a `result`, which no verdict member overwrites. */
  lemma ResultShared(t: ProofType, b: map<string, Value>, env: Env)
    requires Renders(t, b)
    ensures Holds(Result(t, b, env), "output", Str(Output(t, b, ProofIdFor(t, env))))
    ensures Holds(Result(t, b, env), "status", Str("VERIFIED"))
    ensures Holds(Result(t, b, env), "verdict", Str("VALID"))
    ensures Holds(Result(t, b, env), "zkProofGenerated", Bool(true))
    ensures Holds(Result(t, b, env), "proofId", Str(ProofIdFor(t, env)))
    ensures Holds(Result(t, b, env), "parameters", Obj(b))
    ensures Holds(Result(t, b, env), "proofMetadata", Obj(MetadataOf(b, env)))
  {
    var v, s := Verdicts(t, b), Shared(t, b, env);
    var id := ProofIdFor(t, env);
    SharedMembersHold(Output(t, b, id), id, b, MetadataOf(b, env));
    SharedWins(v, s, "output", Str(Output(t, b, id)));
    SharedWins(v, s, "status", Str("VERIFIED"));
    SharedWins(v, s, "verdict", Str("VALID"));
    SharedWins(v, s, "zkProofGenerated", Bool(true));
    SharedWins(v, s, "proofId", Str(id));
    SharedWins(v, s, "parameters", Obj(b));
    SharedWins(v, s, "proofMetadata", Obj(MetadataOf(b, env)));
  }

  /** A verdict member of a `result`, for a key that is not shared. */
  lemma VerdictKept(t: ProofType, b: map<string, Value>, env: Env, key: string, v: Value)
    requires Renders(t, b) && Holds(Verdicts(t, b), key, v) && key !in SHARED_KEYS
    ensures Holds(Result(t, b, env), key, v)
  {
    var id := ProofIdFor(t, env);
    SharedMembersHold(Output(t, b, id), id, b, MetadataOf(b, env));
    VerdictSurvives(Verdicts(t, b), Shared(t, b, env), key, v);
  }

  lemma CorporateVerdicts(b: map<string, Value>)
    ensures Holds(Verdicts(Corporate, b), "cinVerified", Bool(Truthy(Field(b, "cin"))))
    ensures Holds(Verdicts(Corporate, b), "registrationValid", Bool(true))
    ensures "cinVerified" !in SHARED_KEYS && "registrationValid" !in SHARED_KEYS
  {
  }

  lemma EximVerdicts(b: map<string, Value>)
    ensures Holds(Verdicts(Exim, b), "tradeAuthority", Or(Field(b, "tradeType"), Str("EXPORT")))
    ensures "tradeAuthority" !in SHARED_KEYS
  {
  }

  lemma ScfVerdicts(b: map<string, Value>)
    ensures Holds(Verdicts(Scf, b), "invoiceAmount", Or(Field(b, "invoiceAmount"), Str("N/A")))
    ensures "invoiceAmount" !in SHARED_KEYS
  {
  }

  lemma ComposedVerdicts(b: map<string, Value>)
    ensures Holds(Verdicts(Composed, b), "componentsVerified", Num(3))
    ensures Holds(Verdicts(Composed, b), "totalComponents", Num(3))
    ensures Holds(Verdicts(Composed, b), "gleifVerified", Bool(true))
    ensures Holds(Verdicts(Composed, b), "corporateVerified", Bool(true))
    ensures Holds(Verdicts(Composed, b), "eximVerified", Bool(true))
    ensures "componentsVerified" !in SHARED_KEYS && "totalComponents" !in SHARED_KEYS
    ensures "gleifVerified" !in SHARED_KEYS && "corporateVerified" !in SHARED_KEYS && "eximVerified" !in SHARED_KEYS
  {
  }

  /** The gleif output text, with the `jurisdiction || 'Global'` fallback spelt out. */
  lemma GleifOutput(b: map<string, Value>)
    requires Renders(Gleif, b)
    ensures ToText(Field(b, "companyName")).Some?
    ensures Truthy(Field(b, "jurisdiction")) ==> ToText(Field(b, "jurisdiction")).Some?
    ensures OutputHead(Gleif, b) ==
      "GLEIF verification completed successfully for " + ToText(Field(b, "companyName")).value
      + "\\nEntity Status: ACTIVE\\nJurisdiction: "
      + (if Truthy(Field(b, "jurisdiction")) then ToText(Field(b, "jurisdiction")).value else "Global")
  {
  }

  /** What ProofReply answers on each of its four paths. */
  lemma ReplyPaths(t: ProofType, body: Value, env: Env)
    ensures Nullish(body) ==> ProofReply(t, body, env) == Reply(500, Some(FailureBody(t, env.thrownMessage)))
    ensures !Nullish(body) && Rejects(t, Destructure(t, body).value) ==>
      ProofReply(t, body, env) == Reply(400, Some(ValidationBody(Required(t).value.message)))
    ensures !Nullish(body) && !Rejects(t, Destructure(t, body).value) && !Renders(t, Destructure(t, body).value) ==>
      ProofReply(t, body, env) == Reply(500, Some(FailureBody(t, env.renderMessage)))
    ensures !Nullish(body) && !Rejects(t, Destructure(t, body).value) && Renders(t, Destructure(t, body).value) ==>
      ProofReply(t, body, env) == Reply(200, Some(Obj(SuccessFields(t, Destructure(t, body).value, env))))
  {
    if !Nullish(body) {
      var b := Destructure(t, body).value;
      assert Destructure(t, body) == Some(b);
    }
  }

  /** A destructured field holds what the body holds, with the network default. */
  lemma FieldOfDestructured(t: ProofType, body: Value, f: string)
    requires !Nullish(body) && f in Fields(t)
    ensures Field(Destructure(t, body).value, f) == Binding(body, f)
  {
  }

  /** The destructured fields answer every non-network field as the body does. */
  lemma DestructuredEcho(t: ProofType, body: Value)
    requires !Nullish(body)
    ensures Destructure(t, body).value.Keys == set f | f in Fields(t)
    ensures forall f :: f in Fields(t) && f != NETWORK_FIELD ==>
      Get(Obj(Destructure(t, body).value), f) == Get(body, f)
  {
  }

  lemma CorporateBindings(body: Value)
    requires !Nullish(body)
    ensures Field(Destructure(Corporate, body).value, "cin") == Get(body, "cin")
  {
    FieldOfDestructured(Corporate, body, "cin");
  }

  lemma EximBindings(body: Value)
    requires !Nullish(body)
    ensures Field(Destructure(Exim, body).value, "tradeType") == Get(body, "tradeType")
  {
    FieldOfDestructured(Exim, body, "tradeType");
  }

  lemma ScfBindings(body: Value)
    requires !Nullish(body)
    ensures Field(Destructure(Scf, body).value, "invoiceAmount") == Get(body, "invoiceAmount")
  {
    FieldOfDestructured(Scf, body, "invoiceAmount");
  }

  lemma RiskBindings(body: Value)
    requires !Nullish(body)
    ensures Field(Destructure(Risk, body).value, "riskType") == Get(body, "riskType")
  {
    FieldOfDestructured(Risk, body, "riskType");
  }

  lemma GleifBindings(body: Value)
    requires !Nullish(body)
    ensures Field(Destructure(Gleif, body).value, "companyName") == Get(body, "companyName")
    ensures Field(Destructure(Gleif, body).value, "jurisdiction") == Get(body, "jurisdiction")
  {
    FieldOfDestructured(Gleif, body, "companyName");
    FieldOfDestructured(Gleif, body, "jurisdiction");
  }

  /** The network field of any type's bindings. */
  lemma NetworkBinding(t: ProofType, body: Value)
    requires !Nullish(body)
    ensures Field(Destructure(t, body).value, NETWORK_FIELD) == Binding(body, NETWORK_FIELD)
  {
    TableWellFormed(t);
    FieldOfDestructured(t, body, NETWORK_FIELD);
  }

  // the reply itself

  /** A 200 reply is the success envelope of the destructured fields. */
  lemma SuccessReply(t: ProofType, body: Value, env: Env)
    requires ProofReply(t, body, env).status == 200
    ensures !Nullish(body) && Renders(t, Destructure(t, body).value)
    ensures ProofReply(t, body, env) == Reply(200, Some(Obj(SuccessFields(t, Destructure(t, body).value, env))))
  {
  }

  /** The `result` member of a 200 reply. */
  lemma ReplyResult(t: ProofType, body: Value, env: Env)
    requires ProofReply(t, body, env).status == 200
    ensures !Nullish(body) && Renders(t, Destructure(t, body).value)
    ensures Get(BodyOf(ProofReply(t, body, env)), "result") == Obj(Result(t, Destructure(t, body).value, env))
  {
    var b := Destructure(t, body).value;
    SuccessReply(t, body, env);
    SuccessFieldsHold(t, b, env);
    BodyMember(ProofReply(t, body, env), SuccessFields(t, b, env), "result", Obj(Result(t, b, env)));
  }

  /** The `result.proofMetadata` member of a 200 reply. */
  lemma ReplyMetadata(t: ProofType, body: Value, env: Env)
    requires ProofReply(t, body, env).status == 200
    ensures ResultMember(ProofReply(t, body, env), "proofMetadata") == Obj(MetadataOf(Destructure(t, body).value, env))
  {
    var b := Destructure(t, body).value;
    ReplyResult(t, body, env);
    ResultShared(t, b, env);
    MemberOfResult(ProofReply(t, body, env), Result(t, b, env), "proofMetadata", Obj(MetadataOf(b, env)));
  }

  // ----- properties -----

  /** The required field of type t is falsy in the body. */
  predicate MissingRequired(t: ProofType, body: Value) {
    Required(t).Some? && !Truthy(Get(body, Required(t).value.field))
  }

  /** Some field the success envelope of type t renders throws on `${...}`. */
  predicate Unrenderable(t: ProofType, body: Value) {
    exists f :: f in RenderedFields(t) && RenderThrows(Get(body, f))
  }

  /** The validation rejects the destructured fields exactly when the body's required field is falsy. */
  lemma RejectsFromBody(t: ProofType, body: Value)
    requires !Nullish(body)
    ensures Rejects(t, Destructure(t, body).value) <==> MissingRequired(t, body)
  {
    TableWellFormed(t);
    if Required(t).Some? {
      FieldOfDestructured(t, body, Required(t).value.field);
    }
  }

  /** The destructured fields render exactly when the body's fields do. */
  lemma RendersFromBody(t: ProofType, body: Value)
    requires !Nullish(body)
    ensures Renders(t, Destructure(t, body).value) <==> !Unrenderable(t, body)
  {
    TableWellFormed(t);
    forall f | f in RenderedFields(t)
      ensures Field(Destructure(t, body).value, f) == Get(body, f)
    {
      FieldOfDestructured(t, body, f);
    }
  }

  /**
   * The outcomes: 500 exactly when the body is nullish or, past the
   * validation, a rendered field throws; 400 exactly when the required field
   * is falsy; 200 otherwise.
   */
  lemma Outcomes(t: ProofType, body: Value, env: Env)
    ensures ProofReply(t, body, env).status in {200, 400, 500}
    ensures ProofReply(t, body, env).status == 500 <==>
      Nullish(body) || (!MissingRequired(t, body) && Unrenderable(t, body))
    ensures ProofReply(t, body, env).status == 400 <==> !Nullish(body) && MissingRequired(t, body)
    ensures ProofReply(t, body, env).status == 200 <==>
      !Nullish(body) && !MissingRequired(t, body) && !Unrenderable(t, body)
    ensures ProofReply(t, body, env).body.Some?
  {
    ReplyPaths(t, body, env);
    if !Nullish(body) {
      RejectsFromBody(t, body);
      RendersFromBody(t, body);
    }
  }

  /**
   * A field that throws when rendered lands in the catch block once the
   * validation has passed: 500 with the type's failure text and the message.
   */
  lemma UnrenderableFieldFails(t: ProofType, body: Value, env: Env, f: string)
    requires !Nullish(body) && !MissingRequired(t, body)
    requires f in RenderedFields(t) && RenderThrows(Get(body, f))
    ensures ProofReply(t, body, env) == Reply(500, Some(FailureBody(t, env.renderMessage)))
  {
    ReplyPaths(t, body, env);
    RejectsFromBody(t, body);
    RendersFromBody(t, body);
  }

  /** `{"companyName": {"toString": 1}}` passes gleif's validation, and rendering it throws. */
  lemma GleifToStringMemberFails(env: Env)
    ensures ProofReply(Gleif, Obj(map["companyName" := Obj(map["toString" := Num(1)])]), env)
      == Reply(500, Some(FailureBody(Gleif, env.renderMessage)))
  {
    var body := Obj(map["companyName" := Obj(map["toString" := Num(1)])]);
    UnrenderableFieldFails(Gleif, body, env, "companyName");
  }

  /** A nullish body lands in the catch block: 500 with the type's failure text and the thrown message. */
  lemma MissingBodyFails(t: ProofType, body: Value, env: Env)
    requires Nullish(body)
    ensures ProofReply(t, body, env).status == 500
    ensures Get(BodyOf(ProofReply(t, body, env)), "success") == Bool(false)
    ensures Get(BodyOf(ProofReply(t, body, env)), "error") == Str(FailureText(t))
    ensures Get(BodyOf(ProofReply(t, body, env)), "message") == Str(env.thrownMessage)
  {
  }

  /** A falsy required field is answered 400 with its fixed message and nothing else. */
  lemma FalsyRequiredFieldRejected(t: ProofType, body: Value, env: Env)
    requires !Nullish(body) && Required(t).Some?
    requires !Truthy(Get(body, Required(t).value.field))
    ensures ProofReply(t, body, env) == Reply(400, Some(Obj(map["error" := Str(Required(t).value.message)])))
  {
    TableWellFormed(t);
    FieldOfDestructured(t, body, Required(t).value.field);
  }

  /** gleif, corporate, exim, scf and composed require a truthy companyName. */
  lemma CompanyNameRequired(t: ProofType, body: Value, env: Env)
    requires t in {Gleif, Corporate, Exim, Scf, Composed}
    requires !Nullish(body)
    ensures ProofReply(t, body, env).status == 400 <==> !Truthy(Get(body, "companyName"))
    ensures ProofReply(t, body, env).status == 400 ==>
      Get(BodyOf(ProofReply(t, body, env)), "error") == Str("Company name is required")
  {
    assert Required(t) == Some(COMPANY_NAME_REQUIRED);
    Outcomes(t, body, env);
  }

  /** process-integrity requires a truthy processType. */
  lemma ProcessTypeRequired(body: Value, env: Env)
    requires !Nullish(body)
    ensures ProofReply(ProcessIntegrity, body, env).status == 400 <==> !Truthy(Get(body, "processType"))
    ensures ProofReply(ProcessIntegrity, body, env).status == 400 ==>
      Get(BodyOf(ProofReply(ProcessIntegrity, body, env)), "error") == Str("Process type is required")
  {
    Outcomes(ProcessIntegrity, body, env);
  }

  /** data-integrity requires a truthy filePath. */
  lemma FilePathRequired(body: Value, env: Env)
    requires !Nullish(body)
    ensures ProofReply(DataIntegrity, body, env).status == 400 <==> !Truthy(Get(body, "filePath"))
    ensures ProofReply(DataIntegrity, body, env).status == 400 ==>
      Get(BodyOf(ProofReply(DataIntegrity, body, env)), "error") == Str("File path is required")
  {
    Outcomes(DataIntegrity, body, env);
  }

  /** The risk handler has no required field: it never answers 400, and succeeds unless riskType cannot render. */
  lemma RiskNeverRejects(body: Value, env: Env)
    ensures ProofReply(Risk, body, env).status != 400
    ensures !Nullish(body) ==>
      (ProofReply(Risk, body, env).status == 200 <==> !RenderThrows(Get(body, "riskType")))
  {
    Outcomes(Risk, body, env);
  }


  /**
   * Every success envelope: HTTP 200 with `success: true`, the request's
   * timestamp and the proof id made from the type's prefix.
   */
  lemma SuccessEnvelope(t: ProofType, body: Value, env: Env)
    requires ProofReply(t, body, env).status == 200
    ensures !Nullish(body)
    ensures Get(BodyOf(ProofReply(t, body, env)), "success") == Bool(true)
    ensures Get(BodyOf(ProofReply(t, body, env)), "timestamp") == Str(env.isoNow)
    ensures ResultMember(ProofReply(t, body, env), "proofId") == Str(ProofIdFor(t, env))
  {
    var r, b := ProofReply(t, body, env), Destructure(t, body).value;
    SuccessReply(t, body, env);
    SuccessFieldsHold(t, b, env);
    BodyMember(r, SuccessFields(t, b, env), "success", Bool(true));
    BodyMember(r, SuccessFields(t, b, env), "timestamp", Str(env.isoNow));
    ReplyResult(t, body, env);
    ResultShared(t, b, env);
    MemberOfResult(r, Result(t, b, env), "proofId", Str(ProofIdFor(t, env)));
  }

  /** Every successful result is VERIFIED, VALID and says a proof was generated. */
  lemma SuccessVerdict(t: ProofType, body: Value, env: Env)
    requires ProofReply(t, body, env).status == 200
    ensures ResultMember(ProofReply(t, body, env), "status") == Str("VERIFIED")
    ensures ResultMember(ProofReply(t, body, env), "verdict") == Str("VALID")
    ensures ResultMember(ProofReply(t, body, env), "zkProofGenerated") == Bool(true)
  {
    var r, b := ProofReply(t, body, env), Destructure(t, body).value;
    ReplyResult(t, body, env);
    ResultShared(t, b, env);
    MemberOfResult(r, Result(t, b, env), "status", Str("VERIFIED"));
    MemberOfResult(r, Result(t, b, env), "verdict", Str("VALID"));
    MemberOfResult(r, Result(t, b, env), "zkProofGenerated", Bool(true));
  }

  /** `parameters` echoes exactly the destructured fields of the type, as the body holds them. */
  lemma ParametersEcho(t: ProofType, body: Value, env: Env)
    requires ProofReply(t, body, env).status == 200
    ensures ResultMember(ProofReply(t, body, env), "parameters") == Obj(Destructure(t, body).value)
    ensures Destructure(t, body).value.Keys == set f | f in Fields(t)
    ensures forall f :: f in Fields(t) && f != NETWORK_FIELD ==>
      Get(ResultMember(ProofReply(t, body, env), "parameters"), f) == Get(body, f)
  {
    var r, b := ProofReply(t, body, env), Destructure(t, body).value;
    ReplyResult(t, body, env);
    ResultShared(t, b, env);
    MemberOfResult(r, Result(t, b, env), "parameters", Obj(b));
    DestructuredEcho(t, body);
  }

  /** The proof metadata: signed, submitted, and the mock Merkle root (64 lower-case hexadecimal digits). */
  lemma MetadataShape(t: ProofType, body: Value, env: Env)
    requires ProofReply(t, body, env).status == 200
    ensures MetadataMember(ProofReply(t, body, env), "signatureVerified") == Bool(true)
    ensures MetadataMember(ProofReply(t, body, env), "blockchainSubmitted") == Bool(true)
    ensures MetadataMember(ProofReply(t, body, env), "merkleRoot") == Str(MockHash(env.hashDraw))
  {
    var r, b := ProofReply(t, body, env), Destructure(t, body).value;
    var m := MetadataOf(b, env);
    ReplyMetadata(t, body, env);
    MetadataHolds(MockHash(env.hashDraw), Field(b, NETWORK_FIELD));
    MemberOfMetadata(r, m, "signatureVerified", Bool(true));
    MemberOfMetadata(r, m, "blockchainSubmitted", Bool(true));
    MemberOfMetadata(r, m, "merkleRoot", Str(MockHash(env.hashDraw)));
  }

  /** `networkUsed` is the supplied typeOfNet, whatever it is, and 'TESTNET' only when it is absent. */
  lemma NetworkUsedDefault(t: ProofType, body: Value, env: Env)
    requires ProofReply(t, body, env).status == 200
    ensures MetadataMember(ProofReply(t, body, env), "networkUsed") ==
      (if Get(body, NETWORK_FIELD) == Undefined then Str(DEFAULT_NETWORK) else Get(body, NETWORK_FIELD))
    ensures Get(ResultMember(ProofReply(t, body, env), "parameters"), NETWORK_FIELD) ==
      MetadataMember(ProofReply(t, body, env), "networkUsed")
  {
    var r, b := ProofReply(t, body, env), Destructure(t, body).value;
    var net := Field(b, NETWORK_FIELD);
    ReplyMetadata(t, body, env);
    MetadataHolds(MockHash(env.hashDraw), net);
    MemberOfMetadata(r, MetadataOf(b, env), "networkUsed", net);
    ReplyResult(t, body, env);
    ResultShared(t, b, env);
    MemberOfResult(r, Result(t, b, env), "parameters", Obj(b));
    NetworkBinding(t, body);
  }

  lemma GleifConstantVerdicts(b: map<string, Value>)
    ensures Holds(Verdicts(Gleif, b), "entityVerified", Bool(true))
    ensures Holds(Verdicts(Gleif, b), "leiStatus", Str("ACTIVE"))
    ensures Holds(Verdicts(Gleif, b), "jurisdictionMatch", Bool(true))
    ensures "entityVerified" !in SHARED_KEYS && "leiStatus" !in SHARED_KEYS && "jurisdictionMatch" !in SHARED_KEYS
  {
  }

  lemma EximConstantVerdicts(b: map<string, Value>)
    ensures Holds(Verdicts(Exim, b), "licenseValid", Bool(true))
    ensures "licenseValid" !in SHARED_KEYS
  {
  }

  lemma RiskConstantVerdicts(b: map<string, Value>)
    ensures Holds(Verdicts(Risk, b), "riskScore", Str("ACCEPTABLE"))
    ensures Holds(Verdicts(Risk, b), "complianceStatus", Str("VERIFIED"))
    ensures "riskScore" !in SHARED_KEYS && "complianceStatus" !in SHARED_KEYS
  {
  }

  lemma ProcessIntegrityConstantVerdicts(b: map<string, Value>)
    ensures Holds(Verdicts(ProcessIntegrity, b), "processMatch", Bool(true))
    ensures Holds(Verdicts(ProcessIntegrity, b), "expectedVsActual", Str("MATCHED"))
    ensures "processMatch" !in SHARED_KEYS && "expectedVsActual" !in SHARED_KEYS
  {
  }

  lemma DataIntegrityConstantVerdicts(b: map<string, Value>)
    ensures Holds(Verdicts(DataIntegrity, b), "merkleRootVerified", Bool(true))
    ensures "merkleRootVerified" !in SHARED_KEYS
  {
  }

  lemma ScfConstantVerdicts(b: map<string, Value>)
    ensures Holds(Verdicts(Scf, b), "financingApproved", Bool(true))
    ensures Holds(Verdicts(Scf, b), "riskScore", Str("LOW"))
    ensures "financingApproved" !in SHARED_KEYS && "riskScore" !in SHARED_KEYS
  {
  }

  /** A verdict member, not overwritten by a shared one, of the `result` of a 200 reply. */
  lemma VerdictOfReply(t: ProofType, body: Value, env: Env, key: string, v: Value)
    requires ProofReply(t, body, env).status == 200
    requires Holds(Verdicts(t, Destructure(t, body).value), key, v) && key !in SHARED_KEYS
    ensures ResultMember(ProofReply(t, body, env), key) == v
  {
    var b := Destructure(t, body).value;
    ReplyResult(t, body, env);
    VerdictKept(t, b, env, key, v);
    MemberOfResult(ProofReply(t, body, env), Result(t, b, env), key, v);
  }

  /** gleif: the entity is verified, its LEI status ACTIVE and its jurisdiction matched. */
  lemma GleifEntityVerified(body: Value, env: Env)
    requires ProofReply(Gleif, body, env).status == 200
    ensures ResultMember(ProofReply(Gleif, body, env), "entityVerified") == Bool(true)
    ensures ResultMember(ProofReply(Gleif, body, env), "leiStatus") == Str("ACTIVE")
    ensures ResultMember(ProofReply(Gleif, body, env), "jurisdictionMatch") == Bool(true)
  {
    GleifConstantVerdicts(Destructure(Gleif, body).value);
    VerdictOfReply(Gleif, body, env, "entityVerified", Bool(true));
    VerdictOfReply(Gleif, body, env, "leiStatus", Str("ACTIVE"));
    VerdictOfReply(Gleif, body, env, "jurisdictionMatch", Bool(true));
  }

  /** exim: the licence is reported valid. */
  lemma EximLicenseValid(body: Value, env: Env)
    requires ProofReply(Exim, body, env).status == 200
    ensures ResultMember(ProofReply(Exim, body, env), "licenseValid") == Bool(true)
  {
    EximConstantVerdicts(Destructure(Exim, body).value);
    VerdictOfReply(Exim, body, env, "licenseValid", Bool(true));
  }

  /** risk: the risk score is ACCEPTABLE and compliance VERIFIED. */
  lemma RiskCompliance(body: Value, env: Env)
    requires ProofReply(Risk, body, env).status == 200
    ensures ResultMember(ProofReply(Risk, body, env), "riskScore") == Str("ACCEPTABLE")
    ensures ResultMember(ProofReply(Risk, body, env), "complianceStatus") == Str("VERIFIED")
  {
    RiskConstantVerdicts(Destructure(Risk, body).value);
    VerdictOfReply(Risk, body, env, "riskScore", Str("ACCEPTABLE"));
    VerdictOfReply(Risk, body, env, "complianceStatus", Str("VERIFIED"));
  }

  /** process integrity: the process matched, expected against actual. */
  lemma ProcessMatched(body: Value, env: Env)
    requires ProofReply(ProcessIntegrity, body, env).status == 200
    ensures ResultMember(ProofReply(ProcessIntegrity, body, env), "processMatch") == Bool(true)
    ensures ResultMember(ProofReply(ProcessIntegrity, body, env), "expectedVsActual") == Str("MATCHED")
  {
    ProcessIntegrityConstantVerdicts(Destructure(ProcessIntegrity, body).value);
    VerdictOfReply(ProcessIntegrity, body, env, "processMatch", Bool(true));
    VerdictOfReply(ProcessIntegrity, body, env, "expectedVsActual", Str("MATCHED"));
  }

  /** data integrity: the Merkle root is reported verified. */
  lemma DataMerkleRootVerified(body: Value, env: Env)
    requires ProofReply(DataIntegrity, body, env).status == 200
    ensures ResultMember(ProofReply(DataIntegrity, body, env), "merkleRootVerified") == Bool(true)
  {
    DataIntegrityConstantVerdicts(Destructure(DataIntegrity, body).value);
    VerdictOfReply(DataIntegrity, body, env, "merkleRootVerified", Bool(true));
  }

  /** scf: financing is approved with a LOW risk score. */
  lemma ScfFinancingApproved(body: Value, env: Env)
    requires ProofReply(Scf, body, env).status == 200
    ensures ResultMember(ProofReply(Scf, body, env), "financingApproved") == Bool(true)
    ensures ResultMember(ProofReply(Scf, body, env), "riskScore") == Str("LOW")
  {
    ScfConstantVerdicts(Destructure(Scf, body).value);
    VerdictOfReply(Scf, body, env, "financingApproved", Bool(true));
    VerdictOfReply(Scf, body, env, "riskScore", Str("LOW"));
  }

  /** corporate: `cinVerified` is the truthiness of cin, and `registrationValid` is true. */
  lemma CorporateCinVerified(body: Value, env: Env)
    requires ProofReply(Corporate, body, env).status == 200
    ensures ResultMember(ProofReply(Corporate, body, env), "cinVerified") == Bool(Truthy(Get(body, "cin")))
    ensures ResultMember(ProofReply(Corporate, body, env), "registrationValid") == Bool(true)
  {
    var r, b := ProofReply(Corporate, body, env), Destructure(Corporate, body).value;
    ReplyResult(Corporate, body, env);
    CorporateVerdicts(b);
    VerdictKept(Corporate, b, env, "cinVerified", Bool(Truthy(Field(b, "cin"))));
    MemberOfResult(r, Result(Corporate, b, env), "cinVerified", Bool(Truthy(Field(b, "cin"))));
    VerdictKept(Corporate, b, env, "registrationValid", Bool(true));
    MemberOfResult(r, Result(Corporate, b, env), "registrationValid", Bool(true));
    CorporateBindings(body);
  }

  /** exim: `tradeAuthority` is tradeType when truthy, 'EXPORT' otherwise. */
  lemma EximTradeAuthority(body: Value, env: Env)
    requires ProofReply(Exim, body, env).status == 200
    ensures ResultMember(ProofReply(Exim, body, env), "tradeAuthority") ==
      (if Truthy(Get(body, "tradeType")) then Get(body, "tradeType") else Str("EXPORT"))
  {
    var r, b := ProofReply(Exim, body, env), Destructure(Exim, body).value;
    var v := Or(Field(b, "tradeType"), Str("EXPORT"));
    ReplyResult(Exim, body, env);
    EximVerdicts(b);
    VerdictKept(Exim, b, env, "tradeAuthority", v);
    MemberOfResult(r, Result(Exim, b, env), "tradeAuthority", v);
    EximBindings(body);
  }

  /** scf: `invoiceAmount` is the supplied amount when truthy, 'N/A' otherwise. */
  lemma ScfInvoiceAmount(body: Value, env: Env)
    requires ProofReply(Scf, body, env).status == 200
    ensures ResultMember(ProofReply(Scf, body, env), "invoiceAmount") ==
      (if Truthy(Get(body, "invoiceAmount")) then Get(body, "invoiceAmount") else Str("N/A"))
  {
    var r, b := ProofReply(Scf, body, env), Destructure(Scf, body).value;
    var v := Or(Field(b, "invoiceAmount"), Str("N/A"));
    ReplyResult(Scf, body, env);
    ScfVerdicts(b);
    VerdictKept(Scf, b, env, "invoiceAmount", v);
    MemberOfResult(r, Result(Scf, b, env), "invoiceAmount", v);
    ScfBindings(body);
  }

  /** risk: the tool name embeds riskType when truthy, 'Basel3' otherwise. */
  lemma RiskToolName(body: Value, env: Env)
    requires ProofReply(Risk, body, env).status == 200
    ensures Truthy(Get(body, "riskType")) ==> ToText(Get(body, "riskType")).Some?
    ensures Get(BodyOf(ProofReply(Risk, body, env)), "toolName") ==
      Str("get-Risk-" + (if Truthy(Get(body, "riskType")) then ToText(Get(body, "riskType")).value else "Basel3")
          + "-verification-with-sign")
  {
    var r, b := ProofReply(Risk, body, env), Destructure(Risk, body).value;
    SuccessReply(Risk, body, env);
    SuccessFieldsHold(Risk, b, env);
    BodyMember(r, SuccessFields(Risk, b, env), "toolName", Str(ToolName(Risk, b)));
    RiskBindings(body);
  }

  /** gleif: the output names the company and the jurisdiction when truthy, 'Global' otherwise. */
  lemma GleifJurisdiction(body: Value, env: Env)
    requires ProofReply(Gleif, body, env).status == 200
    ensures ToText(Get(body, "companyName")).Some?
    ensures Truthy(Get(body, "jurisdiction")) ==> ToText(Get(body, "jurisdiction")).Some?
    ensures ResultMember(ProofReply(Gleif, body, env), "output") ==
      Str("GLEIF verification completed successfully for " + ToText(Get(body, "companyName")).value
          + "\\nEntity Status: ACTIVE\\nJurisdiction: "
          + (if Truthy(Get(body, "jurisdiction")) then ToText(Get(body, "jurisdiction")).value else "Global")
          + "\\nZK Proof Generated: " + ProofIdFor(Gleif, env))
  {
    var r, b := ProofReply(Gleif, body, env), Destructure(Gleif, body).value;
    ReplyResult(Gleif, body, env);
    ResultShared(Gleif, b, env);
    MemberOfResult(r, Result(Gleif, b, env), "output", Str(Output(Gleif, b, ProofIdFor(Gleif, env))));
    GleifOutput(b);
    GleifBindings(body);
  }

  /** composed: three components verified out of three. */
  lemma ComposedComponents(body: Value, env: Env)
    requires ProofReply(Composed, body, env).status == 200
    ensures ResultMember(ProofReply(Composed, body, env), "componentsVerified") == Num(3)
    ensures ResultMember(ProofReply(Composed, body, env), "totalComponents") ==
      ResultMember(ProofReply(Composed, body, env), "componentsVerified")
  {
    var r, b := ProofReply(Composed, body, env), Destructure(Composed, body).value;
    ReplyResult(Composed, body, env);
    ComposedVerdicts(b);
    VerdictKept(Composed, b, env, "componentsVerified", Num(3));
    MemberOfResult(r, Result(Composed, b, env), "componentsVerified", Num(3));
    VerdictKept(Composed, b, env, "totalComponents", Num(3));
    MemberOfResult(r, Result(Composed, b, env), "totalComponents", Num(3));
  }

  /** composed: the gleif, corporate and exim components are all reported verified. */
  lemma ComposedComponentFlags(body: Value, env: Env)
    requires ProofReply(Composed, body, env).status == 200
    ensures ResultMember(ProofReply(Composed, body, env), "gleifVerified") == Bool(true)
    ensures ResultMember(ProofReply(Composed, body, env), "corporateVerified") == Bool(true)
    ensures ResultMember(ProofReply(Composed, body, env), "eximVerified") == Bool(true)
  {
    var r, b := ProofReply(Composed, body, env), Destructure(Composed, body).value;
    ReplyResult(Composed, body, env);
    ComposedVerdicts(b);
    VerdictKept(Composed, b, env, "gleifVerified", Bool(true));
    MemberOfResult(r, Result(Composed, b, env), "gleifVerified", Bool(true));
    VerdictKept(Composed, b, env, "corporateVerified", Bool(true));
    MemberOfResult(r, Result(Composed, b, env), "corporateVerified", Bool(true));
    VerdictKept(Composed, b, env, "eximVerified", Bool(true));
    MemberOfResult(r, Result(Composed, b, env), "eximVerified", Bool(true));
  }

  /** The proof id of a success names its type: it parses back to the type's prefix and the clock and random inputs. */
  lemma ProofIdNamesType(t: ProofType, env: Env)
    ensures ParseProofId(ProofIdFor(t, env)) == Some(ProofIdParts(IdPrefix(t), env.idMs, env.suffix))
    ensures StartsWith(ProofIdFor(t, env), IdPrefix(t) + "_proof_")
  {
    TableWellFormed(t);
    ProofIdRoundTrip(IdPrefix(t), env.idMs, env.suffix);
    ProofIdLeadsWithKind(IdPrefix(t), env.idMs, env.suffix);
  }

  /** Handlers of different types never produce the same proof id. */
  lemma ProofIdsOfTypesDiffer(t1: ProofType, env1: Env, t2: ProofType, env2: Env)
    requires t1 != t2
    ensures ProofIdFor(t1, env1) != ProofIdFor(t2, env2)
  {
    TableWellFormed(t1);
    TableWellFormed(t2);
    IdPrefixesDistinct(t1, t2);
    ProofIdInjective(IdPrefix(t1), env1.idMs, env1.suffix, IdPrefix(t2), env2.idMs, env2.suffix);
  }

  /**
   * An assumption about the runtime, not a fact the source guarantees: the
   * two `Date.now()` readings lie at least the delay, truncated to whole
   * milliseconds, apart.
   */
  predicate ClockSawDelay(t: ProofType, env: Env) {
    env.endMs - env.startMs >= SimulatedDelay(t, env.latencyDraw).Floor
  }

  /** When the clock saw the wait, the reported executionTime is at least the type's minimum latency. */
  lemma ExecutionTimeCoversDelay(t: ProofType, body: Value, env: Env)
    requires ProofReply(t, body, env).status == 200
    requires ClockSawDelay(t, env)
    ensures Get(BodyOf(ProofReply(t, body, env)), "executionTime") == Str(ExecutionTime(env))
    ensures env.endMs - env.startMs >= MinMs(t)
  {
    ExecutionTimeReported(t, body, env);
    WaitCoversMinimum(t, env);
  }

  /** The `executionTime` member of a 200 reply. */
  lemma ExecutionTimeReported(t: ProofType, body: Value, env: Env)
    requires ProofReply(t, body, env).status == 200
    ensures Get(BodyOf(ProofReply(t, body, env)), "executionTime") == Str(ExecutionTime(env))
  {
    var b := Destructure(t, body).value;
    SuccessReply(t, body, env);
    SuccessFieldsHold(t, b, env);
    BodyMember(ProofReply(t, body, env), SuccessFields(t, b, env), "executionTime", Str(ExecutionTime(env)));
  }

  /** The executionTime text is the clock difference in decimal, read back exactly, followed by "ms". */
  lemma ExecutionTimeText(env: Env)
    ensures |ExecutionTime(env)| > 2
    ensures ExecutionTime(env)[|ExecutionTime(env)| - 2..] == "ms"
    ensures ParseInt(ExecutionTime(env)[..|ExecutionTime(env)| - 2]) == Some(env.endMs - env.startMs)
  {
    var digits := IntText(env.endMs - env.startMs);
    IntTextRoundTrip(env.endMs - env.startMs);
    assert ExecutionTime(env) == digits + "ms";
    assert (digits + "ms")[..|digits|] == digits;
    assert (digits + "ms")[|digits|..] == "ms";
  }

  /** A clock that saw the wait measured at least the type's minimum latency. */
  lemma WaitCoversMinimum(t: ProofType, env: Env)
    requires ClockSawDelay(t, env)
    ensures env.endMs - env.startMs >= MinMs(t)
  {
    assert MinMs(t) as real <= SimulatedDelay(t, env.latencyDraw);
  }
}
