/**
 * The eight proof types and, one function per column, the table that drives
 * the one generic proof handler: route prefix, proof-id prefix, destructured
 * body fields, the required field with its 400 message, the fields the
 * success envelope renders as text, the 500 error text
 * and the latency bounds handed to the simulated proof generation.
 */
module ProofTypes {
  import opened Wrappers
  import opened Text

  datatype ProofType = Gleif | Corporate | Exim | Risk | ProcessIntegrity | DataIntegrity | Scf | Composed

  /** A body field that must be truthy, and the error text given when it is not. */
  datatype Requirement = Requirement(field: string, message: string)

  const NETWORK_FIELD := "typeOfNet"

  const COMPANY_NAME_REQUIRED := Requirement("companyName", "Company name is required")

  /** The path prefix the dispatcher routes to the handler. */
  function RoutePrefix(t: ProofType): string {
    match t
    case Gleif => "/api/gleif"
    case Corporate => "/api/corporate"
    case Exim => "/api/exim"
    case Risk => "/api/risk"
    case ProcessIntegrity => "/api/process-integrity"
    case DataIntegrity => "/api/data-integrity"
    case Scf => "/api/scf"
    case Composed => "/api/composed"
  }

  /** The first argument the handler passes to generateProofId. */
  function IdPrefix(t: ProofType): string {
    match t
    case Gleif => "gleif"
    case Corporate => "corporate"
    case Exim => "exim"
    case Risk => "risk"
    case ProcessIntegrity => "process"
    case DataIntegrity => "data"
    case Scf => "scf"
    case Composed => "composed"
  }

  /** The names the handler destructures from the body (the last one defaults to 'TESTNET'). */
  function Fields(t: ProofType): seq<string> {
    match t
    case Gleif => ["companyName", "entityId", "jurisdiction", NETWORK_FIELD]
    case Corporate => ["companyName", "cin", "registrationNumber", "jurisdiction", NETWORK_FIELD]
    case Exim => ["companyName", "licenseNumber", "tradeType", "country", NETWORK_FIELD]
    case Risk => ["riskType", "configFile", "thresholds", NETWORK_FIELD]
    case ProcessIntegrity => ["processType", "expectedProcessFile", "actualProcessFile", NETWORK_FIELD]
    case DataIntegrity => ["filePath", "dataType", NETWORK_FIELD]
    case Scf => ["companyName", "supplierName", "invoiceAmount", "financingType", NETWORK_FIELD]
    case Composed => ["companyName", "cin", NETWORK_FIELD]
  }

  /** The field the handler checks for truthiness before the wait, if any. */
  function Required(t: ProofType): Option<Requirement> {
    match t
    case Risk => None
    case ProcessIntegrity => Some(Requirement("processType", "Process type is required"))
    case DataIntegrity => Some(Requirement("filePath", "File path is required"))
    case _ => Some(COMPANY_NAME_REQUIRED)
  }

  /**
   * The destructured fields the success envelope renders in a template
   * literal (`toolName`, `output`), directly or through `field || 'default'`.
   */
  function RenderedFields(t: ProofType): seq<string> {
    match t
    case Gleif => ["companyName", "jurisdiction"]
    case Corporate => ["companyName"]
    case Exim => ["companyName", "tradeType", "country"]
    case Risk => ["riskType"]
    case ProcessIntegrity => ["processType"]
    case DataIntegrity => ["filePath"]
    case Scf => ["companyName", "invoiceAmount"]
    case Composed => ["companyName"]
  }

  /** The `error` text of the handler's catch block. */
  function FailureText(t: ProofType): string {
    match t
    case Gleif => "GLEIF verification failed"
    case Corporate => "Corporate verification failed"
    case Exim => "EXIM verification failed"
    case Risk => "Risk assessment failed"
    case ProcessIntegrity => "Process integrity verification failed"
    case DataIntegrity => "Data integrity verification failed"
    case Scf => "SCF verification failed"
    case Composed => "Composed proof verification failed"
  }

  /** The bounds, in milliseconds, handed to simulateZKProofGeneration. */
  function MinMs(t: ProofType): nat {
    match t
    case Gleif => 2000
    case Corporate => 2000
    case Exim => 2000
    case Risk => 3000
    case ProcessIntegrity => 3000
    case DataIntegrity => 2500
    case Scf => 2500
    case Composed => 5000
  }

  function MaxMs(t: ProofType): nat {
    match t
    case Gleif => 4000
    case Corporate => 4000
    case Exim => 4000
    case Risk => 6000
    case ProcessIntegrity => 5000
    case DataIntegrity => 4500
    case Scf => 4000
    case Composed => 8000
  }

  /**
   * What the generic handler relies on in every row of the table: the
   * network field, the required field and the rendered fields are
   * destructured, none of the latter two is the defaulted one, the latency
   * window is non-empty and the proof-id prefix holds no '_'.
   */
  lemma TableWellFormed(t: ProofType)
    ensures NETWORK_FIELD in Fields(t)
    ensures Required(t).Some? ==>
      Required(t).value.field in Fields(t) && Required(t).value.field != NETWORK_FIELD
    ensures forall f :: f in RenderedFields(t) ==> f in Fields(t) && f != NETWORK_FIELD
    ensures 0 < MinMs(t) < MaxMs(t)
    ensures IdPrefix(t) != "" && '_' !in IdPrefix(t)
  {
    match t
    case Gleif =>
    case Corporate =>
    case Exim =>
    case Risk =>
    case ProcessIntegrity =>
    case DataIntegrity =>
    case Scf =>
    case Composed =>
  }

  /** Strings that differ at a position both have are not prefixes of each other. */
  lemma DifferAt(p: string, q: string, k: nat)
    requires k < |p| && k < |q| && p[k] != q[k]
    ensures !StartsWith(p, q) && !StartsWith(q, p)
  {
  }

  /**
   * No route prefix is a prefix of another one: after "/api/" they differ
   * in their first letter, except corporate and composed, which differ in
   * their third.
   */
  lemma RoutePrefixesPrefixFree(t1: ProofType, t2: ProofType)
    requires t1 != t2
    ensures !StartsWith(RoutePrefix(t1), RoutePrefix(t2))
  {
    var p, q := RoutePrefix(t1), RoutePrefix(t2);
    RouteLetters(t1);
    RouteLetters(t2);
    assert Letters(t1) != Letters(t2);
    if p[5] != q[5] {
      DifferAt(p, q, 5);
    } else {
      DifferAt(p, q, 7);
    }
  }

  /** The letters at positions 5 and 7 of a route prefix tell the types apart. */
  lemma RouteLetters(t: ProofType)
    ensures |RoutePrefix(t)| > 7
    ensures RoutePrefix(t)[5] == Letters(t).0 && RoutePrefix(t)[7] == Letters(t).1
  {
    match t
    case Gleif =>
    case Corporate =>
    case Exim =>
    case Risk =>
    case ProcessIntegrity =>
    case DataIntegrity =>
    case Scf =>
    case Composed =>
  }

  function Letters(t: ProofType): (char, char) {
    match t
    case Gleif => ('g', 'e')
    case Corporate => ('c', 'r')
    case Exim => ('e', 'i')
    case Risk => ('r', 's')
    case ProcessIntegrity => ('p', 'o')
    case DataIntegrity => ('d', 't')
    case Scf => ('s', 'f')
    case Composed => ('c', 'm')
  }

  /** A path starting with two route prefixes starts with the same one twice. */
  lemma MatchingPrefixesAgree(url: string, t1: ProofType, t2: ProofType)
    requires StartsWith(url, RoutePrefix(t1)) && StartsWith(url, RoutePrefix(t2))
    ensures t1 == t2
  {
    var p1, p2 := RoutePrefix(t1), RoutePrefix(t2);
    if t1 != t2 {
      if |p1| <= |p2| {
        CommonPrefix(url, p1, p2);
        RoutePrefixesPrefixFree(t2, t1);
      } else {
        CommonPrefix(url, p2, p1);
        RoutePrefixesPrefixFree(t1, t2);
      }
    }
  }

  /** Different types have different proof-id prefixes. */
  lemma IdPrefixesDistinct(t1: ProofType, t2: ProofType)
    ensures IdPrefix(t1) == IdPrefix(t2) <==> t1 == t2
  {
  }

  /** A value of `Math.random()`: a real in [0, 1). */
  type Fraction = r: real | 0.0 <= r < 1.0

  /**
   * `Math.random() * (maxMs - minMs) + minMs`, the delay of the simulated
   * proof generation, in exact arithmetic: within [minMs, maxMs).
   */
  function SimulatedDelay(t: ProofType, draw: Fraction): (delay: real)
    ensures MinMs(t) as real <= delay < MaxMs(t) as real
  {
    TableWellFormed(t);
    Between(draw, MinMs(t), MaxMs(t))
  }

  /** `draw * (hi - lo) + lo`. */
  function Between(draw: Fraction, lo: nat, hi: nat): (x: real)
    requires lo < hi
    ensures lo as real <= x < hi as real
  {
    FractionOfSpan(draw, hi - lo);
    draw * ((hi - lo) as real) + lo as real
  }

  /** A fraction of a positive whole span is not negative and stays below the span. */
  lemma {:induction false} FractionOfSpan(d: real, n: nat)
    requires 0.0 <= d < 1.0 && n > 0
    ensures 0.0 <= d * (n as real) < n as real
  {
    if n > 1 {
      FractionOfSpan(d, n - 1);
      assert d * (n as real) == d * ((n - 1) as real) + d;
    }
  }
}
