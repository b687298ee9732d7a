/** packages/digi-authority/src/types.ts. */
module AuthorityTypes {
  import opened JsValues
  import opened Results

  datatype ActorType = Human | App | Service | DigitalTwin | Device | Business

  function TypeName(t: ActorType): string
  {
    match t
    case Human => "human"
    case App => "app"
    case Service => "service"
    case DigitalTwin => "digital_twin"
    case Device => "device"
    case Business => "business"
  }

  datatype ActorRef = ActorRef(kind: ActorType, id: string)

  function ActorKey(actor: ActorRef): string
  {
    TypeName(actor.kind) + ":" + actor.id
  }

  datatype ApprovalMode = ALLOW | DENY | ASK_OWNER | ALLOW_WITH_LIMITS

  datatype Status = PENDING | ACTIVE | DENIED | EXPIRED | REVOKED | CONSUMED

  datatype Consequence = LOW | MEDIUM | HIGH | CRITICAL

  const DIGI_AUTHORITY_ISSUER := "digiconomy-authority"
  const TOKEN_TTL_SECONDS := 300

  datatype Limit = Count(n: Number) | Text(s: string) | Undefined

  type Limits = map<string, Limit>

  /** `limits[k]`. */
  function LimitAt(limits: Limits, k: string): Limit
  {
    if k in limits then limits[k] else Undefined
  }

  /** Conditions by name; only whether a value is truthy is ever read. */
  type Conditions = map<string, bool>

  datatype Grant = Grant(
    id: string,
    ownerId: string,
    actor: ActorRef,
    audience: string,
    actions: seq<string>,
    resources: seq<string>,
    limits: Limits,
    conditions: Conditions,
    approvalMode: ApprovalMode,
    consequence: Consequence,
    oneTime: bool,
    validFrom: Date,
    validUntil: Date,
    status: Status,
    grantVersion: int,
    parentGrantId: Option<string>,
    usageCount: nat,
    revokedAt: Option<Date>)

  datatype Request = Request(
    id: string,
    ownerId: string,
    actor: ActorRef,
    audience: string,
    action: string,
    resource: string,
    consequence: Consequence,
    decision: ApprovalMode,
    status: Status,
    stepUpProvided: bool,
    grantId: Option<string>,
    resolvedAt: Option<Date>)

  /** The owner boundary: an application never acts as, or decides for, the owner it names itself after. */
  predicate SelfOwned(ownerId: string, actor: ActorRef)
  {
    actor.kind == App && (ownerId == actor.id || ownerId == ActorKey(actor))
  }
}
