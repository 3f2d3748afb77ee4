/** The records the reference server stores, and the composite string keys it stores them under. */
module Resources {
  import opened Text

  /** JSON schemas and free-form inputs are carried, never inspected. */
  type Json = string

  /** Instants, in nanoseconds. */
  type Time = int

  const MILLISECOND: int := 1_000_000

  datatype Metadata = Metadata(
    id: string, domain: string, generation: int, version: int,
    createdAt: Time, updatedAt: Time, createdBy: string)

  function NewMetadata(id: string, domain: string, actor: string, now: Time): Metadata {
    Metadata(id, domain, 1, 1, now, now, actor)
  }

  datatype Workspace = Workspace(meta: Metadata, name: string, description: string)

  datatype AgentService = AgentService(workspaceId: string, meta: Metadata, name: string, description: string)

  datatype RevisionState = Draft | Published | Retired

  datatype ServiceRevision = ServiceRevision(
    meta: Metadata, serviceId: string, number: int, state: RevisionState,
    runtimeProfile: string, requiredCapabilities: seq<string>,
    inputSchema: Option<Json>, outputSchema: Option<Json>, publishedAt: Option<Time>)

  datatype ServiceAlias = ServiceAlias(
    withdrawnAt: Option<Time>, meta: Metadata, serviceId: string, name: string, revisionId: string)

  datatype InvocationState = Running | Waiting | Succeeded | Failed | Cancelled

  predicate Terminal(state: InvocationState) { state.Succeeded? || state.Failed? || state.Cancelled? }

  datatype Usage = Usage(inputTokens: int, outputTokens: int, totalTokens: int)

  /** Error codes of the API; `Reported` carries a code and message the runtime supplied. */
  datatype Code =
    | AuthenticationUnavailable | AuthorizationUnavailable | InvalidIsolationDomain | UnsupportedMediaType
    | InvalidRequest | InternalError | IdempotencyKeyReused | ResourceNotFound | VersionConflict
    | RevisionImmutable | RuntimeProfileUnavailable | RequiredCapabilityUnavailable | RevisionNotPublished
    | RevisionStillRouted | RevisionStillActive | InvocationTerminal | FixtureInvalid
    | SchemaProblem(fault: SchemaFault)
    | Reported(reportedCode: string, message: string)

  datatype SchemaFault = InputSchemaInvalid | OutputSchemaInvalid | InputInvalid | OutputInvalid

  datatype Problem = Problem(code: Code, correlation: string, retryable: bool)

  datatype Invocation = Invocation(
    meta: Metadata, serviceId: string, revisionId: string, alias: string, state: InvocationState,
    input: map<string, Value>, result: Option<string>, error: Option<Problem>, usage: Option<Usage>,
    correlationId: string, operationId: string, artifactIds: seq<string>, completedAt: Option<Time>)

  /** What an operation has observed: "observing" while its invocation runs, else the invocation's state. */
  datatype Observed = Observing | Settled(state: InvocationState)

  datatype Command = InvokeCommand | CancelCommand | NoCommand

  datatype Operation = Operation(
    meta: Metadata, resourceId: string, command: Command, desired: InvocationState, observed: Observed,
    attempt: int, correlationId: string, dueAt: Option<Time>, deadlineAt: Option<Time>,
    terminalResult: Option<string>, error: Option<Problem>)

  datatype ArtifactDescriptor = ArtifactDescriptor(
    meta: Metadata, invocationId: string, name: string, kind: string, mediaType: string,
    sizeBytes: int, digest: string, sensitive: bool)

  // ---- Runtime events and the journal --------------------------------------------------

  datatype EventKind =
    | LifecycleWaiting | LifecycleSucceeded | LifecycleFailed | LifecycleCancelled
    | ErrorOccurred | UsageRecorded | ArtifactAvailable
    | OtherKind(name: string)

  /** A decoded JSON value inside an event payload or an invocation input. */
  datatype Value = Text(text: string) | Number(number: int) | Flag(flag: bool)
    | Described(artifact: ArtifactDescriptor) | Opaque(raw: Json)

  type Payload = map<string, Value>

  datatype RuntimeEvent = RuntimeEvent(
    key: string, sequence: int, kind: EventKind, payload: Option<Payload>, extensions: Json)

  datatype Event = Event(
    id: string, domain: string, invocationId: string, sequence: int, kind: EventKind,
    occurredAt: Time, recordedAt: Time, correlationId: string, actorId: string,
    serviceId: string, revisionId: string, payload: Payload, extensions: Json)

  function TextOf(payload: Payload, field: string): string {
    if field in payload && payload[field].Text? then payload[field].text else ""
  }

  function NumberOf(payload: Payload, field: string): int {
    if field in payload && payload[field].Number? then payload[field].number else 0
  }

  function FlagOf(payload: Payload, field: string): bool {
    field in payload && payload[field].Flag? && payload[field].flag
  }

  // ---- Saved resources -------------------------------------------------------------------

  datatype ResourceKind = WorkspaceKind | ServiceKind | InvocationKind | ArtifactKind

  datatype SavedKey = SavedKey(scope: string, principalKind: string, principalId: string, resourceId: string)

  datatype SavedState = SavedState(domain: string, kind: ResourceKind, resourceId: string, saved: bool, updatedAt: Time)

  // ---- Map keys ---------------------------------------------------------------------------

  function ResourceKey(domain: string, id: string): string { domain + ['/'] + id }

  function AliasKey(domain: string, service: string, alias: string): string {
    domain + ['/'] + (service + ['/'] + alias)
  }

  function ArtifactKey(domain: string, invocation: string, artifact: string): string {
    domain + ['/'] + (invocation + ['/'] + artifact)
  }

  /** The isolation domain a key belongs to. */
  function DomainOf(key: string): string { Before(key, '/') }

  /** What follows the isolation domain. */
  function LocalOf(key: string): string { After(key, '/') }

  /** `^iso_[0-9a-z]{20,32}$` */
  predicate ValidDomain(domain: string) { Tagged(domain, "iso") }

  /** A resource key determines both of its parts, whatever the identifier contains. */
  lemma ResourceKeySplits(domain: string, id: string)
    requires ValidDomain(domain)
    ensures DomainOf(ResourceKey(domain, id)) == domain
    ensures LocalOf(ResourceKey(domain, id)) == id
  {
    SplitAtFirst(domain, '/', id);
  }

  /** A key in three parts determines all of them once the middle part has no separator. */
  lemma NestedKeySplits(domain: string, owner: string, leaf: string)
    requires ValidDomain(domain)
    ensures DomainOf(AliasKey(domain, owner, leaf)) == domain
    ensures '/' !in owner ==>
      && Before(LocalOf(AliasKey(domain, owner, leaf)), '/') == owner
      && After(LocalOf(AliasKey(domain, owner, leaf)), '/') == leaf
  {
    SplitAtFirst(domain, '/', owner + ['/'] + leaf);
    if '/' !in owner {
      SplitAtFirst(owner, '/', leaf);
    }
  }

  /** Key collisions never cross isolation domains, and within one they are equal identifiers. */
  lemma ResourceKeyInjective(d1: string, id1: string, d2: string, id2: string)
    requires ValidDomain(d1) && ValidDomain(d2)
    requires ResourceKey(d1, id1) == ResourceKey(d2, id2)
    ensures d1 == d2 && id1 == id2
  {
    ResourceKeySplits(d1, id1);
    ResourceKeySplits(d2, id2);
  }

  lemma NestedKeyInjective(d1: string, o1: string, l1: string, d2: string, o2: string, l2: string)
    requires ValidDomain(d1) && ValidDomain(d2) && '/' !in o1 && '/' !in o2
    requires AliasKey(d1, o1, l1) == AliasKey(d2, o2, l2)
    ensures d1 == d2 && o1 == o2 && l1 == l2
  {
    NestedKeySplits(d1, o1, l1);
    NestedKeySplits(d2, o2, l2);
  }

  // ---- Request field rules ------------------------------------------------------------------

  /** `^[a-z](?:[a-z0-9-]*[a-z0-9])?$` */
  predicate AliasPattern(s: string) {
    && s != []
    && 'a' <= s[0] <= 'z'
    && LowerAlnum(s[|s| - 1])
    && forall i | 0 <= i < |s| :: LowerAlnum(s[i]) || s[i] == '-'
  }

  /** The rule for alias names in paths: the pattern and at most 63 characters. */
  predicate AliasName(s: string) { |s| <= 63 && AliasPattern(s) }

  /** `^[A-Za-z0-9._:-]{8,128}$` */
  predicate IdempotencyKey(s: string) {
    && 8 <= |s| <= 128
    && forall i | 0 <= i < |s| ::
         LowerAlnum(s[i]) || 'A' <= s[i] <= 'Z' || s[i] == '.' || s[i] == '_' || s[i] == ':' || s[i] == '-'
  }
}
