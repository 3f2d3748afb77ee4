/** The server's state and what each mutation does to it, as functions from state to state.
    `Mutate` is the whole of one request: admission, the idempotency cache, then one handler. */
module Handlers {
  import opened Text
  import opened Resources
  import opened Requests
  import opened Journal
  import opened ReferenceRuntime

  datatype Stored = Stored(digest: string, reply: Response)

  datatype State = State(
    workspaces: map<string, Workspace>,
    saved: map<SavedKey, SavedState>,
    services: map<string, AgentService>,
    revisions: map<string, ServiceRevision>,
    revisionCounts: map<string, int>,
    aliases: map<string, ServiceAlias>,
    invocations: map<string, Invocation>,
    operations: map<string, Operation>,
    events: map<string, seq<Event>>,
    artifacts: map<string, ArtifactDescriptor>,
    cache: map<string, Stored>)

  const EMPTY := State(map[], map[], map[], map[], map[], map[], map[], map[], map[], map[], map[])

  datatype Outcome = Outcome(state: State, reply: Response)

  function Actor(r: Request): string { if r.principal.Some? then r.principal.value.id else "" }

  function CountOf(counts: map<string, int>, key: string): int { if key in counts then counts[key] else 0 }

  function Bump(meta: Metadata, now: Time): Metadata {
    meta.(generation := meta.generation + 1, version := meta.version + 1, updatedAt := now)
  }

  // ---- Creation -------------------------------------------------------------------------------

  function NameRules(p: Platform, name: string, description: string): bool {
    && p.trim(name) == name && 0 < |name| <= 128 && |description| <= 2048
    && p.plainText(name) && p.plainText(description)
  }

  ghost function DoCreateWorkspace(p: Platform, s: State, r: Request, domain: string, input: Input): Outcome {
    if !input.NamedInput? then Outcome(s, Refuse(400, InvalidRequest, r.ids.problem))
    else
      var name := p.trim(input.name);
      if !NameRules(p, name, input.description) then Outcome(s, Refuse(400, InvalidRequest, r.ids.problem))
      else
        var value := Workspace(NewMetadata(r.ids.resource, domain, Actor(r), r.now), name, input.description);
        Outcome(s.(workspaces := s.workspaces[ResourceKey(domain, r.ids.resource) := value]),
                Response(201, WorkspaceBody(value)))
  }

  function ServiceRefusal(p: Platform, workspaces: map<string, Workspace>, r: Request, domain: string, workspaceId: string,
                          input: Input): Option<Response> {
    if !input.NamedInput? then Some(Refuse(400, InvalidRequest, r.ids.problem))
    else if p.trim(input.name) == "" || |p.trim(input.name)| > 128 then Some(Refuse(400, InvalidRequest, r.ids.problem))
    else if |input.description| > 2048 then Some(Refuse(400, InvalidRequest, r.ids.problem))
    else if workspaceId != "" && !Tagged(workspaceId, "wsp") then Some(Refuse(400, InvalidRequest, r.ids.problem))
    else if workspaceId != "" && ResourceKey(domain, workspaceId) !in workspaces then
      Some(Refuse(404, ResourceNotFound, r.correlation))
    else None
  }

  function DoCreateService(p: Platform, s: State, r: Request, domain: string, workspaceId: string, input: Input): Outcome {
    var refusal := ServiceRefusal(p, s.workspaces, r, domain, workspaceId, input);
    if refusal.Some? then Outcome(s, refusal.value)
    else
      var value := AgentService(workspaceId, NewMetadata(r.ids.resource, domain, Actor(r), r.now), p.trim(input.name), input.description);
      Outcome(s.(services := s.services[ResourceKey(domain, r.ids.resource) := value]), Response(201, ServiceBody(value)))
  }

  predicate CapabilityNames(p: Platform, names: seq<string>) {
    && (forall i, j | 0 <= i < j < |names| :: names[i] != names[j])
    && (forall name | name in names :: p.trim(name) != "" && |name| <= 128)
  }

  ghost function RevisionRefusal(p: Platform, services: map<string, AgentService>, r: Request, serviceKey: string, input: Input): Option<Response> {
    if serviceKey !in services then Some(Refuse(404, ResourceNotFound, r.ids.problem))
    else if !input.RevisionInput? then Some(Refuse(400, InvalidRequest, r.ids.problem))
    else if p.trim(input.runtimeProfile) == "" || |input.runtimeProfile| > 128 then Some(Refuse(400, InvalidRequest, r.ids.problem))
    else if !CapabilityNames(p, input.requiredCapabilities) then Some(Refuse(400, InvalidRequest, r.ids.problem))
    else None
  }

  function NewRevision(r: Request, domain: string, serviceId: string, number: int, input: Input): ServiceRevision
    requires input.RevisionInput?
  {
    ServiceRevision(
      NewMetadata(r.ids.resource, domain, Actor(r), r.now), serviceId, number, RevisionState.Draft,
      input.runtimeProfile, input.requiredCapabilities, input.inputSchema, input.outputSchema, None)
  }

  ghost function DoCreateRevision(p: Platform, s: State, r: Request, domain: string, serviceId: string, input: Input): Outcome {
    var serviceKey := ResourceKey(domain, serviceId);
    var refusal := RevisionRefusal(p, s.services, r, serviceKey, input);
    if refusal.Some? then Outcome(s, refusal.value)
    else
      var number := CountOf(s.revisionCounts, serviceKey) + 1;
      var value := NewRevision(r, domain, serviceId, number, input);
      Outcome(s.(revisionCounts := s.revisionCounts[serviceKey := number],
                 revisions := s.revisions[ResourceKey(domain, r.ids.resource) := value]),
              Response(201, RevisionBody(value)))
  }

  // ---- Revision lifecycle -----------------------------------------------------------------------

  const REFERENCE_PROFILE := "reference/v1"

  ghost function PublishRefusal(p: Platform, revisions: map<string, ServiceRevision>, r: Request, key: string, input: Input): Option<Response> {
    if !input.VersionInput? then Some(Refuse(400, InvalidRequest, r.ids.problem))
    else if key !in revisions then Some(Refuse(404, ResourceNotFound, r.ids.problem))
    else
      var revision := revisions[key];
      var fault := p.schemasFault(revision.inputSchema, revision.outputSchema);
      if revision.meta.version != input.expectedVersion then Some(Refuse(409, VersionConflict, r.ids.problem))
      else if !revision.state.Draft? then Some(Refuse(409, RevisionImmutable, r.ids.problem))
      else if revision.runtimeProfile != REFERENCE_PROFILE then Some(Refuse(409, RuntimeProfileUnavailable, r.ids.problem))
      else if exists c :: c in revision.requiredCapabilities && !p.capable(c) then
        Some(Refuse(409, RequiredCapabilityUnavailable, r.ids.problem))
      else if fault.Some? then Some(Refuse(409, SchemaProblem(fault.value), r.correlation))
      else None
  }

  function PublishedRevision(revision: ServiceRevision, now: Time): ServiceRevision {
    revision.(state := Published, publishedAt := Some(now),
              meta := revision.meta.(version := revision.meta.version + 1, updatedAt := now))
  }

  ghost function DoPublish(p: Platform, s: State, r: Request, domain: string, revisionId: string, input: Input): Outcome {
    var key := ResourceKey(domain, revisionId);
    var refusal := PublishRefusal(p, s.revisions, r, key, input);
    if refusal.Some? then Outcome(s, refusal.value)
    else
      var value := PublishedRevision(s.revisions[key], r.now);
      Outcome(s.(revisions := s.revisions[key := value]), Response(200, RevisionBody(value)))
  }

  /** Some alias of the domain that has not been withdrawn points at the revision. */
  ghost predicate Routed(s: State, domain: string, revisionId: string) {
    exists k :: k in s.aliases && s.aliases[k].meta.domain == domain
             && s.aliases[k].revisionId == revisionId && s.aliases[k].withdrawnAt.None?
  }

  /** Some invocation of the revision in the domain has not finished. */
  ghost predicate Active(s: State, domain: string, revisionId: string) {
    exists k :: k in s.invocations && s.invocations[k].meta.domain == domain
             && s.invocations[k].revisionId == revisionId && !Terminal(s.invocations[k].state)
  }

  ghost function RetireRefusal(s: State, r: Request, domain: string, key: string, input: Input): Option<Response> {
    if !input.VersionInput? || input.expectedVersion < 1 then Some(Refuse(400, InvalidRequest, r.correlation))
    else if key !in s.revisions then Some(Refuse(404, ResourceNotFound, r.correlation))
    else
      var revision := s.revisions[key];
      if revision.meta.version != input.expectedVersion then Some(Refuse(409, VersionConflict, r.correlation))
      else if !revision.state.Published? then Some(Refuse(409, RevisionNotPublished, r.correlation))
      else if Routed(s, domain, revision.meta.id) then Some(Refuse(409, RevisionStillRouted, r.correlation))
      else if Active(s, domain, revision.meta.id) then Some(Refuse(409, RevisionStillActive, r.correlation))
      else None
  }

  function RetiredRevision(revision: ServiceRevision, now: Time): ServiceRevision {
    revision.(state := Retired, meta := Bump(revision.meta, now))
  }

  ghost function DoRetire(s: State, r: Request, domain: string, revisionId: string, input: Input): Outcome {
    var key := ResourceKey(domain, revisionId);
    var refusal := RetireRefusal(s, r, domain, key, input);
    if refusal.Some? then Outcome(s, refusal.value)
    else
      var value := RetiredRevision(s.revisions[key], r.now);
      Outcome(s.(revisions := s.revisions[key := value]), Response(200, RevisionBody(value)))
  }

  // ---- Aliases ------------------------------------------------------------------------------------

  /** The version an assignment must name: zero for an alias that is absent or withdrawn. */
  function RequiredVersion(aliases: map<string, ServiceAlias>, key: string): int {
    if key !in aliases || aliases[key].withdrawnAt.Some? then 0 else aliases[key].meta.version
  }

  function AssignRefusal(s: State, r: Request, domain: string, serviceId: string, alias: string, input: Input): Option<Response> {
    if ResourceKey(domain, serviceId) !in s.services then Some(Refuse(404, ResourceNotFound, r.ids.problem))
    else if !AliasName(alias) then Some(Refuse(400, InvalidRequest, r.ids.problem))
    else if !input.AliasInput? then Some(Refuse(400, InvalidRequest, r.ids.problem))
    else
      var target := ResourceKey(domain, input.revisionId);
      if target !in s.revisions || s.revisions[target].serviceId != serviceId then
        Some(Refuse(404, ResourceNotFound, r.ids.problem))
      else if !s.revisions[target].state.Published? then Some(Refuse(409, RevisionNotPublished, r.ids.problem))
      else if (if input.expected.Some? then input.expected.value else 0) != RequiredVersion(s.aliases, AliasKey(domain, serviceId, alias))
      then Some(Refuse(409, VersionConflict, r.ids.problem))
      else None
  }

  function Assigned(aliases: map<string, ServiceAlias>, r: Request, domain: string, serviceId: string, alias: string,
                    revisionId: string): ServiceAlias {
    var key := AliasKey(domain, serviceId, alias);
    if key in aliases then
      aliases[key].(revisionId := revisionId, withdrawnAt := None, meta := Bump(aliases[key].meta, r.now))
    else ServiceAlias(None, NewMetadata(r.ids.resource, domain, Actor(r), r.now), serviceId, alias, revisionId)
  }

  function DoAssign(s: State, r: Request, domain: string, serviceId: string, alias: string, input: Input): Outcome {
    var refusal := AssignRefusal(s, r, domain, serviceId, alias, input);
    if refusal.Some? then Outcome(s, refusal.value)
    else
      var value := Assigned(s.aliases, r, domain, serviceId, alias, input.revisionId);
      Outcome(s.(aliases := s.aliases[AliasKey(domain, serviceId, alias) := value]), Response(200, AliasBody(value)))
  }

  function WithdrawRefusal(aliases: map<string, ServiceAlias>, r: Request, key: string, alias: string, input: Input): Option<Response> {
    if !input.VersionInput? || input.expectedVersion < 1 || !AliasName(alias) then Some(Refuse(400, InvalidRequest, r.correlation))
    else if key !in aliases || aliases[key].withdrawnAt.Some? then Some(Refuse(404, ResourceNotFound, r.ids.problem))
    else if aliases[key].meta.version != input.expectedVersion then Some(Refuse(409, VersionConflict, r.ids.problem))
    else None
  }

  function DoWithdraw(s: State, r: Request, domain: string, serviceId: string, alias: string, input: Input): Outcome {
    var key := AliasKey(domain, serviceId, alias);
    var refusal := WithdrawRefusal(s.aliases, r, key, alias, input);
    if refusal.Some? then Outcome(s, refusal.value)
    else
      var value := s.aliases[key].(withdrawnAt := Some(r.now), meta := Bump(s.aliases[key].meta, r.now));
      Outcome(s.(aliases := s.aliases[key := value]), Response(200, AliasBody(value)))
  }

  // ---- Invocations ----------------------------------------------------------------------------------

  /** An invocation being built: the record, its journal so far, and the artifacts it made. */
  datatype Draft = Drafting(invocation: Invocation, journal: seq<Event>, made: map<string, ArtifactDescriptor>)

  function MakeArtifact(p: Platform, inv: Invocation, at: Time, payload: Payload): ArtifactDescriptor {
    ArtifactDescriptor(
      NewMetadata(p.artifactId(inv.meta.id, if "digest" in payload then Some(payload["digest"]) else None),
                  inv.meta.domain, "reference-runtime", at),
      inv.meta.id, TextOf(payload, "name"), TextOf(payload, "kind"), TextOf(payload, "mediaType"),
      NumberOf(payload, "sizeBytes"), TextOf(payload, "digest"), FlagOf(payload, "sensitive"))
  }

  /** The success event of a result the revision's output schema refuses becomes a failure event. */
  function OutputVerdict(p: Platform, schema: Option<Json>, e: RuntimeEvent): Option<SchemaFault>
    requires e.payload.Some?
  {
    if e.kind.LifecycleSucceeded? then p.outputFault(schema, TextOf(e.payload.value, "message")) else None
  }

  function ExtendDraft(p: Platform, d: Draft, e: RuntimeEvent, schema: Option<Json>): Draft
    requires e.payload.Some?
  {
    var inv := d.invocation;
    var at := inv.meta.createdAt + (e.sequence - 1) * MILLISECOND;
    var verdict := OutputVerdict(p, schema, e);
    var kind := if verdict.Some? then LifecycleFailed else e.kind;
    var artifact := MakeArtifact(p, inv, at, e.payload.value);
    var payload :=
      if verdict.Some? then map["state" := Text("failed")]
      else if e.kind.ArtifactAvailable? then map["artifactId" := Text(artifact.meta.id), "descriptor" := Described(artifact)]
      else e.payload.value;
    var judged :=
      if verdict.Some? then inv.(error := Some(Problem(SchemaProblem(verdict.value), inv.correlationId, false))) else inv;
    var listed := if e.kind.ArtifactAvailable? then judged.(artifactIds := judged.artifactIds + [artifact.meta.id]) else judged;
    var event := Event(
      p.eventId(inv.meta.id, e.key), inv.meta.domain, inv.meta.id, e.sequence, kind, at, at,
      inv.correlationId, "reference-runtime", inv.serviceId, inv.revisionId, payload, e.extensions);
    Drafting(
      ApplyEvent(listed, kind, payload, at),
      d.journal + [event],
      if e.kind.ArtifactAvailable? then d.made[ArtifactKey(inv.meta.domain, inv.meta.id, artifact.meta.id) := artifact] else d.made)
  }

  predicate Payloads(events: seq<RuntimeEvent>) { forall e | e in events :: e.payload.Some? }

  function BuildDraft(p: Platform, start: Invocation, events: seq<RuntimeEvent>, schema: Option<Json>): Draft
    requires Payloads(events)
  {
    if events == [] then Drafting(start, [], map[])
    else ExtendDraft(p, BuildDraft(p, start, events[..|events| - 1], schema), events[|events| - 1], schema)
  }

  function ObservedOf(state: InvocationState): Observed { if state.Running? then Observing else Settled(state) }

  function NewInvocation(r: Request, domain: string, serviceId: string, revisionId: string, alias: string,
                         arguments: map<string, Value>): Invocation {
    Invocation(NewMetadata(r.ids.resource, domain, Actor(r), r.now), serviceId, revisionId, alias, Running,
               arguments, None, None, None, r.correlation, r.ids.operation, [], None)
  }

  function NewOperation(r: Request, domain: string, inv: Invocation): Operation {
    Operation(NewMetadata(r.ids.operation, domain, Actor(r), r.now), inv.meta.id, InvokeCommand, Succeeded,
              ObservedOf(inv.state), 1, r.correlation, Some(r.now), Some(r.now), inv.result, inv.error)
  }

  const SUCCESS_SCENARIO := "success"

  /** The scenario an input asks for; None when it is not a string. */
  function ScenarioOf(arguments: map<string, Value>): Option<string> {
    if "scenario" !in arguments then Some(SUCCESS_SCENARIO)
    else if arguments["scenario"].Text? then Some(arguments["scenario"].text)
    else None
  }

  /** The published revision an alias resolves to, as invocation looks it up. */
  function Resolve(s: State, domain: string, serviceId: string, alias: string): Option<ServiceRevision> {
    var key := AliasKey(domain, serviceId, alias);
    if key !in s.aliases || s.aliases[key].withdrawnAt.Some? then None
    else
      var target := ResourceKey(domain, s.aliases[key].revisionId);
      if target !in s.revisions || !s.revisions[target].state.Published? then None
      else Some(s.revisions[target])
  }

  ghost function InvokeRefusal(p: Platform, s: State, r: Request, domain: string, serviceId: string, input: Input): Option<Response> {
    if ResourceKey(domain, serviceId) !in s.services then Some(Refuse(404, ResourceNotFound, r.ids.problem))
    else if !input.InvokeInput? then Some(Refuse(400, InvalidRequest, r.ids.problem))
    else if !AliasPattern(input.alias) || input.arguments.None? then Some(Refuse(400, InvalidRequest, r.ids.problem))
    else
      var revision := Resolve(s, domain, serviceId, input.alias);
      if revision.None? then Some(Refuse(404, ResourceNotFound, r.ids.problem))
      else RunRefusal(p, r, revision.value.inputSchema, input.arguments.value)
  }

  /** The refusals that depend on the input alone, once the revision is known. */
  ghost function RunRefusal(p: Platform, r: Request, schema: Option<Json>, arguments: map<string, Value>): Option<Response> {
    var fault := p.inputFault(schema, arguments);
    var scenario := ScenarioOf(arguments);
    if fault.Some? then
      Some(Refuse(if fault.value.InputSchemaInvalid? then 409 else 400, SchemaProblem(fault.value), r.correlation))
    else if scenario.None? || p.scenario(scenario.value).None? then Some(Refuse(400, InvalidRequest, r.ids.problem))
    else if Normalized(p.scenario(scenario.value).value).None? then Some(Refuse(500, FixtureInvalid, r.ids.problem))
    else if r.correlation == "" then Some(Refuse(500, AuthorizationUnavailable, r.ids.problem, true))
    else None
  }

  ghost function RunDraft(p: Platform, r: Request, domain: string, serviceId: string, alias: string, revision: ServiceRevision,
                          arguments: map<string, Value>): Draft
    requires RunRefusal(p, r, revision.inputSchema, arguments).None?
  {
    var events := p.scenario(ScenarioOf(arguments).value).value;
    NormalizedPayloads(events);
    BuildDraft(p, NewInvocation(r, domain, serviceId, revision.meta.id, alias, arguments),
               Normalized(events).value, revision.outputSchema)
  }

  ghost function DoInvoke(p: Platform, s: State, r: Request, domain: string, serviceId: string, input: Input): Outcome {
    var refusal := InvokeRefusal(p, s, r, domain, serviceId, input);
    if refusal.Some? then Outcome(s, refusal.value)
    else
      var revision := Resolve(s, domain, serviceId, input.alias).value;
      Launch(s, r, domain, RunDraft(p, r, domain, serviceId, input.alias, revision, input.arguments.value))
  }

  /** Store an invocation with its journal and its operation. */
  function Record(s: State, key: string, inv: Invocation, journal: seq<Event>, operationKey: string, operation: Operation): State {
    s.(invocations := s.invocations[key := inv], events := s.events[key := journal],
       operations := s.operations[operationKey := operation])
  }

  function Launch(s: State, r: Request, domain: string, draft: Draft): Outcome {
    var inv := draft.invocation;
    var stored := s.(artifacts := s.artifacts + draft.made);
    Outcome(
      Record(stored, ResourceKey(domain, r.ids.resource), inv, draft.journal,
             ResourceKey(domain, r.ids.operation), NewOperation(r, domain, inv)),
      Response(202, InvocationBody(inv)))
  }

  lemma NormalizedPayloads(events: seq<RuntimeEvent>)
    ensures Normalized(events).Some? ==> Payloads(Normalized(events).value)
  {
    var out := Normalized(events);
    if out.Some? {
      forall e | e in out.value ensures e.payload.Some? {
        assert e in Sorting.Elements(events);
        assert Complete(e);
      }
    }
  }

  const ABSENT_OPERATION := Operation(
    Metadata("", "", 0, 0, 0, 0, ""), "", NoCommand, Running, Observing, 0, "", None, None, None, None)

  function OperationAt(operations: map<string, Operation>, key: string): Operation {
    if key in operations then operations[key] else ABSENT_OPERATION
  }

  function JournalAt(events: map<string, seq<Event>>, key: string): seq<Event> { if key in events then events[key] else [] }

  const CANCEL_PAYLOAD: Payload := map["reason" := Text("caller requested cancellation")]

  function CancelEvent(p: Platform, r: Request, domain: string, inv: Invocation, sequence: int): Event {
    Event(p.cancelEventId(inv.meta.id, sequence), domain, inv.meta.id, sequence, LifecycleCancelled, r.now, r.now,
          inv.correlationId, Actor(r), inv.serviceId, inv.revisionId,
          CANCEL_PAYLOAD, "")
  }

  /** The reply of a cancellation that changes nothing: refused, or already cancelled. */
  function CancelReply(invocations: map<string, Invocation>, r: Request, key: string, input: Input): Option<Response> {
    if !input.CancelInput? then Some(Refuse(400, InvalidRequest, r.ids.problem))
    else if |input.reason| > 512 then Some(Refuse(400, InvalidRequest, r.ids.problem))
    else if key !in invocations then Some(Refuse(404, ResourceNotFound, r.ids.problem))
    else if invocations[key].state.Cancelled? then Some(Response(200, InvocationBody(invocations[key])))
    else if invocations[key].state.Succeeded? || invocations[key].state.Failed? then
      Some(Refuse(409, InvocationTerminal, r.ids.problem))
    else None
  }

  function CancelledOperation(operation: Operation, now: Time): Operation {
    operation.(command := CancelCommand, desired := Cancelled, observed := Settled(Cancelled), meta := Bump(operation.meta, now))
  }

  function CancelledInvocation(inv: Invocation, now: Time): Invocation {
    inv.(state := Cancelled, completedAt := Some(now), meta := Bump(inv.meta, now))
  }

  function CancelledJournal(p: Platform, r: Request, domain: string, inv: Invocation, journal: seq<Event>): seq<Event> {
    journal + [CancelEvent(p, r, domain, inv, |journal| + 1)]
  }

  function ApplyCancel(p: Platform, s: State, r: Request, domain: string, key: string): State
    requires key in s.invocations
  {
    var inv := s.invocations[key];
    var operationKey := ResourceKey(domain, inv.operationId);
    Record(s, key, CancelledInvocation(inv, r.now), CancelledJournal(p, r, domain, inv, JournalAt(s.events, key)),
           operationKey, CancelledOperation(OperationAt(s.operations, operationKey), r.now))
  }

  function DoCancel(p: Platform, s: State, r: Request, domain: string, invocationId: string, input: Input): Outcome {
    var key := ResourceKey(domain, invocationId);
    var reply := CancelReply(s.invocations, r, key, input);
    if reply.Some? then Outcome(s, reply.value)
    else Outcome(ApplyCancel(p, s, r, domain, key), Response(200, InvocationBody(CancelledInvocation(s.invocations[key], r.now))))
  }

  /** Only these maps change when an invocation is launched or cancelled. */
  ghost predicate TouchesRuns(s: State, s': State) {
    s' == s.(invocations := s'.invocations, events := s'.events, operations := s'.operations, artifacts := s'.artifacts)
  }

  lemma InvokeTouches(p: Platform, s: State, r: Request, domain: string, serviceId: string, input: Input)
    ensures TouchesRuns(s, DoInvoke(p, s, r, domain, serviceId, input).state)
  {
  }

  lemma CancelTouches(p: Platform, s: State, r: Request, domain: string, invocationId: string, input: Input)
    ensures TouchesRuns(s, DoCancel(p, s, r, domain, invocationId, input).state)
    ensures DoCancel(p, s, r, domain, invocationId, input).state.artifacts == s.artifacts
  {
  }

  // ---- Saved resources --------------------------------------------------------------------------------

  predicate InvocationResolves(s: State, scope: string, invocationId: string) {
    var key := ResourceKey(scope, invocationId);
    key in s.invocations && ResourceKey(scope, s.invocations[key].serviceId) in s.services
  }

  /** The navigation target of a saved reference exists, with every record its projection joins. */
  ghost predicate TargetExists(s: State, scope: string, kind: ResourceKind, id: string) {
    match kind
    case WorkspaceKind => ResourceKey(scope, id) in s.workspaces
    case ServiceKind => ResourceKey(scope, id) in s.services
    case InvocationKind => InvocationResolves(s, scope, id)
    case ArtifactKind =>
      exists k :: k in s.artifacts && s.artifacts[k].meta.domain == scope && s.artifacts[k].meta.id == id
               && InvocationResolves(s, scope, s.artifacts[k].invocationId)
  }

  /** Every artifact leads to an invocation and its service. */
  ghost predicate ArtifactsLinked(s: State) {
    forall k | k in s.artifacts :: InvocationResolves(s, s.artifacts[k].meta.domain, s.artifacts[k].invocationId)
  }

  /** Some artifact with this identifier leads nowhere. */
  ghost predicate Dangles(s: State, scope: string, id: string) {
    exists k :: k in s.artifacts && s.artifacts[k].meta.domain == scope && s.artifacts[k].meta.id == id
             && !InvocationResolves(s, scope, s.artifacts[k].invocationId)
  }

  function KindPrefix(kind: ResourceKind): string {
    match kind case WorkspaceKind => "wsp" case ServiceKind => "svc" case InvocationKind => "inv" case ArtifactKind => "art"
  }

  ghost function SavedRefusal(p: Platform, s: State, r: Request, domain: string, input: Input): Option<Response> {
    if !input.SavedInput? || !Tagged(input.resourceId, KindPrefix(input.kind)) || r.principal.None?
       || !p.ownerValid(r.principal.value) then Some(Refuse(400, InvalidRequest, r.ids.problem))
    else if input.saved && !TargetExists(s, domain, input.kind, input.resourceId) then
      Some(Refuse(404, ResourceNotFound, r.ids.problem))
    else None
  }

  /** The saved state after a request: unchanged when it already says so, with its original instant. */
  function Remembered(saved: map<SavedKey, SavedState>, key: SavedKey, kind: ResourceKind, value: bool, now: Time): SavedState {
    if key !in saved || saved[key].saved != value then SavedState(key.scope, kind, key.resourceId, value, now) else saved[key]
  }

  ghost function DoSetSaved(p: Platform, s: State, r: Request, domain: string, input: Input): Outcome {
    var refusal := SavedRefusal(p, s, r, domain, input);
    if refusal.Some? then Outcome(s, refusal.value)
    else
      var key := SavedKey(domain, r.principal.value.kind, Actor(r), input.resourceId);
      var value := Remembered(s.saved, key, input.kind, input.saved, r.now);
      Outcome(s.(saved := s.saved[key := value]), Response(200, SavedBody(value)))
  }

  // ---- One request ---------------------------------------------------------------------------------------

  function DoResolveApproval(s: State, r: Request, input: Input): Outcome {
    if !input.ApprovalInput? || input.version != 1 || !input.decided then Outcome(s, Refuse(400, InvalidRequest, r.ids.problem))
    else Outcome(s, Refuse(404, ResourceNotFound, r.ids.problem))
  }

  ghost function Handle(p: Platform, s: State, r: Request, route: Route, input: Input): Outcome {
    match route
    case CreateWorkspace(domain) => DoCreateWorkspace(p, s, r, domain, input)
    case CreateService(domain, workspaceId) => DoCreateService(p, s, r, domain, workspaceId, input)
    case CreateRevision(domain, serviceId) => DoCreateRevision(p, s, r, domain, serviceId, input)
    case PublishRevision(domain, revisionId) => DoPublish(p, s, r, domain, revisionId, input)
    case RetireRevision(domain, revisionId) => DoRetire(s, r, domain, revisionId, input)
    case AssignAlias(domain, serviceId, alias) => DoAssign(s, r, domain, serviceId, alias, input)
    case WithdrawAlias(domain, serviceId, alias) => DoWithdraw(s, r, domain, serviceId, alias, input)
    case Invoke(domain, serviceId) => DoInvoke(p, s, r, domain, serviceId, input)
    case CancelInvocation(domain, invocationId) => DoCancel(p, s, r, domain, invocationId, input)
    case SetSaved(domain) => DoSetSaved(p, s, r, domain, input)
    case ResolveApproval(_) => DoResolveApproval(s, r, input)
  }

  /** The routes of the catalogue: workspaces, services and revisions. */
  predicate ChangesCatalog(route: Route) {
    route.CreateWorkspace? || route.CreateService? || route.CreateRevision? || route.PublishRevision? || route.RetireRevision?
  }

  lemma CreateWorkspaceTouches(p: Platform, s: State, r: Request, domain: string, input: Input)
    ensures var s' := DoCreateWorkspace(p, s, r, domain, input).state; s' == s.(workspaces := s'.workspaces)
  {
  }

  lemma CreateServiceTouches(p: Platform, s: State, r: Request, domain: string, workspaceId: string, input: Input)
    ensures var s' := DoCreateService(p, s, r, domain, workspaceId, input).state; s' == s.(services := s'.services)
  {
  }

  lemma CreateRevisionTouches(p: Platform, s: State, r: Request, domain: string, serviceId: string, input: Input)
    ensures var s' := DoCreateRevision(p, s, r, domain, serviceId, input).state;
      s' == s.(revisions := s'.revisions, revisionCounts := s'.revisionCounts)
  {
  }

  lemma PublishTouches(p: Platform, s: State, r: Request, domain: string, revisionId: string, input: Input)
    ensures var s' := DoPublish(p, s, r, domain, revisionId, input).state; s' == s.(revisions := s'.revisions)
  {
  }

  lemma RetireTouches(s: State, r: Request, domain: string, revisionId: string, input: Input)
    ensures var s' := DoRetire(s, r, domain, revisionId, input).state; s' == s.(revisions := s'.revisions)
  {
  }

  lemma AssignTouches(s: State, r: Request, domain: string, serviceId: string, alias: string, input: Input)
    ensures var s' := DoAssign(s, r, domain, serviceId, alias, input).state; s' == s.(aliases := s'.aliases)
  {
  }

  lemma WithdrawTouches(s: State, r: Request, domain: string, serviceId: string, alias: string, input: Input)
    ensures var s' := DoWithdraw(s, r, domain, serviceId, alias, input).state; s' == s.(aliases := s'.aliases)
  {
  }

  lemma SetSavedTouches(p: Platform, s: State, r: Request, domain: string, input: Input)
    ensures var s' := DoSetSaved(p, s, r, domain, input).state; s' == s.(saved := s'.saved)
  {
  }

  /** Which maps a request may change. */
  ghost predicate Spares(route: Route, s: State, s': State) {
    && s'.cache == s.cache
    && (!route.AssignAlias? && !route.WithdrawAlias? ==> s'.aliases == s.aliases)
    && (!route.CreateRevision? && !route.PublishRevision? && !route.RetireRevision? ==> s'.revisions == s.revisions)
    && (!route.CreateWorkspace? ==> s'.workspaces == s.workspaces)
    && (!route.CreateService? ==> s'.services == s.services)
    && (!route.Invoke? && !route.CancelInvocation? ==> s'.invocations == s.invocations)
    && (!route.Invoke? ==> s'.artifacts == s.artifacts)
  }

  lemma HandleFrame(p: Platform, s: State, r: Request, route: Route, input: Input)
    ensures Spares(route, s, Handle(p, s, r, route, input).state)
  {
    match route
    case CreateWorkspace(domain) => CreateWorkspaceTouches(p, s, r, domain, input);
    case CreateService(domain, workspaceId) => CreateServiceTouches(p, s, r, domain, workspaceId, input);
    case CreateRevision(domain, serviceId) => CreateRevisionTouches(p, s, r, domain, serviceId, input);
    case PublishRevision(domain, revisionId) => PublishTouches(p, s, r, domain, revisionId, input);
    case RetireRevision(domain, revisionId) => RetireTouches(s, r, domain, revisionId, input);
    case AssignAlias(domain, serviceId, alias) => AssignTouches(s, r, domain, serviceId, alias, input);
    case WithdrawAlias(domain, serviceId, alias) => WithdrawTouches(s, r, domain, serviceId, alias, input);
    case Invoke(domain, serviceId) => InvokeTouches(p, s, r, domain, serviceId, input);
    case CancelInvocation(domain, invocationId) => CancelTouches(p, s, r, domain, invocationId, input);
    case SetSaved(domain) => SetSavedTouches(p, s, r, domain, input);
    case ResolveApproval(_) =>
  }

  function RouteOf(p: Platform, r: Request): Route { p.route(r.verb, r.path) }

  /** The refusal of a request that never reaches the idempotency cache. */
  function Admission(p: Platform, r: Request): Option<Response> {
    if Actor(r) == "" then Some(Refuse(503, AuthenticationUnavailable, r.ids.problem, true))
    else if !ValidDomain(RouteOf(p, r).domain) then Some(Refuse(400, InvalidIsolationDomain, r.ids.problem))
    else if !r.jsonMedia then Some(Refuse(415, UnsupportedMediaType, r.ids.problem))
    else if !IdempotencyKey(r.key) then Some(Refuse(400, InvalidRequest, r.ids.problem))
    else if r.body.None? then Some(Refuse(400, InvalidRequest, r.ids.problem))
    else None
  }

  predicate Admitted(p: Platform, r: Request) { Admission(p, r).None? }

  const OWNER_TAG := "dataground.saved-resource-owner/v1:"

  /** Saved resources are bound to the whole principal, not only to its identifier. */
  function OwnerBinding(p: Platform, owner: Principal): string { p.hash(OWNER_TAG + (owner.kind + [':'] + owner.id)) }

  /** Who sent what: the two are separated by a zero byte. */
  function DigestOf(p: Platform, r: Request): string
    requires r.body.Some? && r.principal.Some?
  {
    p.hash((if RouteOf(p, r).SetSaved? then OwnerBinding(p, r.principal.value) else Actor(r)) + ['\0'] + r.body.value)
  }

  ghost function Mutate(p: Platform, s: State, r: Request): Outcome {
    if !Admitted(p, r) then Outcome(s, Admission(p, r).value)
    else if SlotOf(r) in s.cache then
      var stored := s.cache[SlotOf(r)];
      Outcome(s, if stored.digest != DigestOf(p, r) then Refuse(409, IdempotencyKeyReused, r.ids.problem) else stored.reply)
    else
      var route := RouteOf(p, r);
      var done := Handle(p, s, r, route, p.decode(route, r.body.value));
      Outcome(done.state.(cache := s.cache[SlotOf(r) := Stored(DigestOf(p, r), done.reply)]), done.reply)
  }
}
