/** The reference server as the program has it: one object whose maps every request updates in place.
    Each handler is proved to do exactly what the state functions of `Handlers` say. */
module ReferenceServer {
  import opened Text
  import opened Resources
  import opened Requests
  import opened Journal
  import opened ReferenceRuntime
  import opened Handlers
  import opened Invariants
  import opened Runs
  import opened Listings
  import opened Lifecycle
  import E = EventReplay
  import J = Joins
  import V = Views

  /** Whether a name occurs twice. */
  method DuplicateString(values: seq<string>) returns (repeated: bool)
    ensures repeated <==> !Sorting.NoRepeats(values)
  {
    var seen: set<string> := {};
    for i := 0 to |values|
      invariant seen == set v | v in values[..i]
      invariant Sorting.NoRepeats(values[..i])
    {
      if values[i] in seen {
        return true;
      }
      seen := seen + {values[i]};
    }
    assert values[..|values|] == values;
    return false;
  }

  /** Whether capability names are unique, not blank and not too long. */
  method AcceptCapabilities(p: Platform, names: seq<string>) returns (accepted: bool)
    ensures accepted <==> CapabilityNames(p, names)
  {
    var repeated := DuplicateString(names);
    if repeated {
      return false;
    }
    for i := 0 to |names|
      invariant forall name | name in names[..i] :: p.trim(name) != "" && |name| <= 128
    {
      if p.trim(names[i]) == "" || |names[i]| > 128 {
        return false;
      }
    }
    return true;
  }

  class Server {
    var workspaces: map<string, Workspace>
    var savedResources: map<SavedKey, SavedState>
    var services: map<string, AgentService>
    var revisions: map<string, ServiceRevision>
    var revisionCounts: map<string, int>
    var aliases: map<string, ServiceAlias>
    var invocations: map<string, Invocation>
    var operations: map<string, Operation>
    var events: map<string, seq<Event>>
    var artifacts: map<string, ArtifactDescriptor>
    var idempotencyResponses: map<string, Stored>

    ghost function Contents(): State
      reads this
    {
      State(workspaces, savedResources, services, revisions, revisionCounts, aliases, invocations, operations, events, artifacts,
            idempotencyResponses)
    }

    constructor ()
      ensures Contents() == EMPTY && Inv(Contents())
    {
      workspaces, savedResources, services, revisions, revisionCounts := map[], map[], map[], map[], map[];
      aliases, invocations, operations, events, artifacts, idempotencyResponses := map[], map[], map[], map[], map[], map[];
      new;
      EmptyHolds();
    }

    // ---- Creation -----------------------------------------------------------------------------------

    method CreateWorkspace(p: Platform, r: Request, domain: string, input: Input) returns (reply: Response)
      modifies this`workspaces
      ensures Outcome(Contents(), reply) == DoCreateWorkspace(p, old(Contents()), r, domain, input)
    {
      if !input.NamedInput? {
        return Refuse(400, InvalidRequest, r.ids.problem);
      }
      var name := p.trim(input.name);
      if !NameRules(p, name, input.description) {
        return Refuse(400, InvalidRequest, r.ids.problem);
      }
      var value := Workspace(NewMetadata(r.ids.resource, domain, Actor(r), r.now), name, input.description);
      workspaces := workspaces[ResourceKey(domain, value.meta.id) := value];
      return Response(201, WorkspaceBody(value));
    }

    method CreateAgentService(p: Platform, r: Request, domain: string, workspaceId: string, input: Input) returns (reply: Response)
      modifies this`services
      ensures Outcome(Contents(), reply) == DoCreateService(p, old(Contents()), r, domain, workspaceId, input)
    {
      if !input.NamedInput? {
        return Refuse(400, InvalidRequest, r.ids.problem);
      }
      var name := p.trim(input.name);
      if name == "" || |name| > 128 {
        return Refuse(400, InvalidRequest, r.ids.problem);
      }
      if |input.description| > 2048 {
        return Refuse(400, InvalidRequest, r.ids.problem);
      }
      if workspaceId != "" {
        if !Tagged(workspaceId, "wsp") {
          return Refuse(400, InvalidRequest, r.ids.problem);
        }
        if ResourceKey(domain, workspaceId) !in workspaces {
          return Refuse(404, ResourceNotFound, r.correlation);
        }
      }
      var service := AgentService(workspaceId, NewMetadata(r.ids.resource, domain, Actor(r), r.now), name, input.description);
      services := services[ResourceKey(domain, service.meta.id) := service];
      return Response(201, ServiceBody(service));
    }

    method CreateServiceRevision(p: Platform, r: Request, domain: string, serviceId: string, input: Input) returns (reply: Response)
      modifies this`revisionCounts, this`revisions
      ensures Outcome(Contents(), reply) == DoCreateRevision(p, old(Contents()), r, domain, serviceId, input)
    {
      var serviceKey := ResourceKey(domain, serviceId);
      var refusal := RefuseRevision(p, r, serviceKey, input);
      if refusal.Some? {
        return refusal.value;
      }
      var number := CountOf(revisionCounts, serviceKey) + 1;
      revisionCounts := revisionCounts[serviceKey := number];
      var revision := NewRevision(r, domain, serviceId, number, input);
      revisions := revisions[ResourceKey(domain, revision.meta.id) := revision];
      return Response(201, RevisionBody(revision));
    }

    method RefuseRevision(p: Platform, r: Request, serviceKey: string, input: Input) returns (refusal: Option<Response>)
      ensures refusal == RevisionRefusal(p, services, r, serviceKey, input)
    {
      if serviceKey !in services {
        return Some(Refuse(404, ResourceNotFound, r.ids.problem));
      }
      if !input.RevisionInput? {
        return Some(Refuse(400, InvalidRequest, r.ids.problem));
      }
      if p.trim(input.runtimeProfile) == "" || |input.runtimeProfile| > 128 {
        return Some(Refuse(400, InvalidRequest, r.ids.problem));
      }
      var accepted := AcceptCapabilities(p, input.requiredCapabilities);
      if !accepted {
        return Some(Refuse(400, InvalidRequest, r.ids.problem));
      }
      return None;
    }

    // ---- Revision lifecycle --------------------------------------------------------------------------

    method PublishServiceRevision(p: Platform, r: Request, domain: string, revisionId: string, input: Input) returns (reply: Response)
      modifies this`revisions
      ensures Outcome(Contents(), reply) == DoPublish(p, old(Contents()), r, domain, revisionId, input)
    {
      if !input.VersionInput? {
        return Refuse(400, InvalidRequest, r.ids.problem);
      }
      var key := ResourceKey(domain, revisionId);
      if key !in revisions {
        return Refuse(404, ResourceNotFound, r.ids.problem);
      }
      var revision := revisions[key];
      if revision.meta.version != input.expectedVersion {
        return Refuse(409, VersionConflict, r.ids.problem);
      }
      if !revision.state.Draft? {
        return Refuse(409, RevisionImmutable, r.ids.problem);
      }
      if revision.runtimeProfile != REFERENCE_PROFILE {
        return Refuse(409, RuntimeProfileUnavailable, r.ids.problem);
      }
      for i := 0 to |revision.requiredCapabilities|
        invariant forall c | c in revision.requiredCapabilities[..i] :: p.capable(c)
      {
        if !p.capable(revision.requiredCapabilities[i]) {
          assert revision.requiredCapabilities[i] in revision.requiredCapabilities;
          return Refuse(409, RequiredCapabilityUnavailable, r.ids.problem);
        }
      }
      var fault := p.schemasFault(revision.inputSchema, revision.outputSchema);
      if fault.Some? {
        return Refuse(409, SchemaProblem(fault.value), r.correlation);
      }
      revision := revision.(state := Published, publishedAt := Some(r.now));
      revision := revision.(meta := revision.meta.(version := revision.meta.version + 1, updatedAt := r.now));
      revisions := revisions[key := revision];
      return Response(200, RevisionBody(revision));
    }

    /** Scan for an alias that still routes to the revision. */
    method IsRouted(domain: string, revisionId: string) returns (routed: bool)
      ensures routed <==> Routed(Contents(), domain, revisionId)
    {
      var keys := aliases.Keys;
      while keys != {}
        invariant keys <= aliases.Keys
        invariant forall k | k in aliases.Keys - keys ::
          !(aliases[k].meta.domain == domain && aliases[k].revisionId == revisionId && aliases[k].withdrawnAt.None?)
      {
        var k :| k in keys;
        keys := keys - {k};
        if aliases[k].meta.domain == domain && aliases[k].revisionId == revisionId && aliases[k].withdrawnAt.None? {
          return true;
        }
      }
      return false;
    }

    /** Scan for an invocation of the revision that has not finished. */
    method IsActive(domain: string, revisionId: string) returns (active: bool)
      ensures active <==> Active(Contents(), domain, revisionId)
    {
      var keys := invocations.Keys;
      while keys != {}
        invariant keys <= invocations.Keys
        invariant forall k | k in invocations.Keys - keys ::
          !(invocations[k].meta.domain == domain && invocations[k].revisionId == revisionId && !Terminal(invocations[k].state))
      {
        var k :| k in keys;
        keys := keys - {k};
        if invocations[k].meta.domain == domain && invocations[k].revisionId == revisionId
           && invocations[k].state != Succeeded && invocations[k].state != Failed && invocations[k].state != Cancelled {
          return true;
        }
      }
      return false;
    }

    method RetireServiceRevision(r: Request, domain: string, revisionId: string, input: Input) returns (reply: Response)
      modifies this`revisions
      ensures Outcome(Contents(), reply) == DoRetire(old(Contents()), r, domain, revisionId, input)
    {
      if !input.VersionInput? || input.expectedVersion < 1 {
        return Refuse(400, InvalidRequest, r.correlation);
      }
      var key := ResourceKey(domain, revisionId);
      if key !in revisions {
        return Refuse(404, ResourceNotFound, r.correlation);
      }
      var revision := revisions[key];
      if revision.meta.version != input.expectedVersion {
        return Refuse(409, VersionConflict, r.correlation);
      }
      if !revision.state.Published? {
        return Refuse(409, RevisionNotPublished, r.correlation);
      }
      var routed := IsRouted(domain, revision.meta.id);
      if routed {
        return Refuse(409, RevisionStillRouted, r.correlation);
      }
      var active := IsActive(domain, revision.meta.id);
      if active {
        return Refuse(409, RevisionStillActive, r.correlation);
      }
      revision := revision.(state := Retired, meta := Bump(revision.meta, r.now));
      revisions := revisions[key := revision];
      return Response(200, RevisionBody(revision));
    }

    // ---- Aliases ---------------------------------------------------------------------------------------

    method AssignServiceAlias(r: Request, domain: string, serviceId: string, aliasName: string, input: Input) returns (reply: Response)
      modifies this`aliases
      ensures Outcome(Contents(), reply) == DoAssign(old(Contents()), r, domain, serviceId, aliasName, input)
    {
      if ResourceKey(domain, serviceId) !in services {
        return Refuse(404, ResourceNotFound, r.ids.problem);
      }
      if !AliasName(aliasName) {
        return Refuse(400, InvalidRequest, r.ids.problem);
      }
      if !input.AliasInput? {
        return Refuse(400, InvalidRequest, r.ids.problem);
      }
      var target := ResourceKey(domain, input.revisionId);
      if target !in revisions || revisions[target].serviceId != serviceId {
        return Refuse(404, ResourceNotFound, r.ids.problem);
      }
      if !revisions[target].state.Published? {
        return Refuse(409, RevisionNotPublished, r.ids.problem);
      }
      var key := AliasKey(domain, serviceId, aliasName);
      if key in aliases {
        var current := aliases[key];
        var required := current.meta.version;
        if current.withdrawnAt.Some? {
          required := 0;
        }
        if (input.expected.None? && required != 0) || (input.expected.Some? && input.expected.value != required) {
          return Refuse(409, VersionConflict, r.ids.problem);
        }
        current := current.(revisionId := input.revisionId, withdrawnAt := None, meta := Bump(current.meta, r.now));
        aliases := aliases[key := current];
        return Response(200, AliasBody(current));
      }
      if input.expected.Some? && input.expected.value != 0 {
        return Refuse(409, VersionConflict, r.ids.problem);
      }
      var alias := ServiceAlias(None, NewMetadata(r.ids.resource, domain, Actor(r), r.now), serviceId, aliasName, input.revisionId);
      aliases := aliases[key := alias];
      return Response(200, AliasBody(alias));
    }

    method WithdrawServiceAlias(r: Request, domain: string, serviceId: string, name: string, input: Input) returns (reply: Response)
      modifies this`aliases
      ensures Outcome(Contents(), reply) == DoWithdraw(old(Contents()), r, domain, serviceId, name, input)
    {
      if !input.VersionInput? || input.expectedVersion < 1 || !AliasName(name) {
        return Refuse(400, InvalidRequest, r.correlation);
      }
      var key := AliasKey(domain, serviceId, name);
      if key !in aliases || aliases[key].withdrawnAt.Some? {
        return Refuse(404, ResourceNotFound, r.ids.problem);
      }
      var alias := aliases[key];
      if alias.meta.version != input.expectedVersion {
        return Refuse(409, VersionConflict, r.ids.problem);
      }
      alias := alias.(withdrawnAt := Some(r.now), meta := Bump(alias.meta, r.now));
      aliases := aliases[key := alias];
      return Response(200, AliasBody(alias));
    }

    // ---- Invocations -------------------------------------------------------------------------------------

    /** Store the artifact an event announces. */
    method CreateArtifact(p: Platform, invocation: Invocation, at: Time, payload: Payload) returns (artifact: ArtifactDescriptor)
      modifies this`artifacts
      ensures artifact == MakeArtifact(p, invocation, at, payload)
      ensures artifacts == old(artifacts)[ArtifactKey(invocation.meta.domain, invocation.meta.id, artifact.meta.id) := artifact]
    {
      artifact := MakeArtifact(p, invocation, at, payload);
      artifacts := artifacts[ArtifactKey(invocation.meta.domain, invocation.meta.id, artifact.meta.id) := artifact];
    }

    /** One turn of the journal loop: judge the result, store an artifact, append the event, apply it. */
    method AppendEvent(p: Platform, draft: Draft, e: RuntimeEvent, schema: Option<Json>) returns (longer: Draft)
      requires e.payload.Some?
      modifies this`artifacts
      ensures longer == ExtendDraft(p, draft, e, schema)
      ensures forall before | old(artifacts) == before + draft.made :: artifacts == before + longer.made
    {
      var invocation := draft.invocation;
      var at := invocation.meta.createdAt + (e.sequence - 1) * MILLISECOND;
      var payload := e.payload.value;
      var kind := e.kind;
      var made := draft.made;
      if kind.LifecycleSucceeded? {
        var problem := p.outputFault(schema, TextOf(payload, "message"));
        if problem.Some? {
          invocation := invocation.(error := Some(Problem(SchemaProblem(problem.value), invocation.correlationId, false)));
          kind := LifecycleFailed;
          payload := map["state" := Text("failed")];
        }
      }
      if e.kind.ArtifactAvailable? {
        var artifact := CreateArtifact(p, invocation, at, payload);
        made := made[ArtifactKey(invocation.meta.domain, invocation.meta.id, artifact.meta.id) := artifact];
        invocation := invocation.(artifactIds := invocation.artifactIds + [artifact.meta.id]);
        payload := map["artifactId" := Text(artifact.meta.id), "descriptor" := Described(artifact)];
      }
      var event := Event(
        p.eventId(invocation.meta.id, e.key), invocation.meta.domain, invocation.meta.id, e.sequence, kind, at, at,
        invocation.correlationId, "reference-runtime", invocation.serviceId, invocation.revisionId, payload, e.extensions);
      longer := Drafting(ApplyEvent(invocation, kind, payload, at), draft.journal + [event], made);
    }

    /** The journal loop. */
    method RunEvents(p: Platform, start: Invocation, normalized: seq<RuntimeEvent>, schema: Option<Json>) returns (draft: Draft)
      requires Payloads(normalized)
      modifies this`artifacts
      ensures draft == BuildDraft(p, start, normalized, schema)
      ensures artifacts == old(artifacts) + draft.made
    {
      draft := Drafting(start, [], map[]);
      for i := 0 to |normalized|
        invariant draft == BuildDraft(p, start, normalized[..i], schema)
        invariant artifacts == old(artifacts) + draft.made
      {
        assert normalized[..i + 1][..i] == normalized[..i];
        draft := AppendEvent(p, draft, normalized[i], schema);
      }
      assert normalized[..|normalized|] == normalized;
    }

    /** Everything invocation checks before it looks at the input. */
    method FindRevision(domain: string, serviceId: string, alias: string) returns (revision: Option<ServiceRevision>)
      ensures revision == Resolve(Contents(), domain, serviceId, alias)
    {
      var key := AliasKey(domain, serviceId, alias);
      if key !in aliases || aliases[key].withdrawnAt.Some? {
        return None;
      }
      var target := ResourceKey(domain, aliases[key].revisionId);
      if target !in revisions || !revisions[target].state.Published? {
        return None;
      }
      return Some(revisions[target]);
    }

    /** The normalized events an input asks for, or the refusal. */
    method PrepareRun(p: Platform, r: Request, schema: Option<Json>, arguments: map<string, Value>)
      returns (refusal: Option<Response>, normalized: seq<RuntimeEvent>)
      ensures refusal == RunRefusal(p, r, schema, arguments)
      ensures refusal.None? ==> Normalized(p.scenario(ScenarioOf(arguments).value).value) == Some(normalized)
    {
      normalized := [];
      var fault := p.inputFault(schema, arguments);
      if fault.Some? {
        refusal := Some(Refuse(if fault.value.InputSchemaInvalid? then 409 else 400, SchemaProblem(fault.value), r.correlation));
        return;
      }
      var scenario := SUCCESS_SCENARIO;
      if "scenario" in arguments {
        if !arguments["scenario"].Text? {
          refusal := Some(Refuse(400, InvalidRequest, r.ids.problem));
          return;
        }
        scenario := arguments["scenario"].text;
      }
      var fixture := p.scenario(scenario);
      if fixture.None? {
        refusal := Some(Refuse(400, InvalidRequest, r.ids.problem));
        return;
      }
      var ordered := Normalize(fixture.value);
      if ordered.None? {
        refusal := Some(Refuse(500, FixtureInvalid, r.ids.problem));
        return;
      }
      if r.correlation == "" {
        refusal := Some(Refuse(500, AuthorizationUnavailable, r.ids.problem, true));
        return;
      }
      refusal, normalized := None, ordered.value;
    }

    method InvokeAgentService(p: Platform, r: Request, domain: string, serviceId: string, input: Input) returns (reply: Response)
      modifies this`artifacts, this`invocations, this`events, this`operations
      ensures Outcome(Contents(), reply) == DoInvoke(p, old(Contents()), r, domain, serviceId, input)
    {
      if ResourceKey(domain, serviceId) !in services {
        return Refuse(404, ResourceNotFound, r.ids.problem);
      }
      if !input.InvokeInput? {
        return Refuse(400, InvalidRequest, r.ids.problem);
      }
      if !AliasPattern(input.alias) || input.arguments.None? {
        return Refuse(400, InvalidRequest, r.ids.problem);
      }
      var revision := FindRevision(domain, serviceId, input.alias);
      if revision.None? {
        return Refuse(404, ResourceNotFound, r.ids.problem);
      }
      var refusal, normalized := PrepareRun(p, r, revision.value.inputSchema, input.arguments.value);
      if refusal.Some? {
        return refusal.value;
      }
      NormalizedPayloads(p.scenario(ScenarioOf(input.arguments.value).value).value);
      reply := LaunchInvocation(p, r, domain, serviceId, revision.value, input.alias, input.arguments.value, normalized);
    }

    /** Run the events of a new invocation and store it with its journal and its operation. */
    method LaunchInvocation(p: Platform, r: Request, domain: string, serviceId: string, revision: ServiceRevision, alias: string,
                            arguments: map<string, Value>, normalized: seq<RuntimeEvent>) returns (reply: Response)
      requires Payloads(normalized)
      modifies this`artifacts, this`invocations, this`events, this`operations
      ensures Outcome(Contents(), reply) == Launch(old(Contents()), r, domain,
        BuildDraft(p, NewInvocation(r, domain, serviceId, revision.meta.id, alias, arguments), normalized, revision.outputSchema))
    {
      var started := NewInvocation(r, domain, serviceId, revision.meta.id, alias, arguments);
      var draft := RunEvents(p, started, normalized, revision.outputSchema);
      var key := ResourceKey(domain, r.ids.resource);
      invocations := invocations[key := draft.invocation];
      events := events[key := draft.journal];
      operations := operations[ResourceKey(domain, r.ids.operation) := NewOperation(r, domain, draft.invocation)];
      return Response(202, InvocationBody(draft.invocation));
    }

    method CancelInvocation(p: Platform, r: Request, domain: string, invocationId: string, input: Input) returns (reply: Response)
      modifies this`invocations, this`events, this`operations
      ensures Outcome(Contents(), reply) == DoCancel(p, old(Contents()), r, domain, invocationId, input)
    {
      if !input.CancelInput? {
        return Refuse(400, InvalidRequest, r.ids.problem);
      }
      if |input.reason| > 512 {
        return Refuse(400, InvalidRequest, r.ids.problem);
      }
      var key := ResourceKey(domain, invocationId);
      if key !in invocations {
        return Refuse(404, ResourceNotFound, r.ids.problem);
      }
      var invocation := invocations[key];
      if invocation.state.Cancelled? {
        return Response(200, InvocationBody(invocation));
      }
      if invocation.state.Succeeded? || invocation.state.Failed? {
        return Refuse(409, InvocationTerminal, r.ids.problem);
      }
      var journal := JournalAt(events, key);
      var sequence := |journal| + 1;
      invocation := invocation.(state := Cancelled, completedAt := Some(r.now), meta := Bump(invocation.meta, r.now));
      invocations := invocations[key := invocation];
      var operationKey := ResourceKey(domain, invocation.operationId);
      var operation := OperationAt(operations, operationKey);
      operation := operation.(command := CancelCommand, desired := Cancelled, observed := Settled(Cancelled), meta := Bump(operation.meta, r.now));
      operations := operations[operationKey := operation];
      events := events[key := journal + [CancelEvent(p, r, domain, invocation, sequence)]];
      return Response(200, InvocationBody(invocation));
    }

    // ---- Saved resources -----------------------------------------------------------------------------------

    /** The projection of a saved reference's target, when there is one. Only an artifact that leads nowhere can hide a
        target of the same identifier. */
    method SavedResourceTarget(scope: string, kind: ResourceKind, id: string) returns (target: Option<V.Found>)
      ensures target.Some? ==> TargetExists(Contents(), scope, kind, id) && V.Describes(Contents(), scope, kind, id, target.value)
      ensures target.None? ==> !TargetExists(Contents(), scope, kind, id) || (kind.ArtifactKind? && Dangles(Contents(), scope, id))
    {
      var key := ResourceKey(scope, id);
      match kind
      case WorkspaceKind =>
        target := if key in workspaces then Some(V.FoundWorkspace(workspaces[key])) else None;
      case ServiceKind =>
        target := if key in services then Some(V.FoundService(services[key])) else None;
      case InvocationKind =>
        target := InvocationTarget(scope, id);
      case ArtifactKind =>
        target := ArtifactTarget(scope, id);
    }

    method InvocationTarget(scope: string, id: string) returns (target: Option<V.Found>)
      ensures target.Some? <==> InvocationResolves(Contents(), scope, id)
      ensures target.Some? ==> V.Describes(Contents(), scope, InvocationKind, id, target.value)
    {
      var key := ResourceKey(scope, id);
      if key !in invocations {
        return None;
      }
      var serviceKey := ResourceKey(scope, invocations[key].serviceId);
      if serviceKey !in services {
        return None;
      }
      return Some(V.FoundInvocation(invocations[key], services[serviceKey]));
    }

    method ArtifactTarget(scope: string, id: string) returns (target: Option<V.Found>)
      ensures target.Some? ==> TargetExists(Contents(), scope, ArtifactKind, id) && V.Describes(Contents(), scope, ArtifactKind, id, target.value)
      ensures target.None? ==> !TargetExists(Contents(), scope, ArtifactKind, id) || Dangles(Contents(), scope, id)
    {
      var keys := artifacts.Keys;
      while keys != {}
        invariant keys <= artifacts.Keys
        invariant forall k | k in artifacts && k !in keys :: !(artifacts[k].meta.domain == scope && artifacts[k].meta.id == id)
      {
        var k :| k in keys;
        keys := keys - {k};
        var a := artifacts[k];
        if a.meta.domain != scope || a.meta.id != id {
          continue;
        }
        var key := ResourceKey(scope, a.invocationId);
        if key !in invocations {
          return None;
        }
        var serviceKey := ResourceKey(scope, invocations[key].serviceId);
        if serviceKey !in services {
          return None;
        }
        return Some(V.FoundArtifact(a, invocations[key], services[serviceKey]));
      }
      return None;
    }

    /** The saved-resource step; an artifact that leads nowhere is not found. */
    method SetSavedResource(p: Platform, r: Request, domain: string, input: Input) returns (reply: Response)
      modifies this`savedResources
      ensures
        || Outcome(Contents(), reply) == DoSetSaved(p, old(Contents()), r, domain, input)
        || (&& input.SavedInput? && input.kind.ArtifactKind? && Dangles(old(Contents()), domain, input.resourceId)
            && Contents() == old(Contents()) && reply == Refuse(404, ResourceNotFound, r.ids.problem))
    {
      if !input.SavedInput? || !Tagged(input.resourceId, KindPrefix(input.kind)) || r.principal.None? || !p.ownerValid(r.principal.value) {
        return Refuse(400, InvalidRequest, r.ids.problem);
      }
      if input.saved {
        var target := SavedResourceTarget(domain, input.kind, input.resourceId);
        if target.None? {
          return Refuse(404, ResourceNotFound, r.ids.problem);
        }
      }
      var key := SavedKey(domain, r.principal.value.kind, Actor(r), input.resourceId);
      if key !in savedResources || savedResources[key].saved != input.saved {
        savedResources := savedResources[key := SavedState(domain, input.kind, input.resourceId, input.saved, r.now)];
      }
      assert savedResources == old(savedResources)[key := savedResources[key]];
      return Response(200, SavedBody(savedResources[key]));
    }

    // ---- One request ------------------------------------------------------------------------------------------

    method Dispatch(p: Platform, r: Request, route: Route, input: Input) returns (reply: Response)
      requires ArtifactsLinked(Contents())
      modifies this
      ensures Outcome(Contents(), reply) == Handle(p, old(Contents()), r, route, input)
    {
      if ChangesCatalog(route) {
        reply := DispatchCatalog(p, r, route, input);
      } else {
        reply := DispatchRuns(p, r, route, input);
      }
    }

    method DispatchCatalog(p: Platform, r: Request, route: Route, input: Input) returns (reply: Response)
      requires ChangesCatalog(route)
      modifies this
      ensures Outcome(Contents(), reply) == Handle(p, old(Contents()), r, route, input)
    {
      match route
      case CreateWorkspace(domain) => reply := CreateWorkspace(p, r, domain, input);
      case CreateService(domain, workspaceId) => reply := CreateAgentService(p, r, domain, workspaceId, input);
      case CreateRevision(domain, serviceId) => reply := CreateServiceRevision(p, r, domain, serviceId, input);
      case PublishRevision(domain, revisionId) => reply := PublishServiceRevision(p, r, domain, revisionId, input);
      case RetireRevision(domain, revisionId) => reply := RetireServiceRevision(r, domain, revisionId, input);
    }

    method DispatchRuns(p: Platform, r: Request, route: Route, input: Input) returns (reply: Response)
      requires ArtifactsLinked(Contents()) && !ChangesCatalog(route)
      modifies this
      ensures Outcome(Contents(), reply) == Handle(p, old(Contents()), r, route, input)
    {
      match route
      case AssignAlias(domain, serviceId, alias) => reply := AssignServiceAlias(r, domain, serviceId, alias, input);
      case WithdrawAlias(domain, serviceId, alias) => reply := WithdrawServiceAlias(r, domain, serviceId, alias, input);
      case Invoke(domain, serviceId) => reply := InvokeAgentService(p, r, domain, serviceId, input);
      case CancelInvocation(domain, invocationId) => reply := CancelInvocation(p, r, domain, invocationId, input);
      case SetSaved(domain) => reply := SetSavedResource(p, r, domain, input);
      case ResolveApproval(_) =>
        if !input.ApprovalInput? || input.version != 1 || !input.decided {
          reply := Refuse(400, InvalidRequest, r.ids.problem);
        } else {
          reply := Refuse(404, ResourceNotFound, r.ids.problem);
        }
    }

    /** Admission, the idempotency cache, then the handler; the whole object stays valid and only evolves. */
    method Mutate(p: Platform, r: Request) returns (reply: Response)
      requires Inv(Contents()) && IdsUnused(Contents(), RouteOf(p, r).domain, r.ids)
      modifies this
      ensures Outcome(Contents(), reply) == Handlers.Mutate(p, old(Contents()), r)
      ensures Inv(Contents()) && Evolves(old(Contents()), Contents())
    {
      MutateKeeps(p, Contents(), r);
      LinksResolve(Contents());
      reply := Admit(p, r);
    }

    method Admit(p: Platform, r: Request) returns (reply: Response)
      requires ArtifactsLinked(Contents())
      modifies this
      ensures Outcome(Contents(), reply) == Handlers.Mutate(p, old(Contents()), r)
    {
      if Actor(r) == "" {
        return Refuse(503, AuthenticationUnavailable, r.ids.problem, true);
      }
      var route := p.route(r.verb, r.path);
      if !ValidDomain(route.domain) {
        return Refuse(400, InvalidIsolationDomain, r.ids.problem);
      }
      if !r.jsonMedia {
        return Refuse(415, UnsupportedMediaType, r.ids.problem);
      }
      if !IdempotencyKey(r.key) {
        return Refuse(400, InvalidRequest, r.ids.problem);
      }
      if r.body.None? {
        return Refuse(400, InvalidRequest, r.ids.problem);
      }
      var digest := DigestOf(p, r);
      var cacheKey := CacheKey(r.verb, r.path, r.key);
      if cacheKey in idempotencyResponses {
        var stored := idempotencyResponses[cacheKey];
        if stored.digest != digest {
          return Refuse(409, IdempotencyKeyReused, r.ids.problem);
        }
        return stored.reply;
      }
      HandlersSpareCache(p, Contents(), r, route, p.decode(route, r.body.value));
      reply := Dispatch(p, r, route, p.decode(route, r.body.value));
      idempotencyResponses := idempotencyResponses[cacheKey := Stored(digest, reply)];
    }

    // ---- Listings ------------------------------------------------------------------------------------------------

    method ListWorkspaces(domain: string, admits: Workspace -> bool, cursor: Option<Stamp>, limit: nat)
      returns (page: seq<Row<V.Item>>, more: bool)
      requires WorkspacesKeyed(workspaces)
      ensures IsPage(V.Rows(Contents(), V.Workspaces(domain, admits)), cursor, limit, page, more)
    {
      J.WorkspacesGiven(Contents(), domain, admits);
      var rows := Gather(workspaces, J.TakeWorkspace(domain, admits));
      J.AllGathered(workspaces, J.TakeWorkspace(domain, admits), V.WorkspaceRows(Contents(), domain, admits), rows);
      page, more := PageBySuffix(rows, cursor, limit);
    }

    method ListAgentServices(domain: string, admits: AgentService -> bool, cursor: Option<Stamp>, limit: nat)
      returns (page: seq<Row<V.Item>>, more: bool)
      requires ServicesKeyed(services)
      ensures IsPage(V.Rows(Contents(), V.Services(domain, admits)), cursor, limit, page, more)
    {
      J.ServicesGiven(Contents(), domain, admits);
      var rows := Gather(services, J.TakeService(domain, admits));
      J.AllGathered(services, J.TakeService(domain, admits), V.ServiceRows(Contents(), domain, admits), rows);
      page, more := PageBySuffix(rows, cursor, limit);
    }

    method ListServiceRevisions(domain: string, serviceId: string, cursor: Option<Stamp>, limit: nat)
      returns (found: bool, page: seq<Row<V.Item>>, more: bool)
      requires RevisionsKeyed(revisions)
      ensures found <==> ResourceKey(domain, serviceId) in services
      ensures found ==> IsPage(V.Rows(Contents(), V.Revisions(domain, serviceId)), cursor, limit, page, more)
    {
      found, page, more := ResourceKey(domain, serviceId) in services, [], false;
      if found {
        J.RevisionsGiven(Contents(), domain, serviceId);
        var rows := Gather(revisions, J.TakeRevision(domain, serviceId));
        J.AllGathered(revisions, J.TakeRevision(domain, serviceId), V.RevisionRows(Contents(), domain, serviceId), rows);
        page, more := PageBySuffix(rows, cursor, limit);
      }
    }

    method ListInvocations(domain: string, serviceId: string, cursor: Option<Stamp>, limit: nat)
      returns (found: bool, page: seq<Row<V.Item>>, more: bool)
      requires InvocationsKeyed(invocations)
      ensures found <==> ResourceKey(domain, serviceId) in services
      ensures found ==> IsPage(V.Rows(Contents(), V.Invocations(domain, serviceId)), cursor, limit, page, more)
    {
      found, page, more := ResourceKey(domain, serviceId) in services, [], false;
      if found {
        J.InvocationsGiven(Contents(), domain, serviceId);
        var rows := Gather(invocations, J.TakeInvocation(domain, serviceId));
        J.AllGathered(invocations, J.TakeInvocation(domain, serviceId), V.InvocationRows(Contents(), domain, serviceId), rows);
        page, more := PageByFilter(rows, cursor, limit);
      }
    }

    method ListInvocationArtifacts(domain: string, invocationId: string, cursor: Option<Stamp>, limit: nat)
      returns (found: bool, page: seq<Row<V.Item>>, more: bool)
      requires ArtifactsKeyed(artifacts)
      ensures found <==> ResourceKey(domain, invocationId) in invocations
      ensures found ==> IsPage(V.Rows(Contents(), V.Artifacts(domain, invocationId)), cursor, limit, page, more)
    {
      found, page, more := ResourceKey(domain, invocationId) in invocations, [], false;
      if found {
        J.ArtifactsGiven(Contents(), domain, invocationId);
        var rows := Gather(artifacts, J.TakeArtifact(domain, invocationId));
        J.AllGathered(artifacts, J.TakeArtifact(domain, invocationId), V.ArtifactRows(Contents(), domain, invocationId), rows);
        page, more := PageByExclusion(rows, cursor, limit);
      }
    }

    // ---- Event replay ----------------------------------------------------------------------------------------------

    method StreamInvocationEvents(c: E.Codec, domain: string, invocationId: string, cursor: nat, limit: nat) returns (answer: E.Answer)
      ensures answer.NotFound? <==> ResourceKey(domain, invocationId) !in events
      ensures !answer.NotFound? && limit == 0 ==>
        answer.Stream? && E.Streamed(c, E.Beyond(events[ResourceKey(domain, invocationId)], cursor), answer.sent)
      ensures !answer.NotFound? && limit > 0 ==>
        E.Replayed(c, E.Beyond(events[ResourceKey(domain, invocationId)], cursor), limit, answer)
    {
      var key := ResourceKey(domain, invocationId);
      answer := E.StreamInvocationEvents(c, if key in events then Some(events[key]) else None, cursor, limit);
    }

    // ---- Listings with joins ------------------------------------------------------------------------------------------

    /** The join to the service drops no invocation. */
    method ListScopeInvocations(scope: string, state: Option<InvocationState>, cursor: Option<Stamp>, limit: nat)
      returns (page: seq<Row<V.Item>>, more: bool)
      requires InvocationsKeyed(invocations) && InvocationsBound(invocations, services, revisions)
      ensures IsPage(V.Rows(Contents(), V.ScopeInvocations(scope, state)), cursor, limit, page, more)
    {
      J.ScopedInvocationsGiven(Contents(), scope, state);
      var rows := Gather(invocations, J.JoinInvocation(services, scope, state));
      J.AllGathered(invocations, J.JoinInvocation(services, scope, state), V.ScopedInvocationRows(Contents(), scope, state), rows);
      page, more := PageByFilter(rows, cursor, limit);
    }

    /** The joins to the invocation and its service drop no artifact. */
    method ListScopeArtifacts(scope: string, state: Option<string>, cursor: Option<Stamp>, limit: nat)
      returns (page: seq<Row<V.Item>>, more: bool)
      requires ArtifactsKeyed(artifacts) && ArtifactsLinked(Contents())
      ensures IsTiedPage(V.Rows(Contents(), V.ScopeArtifacts(scope, state)), cursor, limit, page, more)
      ensures Distinct(V.Rows(Contents(), V.ScopeArtifacts(scope, state))) ==>
        IsPage(V.Rows(Contents(), V.ScopeArtifacts(scope, state)), cursor, limit, page, more)
    {
      J.ScopedArtifactsGiven(Contents(), scope, state);
      var rows := Gather(artifacts, J.JoinArtifact(invocations, services, scope, state));
      J.AllGathered(artifacts, J.JoinArtifact(invocations, services, scope, state), V.ScopedArtifactRows(Contents(), scope, state), rows);
      page, more := PageByFilter(rows, cursor, limit);
    }

    /** What is listed with a saved reference: the projection of its target, or nothing only when there is no target or
        an artifact that leads nowhere hides it. */
    ghost predicate Projected(scope: string, saved: SavedState, target: Option<V.Found>)
      reads this
    {
      if target.Some? then V.Describes(Contents(), scope, saved.kind, saved.resourceId, target.value)
      else
        || !TargetExists(Contents(), scope, saved.kind, saved.resourceId)
        || (saved.kind.ArtifactKind? && Dangles(Contents(), scope, saved.resourceId))
    }

    method ListSavedResources(scope: string, owner: Principal, cursor: Option<Stamp>, limit: nat)
      returns (page: seq<Row<V.Item>>, more: bool, targets: seq<Option<V.Found>>)
      requires SavedKeyed(savedResources)
      ensures IsPage(V.Rows(Contents(), V.SavedResources(scope, owner.kind, owner.id)), cursor, limit, page, more)
      ensures |targets| == |page|
      ensures forall i | 0 <= i < |page| :: page[i].item.SavedItem? && Projected(scope, page[i].item.saved, targets[i])
      ensures SavedResolves(Contents()) && ArtifactsLinked(Contents()) ==> forall i | 0 <= i < |page| :: targets[i].Some?
    {
      J.SavedGiven(Contents(), scope, owner.kind, owner.id);
      var rows := Gather(savedResources, J.TakeSaved(scope, owner.kind, owner.id));
      J.AllGathered(savedResources, J.TakeSaved(scope, owner.kind, owner.id), V.SavedRows(Contents(), V.SavedResources(scope, owner.kind, owner.id)), rows);
      page, more := PageByFilter(rows, cursor, limit);
      forall i | 0 <= i < |page| ensures SavedHere(scope, page[i]) {
        assert page[i] in V.SavedRows(Contents(), V.SavedResources(scope, owner.kind, owner.id));
      }
      targets := ProjectTargets(scope, page);
    }

    /** The row is a reference saved in this scope. */
    ghost predicate SavedHere(scope: string, row: Row<V.Item>)
      reads this
    {
      row.item.SavedItem? && exists k :: k in savedResources && k.scope == scope && savedResources[k].saved && savedResources[k] == row.item.saved
    }

    method ProjectTargets(scope: string, page: seq<Row<V.Item>>) returns (targets: seq<Option<V.Found>>)
      requires SavedKeyed(savedResources) && forall i | 0 <= i < |page| :: SavedHere(scope, page[i])
      ensures |targets| == |page|
      ensures forall i | 0 <= i < |page| :: page[i].item.SavedItem? && Projected(scope, page[i].item.saved, targets[i])
      ensures SavedResolves(Contents()) && ArtifactsLinked(Contents()) ==> forall i | 0 <= i < |page| :: targets[i].Some?
    {
      targets := [];
      for i := 0 to |page|
        invariant |targets| == i
        invariant forall j | 0 <= j < i :: page[j].item.SavedItem? && Projected(scope, page[j].item.saved, targets[j])
        invariant SavedResolves(Contents()) && ArtifactsLinked(Contents()) ==> forall j | 0 <= j < i :: targets[j].Some?
      {
        assert SavedHere(scope, page[i]);
        var target := SavedResourceTarget(scope, page[i].item.saved.kind, page[i].item.saved.resourceId);
        targets := targets + [target];
      }
    }

    /** Search over the whole domain; the joins drop nothing. */
    method SearchResources(listing: V.Listing, cursor: Option<Stamp>, limit: nat) returns (page: seq<Row<V.Item>>, more: bool)
      requires listing.Discovery? && Keyed(Contents()) && ArtifactsLinked(Contents()) && InvocationsBound(invocations, services, revisions)
      ensures IsTiedPage(V.Rows(Contents(), listing), cursor, limit, page, more)
      ensures Distinct(V.Rows(Contents(), listing)) ==> IsPage(V.Rows(Contents(), listing), cursor, limit, page, more)
    {
      var stored := SearchStored(listing);
      var run := SearchInvocations(listing);
      var made := SearchArtifacts(listing);
      ghost var s := Contents();
      var rows := JoinFound(s, listing, stored, run, made);
      page, more := PageByFilter(rows, cursor, limit);
    }

    static method JoinFound(ghost s: State, listing: V.Listing, stored: seq<Row<V.Item>>, run: seq<Row<V.Item>>, made: seq<Row<V.Item>>)
      returns (rows: seq<Row<V.Item>>)
      requires listing.Discovery? && Sorting.NoRepeats(stored) && Sorting.NoRepeats(run) && Sorting.NoRepeats(made)
      requires forall r :: r in stored <==> V.SoughtWorkspace(s, listing, r) || V.SoughtService(s, listing, r)
      requires forall r :: r in run <==> V.SoughtInvocation(s, listing, r)
      requires forall r :: r in made <==> V.SoughtArtifact(s, listing, r)
      ensures Sorting.NoRepeats(rows) && Sorting.Elements(rows) == V.Rows(s, listing)
    {
      Sorting.JoinedNoRepeats(stored, run);
      Sorting.JoinedNoRepeats(stored + run, made);
      rows := stored + run + made;
      forall r ensures r in Sorting.Elements(rows) <==> r in V.Rows(s, listing) {
        V.DiscoveryRows(s, listing, r);
      }
    }

    method SearchStored(listing: V.Listing) returns (rows: seq<Row<V.Item>>)
      requires listing.Discovery? && WorkspacesKeyed(workspaces) && ServicesKeyed(services)
      ensures Sorting.NoRepeats(rows)
      ensures forall r :: r in rows <==> V.SoughtWorkspace(Contents(), listing, r) || V.SoughtService(Contents(), listing, r)
    {
      J.WorkspacesSought(Contents(), listing);
      J.ServicesSought(Contents(), listing);
      var first := Gather(workspaces, J.SeekWorkspace(listing));
      var second := Gather(services, J.SeekService(listing));
      Sorting.JoinedNoRepeats(first, second);
      rows := first + second;
    }

    method SearchInvocations(listing: V.Listing) returns (rows: seq<Row<V.Item>>)
      requires listing.Discovery? && InvocationsKeyed(invocations) && InvocationsBound(invocations, services, revisions)
      ensures Sorting.NoRepeats(rows)
      ensures forall r :: r in rows <==> V.SoughtInvocation(Contents(), listing, r)
    {
      J.InvocationsSought(Contents(), listing);
      rows := Gather(invocations, J.SeekInvocation(services, listing));
    }

    method SearchArtifacts(listing: V.Listing) returns (rows: seq<Row<V.Item>>)
      requires listing.Discovery? && ArtifactsKeyed(artifacts) && ArtifactsLinked(Contents())
      ensures Sorting.NoRepeats(rows)
      ensures forall r :: r in rows <==> V.SoughtArtifact(Contents(), listing, r)
    {
      J.ArtifactsSought(Contents(), listing);
      rows := Gather(artifacts, J.SeekArtifact(invocations, services, listing));
    }
  }
}
