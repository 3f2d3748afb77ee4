/** Only vetted data is ever stored: services in existing workspaces, published revisions the runtime supports,
    inputs and results that satisfy the schemas of their revision. */
module Vetting {
  import opened Text
  import opened Resources
  import opened Requests
  import opened ReferenceRuntime
  import opened Journal
  import opened Handlers
  import opened Invariants
  import opened Runs

  /** A service that names a workspace names one of its domain. */
  ghost predicate Housed(services: map<string, AgentService>, workspaces: map<string, Workspace>) {
    forall k | k in services ::
      services[k].workspaceId == "" || ResourceKey(services[k].meta.domain, services[k].workspaceId) in workspaces
  }

  ghost predicate Supported(p: Platform, v: ServiceRevision) {
    && v.runtimeProfile == REFERENCE_PROFILE
    && (forall c | c in v.requiredCapabilities :: p.capable(c))
    && p.schemasFault(v.inputSchema, v.outputSchema).None?
  }

  /** Capability names are sound in every revision, and a revision that was ever published is supported. */
  ghost predicate RevisionsVetted(p: Platform, revisions: map<string, ServiceRevision>) {
    forall k | k in revisions ::
      CapabilityNames(p, revisions[k].requiredCapabilities) && (!revisions[k].state.Draft? ==> Supported(p, revisions[k]))
  }

  /** The input, and the result if there is one, satisfy these schemas. */
  predicate Conforms(p: Platform, i: Invocation, inputSchema: Option<Json>, outputSchema: Option<Json>) {
    p.inputFault(inputSchema, i.input).None? && (i.result.Some? ==> p.outputFault(outputSchema, i.result.value).None?)
  }

  /** Every invocation conforms to the schemas of the revision it runs. */
  ghost predicate InvocationsVetted(p: Platform, invocations: map<string, Invocation>, revisions: map<string, ServiceRevision>) {
    forall k | k in invocations ::
      var target := ResourceKey(invocations[k].meta.domain, invocations[k].revisionId);
      target in revisions && Conforms(p, invocations[k], revisions[target].inputSchema, revisions[target].outputSchema)
  }

  ghost predicate Vetted(p: Platform, s: State) {
    && Housed(s.services, s.workspaces) && RevisionsVetted(p, s.revisions) && InvocationsVetted(p, s.invocations, s.revisions)
  }

  // ---- Creation and publication ---------------------------------------------------------------------------

  lemma CreateServiceHouses(p: Platform, s: State, r: Request, domain: string, workspaceId: string, input: Input)
    requires Housed(s.services, s.workspaces)
    ensures Housed(DoCreateService(p, s, r, domain, workspaceId, input).state.services, s.workspaces)
  {
  }

  lemma CreateRevisionVets(p: Platform, s: State, r: Request, domain: string, serviceId: string, input: Input)
    requires RevisionsVetted(p, s.revisions)
    ensures RevisionsVetted(p, DoCreateRevision(p, s, r, domain, serviceId, input).state.revisions)
  {
  }

  lemma PublishVets(p: Platform, s: State, r: Request, domain: string, revisionId: string, input: Input)
    requires RevisionsVetted(p, s.revisions)
    ensures RevisionsVetted(p, DoPublish(p, s, r, domain, revisionId, input).state.revisions)
  {
  }

  lemma RetireVets(p: Platform, s: State, r: Request, domain: string, revisionId: string, input: Input)
    requires RevisionsVetted(p, s.revisions)
    ensures RevisionsVetted(p, DoRetire(s, r, domain, revisionId, input).state.revisions)
  {
  }

  /** Revisions keep their schemas, so invocations keep conforming. */
  lemma VettedAcross(p: Platform, invocations: map<string, Invocation>, revisions: map<string, ServiceRevision>,
                     revisions': map<string, ServiceRevision>)
    requires InvocationsVetted(p, invocations, revisions) && RevisionsEvolve(revisions, revisions')
    ensures InvocationsVetted(p, invocations, revisions')
  {
  }

  // ---- Invocation and cancellation ---------------------------------------------------------------------------

  /** The result of a run is one the output schema accepts: a success event it refuses becomes a failure. */
  lemma {:induction false} BuildConforms(p: Platform, start: Invocation, events: seq<RuntimeEvent>, inputSchema: Option<Json>, schema: Option<Json>)
    requires Payloads(events) && Conforms(p, start, inputSchema, schema)
    ensures var i := BuildDraft(p, start, events, schema).invocation;
      Conforms(p, i, inputSchema, schema) && i.meta == start.meta && i.revisionId == start.revisionId
  {
    if events != [] {
      var n := |events| - 1;
      BuildConforms(p, start, events[..n], inputSchema, schema);
      ExtendConforms(p, BuildDraft(p, start, events[..n], schema), events[n], inputSchema, schema);
    }
  }

  lemma ExtendConforms(p: Platform, d: Draft, e: RuntimeEvent, inputSchema: Option<Json>, schema: Option<Json>)
    requires e.payload.Some? && Conforms(p, d.invocation, inputSchema, schema)
    ensures var i := ExtendDraft(p, d, e, schema).invocation;
      Conforms(p, i, inputSchema, schema) && i.meta == d.invocation.meta && i.revisionId == d.invocation.revisionId
  {
  }

  lemma DraftConforms(p: Platform, r: Request, domain: string, serviceId: string, alias: string, revision: ServiceRevision, arguments: map<string, Value>)
    requires RunRefusal(p, r, revision.inputSchema, arguments).None?
    ensures var i := RunDraft(p, r, domain, serviceId, alias, revision, arguments).invocation;
      && Conforms(p, i, revision.inputSchema, revision.outputSchema)
      && i.meta.domain == domain && i.revisionId == revision.meta.id
  {
    var events := p.scenario(ScenarioOf(arguments).value).value;
    NormalizedPayloads(events);
    BuildConforms(p, NewInvocation(r, domain, serviceId, revision.meta.id, alias, arguments), Normalized(events).value,
                  revision.inputSchema, revision.outputSchema);
  }

  lemma PutVets(p: Platform, invocations: map<string, Invocation>, revisions: map<string, ServiceRevision>, key: string, i: Invocation)
    requires InvocationsVetted(p, invocations, revisions)
    requires var target := ResourceKey(i.meta.domain, i.revisionId);
      target in revisions && Conforms(p, i, revisions[target].inputSchema, revisions[target].outputSchema)
    ensures InvocationsVetted(p, invocations[key := i], revisions)
  {
  }

  lemma InvokeVets(p: Platform, s: State, r: Request, domain: string, serviceId: string, input: Input)
    requires InvocationsVetted(p, s.invocations, s.revisions) && RevisionsKeyed(s.revisions) && ValidDomain(domain)
    ensures InvocationsVetted(p, DoInvoke(p, s, r, domain, serviceId, input).state.invocations, s.revisions)
  {
    if InvokeRefusal(p, s, r, domain, serviceId, input).None? {
      var revision := Resolve(s, domain, serviceId, input.alias).value;
      var draft := RunDraft(p, r, domain, serviceId, input.alias, revision, input.arguments.value);
      DraftConforms(p, r, domain, serviceId, input.alias, revision, input.arguments.value);
      ResolvedNamed(s, domain, serviceId, input.alias);
      PutVets(p, s.invocations, s.revisions, ResourceKey(domain, r.ids.resource), draft.invocation);
    }
  }

  /** The revision an alias resolves to is stored under its own identifier. */
  lemma ResolvedNamed(s: State, domain: string, serviceId: string, alias: string)
    requires RevisionsKeyed(s.revisions) && ValidDomain(domain) && Resolve(s, domain, serviceId, alias).Some?
    ensures var v := Resolve(s, domain, serviceId, alias).value;
      ResourceKey(domain, v.meta.id) in s.revisions && s.revisions[ResourceKey(domain, v.meta.id)] == v
  {
    var v := Resolve(s, domain, serviceId, alias).value;
    var id := s.aliases[AliasKey(domain, serviceId, alias)].revisionId;
    ResourceKeyInjective(domain, id, v.meta.domain, v.meta.id);
  }

  lemma CancelVets(p: Platform, s: State, r: Request, domain: string, invocationId: string, input: Input)
    requires InvocationsVetted(p, s.invocations, s.revisions)
    ensures InvocationsVetted(p, DoCancel(p, s, r, domain, invocationId, input).state.invocations, s.revisions)
  {
    var key := ResourceKey(domain, invocationId);
    if CancelReply(s.invocations, r, key, input).None? {
      PutVets(p, s.invocations, s.revisions, key, CancelledInvocation(s.invocations[key], r.now));
    }
  }

  // ---- One request, then whole runs ----------------------------------------------------------------------------

  lemma HandleHouses(p: Platform, s: State, r: Request, route: Route, input: Input)
    requires Housed(s.services, s.workspaces) && Includes(s.workspaces, Handle(p, s, r, route, input).state.workspaces)
    ensures Housed(Handle(p, s, r, route, input).state.services, Handle(p, s, r, route, input).state.workspaces)
  {
    HandleFrame(p, s, r, route, input);
    if route.CreateService? {
      CreateServiceHouses(p, s, r, route.domain, route.workspaceId, input);
    }
  }

  lemma HandleVetsRevisions(p: Platform, s: State, r: Request, route: Route, input: Input)
    requires RevisionsVetted(p, s.revisions)
    ensures RevisionsVetted(p, Handle(p, s, r, route, input).state.revisions)
  {
    HandleFrame(p, s, r, route, input);
    if route.CreateRevision? {
      CreateRevisionVets(p, s, r, route.domain, route.serviceId, input);
    } else if route.PublishRevision? {
      PublishVets(p, s, r, route.domain, route.revisionId, input);
    } else if route.RetireRevision? {
      RetireVets(p, s, r, route.domain, route.revisionId, input);
    }
  }

  lemma HandleVetsInvocations(p: Platform, s: State, r: Request, route: Route, input: Input)
    requires InvocationsVetted(p, s.invocations, s.revisions) && RevisionsKeyed(s.revisions) && ValidDomain(route.domain)
    requires RevisionsEvolve(s.revisions, Handle(p, s, r, route, input).state.revisions)
    ensures InvocationsVetted(p, Handle(p, s, r, route, input).state.invocations, Handle(p, s, r, route, input).state.revisions)
  {
    HandleFrame(p, s, r, route, input);
    if route.Invoke? {
      InvokeVets(p, s, r, route.domain, route.serviceId, input);
    } else if route.CancelInvocation? {
      CancelVets(p, s, r, route.domain, route.invocationId, input);
    } else {
      VettedAcross(p, s.invocations, s.revisions, Handle(p, s, r, route, input).state.revisions);
    }
  }

  lemma MutateVets(p: Platform, s: State, r: Request)
    requires Inv(s) && Vetted(p, s) && IdsUnused(s, RouteOf(p, r).domain, r.ids)
    ensures Vetted(p, Mutate(p, s, r).state)
  {
    if Admitted(p, r) && SlotOf(r) !in s.cache {
      var route := RouteOf(p, r);
      var input := p.decode(route, r.body.value);
      HandleKeeps(p, s, r, route, input);
      HandleHouses(p, s, r, route, input);
      HandleVetsRevisions(p, s, r, route, input);
      HandleVetsInvocations(p, s, r, route, input);
    }
  }

  /** After any run, everything stored is vetted. */
  lemma {:induction false} OnlyVettedIsStored(p: Platform, requests: seq<Request>)
    requires FreshRun(p, EMPTY, requests)
    ensures Vetted(p, Exec(p, EMPTY, requests))
  {
    if requests != [] {
      var n := |requests| - 1;
      FreshPrefix(p, EMPTY, requests, n);
      OnlyVettedIsStored(p, requests[..n]);
      ReachableStatesHold(p, requests[..n]);
      MutateVets(p, Exec(p, EMPTY, requests[..n]), requests[n]);
    }
  }
}
