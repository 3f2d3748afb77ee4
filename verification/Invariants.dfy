/** What every reachable server state satisfies. No single handler enforces these: they follow
    from the interplay of creation, publication, routing, retirement, invocation and cancellation. */
module Invariants {
  import opened Text
  import opened Resources
  import opened Requests
  import opened Journal
  import opened Handlers

  // ---- Every record is stored under the key its own metadata names ------------------------------

  ghost predicate Identified(meta: Metadata, key: string) {
    ValidDomain(meta.domain) && '/' !in meta.id && key == ResourceKey(meta.domain, meta.id)
  }

  ghost predicate WorkspacesKeyed(m: map<string, Workspace>) { forall k | k in m :: Identified(m[k].meta, k) }
  ghost predicate ServicesKeyed(m: map<string, AgentService>) { forall k | k in m :: Identified(m[k].meta, k) }
  ghost predicate RevisionsKeyed(m: map<string, ServiceRevision>) { forall k | k in m :: Identified(m[k].meta, k) }
  ghost predicate InvocationsKeyed(m: map<string, Invocation>) { forall k | k in m :: Identified(m[k].meta, k) }
  ghost predicate OperationsKeyed(m: map<string, Operation>) { forall k | k in m :: Identified(m[k].meta, k) }

  ghost predicate AliasesKeyed(m: map<string, ServiceAlias>) {
    forall k | k in m :: ValidDomain(m[k].meta.domain) && k == AliasKey(m[k].meta.domain, m[k].serviceId, m[k].name)
  }

  ghost predicate ArtifactsKeyed(m: map<string, ArtifactDescriptor>) {
    forall k | k in m :: ValidDomain(m[k].meta.domain) && k == ArtifactKey(m[k].meta.domain, m[k].invocationId, m[k].meta.id)
  }

  // ---- Links between the maps ----------------------------------------------------------------------

  ghost predicate RoutesToPublished(a: ServiceAlias, revisions: map<string, ServiceRevision>) {
    var target := ResourceKey(a.meta.domain, a.revisionId);
    target in revisions && revisions[target].serviceId == a.serviceId && revisions[target].state.Published?
  }

  /** Aliases belong to existing services; one that is not withdrawn routes to a published revision of its service. */
  ghost predicate AliasesRouted(aliases: map<string, ServiceAlias>, services: map<string, AgentService>,
                                revisions: map<string, ServiceRevision>) {
    forall k | k in aliases ::
      && ResourceKey(aliases[k].meta.domain, aliases[k].serviceId) in services
      && AliasName(aliases[k].name)
      && aliases[k].meta.version == aliases[k].meta.generation >= 1
      && (aliases[k].withdrawnAt.None? ==> RoutesToPublished(aliases[k], revisions))
  }

  function StageVersion(state: RevisionState): int { match state case Draft => 1 case Published => 2 case Retired => 3 }

  /** A revision's version is 1, 2 or 3 as it is draft, published or retired. */
  ghost predicate RevisionsStaged(revisions: map<string, ServiceRevision>) {
    forall k | k in revisions :: revisions[k].meta.version == StageVersion(revisions[k].state)
  }

  function OwnerKey(v: ServiceRevision): string { ResourceKey(v.meta.domain, v.serviceId) }

  ghost predicate Holds(revisions: map<string, ServiceRevision>, serviceKey: string, number: int) {
    exists k :: k in revisions && OwnerKey(revisions[k]) == serviceKey && revisions[k].number == number
  }

  /** The revision numbers of each service are exactly 1..count, each used once. */
  ghost predicate RevisionsNumbered(revisions: map<string, ServiceRevision>, services: map<string, AgentService>,
                                    counts: map<string, int>) {
    && (forall k | k in revisions ::
          OwnerKey(revisions[k]) in services && 1 <= revisions[k].number <= CountOf(counts, OwnerKey(revisions[k])))
    && (forall k, l | k in revisions && l in revisions && k != l && OwnerKey(revisions[k]) == OwnerKey(revisions[l]) ::
          revisions[k].number != revisions[l].number)
    && (forall serviceKey, n | 1 <= n <= CountOf(counts, serviceKey) :: Holds(revisions, serviceKey, n))
    && (forall serviceKey | serviceKey in counts :: counts[serviceKey] >= 0)
  }

  ghost predicate RunsRevision(i: Invocation, revisions: map<string, ServiceRevision>) {
    var target := ResourceKey(i.meta.domain, i.revisionId);
    && target in revisions
    && revisions[target].serviceId == i.serviceId
    && !revisions[target].state.Draft?
    && (revisions[target].state.Retired? ==> Terminal(i.state))
  }

  /** Invocations belong to existing services and revisions; those of a retired revision are all finished. */
  ghost predicate InvocationsBound(invocations: map<string, Invocation>, services: map<string, AgentService>,
                                   revisions: map<string, ServiceRevision>) {
    forall k | k in invocations ::
      && ResourceKey(invocations[k].meta.domain, invocations[k].serviceId) in services
      && RunsRevision(invocations[k], revisions)
  }

  /** Each invocation has its own operation, which observes its state and holds its result. */
  ghost predicate OperationsPaired(invocations: map<string, Invocation>, operations: map<string, Operation>) {
    forall k | k in invocations ::
      var o := ResourceKey(invocations[k].meta.domain, invocations[k].operationId);
      && o in operations
      && operations[o].resourceId == invocations[k].meta.id
      && operations[o].observed == ObservedOf(invocations[k].state)
      && operations[o].terminalResult == invocations[k].result
  }

  /** Each invocation has a journal, numbered 1..n, that reproduces it. */
  ghost predicate Journaled(invocations: map<string, Invocation>, events: map<string, seq<Event>>) {
    && events.Keys == invocations.Keys
    && forall k | k in invocations :: Numbered(events[k]) && Sourced(invocations[k], events[k])
  }

  ghost predicate ArtifactsBound(artifacts: map<string, ArtifactDescriptor>, invocations: map<string, Invocation>) {
    forall k | k in artifacts :: ResourceKey(artifacts[k].meta.domain, artifacts[k].invocationId) in invocations
  }

  ghost predicate SavedKeyed(saved: map<SavedKey, SavedState>) {
    forall k | k in saved :: saved[k].domain == k.scope && saved[k].resourceId == k.resourceId
  }

  /** Every saved reference resolves. */
  ghost predicate SavedResolves(s: State) {
    forall k | k in s.saved ::
      && s.saved[k].domain == k.scope && s.saved[k].resourceId == k.resourceId
      && (s.saved[k].saved ==> TargetExists(s, k.scope, s.saved[k].kind, k.resourceId))
  }

  ghost predicate Keyed(s: State) {
    && WorkspacesKeyed(s.workspaces) && ServicesKeyed(s.services) && RevisionsKeyed(s.revisions)
    && InvocationsKeyed(s.invocations) && OperationsKeyed(s.operations)
    && AliasesKeyed(s.aliases) && ArtifactsKeyed(s.artifacts)
  }

  ghost predicate Inv(s: State) {
    && Keyed(s)
    && AliasesRouted(s.aliases, s.services, s.revisions)
    && RevisionsStaged(s.revisions)
    && RevisionsNumbered(s.revisions, s.services, s.revisionCounts)
    && InvocationsBound(s.invocations, s.services, s.revisions)
    && OperationsPaired(s.invocations, s.operations)
    && Journaled(s.invocations, s.events)
    && ArtifactsBound(s.artifacts, s.invocations)
    && SavedResolves(s)
  }

  /** The identifiers a request drew are not in use in its domain, and contain no separator. */
  ghost predicate IdsUnused(s: State, domain: string, ids: Ids) {
    && '/' !in ids.resource && '/' !in ids.operation
    && ResourceKey(domain, ids.resource) !in s.workspaces
    && ResourceKey(domain, ids.resource) !in s.services
    && ResourceKey(domain, ids.resource) !in s.revisions
    && ResourceKey(domain, ids.resource) !in s.invocations
    && ResourceKey(domain, ids.operation) !in s.operations
  }

  // ---- How states may change -------------------------------------------------------------------------

  ghost predicate Includes<V>(m: map<string, V>, m': map<string, V>) {
    forall k | k in m :: k in m' && m'[k] == m[k]
  }

  /** A revision keeps its identity and its content and only moves draft, published, retired; within a stage it never changes. */
  ghost predicate RevisionEvolves(v: ServiceRevision, v': ServiceRevision) {
    && v'.meta.id == v.meta.id && v'.meta.domain == v.meta.domain && v'.meta.createdAt == v.meta.createdAt
    && v'.meta.createdBy == v.meta.createdBy && v'.serviceId == v.serviceId && v'.number == v.number
    && v'.runtimeProfile == v.runtimeProfile && v'.requiredCapabilities == v.requiredCapabilities
    && v'.inputSchema == v.inputSchema && v'.outputSchema == v.outputSchema
    && StageVersion(v.state) <= StageVersion(v'.state)
    && (v.state == v'.state ==> v == v')
  }

  /** An invocation keeps its identity and its input, and a finished one never changes. */
  ghost predicate InvocationEvolves(i: Invocation, i': Invocation) {
    && i'.meta.id == i.meta.id && i'.meta.domain == i.meta.domain && i'.meta.createdAt == i.meta.createdAt
    && i'.serviceId == i.serviceId && i'.revisionId == i.revisionId && i'.operationId == i.operationId
    && i'.alias == i.alias && i'.input == i.input && i'.correlationId == i.correlationId
    && (Terminal(i.state) ==> i' == i)
  }

  ghost predicate AliasEvolves(a: ServiceAlias, a': ServiceAlias) {
    && a'.meta.id == a.meta.id && a'.meta.domain == a.meta.domain && a'.serviceId == a.serviceId && a'.name == a.name
    && a.meta.version <= a'.meta.version
    && (a.meta.version == a'.meta.version ==> a == a')
  }

  ghost predicate RevisionsEvolve(m: map<string, ServiceRevision>, m': map<string, ServiceRevision>) {
    forall k | k in m :: k in m' && RevisionEvolves(m[k], m'[k])
  }

  /** No invocation disappears, and none is added for a revision that is retired. */
  ghost predicate InvocationsEvolve(s: State, s': State) {
    && (forall k | k in s.invocations :: k in s'.invocations && InvocationEvolves(s.invocations[k], s'.invocations[k]))
    && (forall k | k in s'.invocations && k !in s.invocations ::
          var target := ResourceKey(s'.invocations[k].meta.domain, s'.invocations[k].revisionId);
          target in s.revisions ==> !s.revisions[target].state.Retired?)
  }

  ghost predicate AliasesEvolve(m: map<string, ServiceAlias>, m': map<string, ServiceAlias>) {
    forall k | k in m :: k in m' && AliasEvolves(m[k], m'[k])
  }

  /** Journals are only appended to, and not at all once their invocation is finished. */
  ghost predicate JournalsGrow(s: State, s': State) {
    forall k | k in s.events ::
      && k in s'.events && s.events[k] <= s'.events[k]
      && (k in s.invocations && Terminal(s.invocations[k].state) ==> s'.events[k] == s.events[k])
  }

  ghost predicate Evolves(s: State, s': State) {
    && Includes(s.workspaces, s'.workspaces)
    && Includes(s.services, s'.services)
    && Includes(s.artifacts, s'.artifacts)
    && Includes(s.cache, s'.cache)
    && RevisionsEvolve(s.revisions, s'.revisions)
    && AliasesEvolve(s.aliases, s'.aliases)
    && InvocationsEvolve(s, s')
    && JournalsGrow(s, s')
  }

  /** The invariants hold afterwards, and the state only evolved. */
  ghost predicate Kept(s: State, s': State) { Inv(s') && Evolves(s, s') }

  lemma EvolvesReflexive(s: State)
    ensures Evolves(s, s)
  {
  }

  lemma KeptUnchanged(s: State)
    requires Inv(s)
    ensures Kept(s, s)
  {
    EvolvesReflexive(s);
  }

  lemma InvocationsEvolveTransitive(a: State, b: State, c: State)
    requires InvocationsEvolve(a, b) && InvocationsEvolve(b, c) && RevisionsEvolve(a.revisions, b.revisions)
    ensures InvocationsEvolve(a, c)
  {
  }

  lemma EvolvesTransitive(a: State, b: State, c: State)
    requires Evolves(a, b) && Evolves(b, c)
    ensures Evolves(a, c)
  {
    InvocationsEvolveTransitive(a, b, c);
  }

  lemma EmptyHolds()
    ensures Inv(EMPTY)
  {
  }
}
