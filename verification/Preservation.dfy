/** Every handler keeps the invariants and lets the state only evolve. */
module Preservation {
  import opened Text
  import opened Resources
  import opened Requests
  import opened Journal
  import opened ReferenceRuntime
  import opened Handlers
  import opened Invariants

  // ---- Saved references survive growth ---------------------------------------------------------------

  lemma InvocationResolvesPersists(s: State, s': State, scope: string, id: string)
    requires Includes(s.services, s'.services) && InvocationsEvolve(s, s')
    requires InvocationResolves(s, scope, id)
    ensures InvocationResolves(s', scope, id)
  {
  }

  lemma TargetPersists(s: State, s': State, scope: string, kind: ResourceKind, id: string)
    requires Includes(s.workspaces, s'.workspaces) && Includes(s.services, s'.services)
    requires Includes(s.artifacts, s'.artifacts) && InvocationsEvolve(s, s')
    requires TargetExists(s, scope, kind, id)
    ensures TargetExists(s', scope, kind, id)
  {
    match kind
    case WorkspaceKind =>
    case ServiceKind =>
    case InvocationKind => InvocationResolvesPersists(s, s', scope, id);
    case ArtifactKind =>
      var k :| k in s.artifacts && s.artifacts[k].meta.domain == scope && s.artifacts[k].meta.id == id
            && InvocationResolves(s, scope, s.artifacts[k].invocationId);
      InvocationResolvesPersists(s, s', scope, s.artifacts[k].invocationId);
      assert k in s'.artifacts && s'.artifacts[k] == s.artifacts[k];
  }

  lemma SavedPersists(s: State, s': State)
    requires SavedResolves(s) && s'.saved == s.saved && Evolves(s, s')
    ensures SavedResolves(s')
  {
    forall k | k in s'.saved && s'.saved[k].saved ensures TargetExists(s', k.scope, s'.saved[k].kind, k.resourceId) {
      TargetPersists(s, s', k.scope, s.saved[k].kind, k.resourceId);
    }
  }

  // ---- A new workspace or service -----------------------------------------------------------------------

  lemma WorkspaceEvolves(s: State, key: string, value: Workspace)
    requires key !in s.workspaces
    ensures Evolves(s, s.(workspaces := s.workspaces[key := value]))
  {
  }

  lemma WorkspaceAdded(s: State, key: string, value: Workspace)
    requires Inv(s) && key !in s.workspaces && Identified(value.meta, key)
    ensures Kept(s, s.(workspaces := s.workspaces[key := value]))
  {
    WorkspaceEvolves(s, key, value);
    SavedPersists(s, s.(workspaces := s.workspaces[key := value]));
  }

  lemma ServiceEvolves(s: State, key: string, value: AgentService)
    requires key !in s.services
    ensures Evolves(s, s.(services := s.services[key := value]))
  {
  }

  lemma ServiceAddedLinks(s: State, key: string, value: AgentService)
    requires key !in s.services && AliasesRouted(s.aliases, s.services, s.revisions)
    requires RevisionsNumbered(s.revisions, s.services, s.revisionCounts) && InvocationsBound(s.invocations, s.services, s.revisions)
    ensures AliasesRouted(s.aliases, s.services[key := value], s.revisions)
    ensures RevisionsNumbered(s.revisions, s.services[key := value], s.revisionCounts)
    ensures InvocationsBound(s.invocations, s.services[key := value], s.revisions)
  {
  }

  lemma ServiceAdded(s: State, key: string, value: AgentService)
    requires Inv(s) && key !in s.services && Identified(value.meta, key)
    ensures Kept(s, s.(services := s.services[key := value]))
  {
    ServiceEvolves(s, key, value);
    ServiceAddedLinks(s, key, value);
    SavedPersists(s, s.(services := s.services[key := value]));
  }

  lemma CreateWorkspaceKeeps(p: Platform, s: State, r: Request, domain: string, input: Input)
    requires Inv(s) && ValidDomain(domain) && IdsUnused(s, domain, r.ids)
    ensures Kept(s, DoCreateWorkspace(p, s, r, domain, input).state)
  {
    var s' := DoCreateWorkspace(p, s, r, domain, input).state;
    var key := ResourceKey(domain, r.ids.resource);
    if s' == s { KeptUnchanged(s); } else { WorkspaceAdded(s, key, s'.workspaces[key]); }
  }

  lemma CreateServiceKeeps(p: Platform, s: State, r: Request, domain: string, workspaceId: string, input: Input)
    requires Inv(s) && ValidDomain(domain) && IdsUnused(s, domain, r.ids)
    ensures Kept(s, DoCreateService(p, s, r, domain, workspaceId, input).state)
  {
    var s' := DoCreateService(p, s, r, domain, workspaceId, input).state;
    var key := ResourceKey(domain, r.ids.resource);
    if ServiceRefusal(p, s.workspaces, r, domain, workspaceId, input).Some? {
      KeptUnchanged(s);
    } else {
      ServiceAdded(s, key, s'.services[key]);
    }
  }

  // ---- Revisions -------------------------------------------------------------------------------------------

  lemma NumberingExtends(revisions: map<string, ServiceRevision>, services: map<string, AgentService>, counts: map<string, int>,
                         key: string, value: ServiceRevision)
    requires RevisionsNumbered(revisions, services, counts) && key !in revisions
    requires OwnerKey(value) in services && value.number == CountOf(counts, OwnerKey(value)) + 1
    ensures RevisionsNumbered(revisions[key := value], services, counts[OwnerKey(value) := value.number])
  {
    var after := revisions[key := value];
    var counts' := counts[OwnerKey(value) := value.number];
    forall serviceKey, n | 1 <= n <= CountOf(counts', serviceKey) ensures Holds(after, serviceKey, n) {
      if serviceKey == OwnerKey(value) && n == value.number {
        assert after[key] == value;
      } else {
        assert Holds(revisions, serviceKey, n);
        var k :| k in revisions && OwnerKey(revisions[k]) == serviceKey && revisions[k].number == n;
        assert after[k] == revisions[k];
      }
    }
  }

  /** Numbering does not look at a revision's stage. */
  lemma NumberingIgnoresStage(revisions: map<string, ServiceRevision>, services: map<string, AgentService>, counts: map<string, int>,
                              key: string, value: ServiceRevision)
    requires RevisionsNumbered(revisions, services, counts) && key in revisions
    requires OwnerKey(value) == OwnerKey(revisions[key]) && value.number == revisions[key].number
    ensures RevisionsNumbered(revisions[key := value], services, counts)
  {
    var after := revisions[key := value];
    forall serviceKey, n | 1 <= n <= CountOf(counts, serviceKey) ensures Holds(after, serviceKey, n) {
      assert Holds(revisions, serviceKey, n);
      var k :| k in revisions && OwnerKey(revisions[k]) == serviceKey && revisions[k].number == n;
      assert OwnerKey(after[k]) == serviceKey && after[k].number == n;
    }
  }

  lemma RevisionChangeEvolves(s: State, key: string, value: ServiceRevision, counts: map<string, int>)
    requires key in s.revisions ==> RevisionEvolves(s.revisions[key], value)
    ensures Evolves(s, s.(revisions := s.revisions[key := value], revisionCounts := counts))
  {
  }

  lemma RevisionAddedLinks(s: State, key: string, value: ServiceRevision)
    requires key !in s.revisions
    requires AliasesRouted(s.aliases, s.services, s.revisions)
    requires InvocationsBound(s.invocations, s.services, s.revisions)
    ensures AliasesRouted(s.aliases, s.services, s.revisions[key := value])
    ensures InvocationsBound(s.invocations, s.services, s.revisions[key := value])
  {
  }

  lemma RevisionAdded(s: State, key: string, value: ServiceRevision)
    requires Inv(s) && key !in s.revisions && Identified(value.meta, key)
    requires value.state.Draft? && value.meta.version == 1
    requires OwnerKey(value) in s.services && value.number == CountOf(s.revisionCounts, OwnerKey(value)) + 1
    ensures Kept(s, s.(revisions := s.revisions[key := value],
                         revisionCounts := s.revisionCounts[OwnerKey(value) := value.number]))
  {
    var counts := s.revisionCounts[OwnerKey(value) := value.number];
    RevisionChangeEvolves(s, key, value, counts);
    RevisionAddedLinks(s, key, value);
    NumberingExtends(s.revisions, s.services, s.revisionCounts, key, value);
    SavedPersists(s, s.(revisions := s.revisions[key := value], revisionCounts := counts));
  }

  lemma CreateRevisionKeeps(p: Platform, s: State, r: Request, domain: string, serviceId: string, input: Input)
    requires Inv(s) && ValidDomain(domain) && IdsUnused(s, domain, r.ids)
    ensures Kept(s, DoCreateRevision(p, s, r, domain, serviceId, input).state)
  {
    var s' := DoCreateRevision(p, s, r, domain, serviceId, input).state;
    var key := ResourceKey(domain, r.ids.resource);
    if RevisionRefusal(p, s.services, r, ResourceKey(domain, serviceId), input).Some? {
      KeptUnchanged(s);
    } else {
      RevisionAdded(s, key, s'.revisions[key]);
    }
  }

  /** Moving one stage on keeps everything, once no route and no running invocation depends on the old stage. */
  lemma RevisionMoved(s: State, key: string, value: ServiceRevision)
    requires Inv(s) && key in s.revisions && RevisionEvolves(s.revisions[key], value)
    requires value.meta.version == StageVersion(value.state)
    requires AliasesRouted(s.aliases, s.services, s.revisions[key := value])
    requires InvocationsBound(s.invocations, s.services, s.revisions[key := value])
    ensures Kept(s, s.(revisions := s.revisions[key := value]))
  {
    var s' := s.(revisions := s.revisions[key := value]);
    RevisionChangeEvolves(s, key, value, s.revisionCounts);
    NumberingIgnoresStage(s.revisions, s.services, s.revisionCounts, key, value);
    SavedPersists(s, s');
  }

  /** No route and no invocation depends on a draft. */
  lemma PublishLinks(s: State, key: string, value: ServiceRevision)
    requires key in s.revisions && s.revisions[key].state.Draft?
    requires value.serviceId == s.revisions[key].serviceId && value.state.Published?
    requires AliasesRouted(s.aliases, s.services, s.revisions)
    requires InvocationsBound(s.invocations, s.services, s.revisions)
    ensures AliasesRouted(s.aliases, s.services, s.revisions[key := value])
    ensures InvocationsBound(s.invocations, s.services, s.revisions[key := value])
  {
  }

  lemma PublishKeeps(p: Platform, s: State, r: Request, domain: string, revisionId: string, input: Input)
    requires Inv(s)
    ensures Kept(s, DoPublish(p, s, r, domain, revisionId, input).state)
  {
    var key := ResourceKey(domain, revisionId);
    if PublishRefusal(p, s.revisions, r, key, input).Some? {
      KeptUnchanged(s);
    } else {
      var value := PublishedRevision(s.revisions[key], r.now);
      PublishLinks(s, key, value);
      RevisionMoved(s, key, value);
    }
  }

  /** Retiring an unrouted revision takes no alias's target away. */
  lemma RetireLeavesRoutes(s: State, domain: string, key: string, value: ServiceRevision)
    requires AliasesKeyed(s.aliases) && AliasesRouted(s.aliases, s.services, s.revisions)
    requires key in s.revisions && Identified(s.revisions[key].meta, key) && s.revisions[key].meta.domain == domain
    requires !Routed(s, domain, s.revisions[key].meta.id)
    ensures AliasesRouted(s.aliases, s.services, s.revisions[key := value])
  {
    forall k | k in s.aliases && s.aliases[k].withdrawnAt.None?
      ensures RoutesToPublished(s.aliases[k], s.revisions[key := value])
    {
      var a := s.aliases[k];
      if ResourceKey(a.meta.domain, a.revisionId) == key {
        ResourceKeyInjective(a.meta.domain, a.revisionId, domain, s.revisions[key].meta.id);
      }
    }
  }

  /** Retiring an inactive revision finds all of its invocations finished. */
  lemma RetireLeavesFinished(s: State, domain: string, key: string, value: ServiceRevision)
    requires InvocationsKeyed(s.invocations) && InvocationsBound(s.invocations, s.services, s.revisions)
    requires key in s.revisions && Identified(s.revisions[key].meta, key) && s.revisions[key].meta.domain == domain
    requires !Active(s, domain, s.revisions[key].meta.id)
    requires value.serviceId == s.revisions[key].serviceId && value.state.Retired?
    ensures InvocationsBound(s.invocations, s.services, s.revisions[key := value])
  {
    forall k | k in s.invocations ensures RunsRevision(s.invocations[k], s.revisions[key := value]) {
      var i := s.invocations[k];
      if ResourceKey(i.meta.domain, i.revisionId) == key {
        ResourceKeyInjective(i.meta.domain, i.revisionId, domain, s.revisions[key].meta.id);
      }
    }
  }

  lemma RetireKeeps(s: State, r: Request, domain: string, revisionId: string, input: Input)
    requires Inv(s) && ValidDomain(domain)
    ensures Kept(s, DoRetire(s, r, domain, revisionId, input).state)
  {
    var key := ResourceKey(domain, revisionId);
    if RetireRefusal(s, r, domain, key, input).Some? {
      KeptUnchanged(s);
    } else {
      var v := s.revisions[key];
      ResourceKeyInjective(domain, revisionId, v.meta.domain, v.meta.id);
      Retires(s, domain, key, RetiredRevision(v, r.now));
    }
  }

  lemma Retires(s: State, domain: string, key: string, value: ServiceRevision)
    requires Inv(s) && key in s.revisions && s.revisions[key].meta.domain == domain && RevisionEvolves(s.revisions[key], value)
    requires !Routed(s, domain, s.revisions[key].meta.id) && !Active(s, domain, s.revisions[key].meta.id)
    requires value.state.Retired? && value.meta.version == StageVersion(Retired)
    ensures Kept(s, s.(revisions := s.revisions[key := value]))
  {
    RetireLeavesRoutes(s, domain, key, value);
    RetireLeavesFinished(s, domain, key, value);
    RevisionMoved(s, key, value);
  }

  // ---- Aliases ---------------------------------------------------------------------------------------------

  lemma ServiceIdPlain(services: map<string, AgentService>, domain: string, serviceId: string)
    requires ServicesKeyed(services) && ValidDomain(domain) && ResourceKey(domain, serviceId) in services
    ensures '/' !in serviceId
  {
    var v := services[ResourceKey(domain, serviceId)];
    ResourceKeyInjective(domain, serviceId, v.meta.domain, v.meta.id);
  }

  /** The alias stored under a key is the one the key's parts name. */
  lemma AliasAt(s: State, domain: string, serviceId: string, name: string)
    requires ServicesKeyed(s.services) && AliasesKeyed(s.aliases) && AliasesRouted(s.aliases, s.services, s.revisions)
    requires ValidDomain(domain) && AliasKey(domain, serviceId, name) in s.aliases
    requires ResourceKey(domain, serviceId) in s.services
    ensures var a := s.aliases[AliasKey(domain, serviceId, name)];
      a.meta.domain == domain && a.serviceId == serviceId && a.name == name
  {
    var a := s.aliases[AliasKey(domain, serviceId, name)];
    ServiceIdPlain(s.services, a.meta.domain, a.serviceId);
    ServiceIdPlain(s.services, domain, serviceId);
    NestedKeyInjective(domain, serviceId, name, a.meta.domain, a.serviceId, a.name);
  }

  lemma AliasEvolvesState(s: State, key: string, value: ServiceAlias)
    requires key in s.aliases ==> AliasEvolves(s.aliases[key], value)
    ensures Evolves(s, s.(aliases := s.aliases[key := value]))
  {
  }

  /** `value` may be stored under `key`. */
  ghost predicate RoutedUnder(s: State, key: string, value: ServiceAlias) {
    && ValidDomain(value.meta.domain) && key == AliasKey(value.meta.domain, value.serviceId, value.name)
    && ResourceKey(value.meta.domain, value.serviceId) in s.services
    && AliasName(value.name) && value.meta.version == value.meta.generation >= 1
    && (value.withdrawnAt.None? ==> RoutesToPublished(value, s.revisions))
  }

  lemma AliasPut(s: State, key: string, value: ServiceAlias)
    requires Inv(s) && (key in s.aliases ==> AliasEvolves(s.aliases[key], value)) && RoutedUnder(s, key, value)
    ensures Kept(s, s.(aliases := s.aliases[key := value]))
  {
    AliasEvolvesState(s, key, value);
    SavedPersists(s, s.(aliases := s.aliases[key := value]));
  }

  /** An assignment that is not refused stores a well-routed alias. */
  lemma AssignRoutes(s: State, r: Request, domain: string, serviceId: string, alias: string, input: Input)
    requires ServicesKeyed(s.services) && AliasesKeyed(s.aliases) && AliasesRouted(s.aliases, s.services, s.revisions)
    requires ValidDomain(domain) && AssignRefusal(s, r, domain, serviceId, alias, input).None?
    ensures var key := AliasKey(domain, serviceId, alias);
      var value := Assigned(s.aliases, r, domain, serviceId, alias, input.revisionId);
      (key in s.aliases ==> AliasEvolves(s.aliases[key], value)) && RoutedUnder(s, key, value)
  {
    if AliasKey(domain, serviceId, alias) in s.aliases {
      AliasAt(s, domain, serviceId, alias);
    }
  }

  lemma AssignKeeps(s: State, r: Request, domain: string, serviceId: string, alias: string, input: Input)
    requires Inv(s) && ValidDomain(domain)
    ensures Kept(s, DoAssign(s, r, domain, serviceId, alias, input).state)
  {
    if AssignRefusal(s, r, domain, serviceId, alias, input).Some? {
      KeptUnchanged(s);
    } else {
      AssignRoutes(s, r, domain, serviceId, alias, input);
      AliasPut(s, AliasKey(domain, serviceId, alias), Assigned(s.aliases, r, domain, serviceId, alias, input.revisionId));
    }
  }

  lemma WithdrawRoutes(s: State, r: Request, domain: string, serviceId: string, alias: string, input: Input)
    requires AliasesKeyed(s.aliases) && AliasesRouted(s.aliases, s.services, s.revisions)
    ensures var done := DoWithdraw(s, r, domain, serviceId, alias, input);
      var key := AliasKey(domain, serviceId, alias);
      if done.reply.status != 200 then done.state == s
      else
        && key in done.state.aliases && done.state == s.(aliases := s.aliases[key := done.state.aliases[key]])
        && (key in s.aliases ==> AliasEvolves(s.aliases[key], done.state.aliases[key]))
        && RoutedUnder(s, key, done.state.aliases[key])
  {
  }

  lemma WithdrawKeeps(s: State, r: Request, domain: string, serviceId: string, alias: string, input: Input)
    requires Inv(s)
    ensures Kept(s, DoWithdraw(s, r, domain, serviceId, alias, input).state)
  {
    WithdrawRoutes(s, r, domain, serviceId, alias, input);
    var done := DoWithdraw(s, r, domain, serviceId, alias, input);
    var key := AliasKey(domain, serviceId, alias);
    if done.reply.status == 200 { AliasPut(s, key, done.state.aliases[key]); } else { KeptUnchanged(s); }
  }

  // ---- Saved resources ----------------------------------------------------------------------------------------

  lemma SavedPut(s: State, s': State, key: SavedKey, value: SavedState)
    requires SavedResolves(s) && s' == s.(saved := s.saved[key := value])
    requires value.domain == key.scope && value.resourceId == key.resourceId
    requires value.saved ==> TargetExists(s, key.scope, value.kind, key.resourceId)
    ensures SavedResolves(s') && Evolves(s, s')
  {
    forall k | k in s'.saved && s'.saved[k].saved ensures TargetExists(s', k.scope, s'.saved[k].kind, k.resourceId) {
      TargetPersists(s, s', k.scope, s'.saved[k].kind, k.resourceId);
    }
  }

  lemma SetSavedKeeps(p: Platform, s: State, r: Request, domain: string, input: Input)
    requires Inv(s)
    ensures Kept(s, DoSetSaved(p, s, r, domain, input).state)
  {
    if SavedRefusal(p, s, r, domain, input).Some? {
      KeptUnchanged(s);
    } else {
      var key := SavedKey(domain, r.principal.value.kind, Actor(r), input.resourceId);
      SavedPut(s, DoSetSaved(p, s, r, domain, input).state, key, Remembered(s.saved, key, input.kind, input.saved, r.now));
    }
  }
}
