/** Isolation domains do not observe each other: a domain's part of the state, and its replies,
    are what they would be if the server had served that domain alone. */
module Isolation {
  import opened Text
  import opened Resources
  import opened Requests
  import opened ReferenceRuntime
  import opened Handlers
  import opened Runs

  // ---- The part of a map that belongs to a domain -----------------------------------------------------

  ghost function In<V>(m: map<string, V>, d: string): map<string, V> {
    map k | k in m && DomainOf(k) == d :: m[k]
  }

  ghost function SavedIn(m: map<SavedKey, SavedState>, d: string): map<SavedKey, SavedState> {
    map k | k in m && k.scope == d :: m[k]
  }

  ghost function CacheIn(p: Platform, m: map<string, Stored>, d: string): map<string, Stored> {
    map k | k in m && SlotDomain(p, k) == d :: m[k]
  }

  ghost function Project(p: Platform, s: State, d: string): State {
    State(In(s.workspaces, d), SavedIn(s.saved, d), In(s.services, d), In(s.revisions, d), In(s.revisionCounts, d),
          In(s.aliases, d), In(s.invocations, d), In(s.operations, d), In(s.events, d), In(s.artifacts, d),
          CacheIn(p, s.cache, d))
  }

  lemma PutIn<V>(m: map<string, V>, d: string, k: string, v: V)
    requires DomainOf(k) == d
    ensures In(m[k := v], d) == In(m, d)[k := v]
  {
  }

  lemma PutElsewhere<V>(m: map<string, V>, d: string, k: string, v: V)
    requires DomainOf(k) != d
    ensures In(m[k := v], d) == In(m, d)
  {
  }

  lemma UnionIn<V>(m: map<string, V>, d: string, n: map<string, V>)
    requires forall k | k in n :: DomainOf(k) == d
    ensures In(m + n, d) == In(m, d) + n
  {
  }

  lemma UnionElsewhere<V>(m: map<string, V>, d: string, n: map<string, V>)
    requires forall k | k in n :: DomainOf(k) != d
    ensures In(m + n, d) == In(m, d)
  {
  }

  /** Records that are found by scanning are filed under their own domain. */
  ghost predicate Filed(s: State) {
    && (forall k | k in s.aliases :: s.aliases[k].meta.domain == DomainOf(k))
    && (forall k | k in s.invocations :: s.invocations[k].meta.domain == DomainOf(k))
    && (forall k | k in s.artifacts :: s.artifacts[k].meta.domain == DomainOf(k))
  }

  /** A handler for domain `d` acts the same on the whole state and on the domain's part of it. */
  ghost predicate Local(p: Platform, d: string, s: State, done: Outcome, alone: Outcome) {
    alone.reply == done.reply && alone.state == Project(p, done.state, d)
  }

  // ---- Each handler reads and writes only its own domain -------------------------------------------------

  lemma KeyIn(d: string, id: string)
    requires ValidDomain(d)
    ensures DomainOf(ResourceKey(d, id)) == d
  {
    ResourceKeySplits(d, id);
  }

  lemma CreateWorkspaceLocal(p: Platform, s: State, r: Request, d: string, input: Input)
    requires ValidDomain(d)
    ensures Local(p, d, s, DoCreateWorkspace(p, s, r, d, input), DoCreateWorkspace(p, Project(p, s, d), r, d, input))
  {
    var key := ResourceKey(d, r.ids.resource);
    KeyIn(d, r.ids.resource);
    var done := DoCreateWorkspace(p, s, r, d, input);
    if done.reply.status == 201 {
      PutIn(s.workspaces, d, key, done.state.workspaces[key]);
    }
  }

  lemma CreateServiceLocal(p: Platform, s: State, r: Request, d: string, workspaceId: string, input: Input)
    requires ValidDomain(d)
    ensures Local(p, d, s, DoCreateService(p, s, r, d, workspaceId, input), DoCreateService(p, Project(p, s, d), r, d, workspaceId, input))
  {
    var key := ResourceKey(d, r.ids.resource);
    KeyIn(d, r.ids.resource);
    KeyIn(d, workspaceId);
    assert ServiceRefusal(p, In(s.workspaces, d), r, d, workspaceId, input) == ServiceRefusal(p, s.workspaces, r, d, workspaceId, input);
    if ServiceRefusal(p, s.workspaces, r, d, workspaceId, input).None? {
      PutIn(s.services, d, key, DoCreateService(p, s, r, d, workspaceId, input).state.services[key]);
    }
  }

  lemma CreateRevisionLocal(p: Platform, s: State, r: Request, d: string, serviceId: string, input: Input)
    requires ValidDomain(d)
    ensures Local(p, d, s, DoCreateRevision(p, s, r, d, serviceId, input), DoCreateRevision(p, Project(p, s, d), r, d, serviceId, input))
  {
    var key, serviceKey := ResourceKey(d, r.ids.resource), ResourceKey(d, serviceId);
    KeyIn(d, r.ids.resource);
    KeyIn(d, serviceId);
    assert RevisionRefusal(p, In(s.services, d), r, serviceKey, input) == RevisionRefusal(p, s.services, r, serviceKey, input);
    if RevisionRefusal(p, s.services, r, serviceKey, input).None? {
      var number := CountOf(s.revisionCounts, serviceKey) + 1;
      PutIn(s.revisions, d, key, NewRevision(r, d, serviceId, number, input));
      PutIn(s.revisionCounts, d, serviceKey, number);
    }
  }

  lemma PublishLocal(p: Platform, s: State, r: Request, d: string, revisionId: string, input: Input)
    requires ValidDomain(d)
    ensures Local(p, d, s, DoPublish(p, s, r, d, revisionId, input), DoPublish(p, Project(p, s, d), r, d, revisionId, input))
  {
    var key := ResourceKey(d, revisionId);
    KeyIn(d, revisionId);
    assert PublishRefusal(p, In(s.revisions, d), r, key, input) == PublishRefusal(p, s.revisions, r, key, input);
    if PublishRefusal(p, s.revisions, r, key, input).None? {
      PutIn(s.revisions, d, key, DoPublish(p, s, r, d, revisionId, input).state.revisions[key]);
    }
  }

  /** The scans of retirement see the same aliases and invocations in the domain's part as in the whole. */
  lemma AliasScanLocal(p: Platform, s: State, d: string, revisionId: string)
    requires Filed(s)
    ensures Routed(Project(p, s, d), d, revisionId) == Routed(s, d, revisionId)
  {
    if Routed(s, d, revisionId) {
      var k :| k in s.aliases && s.aliases[k].meta.domain == d
            && s.aliases[k].revisionId == revisionId && s.aliases[k].withdrawnAt.None?;
      assert k in Project(p, s, d).aliases;
    }
  }

  lemma InvocationScanLocal(p: Platform, s: State, d: string, revisionId: string)
    requires Filed(s)
    ensures Active(Project(p, s, d), d, revisionId) == Active(s, d, revisionId)
  {
    if Active(s, d, revisionId) {
      var k :| k in s.invocations && s.invocations[k].meta.domain == d
            && s.invocations[k].revisionId == revisionId && !Terminal(s.invocations[k].state);
      assert k in Project(p, s, d).invocations;
    }
  }

  lemma RetireLocal(p: Platform, s: State, r: Request, d: string, revisionId: string, input: Input)
    requires ValidDomain(d) && Filed(s)
    ensures Local(p, d, s, DoRetire(s, r, d, revisionId, input), DoRetire(Project(p, s, d), r, d, revisionId, input))
  {
    var key := ResourceKey(d, revisionId);
    KeyIn(d, revisionId);
    if key in s.revisions {
      AliasScanLocal(p, s, d, s.revisions[key].meta.id);
      InvocationScanLocal(p, s, d, s.revisions[key].meta.id);
    }
    assert RetireRefusal(Project(p, s, d), r, d, key, input) == RetireRefusal(s, r, d, key, input);
    if RetireRefusal(s, r, d, key, input).None? {
      PutIn(s.revisions, d, key, DoRetire(s, r, d, revisionId, input).state.revisions[key]);
    }
  }

  lemma AliasKeyIn(d: string, serviceId: string, alias: string)
    requires ValidDomain(d)
    ensures DomainOf(AliasKey(d, serviceId, alias)) == d
  {
    NestedKeySplits(d, serviceId, alias);
  }

  lemma AssignLocal(p: Platform, s: State, r: Request, d: string, serviceId: string, alias: string, input: Input)
    requires ValidDomain(d)
    ensures Local(p, d, s, DoAssign(s, r, d, serviceId, alias, input), DoAssign(Project(p, s, d), r, d, serviceId, alias, input))
  {
    var key := AliasKey(d, serviceId, alias);
    AliasKeyIn(d, serviceId, alias);
    KeyIn(d, serviceId);
    if input.AliasInput? {
      KeyIn(d, input.revisionId);
    }
    assert AssignRefusal(Project(p, s, d), r, d, serviceId, alias, input) == AssignRefusal(s, r, d, serviceId, alias, input);
    if AssignRefusal(s, r, d, serviceId, alias, input).None? {
      PutIn(s.aliases, d, key, Assigned(s.aliases, r, d, serviceId, alias, input.revisionId));
    }
  }

  lemma WithdrawLocal(p: Platform, s: State, r: Request, d: string, serviceId: string, alias: string, input: Input)
    requires ValidDomain(d)
    ensures Local(p, d, s, DoWithdraw(s, r, d, serviceId, alias, input), DoWithdraw(Project(p, s, d), r, d, serviceId, alias, input))
  {
    var key := AliasKey(d, serviceId, alias);
    AliasKeyIn(d, serviceId, alias);
    assert WithdrawRefusal(In(s.aliases, d), r, key, alias, input) == WithdrawRefusal(s.aliases, r, key, alias, input);
    if WithdrawRefusal(s.aliases, r, key, alias, input).None? {
      PutIn(s.aliases, d, key, DoWithdraw(s, r, d, serviceId, alias, input).state.aliases[key]);
    }
  }

  // ---- Invocation, cancellation, saved references -----------------------------------------------------------

  lemma {:induction false} MadeInDomain(p: Platform, start: Invocation, events: seq<RuntimeEvent>, schema: Option<Json>)
    requires Payloads(events) && ValidDomain(start.meta.domain)
    ensures var d := BuildDraft(p, start, events, schema);
      && d.invocation.meta == start.meta
      && forall k | k in d.made :: DomainOf(k) == start.meta.domain == d.made[k].meta.domain
  {
    if events != [] {
      var n := |events| - 1;
      MadeInDomain(p, start, events[..n], schema);
      var d := BuildDraft(p, start, events[..n], schema);
      ExtendInDomain(p, d, events[n], schema);
    }
  }

  lemma ExtendInDomain(p: Platform, d: Draft, e: RuntimeEvent, schema: Option<Json>)
    requires e.payload.Some? && ValidDomain(d.invocation.meta.domain)
    requires forall k | k in d.made :: DomainOf(k) == d.invocation.meta.domain == d.made[k].meta.domain
    ensures var d' := ExtendDraft(p, d, e, schema);
      && d'.invocation.meta == d.invocation.meta
      && forall k | k in d'.made :: DomainOf(k) == d.invocation.meta.domain == d'.made[k].meta.domain
  {
    var inv := d.invocation;
    var at := inv.meta.createdAt + (e.sequence - 1) * MILLISECOND;
    NestedKeySplits(inv.meta.domain, inv.meta.id, MakeArtifact(p, inv, at, e.payload.value).meta.id);
  }

  lemma RecordLocal(p: Platform, s: State, d: string, key: string, inv: Invocation, journal: seq<Event>, o: string, operation: Operation)
    requires DomainOf(key) == d == DomainOf(o)
    ensures Record(Project(p, s, d), key, inv, journal, o, operation) == Project(p, Record(s, key, inv, journal, o, operation), d)
  {
    PutIn(s.invocations, d, key, inv);
    PutIn(s.events, d, key, journal);
    PutIn(s.operations, d, o, operation);
  }

  lemma LaunchLocal(p: Platform, s: State, r: Request, d: string, draft: Draft)
    requires ValidDomain(d) && forall k | k in draft.made :: DomainOf(k) == d
    ensures Local(p, d, s, Launch(s, r, d, draft), Launch(Project(p, s, d), r, d, draft))
  {
    KeyIn(d, r.ids.resource);
    KeyIn(d, r.ids.operation);
    UnionIn(s.artifacts, d, draft.made);
    RecordLocal(p, s.(artifacts := s.artifacts + draft.made), d, ResourceKey(d, r.ids.resource), draft.invocation, draft.journal,
                ResourceKey(d, r.ids.operation), NewOperation(r, d, draft.invocation));
  }

  lemma ResolveLocal(p: Platform, s: State, d: string, serviceId: string, alias: string)
    requires ValidDomain(d)
    ensures Resolve(Project(p, s, d), d, serviceId, alias) == Resolve(s, d, serviceId, alias)
  {
    var key := AliasKey(d, serviceId, alias);
    AliasKeyIn(d, serviceId, alias);
    if key in s.aliases {
      KeyIn(d, s.aliases[key].revisionId);
    }
  }

  lemma RunDraftInDomain(p: Platform, r: Request, d: string, serviceId: string, alias: string, revision: ServiceRevision,
                         arguments: map<string, Value>)
    requires ValidDomain(d) && RunRefusal(p, r, revision.inputSchema, arguments).None?
    ensures var draft := RunDraft(p, r, d, serviceId, alias, revision, arguments);
      && draft.invocation.meta.domain == d
      && forall k | k in draft.made :: DomainOf(k) == d == draft.made[k].meta.domain
  {
    var events := p.scenario(ScenarioOf(arguments).value).value;
    NormalizedPayloads(events);
    MadeInDomain(p, NewInvocation(r, d, serviceId, revision.meta.id, alias, arguments), Normalized(events).value, revision.outputSchema);
  }

  lemma InvokeLocal(p: Platform, s: State, r: Request, d: string, serviceId: string, input: Input)
    requires ValidDomain(d)
    ensures Local(p, d, s, DoInvoke(p, s, r, d, serviceId, input), DoInvoke(p, Project(p, s, d), r, d, serviceId, input))
  {
    KeyIn(d, serviceId);
    if input.InvokeInput? {
      ResolveLocal(p, s, d, serviceId, input.alias);
    }
    assert InvokeRefusal(p, Project(p, s, d), r, d, serviceId, input) == InvokeRefusal(p, s, r, d, serviceId, input);
    if InvokeRefusal(p, s, r, d, serviceId, input).None? {
      var revision := Resolve(s, d, serviceId, input.alias).value;
      RunDraftInDomain(p, r, d, serviceId, input.alias, revision, input.arguments.value);
      LaunchLocal(p, s, r, d, RunDraft(p, r, d, serviceId, input.alias, revision, input.arguments.value));
    }
  }

  lemma ApplyCancelLocal(p: Platform, s: State, r: Request, d: string, key: string)
    requires ValidDomain(d) && key in s.invocations && DomainOf(key) == d
    ensures ApplyCancel(p, Project(p, s, d), r, d, key) == Project(p, ApplyCancel(p, s, r, d, key), d)
  {
    var inv := s.invocations[key];
    var o := ResourceKey(d, inv.operationId);
    KeyIn(d, inv.operationId);
    RecordLocal(p, s, d, key, CancelledInvocation(inv, r.now), CancelledJournal(p, r, d, inv, JournalAt(s.events, key)),
                o, CancelledOperation(OperationAt(s.operations, o), r.now));
  }

  lemma CancelLocal(p: Platform, s: State, r: Request, d: string, invocationId: string, input: Input)
    requires ValidDomain(d)
    ensures Local(p, d, s, DoCancel(p, s, r, d, invocationId, input), DoCancel(p, Project(p, s, d), r, d, invocationId, input))
  {
    var key := ResourceKey(d, invocationId);
    KeyIn(d, invocationId);
    assert CancelReply(In(s.invocations, d), r, key, input) == CancelReply(s.invocations, r, key, input);
    if CancelReply(s.invocations, r, key, input).None? {
      ApplyCancelLocal(p, s, r, d, key);
    }
  }

  lemma InvocationResolvesLocal(p: Platform, s: State, d: string, id: string)
    requires ValidDomain(d)
    ensures InvocationResolves(Project(p, s, d), d, id) == InvocationResolves(s, d, id)
  {
    var key := ResourceKey(d, id);
    KeyIn(d, id);
    if key in s.invocations {
      KeyIn(d, s.invocations[key].serviceId);
    }
  }

  lemma TargetLocal(p: Platform, s: State, d: string, kind: ResourceKind, id: string)
    requires ValidDomain(d) && Filed(s)
    ensures TargetExists(Project(p, s, d), d, kind, id) == TargetExists(s, d, kind, id)
  {
    KeyIn(d, id);
    InvocationResolvesLocal(p, s, d, id);
    forall k | k in s.artifacts ensures
      InvocationResolves(Project(p, s, d), d, s.artifacts[k].invocationId) == InvocationResolves(s, d, s.artifacts[k].invocationId)
    {
      InvocationResolvesLocal(p, s, d, s.artifacts[k].invocationId);
    }
    if kind.ArtifactKind? && TargetExists(s, d, kind, id) {
      var k :| k in s.artifacts && s.artifacts[k].meta.domain == d && s.artifacts[k].meta.id == id
            && InvocationResolves(s, d, s.artifacts[k].invocationId);
      assert k in Project(p, s, d).artifacts;
    }
  }

  lemma SavedPutIn(m: map<SavedKey, SavedState>, d: string, key: SavedKey, v: SavedState)
    requires key.scope == d
    ensures SavedIn(m[key := v], d) == SavedIn(m, d)[key := v]
  {
  }

  lemma SetSavedLocal(p: Platform, s: State, r: Request, d: string, input: Input)
    requires ValidDomain(d) && Filed(s)
    ensures Local(p, d, s, DoSetSaved(p, s, r, d, input), DoSetSaved(p, Project(p, s, d), r, d, input))
  {
    if input.SavedInput? {
      TargetLocal(p, s, d, input.kind, input.resourceId);
    }
    assert SavedRefusal(p, Project(p, s, d), r, d, input) == SavedRefusal(p, s, r, d, input);
    if SavedRefusal(p, s, r, d, input).None? {
      var key := SavedKey(d, r.principal.value.kind, Actor(r), input.resourceId);
      SavedPutIn(s.saved, d, key, Remembered(s.saved, key, input.kind, input.saved, r.now));
    }
  }

  // ---- Records stay filed under their domain ---------------------------------------------------------------

  lemma AliasFiled(s: State, key: string, value: ServiceAlias)
    requires Filed(s) && value.meta.domain == DomainOf(key)
    ensures Filed(s.(aliases := s.aliases[key := value]))
  {
  }

  lemma AssignFiles(s: State, r: Request, d: string, serviceId: string, alias: string, input: Input)
    requires Filed(s) && ValidDomain(d)
    ensures Filed(DoAssign(s, r, d, serviceId, alias, input).state)
  {
    AliasKeyIn(d, serviceId, alias);
    if AssignRefusal(s, r, d, serviceId, alias, input).None? {
      AliasFiled(s, AliasKey(d, serviceId, alias), Assigned(s.aliases, r, d, serviceId, alias, input.revisionId));
    }
  }

  lemma WithdrawFiles(s: State, r: Request, d: string, serviceId: string, alias: string, input: Input)
    requires Filed(s)
    ensures Filed(DoWithdraw(s, r, d, serviceId, alias, input).state)
  {
    var key := AliasKey(d, serviceId, alias);
    if WithdrawRefusal(s.aliases, r, key, alias, input).None? {
      AliasFiled(s, key, DoWithdraw(s, r, d, serviceId, alias, input).state.aliases[key]);
    }
  }

  lemma RecordFiled(s: State, key: string, inv: Invocation, journal: seq<Event>, o: string, operation: Operation)
    requires Filed(s) && inv.meta.domain == DomainOf(key)
    ensures Filed(Record(s, key, inv, journal, o, operation))
  {
  }

  lemma LaunchFiles(s: State, r: Request, d: string, draft: Draft)
    requires Filed(s) && ValidDomain(d) && draft.invocation.meta.domain == d
    requires forall k | k in draft.made :: DomainOf(k) == d == draft.made[k].meta.domain
    ensures Filed(Launch(s, r, d, draft).state)
  {
    KeyIn(d, r.ids.resource);
    RecordFiled(s.(artifacts := s.artifacts + draft.made), ResourceKey(d, r.ids.resource), draft.invocation, draft.journal,
                ResourceKey(d, r.ids.operation), NewOperation(r, d, draft.invocation));
  }

  lemma InvokeFiles(p: Platform, s: State, r: Request, d: string, serviceId: string, input: Input)
    requires Filed(s) && ValidDomain(d)
    ensures Filed(DoInvoke(p, s, r, d, serviceId, input).state)
  {
    if InvokeRefusal(p, s, r, d, serviceId, input).None? {
      var revision := Resolve(s, d, serviceId, input.alias).value;
      RunDraftInDomain(p, r, d, serviceId, input.alias, revision, input.arguments.value);
      LaunchFiles(s, r, d, RunDraft(p, r, d, serviceId, input.alias, revision, input.arguments.value));
    }
  }

  lemma CancelFiles(p: Platform, s: State, r: Request, d: string, invocationId: string, input: Input)
    requires Filed(s)
    ensures Filed(DoCancel(p, s, r, d, invocationId, input).state)
  {
    var key := ResourceKey(d, invocationId);
    if CancelReply(s.invocations, r, key, input).None? {
      var inv := s.invocations[key];
      var o := ResourceKey(d, inv.operationId);
      RecordFiled(s, key, CancelledInvocation(inv, r.now), CancelledJournal(p, r, d, inv, JournalAt(s.events, key)),
                  o, CancelledOperation(OperationAt(s.operations, o), r.now));
    }
  }

  // ---- Other domains are untouched ------------------------------------------------------------------------------

  /** Everything outside domain `e` is as it was. */
  ghost predicate Untouched(p: Platform, s: State, s': State, e: string) {
    forall d | d != e :: Project(p, s', d) == Project(p, s, d)
  }

  lemma WorkspacePut(p: Platform, s: State, key: string, v: Workspace)
    ensures Untouched(p, s, s.(workspaces := s.workspaces[key := v]), DomainOf(key))
  {
    forall d | d != DomainOf(key) ensures Project(p, s.(workspaces := s.workspaces[key := v]), d) == Project(p, s, d) {
      PutElsewhere(s.workspaces, d, key, v);
    }
  }

  lemma ServicePut(p: Platform, s: State, key: string, v: AgentService)
    ensures Untouched(p, s, s.(services := s.services[key := v]), DomainOf(key))
  {
    forall d | d != DomainOf(key) ensures Project(p, s.(services := s.services[key := v]), d) == Project(p, s, d) {
      PutElsewhere(s.services, d, key, v);
    }
  }

  lemma RevisionPut(p: Platform, s: State, key: string, v: ServiceRevision)
    ensures Untouched(p, s, s.(revisions := s.revisions[key := v]), DomainOf(key))
  {
    forall d | d != DomainOf(key) ensures Project(p, s.(revisions := s.revisions[key := v]), d) == Project(p, s, d) {
      PutElsewhere(s.revisions, d, key, v);
    }
  }

  lemma CountPut(p: Platform, s: State, key: string, n: int)
    ensures Untouched(p, s, s.(revisionCounts := s.revisionCounts[key := n]), DomainOf(key))
  {
    forall d | d != DomainOf(key) ensures Project(p, s.(revisionCounts := s.revisionCounts[key := n]), d) == Project(p, s, d) {
      PutElsewhere(s.revisionCounts, d, key, n);
    }
  }

  lemma AliasPutElsewhere(p: Platform, s: State, key: string, v: ServiceAlias)
    ensures Untouched(p, s, s.(aliases := s.aliases[key := v]), DomainOf(key))
  {
    forall d | d != DomainOf(key) ensures Project(p, s.(aliases := s.aliases[key := v]), d) == Project(p, s, d) {
      PutElsewhere(s.aliases, d, key, v);
    }
  }

  lemma RecordElsewhere(p: Platform, s: State, key: string, inv: Invocation, journal: seq<Event>, o: string, operation: Operation)
    requires DomainOf(key) == DomainOf(o)
    ensures Untouched(p, s, Record(s, key, inv, journal, o, operation), DomainOf(key))
  {
    forall d | d != DomainOf(key) ensures Project(p, Record(s, key, inv, journal, o, operation), d) == Project(p, s, d) {
      PutElsewhere(s.invocations, d, key, inv);
      PutElsewhere(s.events, d, key, journal);
      PutElsewhere(s.operations, d, o, operation);
    }
  }

  lemma ArtifactsElsewhere(p: Platform, s: State, e: string, made: map<string, ArtifactDescriptor>)
    requires forall k | k in made :: DomainOf(k) == e
    ensures Untouched(p, s, s.(artifacts := s.artifacts + made), e)
  {
    forall d | d != e ensures Project(p, s.(artifacts := s.artifacts + made), d) == Project(p, s, d) {
      UnionElsewhere(s.artifacts, d, made);
    }
  }

  /** The maps that handlers scan are the same. */
  ghost predicate Scanned(s: State, s': State) {
    s'.aliases == s.aliases && s'.invocations == s.invocations && s'.artifacts == s.artifacts
  }

  lemma CreateWorkspaceStaysHome(p: Platform, s: State, r: Request, e: string, input: Input)
    requires ValidDomain(e)
    ensures Untouched(p, s, DoCreateWorkspace(p, s, r, e, input).state, e)
    ensures Scanned(s, DoCreateWorkspace(p, s, r, e, input).state)
  {
    var key := ResourceKey(e, r.ids.resource);
    KeyIn(e, r.ids.resource);
    var done := DoCreateWorkspace(p, s, r, e, input);
    if done.reply.status == 201 {
      WorkspacePut(p, s, key, done.state.workspaces[key]);
    }
  }

  lemma CreateServiceStaysHome(p: Platform, s: State, r: Request, e: string, workspaceId: string, input: Input)
    requires ValidDomain(e)
    ensures Untouched(p, s, DoCreateService(p, s, r, e, workspaceId, input).state, e)
    ensures Scanned(s, DoCreateService(p, s, r, e, workspaceId, input).state)
  {
    var key := ResourceKey(e, r.ids.resource);
    KeyIn(e, r.ids.resource);
    if ServiceRefusal(p, s.workspaces, r, e, workspaceId, input).None? {
      ServicePut(p, s, key, DoCreateService(p, s, r, e, workspaceId, input).state.services[key]);
    }
  }

  lemma CreateRevisionStaysHome(p: Platform, s: State, r: Request, e: string, serviceId: string, input: Input)
    requires ValidDomain(e)
    ensures Untouched(p, s, DoCreateRevision(p, s, r, e, serviceId, input).state, e)
    ensures Scanned(s, DoCreateRevision(p, s, r, e, serviceId, input).state)
  {
    var key := ResourceKey(e, r.ids.resource);
    KeyIn(e, r.ids.resource);
    KeyIn(e, serviceId);
    var done := DoCreateRevision(p, s, r, e, serviceId, input);
    if done.reply.status == 201 {
      var counted := s.(revisionCounts := done.state.revisionCounts);
      CountPut(p, s, ResourceKey(e, serviceId), done.state.revisionCounts[ResourceKey(e, serviceId)]);
      RevisionPut(p, counted, key, done.state.revisions[key]);
    }
  }

  lemma PublishStaysHome(p: Platform, s: State, r: Request, e: string, revisionId: string, input: Input)
    requires ValidDomain(e)
    ensures Untouched(p, s, DoPublish(p, s, r, e, revisionId, input).state, e)
    ensures Scanned(s, DoPublish(p, s, r, e, revisionId, input).state)
  {
    var key := ResourceKey(e, revisionId);
    KeyIn(e, revisionId);
    if PublishRefusal(p, s.revisions, r, key, input).None? {
      RevisionPut(p, s, key, DoPublish(p, s, r, e, revisionId, input).state.revisions[key]);
    }
  }

  lemma RetireStaysHome(p: Platform, s: State, r: Request, e: string, revisionId: string, input: Input)
    requires ValidDomain(e)
    ensures Untouched(p, s, DoRetire(s, r, e, revisionId, input).state, e)
    ensures Scanned(s, DoRetire(s, r, e, revisionId, input).state)
  {
    var key := ResourceKey(e, revisionId);
    KeyIn(e, revisionId);
    if RetireRefusal(s, r, e, key, input).None? {
      RevisionPut(p, s, key, DoRetire(s, r, e, revisionId, input).state.revisions[key]);
    }
  }

  lemma AssignStaysHome(p: Platform, s: State, r: Request, e: string, serviceId: string, alias: string, input: Input)
    requires ValidDomain(e)
    ensures Untouched(p, s, DoAssign(s, r, e, serviceId, alias, input).state, e)
  {
    AliasKeyIn(e, serviceId, alias);
    if AssignRefusal(s, r, e, serviceId, alias, input).None? {
      AliasPutElsewhere(p, s, AliasKey(e, serviceId, alias), Assigned(s.aliases, r, e, serviceId, alias, input.revisionId));
    }
  }

  lemma WithdrawStaysHome(p: Platform, s: State, r: Request, e: string, serviceId: string, alias: string, input: Input)
    requires ValidDomain(e)
    ensures Untouched(p, s, DoWithdraw(s, r, e, serviceId, alias, input).state, e)
  {
    var key := AliasKey(e, serviceId, alias);
    AliasKeyIn(e, serviceId, alias);
    if WithdrawRefusal(s.aliases, r, key, alias, input).None? {
      AliasPutElsewhere(p, s, key, DoWithdraw(s, r, e, serviceId, alias, input).state.aliases[key]);
    }
  }

  lemma InvokeStaysHome(p: Platform, s: State, r: Request, e: string, serviceId: string, input: Input)
    requires ValidDomain(e)
    ensures Untouched(p, s, DoInvoke(p, s, r, e, serviceId, input).state, e)
  {
    if InvokeRefusal(p, s, r, e, serviceId, input).None? {
      var revision := Resolve(s, e, serviceId, input.alias).value;
      RunDraftInDomain(p, r, e, serviceId, input.alias, revision, input.arguments.value);
      LaunchStaysHome(p, s, r, e, RunDraft(p, r, e, serviceId, input.alias, revision, input.arguments.value));
    }
  }

  lemma LaunchStaysHome(p: Platform, s: State, r: Request, e: string, draft: Draft)
    requires ValidDomain(e) && forall k | k in draft.made :: DomainOf(k) == e
    ensures Untouched(p, s, Launch(s, r, e, draft).state, e)
  {
    var stored := s.(artifacts := s.artifacts + draft.made);
    KeyIn(e, r.ids.resource);
    KeyIn(e, r.ids.operation);
    ArtifactsElsewhere(p, s, e, draft.made);
    RecordElsewhere(p, stored, ResourceKey(e, r.ids.resource), draft.invocation, draft.journal,
                    ResourceKey(e, r.ids.operation), NewOperation(r, e, draft.invocation));
  }

  lemma CancelStaysHome(p: Platform, s: State, r: Request, e: string, invocationId: string, input: Input)
    requires ValidDomain(e)
    ensures Untouched(p, s, DoCancel(p, s, r, e, invocationId, input).state, e)
  {
    var key := ResourceKey(e, invocationId);
    KeyIn(e, invocationId);
    if CancelReply(s.invocations, r, key, input).None? {
      var inv := s.invocations[key];
      var o := ResourceKey(e, inv.operationId);
      KeyIn(e, inv.operationId);
      RecordElsewhere(p, s, key, CancelledInvocation(inv, r.now), CancelledJournal(p, r, e, inv, JournalAt(s.events, key)),
                      o, CancelledOperation(OperationAt(s.operations, o), r.now));
    }
  }

  lemma SetSavedStaysHome(p: Platform, s: State, r: Request, e: string, input: Input)
    ensures Untouched(p, s, DoSetSaved(p, s, r, e, input).state, e)
    ensures Scanned(s, DoSetSaved(p, s, r, e, input).state)
  {
    if SavedRefusal(p, s, r, e, input).None? {
      var key := SavedKey(e, r.principal.value.kind, Actor(r), input.resourceId);
      SavedElsewhere(p, s, key, Remembered(s.saved, key, input.kind, input.saved, r.now));
    }
  }

  lemma SavedElsewhere(p: Platform, s: State, key: SavedKey, v: SavedState)
    ensures Untouched(p, s, s.(saved := s.saved[key := v]), key.scope)
  {
    forall d | d != key.scope ensures Project(p, s.(saved := s.saved[key := v]), d) == Project(p, s, d) {
      SavedPutElsewhere(s.saved, d, key, v);
    }
  }

  lemma SavedPutElsewhere(m: map<SavedKey, SavedState>, d: string, key: SavedKey, v: SavedState)
    requires key.scope != d
    ensures SavedIn(m[key := v], d) == SavedIn(m, d)
  {
  }

  // ---- One request, then whole runs -------------------------------------------------------------------------------

  lemma HandleLocal(p: Platform, s: State, r: Request, route: Route, input: Input)
    requires ValidDomain(route.domain) && Filed(s)
    ensures Local(p, route.domain, s, Handle(p, s, r, route, input), Handle(p, Project(p, s, route.domain), r, route, input))
  {
    match route
    case CreateWorkspace(d) => CreateWorkspaceLocal(p, s, r, d, input);
    case CreateService(d, workspaceId) => CreateServiceLocal(p, s, r, d, workspaceId, input);
    case CreateRevision(d, serviceId) => CreateRevisionLocal(p, s, r, d, serviceId, input);
    case PublishRevision(d, revisionId) => PublishLocal(p, s, r, d, revisionId, input);
    case RetireRevision(d, revisionId) => RetireLocal(p, s, r, d, revisionId, input);
    case AssignAlias(d, serviceId, alias) => AssignLocal(p, s, r, d, serviceId, alias, input);
    case WithdrawAlias(d, serviceId, alias) => WithdrawLocal(p, s, r, d, serviceId, alias, input);
    case Invoke(d, serviceId) => InvokeLocal(p, s, r, d, serviceId, input);
    case CancelInvocation(d, invocationId) => CancelLocal(p, s, r, d, invocationId, input);
    case SetSaved(d) => SetSavedLocal(p, s, r, d, input);
    case ResolveApproval(_) =>
  }

  lemma HandleStaysHome(p: Platform, s: State, r: Request, route: Route, input: Input)
    requires ValidDomain(route.domain)
    ensures Untouched(p, s, Handle(p, s, r, route, input).state, route.domain)
  {
    match route
    case CreateWorkspace(e) => CreateWorkspaceStaysHome(p, s, r, e, input);
    case CreateService(e, workspaceId) => CreateServiceStaysHome(p, s, r, e, workspaceId, input);
    case CreateRevision(e, serviceId) => CreateRevisionStaysHome(p, s, r, e, serviceId, input);
    case PublishRevision(e, revisionId) => PublishStaysHome(p, s, r, e, revisionId, input);
    case RetireRevision(e, revisionId) => RetireStaysHome(p, s, r, e, revisionId, input);
    case AssignAlias(e, serviceId, alias) => AssignStaysHome(p, s, r, e, serviceId, alias, input);
    case WithdrawAlias(e, serviceId, alias) => WithdrawStaysHome(p, s, r, e, serviceId, alias, input);
    case Invoke(e, serviceId) => InvokeStaysHome(p, s, r, e, serviceId, input);
    case CancelInvocation(e, invocationId) => CancelStaysHome(p, s, r, e, invocationId, input);
    case SetSaved(e) => SetSavedStaysHome(p, s, r, e, input);
    case ResolveApproval(_) =>
  }

  lemma HandleFiles(p: Platform, s: State, r: Request, route: Route, input: Input)
    requires ValidDomain(route.domain) && Filed(s)
    ensures Filed(Handle(p, s, r, route, input).state)
  {
    match route
    case CreateWorkspace(d) => CreateWorkspaceStaysHome(p, s, r, d, input);
    case CreateService(d, workspaceId) => CreateServiceStaysHome(p, s, r, d, workspaceId, input);
    case CreateRevision(d, serviceId) => CreateRevisionStaysHome(p, s, r, d, serviceId, input);
    case PublishRevision(d, revisionId) => PublishStaysHome(p, s, r, d, revisionId, input);
    case RetireRevision(d, revisionId) => RetireStaysHome(p, s, r, d, revisionId, input);
    case AssignAlias(d, serviceId, alias) => AssignFiles(s, r, d, serviceId, alias, input);
    case WithdrawAlias(d, serviceId, alias) => WithdrawFiles(s, r, d, serviceId, alias, input);
    case Invoke(d, serviceId) => InvokeFiles(p, s, r, d, serviceId, input);
    case CancelInvocation(d, invocationId) => CancelFiles(p, s, r, d, invocationId, input);
    case SetSaved(d) => SetSavedStaysHome(p, s, r, d, input);
    case ResolveApproval(_) =>
  }

  lemma CachePutIn(p: Platform, s: State, d: string, slot: string, v: Stored)
    ensures SlotDomain(p, slot) == d ==>
      Project(p, s.(cache := s.cache[slot := v]), d) == Project(p, s, d).(cache := Project(p, s, d).cache[slot := v])
    ensures SlotDomain(p, slot) != d ==> Project(p, s.(cache := s.cache[slot := v]), d) == Project(p, s, d)
  {
    if SlotDomain(p, slot) == d {
      assert CacheIn(p, s.cache[slot := v], d) == CacheIn(p, s.cache, d)[slot := v];
    } else {
      assert CacheIn(p, s.cache[slot := v], d) == CacheIn(p, s.cache, d);
    }
  }

  /** A request of the domain gets the same reply, and has the same effect, on the domain's part alone. */
  lemma MutateLocal(p: Platform, s: State, r: Request)
    requires Filed(s) && OnTheWire(r)
    ensures var d := RouteOf(p, r).domain;
      Local(p, d, s, Mutate(p, s, r), Mutate(p, Project(p, s, d), r))
  {
    var route := RouteOf(p, r);
    var d := route.domain;
    SlotSplits(p, r);
    if Admitted(p, r) && SlotOf(r) !in s.cache {
      var input := p.decode(route, r.body.value);
      HandleLocal(p, s, r, route, input);
      HandlersSpareCache(p, s, r, route, input);
      HandlersSpareCache(p, Project(p, s, d), r, route, input);
      var done := Handle(p, s, r, route, input);
      CachePutIn(p, done.state, d, SlotOf(r), Stored(DigestOf(p, r), done.reply));
    }
  }

  /** A request of another domain leaves the domain's part alone. */
  lemma MutateElsewhere(p: Platform, s: State, r: Request, d: string)
    requires OnTheWire(r) && RouteOf(p, r).domain != d
    ensures Project(p, Mutate(p, s, r).state, d) == Project(p, s, d)
  {
    var route := RouteOf(p, r);
    SlotSplits(p, r);
    if Admitted(p, r) && SlotOf(r) !in s.cache {
      var input := p.decode(route, r.body.value);
      HandleStaysHome(p, s, r, route, input);
      HandlersSpareCache(p, s, r, route, input);
      var done := Handle(p, s, r, route, input);
      CachePutIn(p, done.state, d, SlotOf(r), Stored(DigestOf(p, r), done.reply));
    }
  }

  /** The requests of one domain, in order. */
  ghost function Of(p: Platform, requests: seq<Request>, d: string): seq<Request> {
    if requests == [] then []
    else
      var n := |requests| - 1;
      Of(p, requests[..n], d) + (if RouteOf(p, requests[n]).domain == d then [requests[n]] else [])
  }

  /** All replies of a run, in order. */
  ghost function Replies(p: Platform, s: State, requests: seq<Request>): seq<Response> {
    if requests == [] then []
    else
      var n := |requests| - 1;
      Replies(p, s, requests[..n]) + [Mutate(p, Exec(p, s, requests[..n]), requests[n]).reply]
  }

  /** The replies of a run to the requests of one domain. */
  ghost function RepliesTo(p: Platform, s: State, requests: seq<Request>, d: string): seq<Response> {
    if requests == [] then []
    else
      var n := |requests| - 1;
      RepliesTo(p, s, requests[..n], d) +
      (if RouteOf(p, requests[n]).domain == d then [Mutate(p, Exec(p, s, requests[..n]), requests[n]).reply] else [])
  }

  /** Domain independence: for every run and every domain, the domain's part of the final state and the
      replies to its requests are those of a server that served the domain's requests alone. */
  lemma {:induction false} DomainsAreIndependent(p: Platform, s: State, requests: seq<Request>, d: string)
    requires Filed(s) && forall r | r in requests :: OnTheWire(r)
    ensures Filed(Exec(p, s, requests))
    ensures Project(p, Exec(p, s, requests), d) == Exec(p, Project(p, s, d), Of(p, requests, d))
    ensures RepliesTo(p, s, requests, d) == Replies(p, Project(p, s, d), Of(p, requests, d))
  {
    if requests != [] {
      var n := |requests| - 1;
      DomainsAreIndependent(p, s, requests[..n], d);
      var before := Exec(p, s, requests[..n]);
      var r := requests[n];
      assert r in requests;
      if Admitted(p, r) && SlotOf(r) !in before.cache {
        HandleFiles(p, before, r, RouteOf(p, r), p.decode(RouteOf(p, r), r.body.value));
      }
      if RouteOf(p, r).domain == d {
        MutateLocal(p, before, r);
        var own := Of(p, requests, d);
        assert own[..|own| - 1] == Of(p, requests[..n], d);
      } else {
        MutateElsewhere(p, before, r, d);
        assert Of(p, requests, d) == Of(p, requests[..n], d);
        assert RepliesTo(p, s, requests, d) == RepliesTo(p, s, requests[..n], d);
      }
    }
  }

  /** The empty server is filed, and its part for any domain is the empty server. */
  lemma EmptyIsFiled(p: Platform, d: string)
    ensures Filed(EMPTY) && Project(p, EMPTY, d) == EMPTY
  {
  }
}
