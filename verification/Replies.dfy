/** A successful reply shows the record as it is stored: what a caller is told is what a later read finds. */
module Replies {
  import opened Text
  import opened Resources
  import opened Requests
  import opened Handlers
  import opened Invariants
  import opened Runs
  import ReferenceRuntime

  /** Whatever record the reply carries is stored under that record's own key. */
  ghost predicate ShowsStored(s: State, domain: string, reply: Response) {
    match reply.body
    case ProblemBody(_) => true
    case WorkspaceBody(w) => ResourceKey(domain, w.meta.id) in s.workspaces && s.workspaces[ResourceKey(domain, w.meta.id)] == w
    case ServiceBody(v) => ResourceKey(domain, v.meta.id) in s.services && s.services[ResourceKey(domain, v.meta.id)] == v
    case RevisionBody(v) => ResourceKey(domain, v.meta.id) in s.revisions && s.revisions[ResourceKey(domain, v.meta.id)] == v
    case AliasBody(a) => AliasKey(domain, a.serviceId, a.name) in s.aliases && s.aliases[AliasKey(domain, a.serviceId, a.name)] == a
    case InvocationBody(i) => ResourceKey(domain, i.meta.id) in s.invocations && s.invocations[ResourceKey(domain, i.meta.id)] == i
    case SavedBody(v) => exists k :: k in s.saved && k.scope == domain && s.saved[k] == v
  }

  ghost predicate Shows(domain: string, done: Outcome) { ShowsStored(done.state, domain, done.reply) }

  lemma CreateWorkspaceShows(p: Platform, s: State, r: Request, domain: string, input: Input)
    ensures Shows(domain, DoCreateWorkspace(p, s, r, domain, input))
  {
  }

  lemma CreateServiceShows(p: Platform, s: State, r: Request, domain: string, workspaceId: string, input: Input)
    ensures Shows(domain, DoCreateService(p, s, r, domain, workspaceId, input))
  {
  }

  lemma CreateRevisionShows(p: Platform, s: State, r: Request, domain: string, serviceId: string, input: Input)
    ensures Shows(domain, DoCreateRevision(p, s, r, domain, serviceId, input))
  {
  }

  /** A record stored under the key of an identifier carries that identifier. */
  lemma RevisionNamed(s: State, domain: string, id: string)
    requires RevisionsKeyed(s.revisions) && ValidDomain(domain) && ResourceKey(domain, id) in s.revisions
    ensures s.revisions[ResourceKey(domain, id)].meta.id == id
  {
    var meta := s.revisions[ResourceKey(domain, id)].meta;
    ResourceKeyInjective(domain, id, meta.domain, meta.id);
  }

  lemma InvocationNamed(s: State, domain: string, id: string)
    requires InvocationsKeyed(s.invocations) && ValidDomain(domain) && ResourceKey(domain, id) in s.invocations
    ensures s.invocations[ResourceKey(domain, id)].meta.id == id
  {
    var meta := s.invocations[ResourceKey(domain, id)].meta;
    ResourceKeyInjective(domain, id, meta.domain, meta.id);
  }

  lemma AliasNamed(s: State, domain: string, key: string)
    requires AliasesKeyed(s.aliases) && ValidDomain(domain) && DomainOf(key) == domain && key in s.aliases
    ensures AliasKey(domain, s.aliases[key].serviceId, s.aliases[key].name) == key
  {
    var a := s.aliases[key];
    NestedKeySplits(a.meta.domain, a.serviceId, a.name);
  }

  lemma PublishShows(p: Platform, s: State, r: Request, domain: string, revisionId: string, input: Input)
    requires RevisionsKeyed(s.revisions) && ValidDomain(domain)
    ensures Shows(domain, DoPublish(p, s, r, domain, revisionId, input))
  {
    if ResourceKey(domain, revisionId) in s.revisions {
      RevisionNamed(s, domain, revisionId);
    }
  }

  lemma RetireShows(s: State, r: Request, domain: string, revisionId: string, input: Input)
    requires RevisionsKeyed(s.revisions) && ValidDomain(domain)
    ensures Shows(domain, DoRetire(s, r, domain, revisionId, input))
  {
    if ResourceKey(domain, revisionId) in s.revisions {
      RevisionNamed(s, domain, revisionId);
    }
  }

  lemma AssignShows(s: State, r: Request, domain: string, serviceId: string, alias: string, input: Input)
    requires AliasesKeyed(s.aliases) && ValidDomain(domain)
    ensures Shows(domain, DoAssign(s, r, domain, serviceId, alias, input))
  {
    if AssignRefusal(s, r, domain, serviceId, alias, input).None? {
      var key := AliasKey(domain, serviceId, alias);
      AssignedNamed(s, r, domain, serviceId, alias, input.revisionId);
    }
  }

  lemma AssignedNamed(s: State, r: Request, domain: string, serviceId: string, alias: string, revisionId: string)
    requires AliasesKeyed(s.aliases) && ValidDomain(domain)
    ensures var a := Assigned(s.aliases, r, domain, serviceId, alias, revisionId);
      AliasKey(domain, a.serviceId, a.name) == AliasKey(domain, serviceId, alias)
  {
    var key := AliasKey(domain, serviceId, alias);
    NestedKeySplits(domain, serviceId, alias);
    if key in s.aliases {
      AliasNamed(s, domain, key);
    }
  }

  lemma WithdrawShows(s: State, r: Request, domain: string, serviceId: string, alias: string, input: Input)
    requires AliasesKeyed(s.aliases) && ValidDomain(domain)
    ensures Shows(domain, DoWithdraw(s, r, domain, serviceId, alias, input))
  {
    var key := AliasKey(domain, serviceId, alias);
    NestedKeySplits(domain, serviceId, alias);
    if key in s.aliases {
      AliasNamed(s, domain, key);
    }
  }

  lemma {:induction false} BuildKeepsMeta(p: Platform, start: Invocation, events: seq<RuntimeEvent>, schema: Option<Json>)
    requires Payloads(events)
    ensures BuildDraft(p, start, events, schema).invocation.meta == start.meta
  {
    if events != [] {
      BuildKeepsMeta(p, start, events[..|events| - 1], schema);
    }
  }

  lemma InvokeShows(p: Platform, s: State, r: Request, domain: string, serviceId: string, input: Input)
    ensures Shows(domain, DoInvoke(p, s, r, domain, serviceId, input))
  {
    if InvokeRefusal(p, s, r, domain, serviceId, input).None? {
      var revision := Resolve(s, domain, serviceId, input.alias).value;
      var draft := RunDraft(p, r, domain, serviceId, input.alias, revision, input.arguments.value);
      DraftNamed(p, r, domain, serviceId, input.alias, revision, input.arguments.value);
    }
  }

  lemma DraftNamed(p: Platform, r: Request, domain: string, serviceId: string, alias: string, revision: ServiceRevision, arguments: map<string, Value>)
    requires RunRefusal(p, r, revision.inputSchema, arguments).None?
    ensures RunDraft(p, r, domain, serviceId, alias, revision, arguments).invocation.meta.id == r.ids.resource
  {
    var events := p.scenario(ScenarioOf(arguments).value).value;
    NormalizedPayloads(events);
    BuildKeepsMeta(p, NewInvocation(r, domain, serviceId, revision.meta.id, alias, arguments),
                   ReferenceRuntime.Normalized(events).value, revision.outputSchema);
  }

  lemma CancelShows(p: Platform, s: State, r: Request, domain: string, invocationId: string, input: Input)
    requires InvocationsKeyed(s.invocations) && ValidDomain(domain)
    ensures Shows(domain, DoCancel(p, s, r, domain, invocationId, input))
  {
    var key := ResourceKey(domain, invocationId);
    if key in s.invocations {
      InvocationNamed(s, domain, invocationId);
      if CancelReply(s.invocations, r, key, input).None? {
        CancelledShows(p, s, r, domain, key);
      }
    }
  }

  lemma CancelledShows(p: Platform, s: State, r: Request, domain: string, key: string)
    requires key in s.invocations && key == ResourceKey(domain, s.invocations[key].meta.id)
    ensures ShowsStored(ApplyCancel(p, s, r, domain, key), domain, Response(200, InvocationBody(CancelledInvocation(s.invocations[key], r.now))))
  {
  }

  lemma SetSavedShows(p: Platform, s: State, r: Request, domain: string, input: Input)
    ensures Shows(domain, DoSetSaved(p, s, r, domain, input))
  {
    var done := DoSetSaved(p, s, r, domain, input);
    if SavedRefusal(p, s, r, domain, input).None? {
      var key := SavedKey(domain, r.principal.value.kind, Actor(r), input.resourceId);
      assert done.state.saved[key] == done.reply.body.state;
    }
  }

  lemma HandleShows(p: Platform, s: State, r: Request, route: Route, input: Input)
    requires RevisionsKeyed(s.revisions) && AliasesKeyed(s.aliases) && InvocationsKeyed(s.invocations) && ValidDomain(route.domain)
    ensures Shows(route.domain, Handle(p, s, r, route, input))
  {
    match route
    case CreateWorkspace(domain) => CreateWorkspaceShows(p, s, r, domain, input);
    case CreateService(domain, workspaceId) => CreateServiceShows(p, s, r, domain, workspaceId, input);
    case CreateRevision(domain, serviceId) => CreateRevisionShows(p, s, r, domain, serviceId, input);
    case PublishRevision(domain, revisionId) => PublishShows(p, s, r, domain, revisionId, input);
    case RetireRevision(domain, revisionId) => RetireShows(s, r, domain, revisionId, input);
    case AssignAlias(domain, serviceId, alias) => AssignShows(s, r, domain, serviceId, alias, input);
    case WithdrawAlias(domain, serviceId, alias) => WithdrawShows(s, r, domain, serviceId, alias, input);
    case Invoke(domain, serviceId) => InvokeShows(p, s, r, domain, serviceId, input);
    case CancelInvocation(domain, invocationId) => CancelShows(p, s, r, domain, invocationId, input);
    case SetSaved(domain) => SetSavedShows(p, s, r, domain, input);
    case ResolveApproval(_) =>
  }

  /** In every run, the reply to a request that is not a repeat shows what is stored right after it. */
  lemma RepliesShowWhatIsStored(p: Platform, requests: seq<Request>, i: nat)
    requires FreshRun(p, EMPTY, requests) && i < |requests|
    ensures SlotOf(requests[i]) in Exec(p, EMPTY, requests[..i]).cache ||
      ShowsStored(Exec(p, EMPTY, requests[..i + 1]), RouteOf(p, requests[i]).domain, ReplyAt(p, EMPTY, requests, i))
  {
    FreshPrefix(p, EMPTY, requests, i);
    ReachableStatesHold(p, requests[..i]);
    ExecStep(p, EMPTY, requests, i);
    if SlotOf(requests[i]) !in Exec(p, EMPTY, requests[..i]).cache {
      MutateShows(p, Exec(p, EMPTY, requests[..i]), requests[i]);
    }
  }

  lemma MutateShows(p: Platform, s: State, r: Request)
    requires RevisionsKeyed(s.revisions) && AliasesKeyed(s.aliases) && InvocationsKeyed(s.invocations) && SlotOf(r) !in s.cache
    ensures Shows(RouteOf(p, r).domain, Mutate(p, s, r))
  {
    if Admitted(p, r) {
      HandleShows(p, s, r, RouteOf(p, r), p.decode(RouteOf(p, r), r.body.value));
    }
  }
}
