/** Every refusal names a reason that holds, carries that reason's status, and leaves everything as it was. */
module Refusals {
  import opened Text
  import opened Resources
  import opened Requests
  import opened Journal
  import opened ReferenceRuntime
  import opened Handlers
  import opened Invariants
  import opened Runs

  function StatusOf(route: Route, code: Code): int {
    match code
    case AuthenticationUnavailable => 503
    case AuthorizationUnavailable => 500
    case FixtureInvalid => 500
    case UnsupportedMediaType => 415
    case InvalidRequest => 400
    case InvalidIsolationDomain => 400
    case ResourceNotFound => 404
    case SchemaProblem(fault) => if route.Invoke? && !fault.InputSchemaInvalid? then 400 else 409
    case _ => 409
  }

  /** What the request is about is not there. */
  ghost predicate Missing(s: State, route: Route, input: Input) {
    match route
    case CreateWorkspace(_) => false
    case CreateService(domain, workspaceId) => workspaceId != "" && ResourceKey(domain, workspaceId) !in s.workspaces
    case CreateRevision(domain, serviceId) => ResourceKey(domain, serviceId) !in s.services
    case PublishRevision(domain, revisionId) => ResourceKey(domain, revisionId) !in s.revisions
    case RetireRevision(domain, revisionId) => ResourceKey(domain, revisionId) !in s.revisions
    case AssignAlias(domain, serviceId, _) =>
      || ResourceKey(domain, serviceId) !in s.services
      || (input.AliasInput? && var target := ResourceKey(domain, input.revisionId); target !in s.revisions || s.revisions[target].serviceId != serviceId)
    case WithdrawAlias(domain, serviceId, alias) =>
      var key := AliasKey(domain, serviceId, alias); key !in s.aliases || s.aliases[key].withdrawnAt.Some?
    case Invoke(domain, serviceId) =>
      || ResourceKey(domain, serviceId) !in s.services
      || (input.InvokeInput? && Resolve(s, domain, serviceId, input.alias).None?)
    case CancelInvocation(domain, invocationId) => ResourceKey(domain, invocationId) !in s.invocations
    case SetSaved(domain) => input.SavedInput? && input.saved && !TargetExists(s, domain, input.kind, input.resourceId)
    case ResolveApproval(_) => true
  }

  /** The body is not what the route asks for. */
  predicate Malformed(p: Platform, r: Request, route: Route, input: Input) {
    match route
    case CreateWorkspace(_) => !input.NamedInput? || !NameRules(p, p.trim(input.name), input.description)
    case CreateService(_, workspaceId) =>
      || !input.NamedInput? || p.trim(input.name) == "" || |p.trim(input.name)| > 128 || |input.description| > 2048
      || (workspaceId != "" && !Tagged(workspaceId, "wsp"))
    case CreateRevision(_, _) =>
      || !input.RevisionInput? || p.trim(input.runtimeProfile) == "" || |input.runtimeProfile| > 128
      || !CapabilityNames(p, input.requiredCapabilities)
    case PublishRevision(_, _) => !input.VersionInput?
    case RetireRevision(_, _) => !input.VersionInput? || input.expectedVersion < 1
    case AssignAlias(_, _, alias) => !input.AliasInput? || !AliasName(alias)
    case WithdrawAlias(_, _, alias) => !input.VersionInput? || input.expectedVersion < 1 || !AliasName(alias)
    case Invoke(_, _) =>
      || !input.InvokeInput? || !AliasPattern(input.alias) || input.arguments.None?
      || ScenarioOf(input.arguments.value).None? || p.scenario(ScenarioOf(input.arguments.value).value).None?
    case CancelInvocation(_, _) => !input.CancelInput? || |input.reason| > 512
    case SetSaved(_) =>
      || !input.SavedInput? || r.principal.None? || !p.ownerValid(r.principal.value)
      || !Tagged(input.resourceId, KindPrefix(input.kind))
    case ResolveApproval(_) => !input.ApprovalInput? || input.version != 1 || !input.decided
  }

  /** The revision a publication or retirement is about. */
  function Subject(s: State, route: Route): Option<ServiceRevision> {
    if !route.PublishRevision? && !route.RetireRevision? then None
    else
      var key := ResourceKey(route.domain, route.revisionId);
      if key in s.revisions then Some(s.revisions[key]) else None
  }

  /** The request names another version than the stored one. */
  predicate Outdated(s: State, route: Route, input: Input) {
    match route
    case AssignAlias(domain, serviceId, alias) =>
      var key := AliasKey(domain, serviceId, alias);
      var current := if key !in s.aliases || s.aliases[key].withdrawnAt.Some? then 0 else s.aliases[key].meta.version;
      input.AliasInput? && (if input.expected.Some? then input.expected.value else 0) != current
    case WithdrawAlias(domain, serviceId, alias) =>
      var key := AliasKey(domain, serviceId, alias);
      input.VersionInput? && key in s.aliases && s.aliases[key].meta.version != input.expectedVersion
    case _ => input.VersionInput? && Subject(s, route).Some? && Subject(s, route).value.meta.version != input.expectedVersion
  }

  /** The schemas of the revision, or the input against them, are at fault in this way. */
  predicate Faulty(p: Platform, s: State, route: Route, input: Input, fault: SchemaFault) {
    || (route.PublishRevision? && Subject(s, route).Some?
        && p.schemasFault(Subject(s, route).value.inputSchema, Subject(s, route).value.outputSchema) == Some(fault))
    || (route.Invoke? && input.InvokeInput? && input.arguments.Some?
        && var v := Resolve(s, route.domain, route.serviceId, input.alias); v.Some? && p.inputFault(v.value.inputSchema, input.arguments.value) == Some(fault))
  }

  /** The reason holds. */
  ghost predicate Grounds(p: Platform, s: State, r: Request, route: Route, input: Input, code: Code) {
    match code
    case InvalidRequest => Malformed(p, r, route, input)
    case ResourceNotFound => Missing(s, route, input)
    case VersionConflict => Outdated(s, route, input)
    case SchemaProblem(fault) => Faulty(p, s, route, input, fault)
    case RevisionImmutable => route.PublishRevision? && Subject(s, route).Some? && !Subject(s, route).value.state.Draft?
    case RuntimeProfileUnavailable => route.PublishRevision? && Subject(s, route).Some? && Subject(s, route).value.runtimeProfile != "reference/v1"
    case RequiredCapabilityUnavailable =>
      route.PublishRevision? && Subject(s, route).Some? && exists c :: c in Subject(s, route).value.requiredCapabilities && !p.capable(c)
    case RevisionNotPublished =>
      || (route.RetireRevision? && Subject(s, route).Some? && !Subject(s, route).value.state.Published?)
      || (route.AssignAlias? && input.AliasInput?
          && var target := ResourceKey(route.domain, input.revisionId); target in s.revisions && !s.revisions[target].state.Published?)
    case RevisionStillRouted => route.RetireRevision? && Subject(s, route).Some? && Routed(s, route.domain, Subject(s, route).value.meta.id)
    case RevisionStillActive => route.RetireRevision? && Subject(s, route).Some? && Active(s, route.domain, Subject(s, route).value.meta.id)
    case InvocationTerminal =>
      && route.CancelInvocation?
      && var key := ResourceKey(route.domain, route.invocationId);
         key in s.invocations && (s.invocations[key].state.Succeeded? || s.invocations[key].state.Failed?)
    case FixtureInvalid =>
      && route.Invoke? && input.InvokeInput? && input.arguments.Some? && ScenarioOf(input.arguments.value).Some?
      && var scenario := p.scenario(ScenarioOf(input.arguments.value).value);
         scenario.Some? && forall out :: !Clean(scenario.value, out)
    case AuthorizationUnavailable => route.Invoke? && r.correlation == ""
    case _ => false
  }

  /** A refusal has grounds, their status, and no effect; and only a refusal has an error status. */
  ghost predicate Truthful(p: Platform, s: State, r: Request, route: Route, input: Input, done: Outcome) {
    if done.reply.body.ProblemBody? then
      var code := done.reply.body.problem.code;
      Grounds(p, s, r, route, input, code) && done.reply.status == StatusOf(route, code) && done.state == s
    else done.reply.status < 300
  }

  lemma CreationsTruthful(p: Platform, s: State, r: Request, route: Route, input: Input)
    requires route.CreateWorkspace? || route.CreateService? || route.CreateRevision?
    ensures Truthful(p, s, r, route, input, Handle(p, s, r, route, input))
  {
  }

  lemma PublishTruthful(p: Platform, s: State, r: Request, domain: string, revisionId: string, input: Input)
    ensures Truthful(p, s, r, PublishRevision(domain, revisionId), input, DoPublish(p, s, r, domain, revisionId, input))
  {
  }

  lemma RetireTruthful(p: Platform, s: State, r: Request, domain: string, revisionId: string, input: Input)
    ensures Truthful(p, s, r, RetireRevision(domain, revisionId), input, DoRetire(s, r, domain, revisionId, input))
  {
  }

  lemma AssignTruthful(p: Platform, s: State, r: Request, domain: string, serviceId: string, alias: string, input: Input)
    ensures Truthful(p, s, r, AssignAlias(domain, serviceId, alias), input, DoAssign(s, r, domain, serviceId, alias, input))
  {
  }

  lemma WithdrawTruthful(p: Platform, s: State, r: Request, domain: string, serviceId: string, alias: string, input: Input)
    ensures Truthful(p, s, r, WithdrawAlias(domain, serviceId, alias), input, DoWithdraw(s, r, domain, serviceId, alias, input))
  {
  }

  lemma InvokeTruthful(p: Platform, s: State, r: Request, domain: string, serviceId: string, input: Input)
    ensures Truthful(p, s, r, Invoke(domain, serviceId), input, DoInvoke(p, s, r, domain, serviceId, input))
  {
    if input.InvokeInput? && input.arguments.Some? {
      var v := Resolve(s, domain, serviceId, input.alias);
      if v.Some? && RunRefusal(p, r, v.value.inputSchema, input.arguments.value).Some? {
        RunTruthful(p, s, r, domain, serviceId, input);
      }
    }
  }

  lemma RunTruthful(p: Platform, s: State, r: Request, domain: string, serviceId: string, input: Input)
    requires input.InvokeInput? && input.arguments.Some?
    requires var v := Resolve(s, domain, serviceId, input.alias);
      v.Some? && RunRefusal(p, r, v.value.inputSchema, input.arguments.value).Some?
    ensures var v := Resolve(s, domain, serviceId, input.alias).value;
      Truthful(p, s, r, Invoke(domain, serviceId), input, Outcome(s, RunRefusal(p, r, v.inputSchema, input.arguments.value).value))
  {
  }

  lemma CancelTruthful(p: Platform, s: State, r: Request, domain: string, invocationId: string, input: Input)
    ensures Truthful(p, s, r, CancelInvocation(domain, invocationId), input, DoCancel(p, s, r, domain, invocationId, input))
  {
  }

  lemma SavedTruthful(p: Platform, s: State, r: Request, domain: string, input: Input)
    ensures Truthful(p, s, r, SetSaved(domain), input, DoSetSaved(p, s, r, domain, input))
  {
  }

  lemma HandleTruthful(p: Platform, s: State, r: Request, route: Route, input: Input)
    ensures Truthful(p, s, r, route, input, Handle(p, s, r, route, input))
  {
    match route
    case PublishRevision(domain, revisionId) => PublishTruthful(p, s, r, domain, revisionId, input);
    case RetireRevision(domain, revisionId) => RetireTruthful(p, s, r, domain, revisionId, input);
    case AssignAlias(domain, serviceId, alias) => AssignTruthful(p, s, r, domain, serviceId, alias, input);
    case WithdrawAlias(domain, serviceId, alias) => WithdrawTruthful(p, s, r, domain, serviceId, alias, input);
    case Invoke(domain, serviceId) => InvokeTruthful(p, s, r, domain, serviceId, input);
    case CancelInvocation(domain, invocationId) => CancelTruthful(p, s, r, domain, invocationId, input);
    case SetSaved(domain) => SavedTruthful(p, s, r, domain, input);
    case ResolveApproval(_) =>
    case _ => CreationsTruthful(p, s, r, route, input);
  }

  // ---- At the door --------------------------------------------------------------------------------------------

  /** Why a request does not get as far as the idempotency cache. */
  predicate DoorGrounds(p: Platform, r: Request, code: Code) {
    match code
    case AuthenticationUnavailable => r.principal.None? || r.principal.value.id == ""
    case InvalidIsolationDomain => !ValidDomain(RouteOf(p, r).domain)
    case UnsupportedMediaType => !r.jsonMedia
    case InvalidRequest => !IdempotencyKey(r.key) || r.body.None?
    case _ => false
  }

  lemma DoorIsTruthful(p: Platform, r: Request)
    ensures Admitted(p, r) <==> forall code :: !DoorGrounds(p, r, code)
    ensures !Admitted(p, r) ==>
      var reply := Admission(p, r).value;
      reply.body.ProblemBody? && DoorGrounds(p, r, reply.body.problem.code) && reply.status == StatusOf(RouteOf(p, r), reply.body.problem.code)
  {
    if forall code :: !DoorGrounds(p, r, code) {
      assert !DoorGrounds(p, r, AuthenticationUnavailable) && !DoorGrounds(p, r, InvalidIsolationDomain);
      assert !DoorGrounds(p, r, UnsupportedMediaType) && !DoorGrounds(p, r, InvalidRequest);
    }
  }

  /** A request that is no repeat is let in exactly when nothing speaks against it at the door, and whether it is turned away
      there or refused by its handler, the reason given holds, has its status, and nothing has changed. */
  lemma RefusalsTellTheTruth(p: Platform, s: State, r: Request)
    requires SlotOf(r) !in s.cache
    ensures var done := Mutate(p, s, r);
      if exists code :: DoorGrounds(p, r, code) then
        && done.state == s && done.reply.body.ProblemBody? && DoorGrounds(p, r, done.reply.body.problem.code)
        && done.reply.status == StatusOf(RouteOf(p, r), done.reply.body.problem.code)
      else
        r.body.Some? &&
        Truthful(p, s, r, RouteOf(p, r), p.decode(RouteOf(p, r), r.body.value), Outcome(done.state.(cache := s.cache), done.reply))
  {
    DoorIsTruthful(p, r);
    if Admitted(p, r) {
      var route := RouteOf(p, r);
      var input := p.decode(route, r.body.value);
      HandleTruthful(p, s, r, route, input);
      HandlersSpareCache(p, s, r, route, input);
      var done := Handle(p, s, r, route, input);
      assert Mutate(p, s, r).state.(cache := s.cache) == done.state;
    }
  }
}
