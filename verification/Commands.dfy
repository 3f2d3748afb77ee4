/** When each command takes effect, and what it then stores, told from the request, the invariants of reachable states and
    the history of the run rather than from the order in which the handlers check. */
module Commands {
  import opened Text
  import opened Resources
  import opened Requests
  import opened Journal
  import opened ReferenceRuntime
  import opened Handlers
  import opened Invariants
  import opened Preservation
  import opened InvocationPreservation
  import opened Runs
  import opened AliasHistory

  // ---- Revisions --------------------------------------------------------------------------------------------

  /** The reference runtime can serve the revision. */
  predicate Supported(p: Platform, v: ServiceRevision) {
    && v.runtimeProfile == "reference/v1" && (forall c | c in v.requiredCapabilities :: p.capable(c))
    && p.schemasFault(v.inputSchema, v.outputSchema).None?
  }

  /** The revision names version 1 of a supported draft. */
  predicate Publishable(p: Platform, revisions: map<string, ServiceRevision>, key: string, input: Input) {
    input == VersionInput(1) && key in revisions && revisions[key].state.Draft? && Supported(p, revisions[key])
  }

  /** A publication takes effect exactly when it names version 1 of a supported draft. */
  lemma PublishesIff(p: Platform, s: State, r: Request, domain: string, revisionId: string, input: Input)
    requires RevisionsStaged(s.revisions)
    ensures var key := ResourceKey(domain, revisionId); var done := DoPublish(p, s, r, domain, revisionId, input);
      && (done.reply.status == 200 <==> Publishable(p, s.revisions, key, input))
      && if done.reply.status == 200 then key in done.state.revisions && IsPublished(done.state.revisions[key], r.now) else done.state == s
  {
  }

  predicate IsPublished(v: ServiceRevision, now: Time) { v.state.Published? && v.publishedAt == Some(now) && v.meta.version == 2 }

  /** Nothing depends on the revision any more: no alias that is not withdrawn routes to it, and its invocations are finished. */
  ghost predicate Free(s: State, domain: string, revisionId: string) {
    && (forall k | k in s.aliases && s.aliases[k].meta.domain == domain && s.aliases[k].revisionId == revisionId :: s.aliases[k].withdrawnAt.Some?)
    && (forall k | k in s.invocations && s.invocations[k].meta.domain == domain && s.invocations[k].revisionId == revisionId ::
          Terminal(s.invocations[k].state))
  }

  ghost predicate Retirable(s: State, domain: string, revisionId: string, input: Input) {
    var key := ResourceKey(domain, revisionId);
    input == VersionInput(2) && key in s.revisions && s.revisions[key].state.Published? && Free(s, domain, revisionId)
  }

  /** A retirement takes effect exactly when it names version 2 of a published revision that nothing depends on. */
  lemma RetiresIff(s: State, r: Request, domain: string, revisionId: string, input: Input)
    requires RevisionsKeyed(s.revisions) && RevisionsStaged(s.revisions) && ValidDomain(domain)
    ensures var key := ResourceKey(domain, revisionId); var done := DoRetire(s, r, domain, revisionId, input);
      && (done.reply.status == 200 <==> Retirable(s, domain, revisionId, input))
      && if done.reply.status == 200 then key in done.state.revisions && done.state.revisions[key].state.Retired? else done.state == s
  {
    var key := ResourceKey(domain, revisionId);
    if key in s.revisions {
      ResourceKeyInjective(domain, revisionId, s.revisions[key].meta.domain, s.revisions[key].meta.id);
      FreeIff(s, domain, revisionId);
    }
  }

  lemma FreeIff(s: State, domain: string, revisionId: string)
    ensures Free(s, domain, revisionId) <==> !Routed(s, domain, revisionId) && !Active(s, domain, revisionId)
  {
  }

  // ---- Aliases ----------------------------------------------------------------------------------------------

  /** How often the alias has been changed, or zero for one that is absent or withdrawn: what an assignment must name. */
  ghost function Due(p: Platform, requests: seq<Request>, key: string): int {
    if key !in Exec(p, EMPTY, requests).aliases || LastWithdrawn(p, requests, key) then 0 else Changes(p, requests, key)
  }

  ghost predicate Assignable(p: Platform, requests: seq<Request>, domain: string, serviceId: string, alias: string, input: Input) {
    var s := Exec(p, EMPTY, requests);
    && ResourceKey(domain, serviceId) in s.services && AliasName(alias) && input.AliasInput?
    && var target := ResourceKey(domain, input.revisionId);
    && target in s.revisions && s.revisions[target].serviceId == serviceId && s.revisions[target].state.Published?
    && (if input.expected.Some? then input.expected.value else 0) == Due(p, requests, AliasKey(domain, serviceId, alias))
  }

  /** After any run an assignment takes effect exactly when it names a published revision of the service and how often the
      alias has been changed, nothing or zero where the alias is new or withdrawn. */
  lemma AssignsIff(p: Platform, requests: seq<Request>, r: Request, domain: string, serviceId: string, alias: string, input: Input)
    ensures var s, key := Exec(p, EMPTY, requests), AliasKey(domain, serviceId, alias);
      var done := DoAssign(s, r, domain, serviceId, alias, input);
      && (done.reply.status == 200 <==> Assignable(p, requests, domain, serviceId, alias, input))
      && if done.reply.status == 200 then RoutesTo(done.state, key, input.revisionId) else done.state == s
  {
    var key := AliasKey(domain, serviceId, alias);
    LastAssignmentRoutes(p, requests, key);
    VersionCountsChanges(p, requests, key);
  }

  predicate RoutesTo(s: State, key: string, revisionId: string) {
    key in s.aliases && s.aliases[key].revisionId == revisionId && s.aliases[key].withdrawnAt.None?
  }

  ghost predicate Withdrawable(p: Platform, requests: seq<Request>, alias: string, key: string, input: Input) {
    && AliasName(alias) && key in Exec(p, EMPTY, requests).aliases && !LastWithdrawn(p, requests, key)
    && input == VersionInput(Changes(p, requests, key))
  }

  /** After any run a withdrawal takes effect exactly when the alias is there, is not withdrawn, and the request names how
      often it has been changed. */
  lemma WithdrawsIff(p: Platform, requests: seq<Request>, r: Request, domain: string, serviceId: string, alias: string, input: Input)
    ensures var s, key := Exec(p, EMPTY, requests), AliasKey(domain, serviceId, alias);
      var done := DoWithdraw(s, r, domain, serviceId, alias, input);
      && (done.reply.status == 200 <==> Withdrawable(p, requests, alias, key, input))
      && if done.reply.status == 200 then key in done.state.aliases && done.state.aliases[key].withdrawnAt == Some(r.now) else done.state == s
  {
    var key := AliasKey(domain, serviceId, alias);
    LastAssignmentRoutes(p, requests, key);
    VersionCountsChanges(p, requests, key);
  }

  // ---- Invocations ------------------------------------------------------------------------------------------

  /** The delivery has a normal form. */
  ghost predicate Deliverable(events: seq<RuntimeEvent>) { exists out :: Clean(events, out) }

  /** The input fits the schema and asks for a scenario that exists and can be delivered. */
  ghost predicate Runnable(p: Platform, schema: Option<Json>, arguments: map<string, Value>) {
    && p.inputFault(schema, arguments).None?
    && ("scenario" in arguments ==> arguments["scenario"].Text?)
    && var scenario := p.scenario(if "scenario" in arguments then arguments["scenario"].text else "success");
       scenario.Some? && Deliverable(scenario.value)
  }

  ghost predicate Startable(p: Platform, s: State, r: Request, domain: string, serviceId: string, input: Input) {
    && ResourceKey(domain, serviceId) in s.services && r.correlation != ""
    && input.InvokeInput? && AliasPattern(input.alias) && input.arguments.Some?
    && var alias := AliasKey(domain, serviceId, input.alias);
    && alias in s.aliases && s.aliases[alias].withdrawnAt.None?
    && var target := ResourceKey(domain, s.aliases[alias].revisionId);
       target in s.revisions && Runnable(p, s.revisions[target].inputSchema, input.arguments.value)
  }

  /** In a reachable state an invocation starts exactly when its service exists, its alias is there and not withdrawn, and
      its input can be run on the revision the alias routes to. */
  lemma InvokesIff(p: Platform, s: State, r: Request, domain: string, serviceId: string, input: Input)
    requires RevisionsKeyed(s.revisions) && ServicesKeyed(s.services) && AliasesKeyed(s.aliases)
    requires AliasesRouted(s.aliases, s.services, s.revisions) && ValidDomain(domain)
    ensures var done := DoInvoke(p, s, r, domain, serviceId, input);
      && (done.reply.status == 202 <==> Startable(p, s, r, domain, serviceId, input))
      && (done.reply.status != 202 ==> done.state == s)
  {
    if input.InvokeInput? && ResourceKey(domain, serviceId) in s.services {
      var alias := AliasKey(domain, serviceId, input.alias);
      if alias in s.aliases && s.aliases[alias].withdrawnAt.None? {
        AliasResolves(s, domain, serviceId, input.alias);
        if input.arguments.Some? {
          RunnableIff(p, r, Resolve(s, domain, serviceId, input.alias).value.inputSchema, input.arguments.value);
        }
      }
    }
  }

  lemma RunnableIff(p: Platform, r: Request, schema: Option<Json>, arguments: map<string, Value>)
    ensures RunRefusal(p, r, schema, arguments).None? <==> Runnable(p, schema, arguments) && r.correlation != ""
    ensures RunRefusal(p, r, schema, arguments).Some? ==> RunRefusal(p, r, schema, arguments).value.status != 202
  {
    if ScenarioOf(arguments).Some? {
      var scenario := p.scenario(ScenarioOf(arguments).value);
      if scenario.Some? && Normalized(scenario.value).Some? {
        assert Clean(scenario.value, Normalized(scenario.value).value);
      }
    }
  }

  predicate Cancellable(invocations: map<string, Invocation>, key: string, input: Input) {
    && input.CancelInput? && |input.reason| <= 512
    && key in invocations && !invocations[key].state.Succeeded? && !invocations[key].state.Failed?
  }

  /** The invocation is cancelled; unless it already was, one version up, with one journal entry more that says who did it,
      and with an operation that wants and has seen the cancellation. */
  predicate NowCancelled(p: Platform, s: State, s': State, r: Request, domain: string, key: string)
    requires key in s.invocations && key in s.events
  {
    var inv := s.invocations[key];
    if inv.state.Cancelled? then s' == s
    else
      && key in s'.invocations && s'.invocations[key].state.Cancelled? && s'.invocations[key].completedAt == Some(r.now)
      && s'.invocations[key].meta.version == inv.meta.version + 1 && s'.invocations[key].meta.updatedAt == r.now
      && Announced(p, s, s', r, key, inv) && OperationCancelled(s', ResourceKey(domain, inv.operationId))
  }

  predicate Announced(p: Platform, s: State, s': State, r: Request, key: string, inv: Invocation)
    requires key in s.events
  {
    && key in s'.events && |s'.events[key]| == |s.events[key]| + 1 && s.events[key] <= s'.events[key]
    && var last := s'.events[key][|s.events[key]|];
    && last.kind.LifecycleCancelled? && last.sequence == |s.events[key]| + 1 && last.occurredAt == r.now && last.actorId == Actor(r)
    && last.id == p.cancelEventId(inv.meta.id, |s.events[key]| + 1)
  }

  predicate OperationCancelled(s: State, key: string) {
    && key in s.operations && s.operations[key].command.CancelCommand? && s.operations[key].desired.Cancelled?
    && s.operations[key].observed == Settled(Cancelled)
  }

  /** A cancellation is granted exactly to invocations that have not succeeded or failed. */
  lemma CancelsIff(p: Platform, s: State, r: Request, domain: string, invocationId: string, input: Input)
    requires s.events.Keys == s.invocations.Keys
    ensures var key := ResourceKey(domain, invocationId); var done := DoCancel(p, s, r, domain, invocationId, input);
      && (done.reply.status == 200 <==> Cancellable(s.invocations, key, input))
      && if done.reply.status == 200 then NowCancelled(p, s, done.state, r, domain, key) else done.state == s
  {
    var key := ResourceKey(domain, invocationId);
    CancelRepliesIff(s.invocations, r, key, input);
    if CancelReply(s.invocations, r, key, input).None? {
      CancelApplies(p, s, r, domain, key);
    }
  }

  lemma CancelRepliesIff(invocations: map<string, Invocation>, r: Request, key: string, input: Input)
    ensures var reply := CancelReply(invocations, r, key, input);
      Cancellable(invocations, key, input) <==> reply.None? || reply.value.status == 200
    ensures var reply := CancelReply(invocations, r, key, input);
      reply.Some? && reply.value.status == 200 ==> invocations[key].state.Cancelled?
    ensures CancelReply(invocations, r, key, input).None? ==> !invocations[key].state.Cancelled?
  {
  }

  lemma CancelApplies(p: Platform, s: State, r: Request, domain: string, key: string)
    requires key in s.invocations && key in s.events && !s.invocations[key].state.Cancelled?
    ensures NowCancelled(p, s, ApplyCancel(p, s, r, domain, key), r, domain, key)
  {
  }

  // ---- Creation and saved references --------------------------------------------------------------------------

  /** What a creation stores is what its request said. */
  lemma CreationsStoreInput(p: Platform, s: State, r: Request, domain: string, ownerId: string, input: Input)
    ensures var key := ResourceKey(domain, r.ids.resource); var done := DoCreateWorkspace(p, s, r, domain, input);
      done.reply.status == 201 ==>
        && input.NamedInput? && key in done.state.workspaces
        && var w := done.state.workspaces[key];
           w.name == p.trim(input.name) && w.description == input.description && New(w.meta, r, domain)
    ensures var key := ResourceKey(domain, r.ids.resource); var done := DoCreateService(p, s, r, domain, ownerId, input);
      done.reply.status == 201 ==>
        && input.NamedInput? && key in done.state.services
        && var v := done.state.services[key];
           v.workspaceId == ownerId && v.name == p.trim(input.name) && v.description == input.description && New(v.meta, r, domain)
    ensures var key := ResourceKey(domain, r.ids.resource); var done := DoCreateRevision(p, s, r, domain, ownerId, input);
      done.reply.status == 201 ==>
        && input.RevisionInput? && key in done.state.revisions
        && var v := done.state.revisions[key];
           && v.serviceId == ownerId && v.state.Draft? && v.runtimeProfile == input.runtimeProfile
           && v.requiredCapabilities == input.requiredCapabilities && v.inputSchema == input.inputSchema && v.outputSchema == input.outputSchema
           && New(v.meta, r, domain)
  {
  }

  /** A first version, of now, by the sender, under the identifier drawn. */
  predicate New(meta: Metadata, r: Request, domain: string) {
    && meta.id == r.ids.resource && meta.domain == domain && meta.createdBy == Actor(r)
    && meta.generation == 1 && meta.version == 1 && meta.createdAt == r.now && meta.updatedAt == r.now
  }

  ghost predicate Savable(p: Platform, s: State, r: Request, domain: string, input: Input) {
    && input.SavedInput? && r.principal.Some? && p.ownerValid(r.principal.value) && Tagged(input.resourceId, KindPrefix(input.kind))
    && (input.saved ==> TargetExists(s, domain, input.kind, input.resourceId))
  }

  /** The reference says so, since when it first said so. */
  predicate NowSaved(s: State, s': State, key: SavedKey, input: Input, now: Time)
    requires input.SavedInput?
  {
    && key in s'.saved
    && if key in s.saved && s.saved[key].saved == input.saved then s' == s
       else s'.saved[key] == SavedState(key.scope, input.kind, key.resourceId, input.saved, now)
  }

  /** A reference is saved exactly when it names a target that is there, and forgotten without looking; saying the same
      again keeps the first instant, saying the opposite takes the new one. */
  lemma SavesIff(p: Platform, s: State, r: Request, domain: string, input: Input)
    ensures var done := DoSetSaved(p, s, r, domain, input);
      && (done.reply.status == 200 <==> Savable(p, s, r, domain, input))
      && if done.reply.status == 200
         then NowSaved(s, done.state, SavedKey(domain, r.principal.value.kind, r.principal.value.id, input.resourceId), input, r.now)
         else done.state == s
  {
    SavableIff(p, s, r, domain, input);
    if Savable(p, s, r, domain, input) {
      SaveApplies(s, SavedKey(domain, r.principal.value.kind, Actor(r), input.resourceId), input, r.now);
    }
  }

  lemma SavableIff(p: Platform, s: State, r: Request, domain: string, input: Input)
    ensures var refusal := SavedRefusal(p, s, r, domain, input);
      Savable(p, s, r, domain, input) <==> refusal.None? || refusal.value.status == 200
    ensures Savable(p, s, r, domain, input) ==> SavedRefusal(p, s, r, domain, input).None?
  {
  }

  lemma SaveApplies(s: State, key: SavedKey, input: Input, now: Time)
    requires input.SavedInput?
    ensures NowSaved(s, s.(saved := s.saved[key := Remembered(s.saved, key, input.kind, input.saved, now)]), key, input, now)
  {
    if key in s.saved && s.saved[key].saved == input.saved {
      assert s.saved[key := s.saved[key]] == s.saved;
    }
  }
}
