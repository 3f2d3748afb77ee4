/** Invocation and cancellation keep the invariants, including that every journal reproduces its invocation. */
module InvocationPreservation {
  import opened Text
  import opened Resources
  import opened Requests
  import opened Journal
  import opened ReferenceRuntime
  import opened Handlers
  import opened Invariants
  import opened Preservation

  // ---- Building an invocation from its runtime events -------------------------------------------------

  /** The identity of an invocation: everything but what events change. */
  ghost predicate SameIdentity(a: Invocation, b: Invocation) {
    && a.meta == b.meta && a.serviceId == b.serviceId && a.revisionId == b.revisionId && a.alias == b.alias
    && a.correlationId == b.correlationId && a.operationId == b.operationId && a.input == b.input
  }

  /** Every artifact made for `inv` is stored under a key of `inv`. */
  ghost predicate MadeFor(made: map<string, ArtifactDescriptor>, inv: Invocation) {
    forall k | k in made ::
      && made[k].meta.domain == inv.meta.domain && made[k].invocationId == inv.meta.id
      && k == ArtifactKey(inv.meta.domain, inv.meta.id, made[k].meta.id)
  }

  /** One runtime event keeps the identity, and what it makes is made for the invocation. */
  lemma ExtendMakes(p: Platform, d: Draft, e: RuntimeEvent, schema: Option<Json>)
    requires e.payload.Some? && MadeFor(d.made, d.invocation)
    ensures var d' := ExtendDraft(p, d, e, schema);
      SameIdentity(d'.invocation, d.invocation) && MadeFor(d'.made, d'.invocation)
  {
  }

  /** One runtime event extends the journal by one entry that the record follows. */
  lemma ExtendFollows(p: Platform, d: Draft, e: RuntimeEvent, schema: Option<Json>)
    requires e.payload.Some? && Sourced(d.invocation, d.journal)
    ensures var d' := ExtendDraft(p, d, e, schema);
      && |d'.journal| == |d.journal| + 1 && d.journal <= d'.journal && d'.journal[|d.journal|].sequence == e.sequence
      && Sourced(d'.invocation, d'.journal)
  {
    var d' := ExtendDraft(p, d, e, schema);
    ExtendSteps(p, d, e, schema);
    SourcedExtends(d.invocation, d.journal, d'.invocation, d'.journal[|d.journal|]);
  }

  lemma ExtendSteps(p: Platform, d: Draft, e: RuntimeEvent, schema: Option<Json>)
    requires e.payload.Some?
    ensures var d' := ExtendDraft(p, d, e, schema);
      && d'.journal == d.journal + [d'.journal[|d.journal|]] && d'.journal[|d.journal|].sequence == e.sequence
      && var event := d'.journal[|d.journal|];
         InStep(d'.invocation, ApplyEvent(d.invocation, event.kind, event.payload, event.occurredAt))
  {
  }

  /** The draft is of this invocation, its journal reproduces it, and carries the sequences of the events. */
  ghost predicate Follows(d: Draft, start: Invocation, events: seq<RuntimeEvent>) {
    && SameIdentity(d.invocation, start) && MadeFor(d.made, d.invocation)
    && Sourced(d.invocation, d.journal)
    && |d.journal| == |events| && forall i | 0 <= i < |events| :: d.journal[i].sequence == events[i].sequence
  }

  lemma ExtendKeepsFollowing(p: Platform, d: Draft, start: Invocation, events: seq<RuntimeEvent>, schema: Option<Json>)
    requires events != [] && Payloads(events) && Follows(d, start, events[..|events| - 1])
    ensures Follows(ExtendDraft(p, d, events[|events| - 1], schema), start, events)
  {
    ExtendMakes(p, d, events[|events| - 1], schema);
    ExtendFollows(p, d, events[|events| - 1], schema);
  }

  lemma {:induction false} BuildFollows(p: Platform, start: Invocation, events: seq<RuntimeEvent>, schema: Option<Json>)
    requires Payloads(events) && start == Started(start)
    ensures Follows(BuildDraft(p, start, events, schema), start, events)
  {
    if events != [] {
      var n := |events| - 1;
      BuildFollows(p, start, events[..n], schema);
      ExtendKeepsFollowing(p, BuildDraft(p, start, events[..n], schema), start, events, schema);
    }
  }

  // ---- Launching -------------------------------------------------------------------------------------------

  /** An artifact key of an unused invocation identifier is unused. */
  lemma ArtifactKeysUnused(s: State, domain: string, id: string, leaf: string)
    requires InvocationsKeyed(s.invocations) && ArtifactsKeyed(s.artifacts) && ArtifactsBound(s.artifacts, s.invocations)
    requires ValidDomain(domain) && '/' !in id && ResourceKey(domain, id) !in s.invocations
    ensures ArtifactKey(domain, id, leaf) !in s.artifacts
  {
    var key := ArtifactKey(domain, id, leaf);
    if key in s.artifacts {
      var a := s.artifacts[key];
      var i := s.invocations[ResourceKey(a.meta.domain, a.invocationId)];
      ResourceKeyInjective(a.meta.domain, a.invocationId, i.meta.domain, i.meta.id);
      NestedKeyInjective(domain, id, leaf, a.meta.domain, a.invocationId, a.meta.id);
    }
  }

  /** What `Launch` needs to know about the draft it stores. */
  ghost predicate Launchable(s: State, r: Request, domain: string, d: Draft) {
    && ValidDomain(domain) && IdsUnused(s, domain, r.ids)
    && d.invocation.meta == NewMetadata(r.ids.resource, domain, Actor(r), r.now)
    && d.invocation.operationId == r.ids.operation
    && MadeFor(d.made, d.invocation) && Numbered(d.journal) && Sourced(d.invocation, d.journal)
    && ResourceKey(domain, d.invocation.serviceId) in s.services
    && RunsRevision(d.invocation, s.revisions)
    && s.revisions[ResourceKey(domain, d.invocation.revisionId)].state.Published?
  }

  lemma LaunchKeyed(s: State, r: Request, domain: string, d: Draft)
    requires Keyed(s) && Launchable(s, r, domain, d)
    ensures Keyed(Launch(s, r, domain, d).state)
  {
    MadeKeyed(s.artifacts, d.made, d.invocation);
  }

  lemma MadeKeyed(artifacts: map<string, ArtifactDescriptor>, made: map<string, ArtifactDescriptor>, inv: Invocation)
    requires ArtifactsKeyed(artifacts) && MadeFor(made, inv) && ValidDomain(inv.meta.domain)
    ensures ArtifactsKeyed(artifacts + made)
  {
  }

  lemma LaunchArtifacts(s: State, r: Request, domain: string, d: Draft)
    requires InvocationsKeyed(s.invocations) && ArtifactsKeyed(s.artifacts) && ArtifactsBound(s.artifacts, s.invocations)
    requires Launchable(s, r, domain, d)
    ensures var s' := Launch(s, r, domain, d).state;
      Includes(s.artifacts, s'.artifacts) && ArtifactsBound(s'.artifacts, s'.invocations)
  {
    forall k | k in d.made ensures k !in s.artifacts {
      ArtifactKeysUnused(s, domain, d.invocation.meta.id, d.made[k].meta.id);
    }
  }

  lemma LaunchEvolves(s: State, r: Request, domain: string, d: Draft)
    requires Launchable(s, r, domain, d) && Includes(s.artifacts, Launch(s, r, domain, d).state.artifacts)
    requires s.events.Keys == s.invocations.Keys
    ensures Evolves(s, Launch(s, r, domain, d).state)
  {
  }

  lemma LaunchPairs(s: State, r: Request, domain: string, d: Draft)
    requires OperationsPaired(s.invocations, s.operations) && Launchable(s, r, domain, d)
    ensures var s' := Launch(s, r, domain, d).state; OperationsPaired(s'.invocations, s'.operations)
  {
  }

  lemma LaunchJournals(s: State, r: Request, domain: string, d: Draft)
    requires Journaled(s.invocations, s.events) && Launchable(s, r, domain, d)
    ensures var s' := Launch(s, r, domain, d).state; Journaled(s'.invocations, s'.events)
  {
  }

  lemma LaunchBinds(s: State, r: Request, domain: string, d: Draft)
    requires InvocationsBound(s.invocations, s.services, s.revisions) && Launchable(s, r, domain, d)
    ensures var s' := Launch(s, r, domain, d).state; InvocationsBound(s'.invocations, s'.services, s'.revisions)
  {
  }

  lemma LaunchKeeps(s: State, r: Request, domain: string, d: Draft)
    requires Inv(s) && Launchable(s, r, domain, d)
    ensures Kept(s, Launch(s, r, domain, d).state)
  {
    var s' := Launch(s, r, domain, d).state;
    LaunchKeyed(s, r, domain, d);
    LaunchArtifacts(s, r, domain, d);
    LaunchEvolves(s, r, domain, d);
    LaunchPairs(s, r, domain, d);
    LaunchJournals(s, r, domain, d);
    LaunchBinds(s, r, domain, d);
    SavedPersists(s, s');
  }

  /** Routing invariants make every alias that has not been withdrawn resolve to a published revision of its service. */
  lemma AliasResolves(s: State, domain: string, serviceId: string, alias: string)
    requires RevisionsKeyed(s.revisions) && ServicesKeyed(s.services) && AliasesKeyed(s.aliases)
    requires AliasesRouted(s.aliases, s.services, s.revisions)
    requires ValidDomain(domain) && ResourceKey(domain, serviceId) in s.services
    requires AliasKey(domain, serviceId, alias) in s.aliases && s.aliases[AliasKey(domain, serviceId, alias)].withdrawnAt.None?
    ensures var v := Resolve(s, domain, serviceId, alias);
      && v.Some? && v.value.state.Published? && v.value.serviceId == serviceId
      && v.value.meta.id == s.aliases[AliasKey(domain, serviceId, alias)].revisionId
      && ResourceKey(domain, v.value.meta.id) in s.revisions && s.revisions[ResourceKey(domain, v.value.meta.id)] == v.value
  {
    AliasAt(s, domain, serviceId, alias);
    var a := s.aliases[AliasKey(domain, serviceId, alias)];
    var v := s.revisions[ResourceKey(domain, a.revisionId)];
    ResourceKeyInjective(domain, a.revisionId, v.meta.domain, v.meta.id);
  }

  /** The draft of an invocation that is not refused has a numbered journal that reproduces it. */
  lemma RunDraftFollows(p: Platform, r: Request, domain: string, serviceId: string, alias: string, revision: ServiceRevision,
                        arguments: map<string, Value>)
    requires RunRefusal(p, r, revision.inputSchema, arguments).None?
    ensures var d := RunDraft(p, r, domain, serviceId, alias, revision, arguments);
      && SameIdentity(d.invocation, NewInvocation(r, domain, serviceId, revision.meta.id, alias, arguments))
      && MadeFor(d.made, d.invocation) && Numbered(d.journal) && Sourced(d.invocation, d.journal)
  {
    var events := p.scenario(ScenarioOf(arguments).value).value;
    NormalizedPayloads(events);
    BuildFollows(p, NewInvocation(r, domain, serviceId, revision.meta.id, alias, arguments),
                 Normalized(events).value, revision.outputSchema);
  }

  lemma InvokeLaunchable(p: Platform, s: State, r: Request, domain: string, serviceId: string, input: Input)
    requires RevisionsKeyed(s.revisions) && ServicesKeyed(s.services) && AliasesKeyed(s.aliases)
    requires AliasesRouted(s.aliases, s.services, s.revisions)
    requires ValidDomain(domain) && IdsUnused(s, domain, r.ids)
    requires InvokeRefusal(p, s, r, domain, serviceId, input).None?
    ensures var revision := Resolve(s, domain, serviceId, input.alias).value;
      Launchable(s, r, domain, RunDraft(p, r, domain, serviceId, input.alias, revision, input.arguments.value))
  {
    AliasResolves(s, domain, serviceId, input.alias);
    RunDraftFollows(p, r, domain, serviceId, input.alias, Resolve(s, domain, serviceId, input.alias).value, input.arguments.value);
  }

  lemma InvokeKeeps(p: Platform, s: State, r: Request, domain: string, serviceId: string, input: Input)
    requires Inv(s) && ValidDomain(domain) && IdsUnused(s, domain, r.ids)
    ensures Kept(s, DoInvoke(p, s, r, domain, serviceId, input).state)
  {
    if InvokeRefusal(p, s, r, domain, serviceId, input).Some? {
      KeptUnchanged(s);
    } else {
      InvokeLaunchable(p, s, r, domain, serviceId, input);
      var revision := Resolve(s, domain, serviceId, input.alias).value;
      LaunchKeeps(s, r, domain, RunDraft(p, r, domain, serviceId, input.alias, revision, input.arguments.value));
    }
  }

  // ---- Cancelling --------------------------------------------------------------------------------------------

  ghost predicate Cancels(s: State, s': State, key: string, now: Time) {
    && key in s.invocations && !Terminal(s.invocations[key].state)
    && var i := s.invocations[key];
    && s' == s.(invocations := s'.invocations, operations := s'.operations, events := s'.events)
    && s'.invocations == s.invocations[key := i.(state := Cancelled, completedAt := Some(now), meta := Bump(i.meta, now))]
  }

  lemma CancelEvolves(s: State, s': State, key: string, now: Time)
    requires Cancels(s, s', key, now) && JournalsGrow(s, s')
    ensures Evolves(s, s')
  {
  }

  lemma CancelPairs(s: State, s': State, key: string, now: Time, operation: Operation)
    requires Cancels(s, s', key, now) && InvocationsKeyed(s.invocations) && OperationsPaired(s.invocations, s.operations)
    requires var i := s.invocations[key];
      && s'.operations == s.operations[ResourceKey(i.meta.domain, i.operationId) := operation]
      && operation.resourceId == i.meta.id && operation.observed == Settled(Cancelled) && operation.terminalResult == i.result
    ensures OperationsPaired(s'.invocations, s'.operations)
  {
    var i := s.invocations[key];
    forall k | k in s'.invocations && k != key
      ensures ResourceKey(s'.invocations[k].meta.domain, s'.invocations[k].operationId) != ResourceKey(i.meta.domain, i.operationId)
    {
      var j := s.invocations[k];
      if ResourceKey(j.meta.domain, j.operationId) == ResourceKey(i.meta.domain, i.operationId) {
        ResourceKeyInjective(j.meta.domain, j.operationId, i.meta.domain, i.operationId);
      }
    }
  }

  /** The cancelled record follows its journal with the cancellation event appended. */
  lemma CancelSources(i: Invocation, journal: seq<Event>, now: Time, e: Event)
    requires Sourced(i, journal) && Numbered(journal)
    requires e.sequence == |journal| + 1 && e.kind.LifecycleCancelled? && e.occurredAt == now
    ensures Numbered(journal + [e])
    ensures Sourced(i.(state := Cancelled, completedAt := Some(now), meta := Bump(i.meta, now)), journal + [e])
  {
    SourcedExtends(i, journal, i.(state := Cancelled, completedAt := Some(now), meta := Bump(i.meta, now)), e);
  }

  lemma CancelJournals(s: State, s': State, key: string, now: Time, e: Event)
    requires Cancels(s, s', key, now) && Journaled(s.invocations, s.events)
    requires s'.events == s.events[key := s.events[key] + [e]]
    requires e.sequence == |s.events[key]| + 1 && e.kind.LifecycleCancelled? && e.occurredAt == now
    ensures Journaled(s'.invocations, s'.events)
  {
    CancelSources(s.invocations[key], s.events[key], now, e);
  }

  lemma CancelAppends(s: State, s': State, key: string, now: Time, e: Event)
    requires Cancels(s, s', key, now) && key in s.events && s'.events == s.events[key := s.events[key] + [e]]
    ensures JournalsGrow(s, s')
  {
  }

  lemma CancelBinds(s: State, s': State, key: string, now: Time)
    requires Cancels(s, s', key, now)
    requires InvocationsBound(s.invocations, s.services, s.revisions) && ArtifactsBound(s.artifacts, s.invocations)
    ensures InvocationsBound(s'.invocations, s.services, s.revisions) && ArtifactsBound(s.artifacts, s'.invocations)
  {
  }

  lemma CancelKeyed(s: State, s': State, key: string, now: Time, o: string, operation: Operation)
    requires Cancels(s, s', key, now) && Keyed(s)
    requires o in s.operations && s'.operations == s.operations[o := operation]
    requires operation.meta.domain == s.operations[o].meta.domain && operation.meta.id == s.operations[o].meta.id
    ensures Keyed(s')
  {
  }

  /** What a cancellation that takes effect writes: the record, its operation, and one journal entry. */
  ghost predicate CancelWrites(s: State, s': State, key: string, now: Time, operation: Operation, e: Event) {
    && Cancels(s, s', key, now)
    && key in s.events && s'.events == s.events[key := s.events[key] + [e]]
    && e.sequence == |s.events[key]| + 1 && e.kind.LifecycleCancelled? && e.occurredAt == now
    && var i := s.invocations[key];
       var o := ResourceKey(i.meta.domain, i.operationId);
    && o in s.operations && s'.operations == s.operations[o := operation]
    && operation.meta.domain == s.operations[o].meta.domain && operation.meta.id == s.operations[o].meta.id
    && operation.resourceId == s.operations[o].resourceId && operation.terminalResult == s.operations[o].terminalResult
    && operation.observed == Settled(Cancelled)
  }

  lemma CancelApplied(s: State, s': State, key: string, now: Time, operation: Operation, e: Event)
    requires Inv(s) && CancelWrites(s, s', key, now, operation, e)
    ensures Kept(s, s')
  {
    var i := s.invocations[key];
    CancelJournals(s, s', key, now, e);
    CancelAppends(s, s', key, now, e);
    CancelEvolves(s, s', key, now);
    CancelPairs(s, s', key, now, operation);
    CancelBinds(s, s', key, now);
    CancelKeyed(s, s', key, now, ResourceKey(i.meta.domain, i.operationId), operation);
    SavedPersists(s, s');
  }

  lemma CancelShape(p: Platform, s: State, r: Request, domain: string, invocationId: string, input: Input)
    requires InvocationsKeyed(s.invocations) && OperationsPaired(s.invocations, s.operations)
    requires s.events.Keys == s.invocations.Keys && ValidDomain(domain)
    requires CancelReply(s.invocations, r, ResourceKey(domain, invocationId), input).None?
    ensures var s' := DoCancel(p, s, r, domain, invocationId, input).state;
      var key := ResourceKey(domain, invocationId);
      && ResourceKey(domain, s.invocations[key].operationId) in s'.operations
      && CancelWrites(s, s', key, r.now, s'.operations[ResourceKey(domain, s.invocations[key].operationId)],
                      CancelEvent(p, r, domain, s.invocations[key], |JournalAt(s.events, key)| + 1))
  {
    var key := ResourceKey(domain, invocationId);
    ResourceKeyInjective(domain, invocationId, s.invocations[key].meta.domain, s.invocations[key].meta.id);
  }

  lemma CancelKeeps(p: Platform, s: State, r: Request, domain: string, invocationId: string, input: Input)
    requires Inv(s) && ValidDomain(domain)
    ensures Kept(s, DoCancel(p, s, r, domain, invocationId, input).state)
  {
    var key := ResourceKey(domain, invocationId);
    if CancelReply(s.invocations, r, key, input).Some? {
      KeptUnchanged(s);
    } else {
      var s' := DoCancel(p, s, r, domain, invocationId, input).state;
      CancelShape(p, s, r, domain, invocationId, input);
      CancelApplied(s, s', key, r.now, s'.operations[ResourceKey(domain, s.invocations[key].operationId)],
                    CancelEvent(p, r, domain, s.invocations[key], |JournalAt(s.events, key)| + 1));
    }
  }
}
