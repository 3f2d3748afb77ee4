/** The promises that span handlers: routing, retirement, event sourcing and referential integrity over whole runs. */
module Lifecycle {
  import opened Text
  import opened Resources
  import opened Requests
  import opened Journal
  import opened Handlers
  import opened Invariants
  import opened InvocationPreservation
  import opened Runs

  /** The alias of an existing service resolves exactly when it exists and is not withdrawn, and then to a published
      revision of that service. */
  ghost predicate ResolvesExactly(s: State, domain: string, serviceId: string, alias: string) {
    var key := AliasKey(domain, serviceId, alias);
    var found := Resolve(s, domain, serviceId, alias);
    && (found.None? <==> key !in s.aliases || s.aliases[key].withdrawnAt.Some?)
    && (found.Some? ==> found.value.state.Published? && found.value.serviceId == serviceId)
  }

  /** After any run, invocation never finds an alias whose revision is missing or unpublished. */
  lemma AliasesAlwaysResolve(p: Platform, requests: seq<Request>, domain: string, serviceId: string, alias: string)
    requires FreshRun(p, EMPTY, requests) && ValidDomain(domain)
    ensures var s := Exec(p, EMPTY, requests);
      ResourceKey(domain, serviceId) in s.services ==> ResolvesExactly(s, domain, serviceId, alias)
  {
    var s := Exec(p, EMPTY, requests);
    ReachableStatesHold(p, requests);
    var key := AliasKey(domain, serviceId, alias);
    if ResourceKey(domain, serviceId) in s.services && key in s.aliases && s.aliases[key].withdrawnAt.None? {
      AliasResolves(s, domain, serviceId, alias);
    }
  }

  /** The invocation stored under `k` runs the revision stored under `key`. */
  ghost predicate InvokedFrom(s: State, k: string, key: string) {
    k in s.invocations && ResourceKey(s.invocations[k].meta.domain, s.invocations[k].revisionId) == key
  }

  /** The revision is retired. */
  ghost predicate RetiredIn(s: State, key: string) { key in s.revisions && s.revisions[key].state.Retired? }

  /** The revision and its invocations are the same in both states, and all of the invocations are finished. */
  ghost predicate Frozen(before: State, after: State, key: string) {
    && key in before.revisions && key in after.revisions && after.revisions[key] == before.revisions[key]
    && (forall k :: InvokedFrom(after, k, key) <==> InvokedFrom(before, k, key))
    && (forall k | InvokedFrom(after, k, key) && InvokedFrom(before, k, key) ::
          after.invocations[k] == before.invocations[k] && Terminal(after.invocations[k].state))
  }

  /** Once a revision is retired, it and its invocations are fixed for the rest of the run, and all of them are finished. */
  lemma RetirementIsFinal(p: Platform, requests: seq<Request>, i: nat, j: nat, key: string)
    requires FreshRun(p, EMPTY, requests) && i <= j <= |requests|
    ensures RetiredIn(Exec(p, EMPTY, requests[..i]), key) ==> Frozen(Exec(p, EMPTY, requests[..i]), Exec(p, EMPTY, requests[..j]), key)
  {
    FreshPrefix(p, EMPTY, requests, i);
    ReachableStatesHold(p, requests[..i]);
    RunEvolves(p, requests, i, j);
    if RetiredIn(Exec(p, EMPTY, requests[..i]), key) {
      FrozenInvocations(Exec(p, EMPTY, requests[..i]), Exec(p, EMPTY, requests[..j]), key);
    }
  }

  lemma FrozenInvocations(before: State, after: State, key: string)
    requires InvocationsBound(before.invocations, before.services, before.revisions)
    requires RevisionsEvolve(before.revisions, after.revisions) && InvocationsEvolve(before, after)
    requires RetiredIn(before, key)
    ensures Frozen(before, after, key)
  {
    forall k | InvokedFrom(before, k, key)
      ensures InvokedFrom(after, k, key) && after.invocations[k] == before.invocations[k] && Terminal(after.invocations[k].state)
    {
      assert RunsRevision(before.invocations[k], before.revisions);
    }
    forall k | InvokedFrom(after, k, key) ensures k in before.invocations {
    }
  }

  /** Revisions keep their number and only move forward; the version says which stage they are in. */
  lemma StagesOnlyAdvance(p: Platform, requests: seq<Request>, i: nat, j: nat, key: string)
    requires FreshRun(p, EMPTY, requests) && i <= j <= |requests|
    ensures Advanced(Exec(p, EMPTY, requests[..i]), Exec(p, EMPTY, requests[..j]), key)
  {
    FreshPrefix(p, EMPTY, requests, i);
    ReachableStatesHold(p, requests[..i]);
    FreshPrefix(p, EMPTY, requests, j);
    ReachableStatesHold(p, requests[..j]);
    RunEvolves(p, requests, i, j);
  }

  ghost predicate Advanced(before: State, after: State, key: string) {
    key in before.revisions ==>
      && key in after.revisions && RevisionEvolves(before.revisions[key], after.revisions[key])
      && before.revisions[key].meta.version == StageVersion(before.revisions[key].state)
      && after.revisions[key].meta.version == StageVersion(after.revisions[key].state)
  }

  ghost predicate NextStage(a: RevisionState, b: RevisionState) {
    a == b || (a.Draft? && b.Published?) || (a.Published? && b.Retired?)
  }

  /** One request moves a revision by at most one stage. */
  lemma OneStageAtATime(p: Platform, s: State, r: Request, key: string)
    requires key in s.revisions && IdsUnused(s, RouteOf(p, r).domain, r.ids)
    ensures key in Mutate(p, s, r).state.revisions
    ensures NextStage(s.revisions[key].state, Mutate(p, s, r).state.revisions[key].state)
  {
    if Admitted(p, r) && SlotOf(r) !in s.cache {
      var route := RouteOf(p, r);
      var input := p.decode(route, r.body.value);
      HandleMovesOneStage(p, s, r, route, input, key);
    }
  }

  ghost predicate MovesOneStage(s: State, s': State, key: string) {
    key in s.revisions && key in s'.revisions && NextStage(s.revisions[key].state, s'.revisions[key].state)
  }

  lemma HandleMovesOneStage(p: Platform, s: State, r: Request, route: Route, input: Input, key: string)
    requires key in s.revisions && IdsUnused(s, route.domain, r.ids)
    ensures MovesOneStage(s, Handle(p, s, r, route, input).state, key)
  {
    match route
    case CreateRevision(domain, serviceId) => CreateSpares(p, s, r, domain, serviceId, input, key);
    case PublishRevision(domain, revisionId) => PublishMoves(p, s, r, domain, revisionId, input, key);
    case RetireRevision(domain, revisionId) => RetireMoves(s, r, domain, revisionId, input, key);
    case _ => OthersSpareRevisions(p, s, r, route, input);
  }

  lemma StagePut(s: State, s': State, at: string, key: string)
    requires at in s'.revisions && s'.revisions == s.revisions[at := s'.revisions[at]] && key in s.revisions
    requires at in s.revisions ==> NextStage(s.revisions[at].state, s'.revisions[at].state)
    ensures MovesOneStage(s, s', key)
  {
  }

  lemma CreateSpares(p: Platform, s: State, r: Request, domain: string, serviceId: string, input: Input, key: string)
    requires key in s.revisions && IdsUnused(s, domain, r.ids)
    ensures MovesOneStage(s, DoCreateRevision(p, s, r, domain, serviceId, input).state, key)
  {
    var done := DoCreateRevision(p, s, r, domain, serviceId, input);
    if done.reply.status == 201 {
      StagePut(s, done.state, ResourceKey(domain, r.ids.resource), key);
    }
  }

  lemma PublishMoves(p: Platform, s: State, r: Request, domain: string, revisionId: string, input: Input, key: string)
    requires key in s.revisions
    ensures MovesOneStage(s, DoPublish(p, s, r, domain, revisionId, input).state, key)
  {
    if PublishRefusal(p, s.revisions, r, ResourceKey(domain, revisionId), input).None? {
      StagePut(s, DoPublish(p, s, r, domain, revisionId, input).state, ResourceKey(domain, revisionId), key);
    }
  }

  lemma RetireMoves(s: State, r: Request, domain: string, revisionId: string, input: Input, key: string)
    requires key in s.revisions
    ensures MovesOneStage(s, DoRetire(s, r, domain, revisionId, input).state, key)
  {
    if RetireRefusal(s, r, domain, ResourceKey(domain, revisionId), input).None? {
      StagePut(s, DoRetire(s, r, domain, revisionId, input).state, ResourceKey(domain, revisionId), key);
    }
  }

  lemma OthersSpareRevisions(p: Platform, s: State, r: Request, route: Route, input: Input)
    requires !route.CreateRevision? && !route.PublishRevision? && !route.RetireRevision?
    ensures Handle(p, s, r, route, input).state.revisions == s.revisions
  {
    HandleFrame(p, s, r, route, input);
  }

  /** The invocation is what its numbered journal says, and its operation observes it. */
  ghost predicate Reproduced(s: State, key: string) {
    key in s.invocations ==>
      var i := s.invocations[key];
      var o := ResourceKey(i.meta.domain, i.operationId);
      && key in s.events && Numbered(s.events[key]) && Sourced(i, s.events[key])
      && o in s.operations && s.operations[o].resourceId == i.meta.id && s.operations[o].observed == ObservedOf(i.state)
  }

  /** Event sourcing: after any run every invocation is reproduced by its journal. */
  lemma JournalsReproduceInvocations(p: Platform, requests: seq<Request>, key: string)
    requires FreshRun(p, EMPTY, requests)
    ensures Reproduced(Exec(p, EMPTY, requests), key)
  {
    ReachableStatesHold(p, requests);
  }

  ghost predicate Appended(before: State, after: State, key: string) {
    key in before.events ==>
      && key in after.events && before.events[key] <= after.events[key]
      && (key in before.invocations && Terminal(before.invocations[key].state) ==> after.events[key] == before.events[key])
  }

  /** A stored journal is only ever appended to, and not at all once its invocation is finished. */
  lemma JournalsOnlyGrow(p: Platform, requests: seq<Request>, i: nat, j: nat, key: string)
    requires FreshRun(p, EMPTY, requests) && i <= j <= |requests|
    ensures Appended(Exec(p, EMPTY, requests[..i]), Exec(p, EMPTY, requests[..j]), key)
  {
    RunEvolves(p, requests, i, j);
  }

  /** No dangling references: artifacts lead to invocations, invocations to services and revisions,
      and every saved reference to its target. */
  lemma ReferencesResolve(p: Platform, requests: seq<Request>)
    requires FreshRun(p, EMPTY, requests)
    ensures var s := Exec(p, EMPTY, requests);
      && (forall k | k in s.artifacts :: InvocationResolves(s, s.artifacts[k].meta.domain, s.artifacts[k].invocationId))
      && (forall k | k in s.invocations :: InvocationResolves(s, s.invocations[k].meta.domain, s.invocations[k].meta.id))
      && (forall k | k in s.saved && s.saved[k].saved :: TargetExists(s, k.scope, s.saved[k].kind, k.resourceId))
  {
    ReachableStatesHold(p, requests);
    LinksResolve(Exec(p, EMPTY, requests));
  }

  lemma LinksResolve(s: State)
    requires InvocationsKeyed(s.invocations) && ArtifactsKeyed(s.artifacts)
    requires InvocationsBound(s.invocations, s.services, s.revisions) && ArtifactsBound(s.artifacts, s.invocations)
    ensures forall k | k in s.invocations :: InvocationResolves(s, s.invocations[k].meta.domain, s.invocations[k].meta.id)
    ensures forall k | k in s.artifacts :: InvocationResolves(s, s.artifacts[k].meta.domain, s.artifacts[k].invocationId)
  {
    forall k | k in s.artifacts ensures InvocationResolves(s, s.artifacts[k].meta.domain, s.artifacts[k].invocationId) {
      var a := s.artifacts[k];
      var i := s.invocations[ResourceKey(a.meta.domain, a.invocationId)];
      ResourceKeyInjective(a.meta.domain, a.invocationId, i.meta.domain, i.meta.id);
    }
  }

  ghost function NumbersOf(s: State, serviceKey: string): set<int> {
    set k | k in s.revisions && OwnerKey(s.revisions[k]) == serviceKey :: s.revisions[k].number
  }

  /** The revisions of a service are numbered 1..count with no number used twice. */
  lemma RevisionNumbersAreConsecutive(p: Platform, requests: seq<Request>, serviceKey: string)
    requires FreshRun(p, EMPTY, requests)
    ensures var s := Exec(p, EMPTY, requests);
      && (forall n: int :: n in NumbersOf(s, serviceKey) <==> 1 <= n <= CountOf(s.revisionCounts, serviceKey))
      && forall k, l | k in s.revisions && l in s.revisions && OwnerKey(s.revisions[k]) == serviceKey == OwnerKey(s.revisions[l])
                       && s.revisions[k].number == s.revisions[l].number :: k == l
  {
    ReachableStatesHold(p, requests);
    NumbersFillRange(Exec(p, EMPTY, requests), serviceKey);
  }

  lemma NumbersFillRange(s: State, serviceKey: string)
    requires RevisionsNumbered(s.revisions, s.services, s.revisionCounts)
    ensures (forall n: int :: n in NumbersOf(s, serviceKey) <==> 1 <= n <= CountOf(s.revisionCounts, serviceKey))
  {
    forall n | 1 <= n <= CountOf(s.revisionCounts, serviceKey) ensures n in NumbersOf(s, serviceKey) {
      assert Holds(s.revisions, serviceKey, n);
    }
  }
}
