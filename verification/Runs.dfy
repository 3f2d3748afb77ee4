/** Whole runs of the server: what holds in every reachable state, and between any two of them. */
module Runs {
  import opened Text
  import opened Resources
  import opened Requests
  import opened Journal
  import opened Handlers
  import opened Invariants
  import opened Preservation
  import opened InvocationPreservation

  lemma HandleKeeps(p: Platform, s: State, r: Request, route: Route, input: Input)
    requires Inv(s) && ValidDomain(route.domain) && IdsUnused(s, route.domain, r.ids)
    ensures Kept(s, Handle(p, s, r, route, input).state)
  {
    if route.CreateWorkspace? || route.CreateService? || route.CreateRevision? {
      CreationsKeep(p, s, r, route, input);
    } else if route.PublishRevision? || route.RetireRevision? || route.AssignAlias? || route.WithdrawAlias? {
      RoutingKeeps(p, s, r, route, input);
    } else if route.Invoke? || route.CancelInvocation? {
      RunsKeep(p, s, r, route, input);
    } else {
      AnswersKeep(p, s, r, route, input);
    }
  }

  lemma CreationsKeep(p: Platform, s: State, r: Request, route: Route, input: Input)
    requires Inv(s) && ValidDomain(route.domain) && IdsUnused(s, route.domain, r.ids)
    requires route.CreateWorkspace? || route.CreateService? || route.CreateRevision?
    ensures Kept(s, Handle(p, s, r, route, input).state)
  {
    match route
    case CreateWorkspace(domain) => CreateWorkspaceKeeps(p, s, r, domain, input);
    case CreateService(domain, workspaceId) => CreateServiceKeeps(p, s, r, domain, workspaceId, input);
    case CreateRevision(domain, serviceId) => CreateRevisionKeeps(p, s, r, domain, serviceId, input);
  }

  lemma RoutingKeeps(p: Platform, s: State, r: Request, route: Route, input: Input)
    requires Inv(s) && ValidDomain(route.domain)
    requires route.PublishRevision? || route.RetireRevision? || route.AssignAlias? || route.WithdrawAlias?
    ensures Kept(s, Handle(p, s, r, route, input).state)
  {
    match route
    case PublishRevision(domain, revisionId) => PublishKeeps(p, s, r, domain, revisionId, input);
    case RetireRevision(domain, revisionId) => RetireKeeps(s, r, domain, revisionId, input);
    case AssignAlias(domain, serviceId, alias) => AssignKeeps(s, r, domain, serviceId, alias, input);
    case WithdrawAlias(domain, serviceId, alias) => WithdrawKeeps(s, r, domain, serviceId, alias, input);
  }

  lemma RunsKeep(p: Platform, s: State, r: Request, route: Route, input: Input)
    requires Inv(s) && ValidDomain(route.domain) && IdsUnused(s, route.domain, r.ids)
    requires route.Invoke? || route.CancelInvocation?
    ensures Kept(s, Handle(p, s, r, route, input).state)
  {
    match route
    case Invoke(domain, serviceId) => InvokeKeeps(p, s, r, domain, serviceId, input);
    case CancelInvocation(domain, invocationId) => CancelKeeps(p, s, r, domain, invocationId, input);
  }

  lemma AnswersKeep(p: Platform, s: State, r: Request, route: Route, input: Input)
    requires Inv(s) && (route.SetSaved? || route.ResolveApproval?)
    ensures Kept(s, Handle(p, s, r, route, input).state)
  {
    match route
    case SetSaved(domain) => SetSavedKeeps(p, s, r, domain, input);
    case ResolveApproval(_) =>
      assert DoResolveApproval(s, r, input).state == s;
      KeptUnchanged(s);
  }

  /** The idempotency cache is not part of any invariant, and caching a reply only adds to it. */
  lemma CachingKeeps(s: State, s': State, slot: string, stored: Stored)
    requires Kept(s, s') && s'.cache == s.cache && slot !in s.cache
    ensures Kept(s, s'.(cache := s.cache[slot := stored]))
  {
    var s'' := s'.(cache := s.cache[slot := stored]);
    CachingEvolves(s', slot, stored);
    EvolvesTransitive(s, s', s'');
    SavedPersists(s', s'');
  }

  lemma CachingEvolves(s: State, slot: string, stored: Stored)
    requires slot !in s.cache
    ensures Evolves(s, s.(cache := s.cache[slot := stored]))
  {
    EvolvesReflexive(s);
  }

  lemma HandlersSpareCache(p: Platform, s: State, r: Request, route: Route, input: Input)
    ensures Handle(p, s, r, route, input).state.cache == s.cache
  {
    HandleFrame(p, s, r, route, input);
  }

  lemma MutateKeeps(p: Platform, s: State, r: Request)
    requires Inv(s) && IdsUnused(s, RouteOf(p, r).domain, r.ids)
    ensures Kept(s, Mutate(p, s, r).state)
  {
    KeptUnchanged(s);
    if Admitted(p, r) && SlotOf(r) !in s.cache {
      var route := RouteOf(p, r);
      var input := p.decode(route, r.body.value);
      HandleKeeps(p, s, r, route, input);
      HandlersSpareCache(p, s, r, route, input);
      CachingKeeps(s, Handle(p, s, r, route, input).state, SlotOf(r), Stored(DigestOf(p, r), Handle(p, s, r, route, input).reply));
    }
  }

  // ---- Runs --------------------------------------------------------------------------------------------------

  /** The state after a sequence of requests. */
  ghost function Exec(p: Platform, s: State, requests: seq<Request>): State {
    if requests == [] then s
    else Mutate(p, Exec(p, s, requests[..|requests| - 1]), requests[|requests| - 1]).state
  }

  /** The reply to the i-th request of a run. */
  ghost function ReplyAt(p: Platform, s: State, requests: seq<Request>, i: nat): Response
    requires i < |requests|
  {
    Mutate(p, Exec(p, s, requests[..i]), requests[i]).reply
  }

  /** Every request draws identifiers that are unused when it arrives. */
  ghost predicate FreshRun(p: Platform, s: State, requests: seq<Request>) {
    forall i | 0 <= i < |requests| :: IdsUnused(Exec(p, s, requests[..i]), RouteOf(p, requests[i]).domain, requests[i].ids)
  }

  lemma FreshPrefix(p: Platform, s: State, requests: seq<Request>, n: nat)
    requires FreshRun(p, s, requests) && n <= |requests|
    ensures FreshRun(p, s, requests[..n])
  {
    forall i | 0 <= i < n
      ensures IdsUnused(Exec(p, s, requests[..n][..i]), RouteOf(p, requests[..n][i]).domain, requests[..n][i].ids)
    {
      assert requests[..n][..i] == requests[..i];
    }
  }

  lemma ExecStep(p: Platform, s: State, requests: seq<Request>, n: nat)
    requires n < |requests|
    ensures Exec(p, s, requests[..n + 1]) == Mutate(p, Exec(p, s, requests[..n]), requests[n]).state
  {
    assert requests[..n + 1][..n] == requests[..n];
  }

  /** Every reachable state satisfies the invariants. */
  lemma {:induction false} ReachableStatesHold(p: Platform, requests: seq<Request>)
    requires FreshRun(p, EMPTY, requests)
    ensures Inv(Exec(p, EMPTY, requests))
  {
    if requests == [] {
      EmptyHolds();
    } else {
      var n := |requests| - 1;
      FreshPrefix(p, EMPTY, requests, n);
      ReachableStatesHold(p, requests[..n]);
      MutateKeeps(p, Exec(p, EMPTY, requests[..n]), requests[n]);
    }
  }

  /** Between any two moments of a run, states only evolve. */
  lemma {:induction false} RunEvolves(p: Platform, requests: seq<Request>, i: nat, j: nat)
    requires FreshRun(p, EMPTY, requests) && i <= j <= |requests|
    ensures Evolves(Exec(p, EMPTY, requests[..i]), Exec(p, EMPTY, requests[..j]))
    decreases j
  {
    if i == j {
      EvolvesReflexive(Exec(p, EMPTY, requests[..i]));
    } else {
      var n := j - 1;
      RunEvolves(p, requests, i, n);
      FreshPrefix(p, EMPTY, requests, n);
      ReachableStatesHold(p, requests[..n]);
      ExecStep(p, EMPTY, requests, n);
      MutateKeeps(p, Exec(p, EMPTY, requests[..n]), requests[n]);
      EvolvesTransitive(Exec(p, EMPTY, requests[..i]), Exec(p, EMPTY, requests[..n]), Exec(p, EMPTY, requests[..j]));
    }
  }
}
