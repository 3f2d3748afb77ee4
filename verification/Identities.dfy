/** Why no two rows of a listing ever share a stamp: identifiers within an isolation domain are never reused. */
module Identities {
  import opened Text
  import opened Resources
  import opened Requests
  import opened Handlers
  import opened Invariants
  import opened Runs
  import opened Lifecycle
  import opened ReferenceRuntime
  import L = Listings
  import V = Views

  /** Derived artifact identifiers tell invocations apart. */
  ghost predicate Derives(p: Platform) {
    forall i, d, j, e :: p.artifactId(i, d) == p.artifactId(j, e) ==> i == j
  }

  /** No artifact identifier is ever this one. */
  ghost predicate Drawn(p: Platform, id: string) { forall i, d :: p.artifactId(i, d) != id }

  ghost predicate Draws(p: Platform, requests: seq<Request>) { forall k | 0 <= k < |requests| :: Drawn(p, requests[k].ids.resource) }

  ghost predicate AllDrawn(p: Platform, keys: set<string>) { forall k | k in keys :: Drawn(p, LocalOf(k)) }

  /** Workspaces, services and invocations never share a key, nor an identifier with an artifact. */
  ghost predicate Apart(p: Platform, s: State) {
    && s.workspaces.Keys !! s.services.Keys && s.workspaces.Keys !! s.invocations.Keys && s.services.Keys !! s.invocations.Keys
    && AllDrawn(p, s.workspaces.Keys) && AllDrawn(p, s.services.Keys) && AllDrawn(p, s.invocations.Keys)
  }

  ghost predicate Derived(p: Platform, a: ArtifactDescriptor) { exists d :: a.meta.id == p.artifactId(a.invocationId, d) }

  ghost predicate AllDerived(p: Platform, artifacts: map<string, ArtifactDescriptor>) { forall k | k in artifacts :: Derived(p, artifacts[k]) }

  // ---- One request -------------------------------------------------------------------------------------------

  lemma {:induction false} MadeDerived(p: Platform, start: Invocation, events: seq<RuntimeEvent>, schema: Option<Json>)
    requires Payloads(events)
    ensures AllDerived(p, BuildDraft(p, start, events, schema).made)
  {
    if events != [] {
      var n := |events| - 1;
      MadeDerived(p, start, events[..n], schema);
    }
  }

  lemma InvokeDerives(p: Platform, s: State, r: Request, domain: string, serviceId: string, input: Input)
    requires AllDerived(p, s.artifacts)
    ensures AllDerived(p, DoInvoke(p, s, r, domain, serviceId, input).state.artifacts)
  {
    if InvokeRefusal(p, s, r, domain, serviceId, input).None? {
      var revision := Resolve(s, domain, serviceId, input.alias).value;
      var arguments := input.arguments.value;
      var events := p.scenario(ScenarioOf(arguments).value).value;
      NormalizedPayloads(events);
      MadeDerived(p, NewInvocation(r, domain, serviceId, revision.meta.id, input.alias, arguments), Normalized(events).value, revision.outputSchema);
    }
  }

  /** Which maps gain the drawn identifier, by route. */
  ghost predicate Gains(route: Route, drawn: string, s: State, s': State) {
    && s'.workspaces.Keys <= s.workspaces.Keys + (if route.CreateWorkspace? then {drawn} else {})
    && s'.services.Keys <= s.services.Keys + (if route.CreateService? then {drawn} else {})
    && s'.invocations.Keys <= s.invocations.Keys + (if route.Invoke? then {drawn} else {})
  }

  lemma WorkspaceGains(p: Platform, s: State, r: Request, domain: string, input: Input)
    ensures DoCreateWorkspace(p, s, r, domain, input).state.workspaces.Keys <= s.workspaces.Keys + {ResourceKey(domain, r.ids.resource)}
  {
  }

  lemma ServiceGains(p: Platform, s: State, r: Request, domain: string, workspaceId: string, input: Input)
    ensures DoCreateService(p, s, r, domain, workspaceId, input).state.services.Keys <= s.services.Keys + {ResourceKey(domain, r.ids.resource)}
  {
  }

  lemma InvocationGains(p: Platform, s: State, r: Request, domain: string, serviceId: string, input: Input)
    ensures DoInvoke(p, s, r, domain, serviceId, input).state.invocations.Keys <= s.invocations.Keys + {ResourceKey(domain, r.ids.resource)}
  {
  }

  lemma CancelGainsNothing(p: Platform, s: State, r: Request, domain: string, invocationId: string, input: Input)
    ensures DoCancel(p, s, r, domain, invocationId, input).state.invocations.Keys <= s.invocations.Keys
  {
  }

  lemma HandleGains(p: Platform, s: State, r: Request, route: Route, input: Input)
    ensures Gains(route, ResourceKey(route.domain, r.ids.resource), s, Handle(p, s, r, route, input).state)
  {
    HandleFrame(p, s, r, route, input);
    if route.CreateWorkspace? {
      WorkspaceGains(p, s, r, route.domain, input);
    } else if route.CreateService? {
      ServiceGains(p, s, r, route.domain, route.workspaceId, input);
    } else if route.Invoke? {
      InvocationGains(p, s, r, route.domain, route.serviceId, input);
    } else if route.CancelInvocation? {
      CancelGainsNothing(p, s, r, route.domain, route.invocationId, input);
    }
  }

  lemma MutateApart(p: Platform, s: State, r: Request)
    requires Apart(p, s) && AllDerived(p, s.artifacts) && IdsUnused(s, RouteOf(p, r).domain, r.ids) && Drawn(p, r.ids.resource)
    ensures Apart(p, Mutate(p, s, r).state) && AllDerived(p, Mutate(p, s, r).state.artifacts)
  {
    if Admitted(p, r) && SlotOf(r) !in s.cache {
      var route := RouteOf(p, r);
      var input := p.decode(route, r.body.value);
      HandleApart(p, s, r, route, input);
    }
  }

  lemma HandleApart(p: Platform, s: State, r: Request, route: Route, input: Input)
    requires Apart(p, s) && AllDerived(p, s.artifacts) && IdsUnused(s, route.domain, r.ids) && Drawn(p, r.ids.resource)
    requires ValidDomain(route.domain)
    ensures Apart(p, Handle(p, s, r, route, input).state) && AllDerived(p, Handle(p, s, r, route, input).state.artifacts)
  {
    HandleGains(p, s, r, route, input);
    ResourceKeySplits(route.domain, r.ids.resource);
    StaysApart(p, s, Handle(p, s, r, route, input).state, route, ResourceKey(route.domain, r.ids.resource));
    if route.Invoke? {
      InvokeDerives(p, s, r, route.domain, route.serviceId, input);
    } else {
      HandleFrame(p, s, r, route, input);
    }
  }

  lemma StaysApart(p: Platform, s: State, s': State, route: Route, drawn: string)
    requires Apart(p, s) && Gains(route, drawn, s, s') && Drawn(p, LocalOf(drawn))
    requires drawn !in s.workspaces && drawn !in s.services && drawn !in s.invocations
    ensures Apart(p, s')
  {
    var w := if route.CreateWorkspace? then {drawn} else {};
    var v := if route.CreateService? then {drawn} else {};
    var i := if route.Invoke? then {drawn} else {};
    StayDisjoint(s.workspaces.Keys, s'.workspaces.Keys, w, s.services.Keys, s'.services.Keys, v);
    StayDisjoint(s.workspaces.Keys, s'.workspaces.Keys, w, s.invocations.Keys, s'.invocations.Keys, i);
    StayDisjoint(s.services.Keys, s'.services.Keys, v, s.invocations.Keys, s'.invocations.Keys, i);
  }

  lemma StayDisjoint(a: set<string>, a': set<string>, more: set<string>, b: set<string>, b': set<string>, others: set<string>)
    requires a !! b && more !! b && a !! others && more !! others && a' <= a + more && b' <= b + others
    ensures a' !! b'
  {
  }

  // ---- Whole runs ------------------------------------------------------------------------------------------------

  lemma {:induction false} ReachableApart(p: Platform, requests: seq<Request>)
    requires FreshRun(p, EMPTY, requests) && Draws(p, requests)
    ensures Apart(p, Exec(p, EMPTY, requests)) && AllDerived(p, Exec(p, EMPTY, requests).artifacts)
  {
    if requests != [] {
      var n := |requests| - 1;
      FreshPrefix(p, EMPTY, requests, n);
      ReachableApart(p, requests[..n]);
      MutateApart(p, Exec(p, EMPTY, requests[..n]), requests[n]);
    }
  }

  /** In every reachable state no two rows of the artifact listing or of search share a stamp. */
  lemma RowsStayDistinct(p: Platform, requests: seq<Request>, listing: V.Listing)
    requires FreshRun(p, EMPTY, requests) && Draws(p, requests) && Derives(p)
    requires (listing.ScopeArtifacts? || listing.Discovery?) && ValidDomain(listing.domain)
    ensures L.Distinct(V.Rows(Exec(p, EMPTY, requests), listing))
  {
    var s := Exec(p, EMPTY, requests);
    ReachableStatesHold(p, requests);
    ReachableApart(p, requests);
    if listing.ScopeArtifacts? {
      ArtifactRowsDistinct(p, s, listing);
    } else {
      FoundRowsDistinct(p, s, listing);
    }
  }

  lemma ArtifactRowsDistinct(p: Platform, s: State, listing: V.Listing)
    requires listing.ScopeArtifacts? && Derives(p) && AllDerived(p, s.artifacts) && ArtifactsKeyed(s.artifacts)
    ensures L.Distinct(V.Rows(s, listing))
  {
    forall a, b | a in V.Rows(s, listing) && b in V.Rows(s, listing) && a.stamp == b.stamp ensures a == b {
      var k :| k in s.artifacts && s.artifacts[k].meta.domain == listing.domain && a == V.ScopedArtifactRow(s, listing.domain, s.artifacts[k]);
      var l :| l in s.artifacts && s.artifacts[l].meta.domain == listing.domain && b == V.ScopedArtifactRow(s, listing.domain, s.artifacts[l]);
    }
  }

  /** A found workspace, service or invocation is the one stored under its identifier. */
  ghost predicate StoredAs(s: State, domain: string, f: V.Found) {
    var key := ResourceKey(domain, f.id);
    match f.kind
    case WorkspaceKind => key in s.workspaces && f == V.FoundWorkspace(s.workspaces[key])
    case ServiceKind => key in s.services && f == V.FoundService(s.services[key])
    case InvocationKind => key in s.invocations && f == V.InvocationFound(s, domain, s.invocations[key])
    case ArtifactKind =>
      exists k :: k in s.artifacts && s.artifacts[k].meta.domain == domain && f == V.ArtifactFound(s, domain, s.artifacts[k])
  }

  lemma FoundWhereStored(s: State, domain: string, f: V.Found)
    requires WorkspacesKeyed(s.workspaces) && ServicesKeyed(s.services) && InvocationsKeyed(s.invocations) && V.Findable(s, domain, f)
    ensures StoredAs(s, domain, f)
  {
  }

  /** Identifiers tell artifacts from the rest. */
  lemma IdentifierShowsKind(p: Platform, s: State, domain: string, f: V.Found)
    requires Apart(p, s) && AllDerived(p, s.artifacts) && ValidDomain(domain) && StoredAs(s, domain, f)
    ensures Drawn(p, f.id) <==> !f.kind.ArtifactKind?
  {
    ResourceKeySplits(domain, f.id);
    if f.kind.ArtifactKind? {
      var k :| k in s.artifacts && s.artifacts[k].meta.domain == domain && f == V.ArtifactFound(s, domain, s.artifacts[k]);
      assert Derived(p, s.artifacts[k]);
    }
  }

  /** Two resources search may find in a domain under one identifier are the same. */
  lemma SameFound(p: Platform, s: State, domain: string, f: V.Found, g: V.Found)
    requires Derives(p) && Apart(p, s) && AllDerived(p, s.artifacts) && ArtifactsKeyed(s.artifacts) && ValidDomain(domain)
    requires StoredAs(s, domain, f) && StoredAs(s, domain, g) && f.id == g.id
    ensures f == g
  {
    IdentifierShowsKind(p, s, domain, f);
    IdentifierShowsKind(p, s, domain, g);
    if f.kind.ArtifactKind? {
      var k :| k in s.artifacts && s.artifacts[k].meta.domain == domain && f == V.ArtifactFound(s, domain, s.artifacts[k]);
      var l :| l in s.artifacts && s.artifacts[l].meta.domain == domain && g == V.ArtifactFound(s, domain, s.artifacts[l]);
    }
  }

  lemma FoundRowsDistinct(p: Platform, s: State, listing: V.Listing)
    requires listing.Discovery? && ValidDomain(listing.domain) && Derives(p) && Apart(p, s) && AllDerived(p, s.artifacts) && Keyed(s)
    ensures L.Distinct(V.Rows(s, listing))
  {
    forall a, b | a in V.Rows(s, listing) && b in V.Rows(s, listing) && a.stamp == b.stamp ensures a == b {
      var f := V.RowFound(s, listing, a);
      var g := V.RowFound(s, listing, b);
      FoundWhereStored(s, listing.domain, f);
      FoundWhereStored(s, listing.domain, g);
      SameFound(p, s, listing.domain, f, g);
    }
  }
}
