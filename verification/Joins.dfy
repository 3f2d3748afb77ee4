/** How each listing turns the entries of a map into rows, as the loops of the server do, and that this gives exactly
    the rows the listing pages through: the joins drop nothing in states without dangling references. */
module Joins {
  import opened Text
  import opened Resources
  import opened Handlers
  import opened Invariants
  import opened Listings
  import opened Views
  import Sorting

  /** The entries give exactly these rows, each row from one entry. */
  ghost predicate Gives<K(!new), V>(m: map<K, V>, row: (K, V) -> Option<Row<Item>>, rows: set<Row<Item>>) {
    OneRowEach(m, row) && forall r :: RowOf(m, row, r) <==> r in rows
  }

  lemma AllGathered<K(!new), V>(m: map<K, V>, row: (K, V) -> Option<Row<Item>>, all: set<Row<Item>>, rows: seq<Row<Item>>)
    requires Gives(m, row, all) && forall r :: r in rows <==> RowOf(m, row, r)
    ensures Sorting.Elements(rows) == all
  {
  }

  // ---- Listings of one map -------------------------------------------------------------------------------

  function TakeWorkspace(domain: string, admits: Workspace -> bool): (string, Workspace) -> Option<Row<Item>> {
    (_: string, w: Workspace) => if w.meta.domain == domain && admits(w) then Some(WorkspaceRow(w)) else None
  }

  lemma WorkspacesGiven(s: State, domain: string, admits: Workspace -> bool)
    requires WorkspacesKeyed(s.workspaces)
    ensures Gives(s.workspaces, TakeWorkspace(domain, admits), WorkspaceRows(s, domain, admits))
    ensures OneStampEach(s.workspaces, TakeWorkspace(domain, admits))
  {
  }

  function TakeService(domain: string, admits: AgentService -> bool): (string, AgentService) -> Option<Row<Item>> {
    (_: string, v: AgentService) => if v.meta.domain == domain && admits(v) then Some(ServiceRow(v)) else None
  }

  lemma ServicesGiven(s: State, domain: string, admits: AgentService -> bool)
    requires ServicesKeyed(s.services)
    ensures Gives(s.services, TakeService(domain, admits), ServiceRows(s, domain, admits))
    ensures OneStampEach(s.services, TakeService(domain, admits))
  {
  }

  function TakeRevision(domain: string, serviceId: string): (string, ServiceRevision) -> Option<Row<Item>> {
    (_: string, v: ServiceRevision) => if v.meta.domain == domain && v.serviceId == serviceId then Some(RevisionRow(v)) else None
  }

  lemma RevisionsGiven(s: State, domain: string, serviceId: string)
    requires RevisionsKeyed(s.revisions)
    ensures Gives(s.revisions, TakeRevision(domain, serviceId), RevisionRows(s, domain, serviceId))
    ensures OneStampEach(s.revisions, TakeRevision(domain, serviceId))
  {
  }

  function TakeInvocation(domain: string, serviceId: string): (string, Invocation) -> Option<Row<Item>> {
    (_: string, i: Invocation) => if i.meta.domain == domain && i.serviceId == serviceId then Some(InvocationRow(i)) else None
  }

  lemma InvocationsGiven(s: State, domain: string, serviceId: string)
    requires InvocationsKeyed(s.invocations)
    ensures Gives(s.invocations, TakeInvocation(domain, serviceId), InvocationRows(s, domain, serviceId))
    ensures OneStampEach(s.invocations, TakeInvocation(domain, serviceId))
  {
  }

  function TakeArtifact(domain: string, invocationId: string): (string, ArtifactDescriptor) -> Option<Row<Item>> {
    (_: string, a: ArtifactDescriptor) => if a.meta.domain == domain && a.invocationId == invocationId then Some(ArtifactRow(a)) else None
  }

  lemma ArtifactsGiven(s: State, domain: string, invocationId: string)
    requires ArtifactsKeyed(s.artifacts)
    ensures Gives(s.artifacts, TakeArtifact(domain, invocationId), ArtifactRows(s, domain, invocationId))
    ensures OneStampEach(s.artifacts, TakeArtifact(domain, invocationId))
  {
  }

  function TakeSaved(scope: string, kind: string, id: string): (SavedKey, SavedState) -> Option<Row<Item>> {
    (k: SavedKey, v: SavedState) =>
      if k.scope != scope || k.principalKind != kind || k.principalId != id || !v.saved then None else Some(SavedRow(v))
  }

  lemma SavedGiven(s: State, scope: string, kind: string, id: string)
    requires SavedKeyed(s.saved)
    ensures Gives(s.saved, TakeSaved(scope, kind, id), SavedRows(s, SavedResources(scope, kind, id)))
    ensures OneStampEach(s.saved, TakeSaved(scope, kind, id))
  {
  }

  // ---- Listings with joins ----------------------------------------------------------------------------------

  /** An invocation whose service is not found is skipped. */
  function JoinInvocation(services: map<string, AgentService>, scope: string, state: Option<InvocationState>)
    : (string, Invocation) -> Option<Row<Item>>
  {
    (_: string, i: Invocation) =>
      if i.meta.domain != scope || (state.Some? && i.state != state.value) then None
      else if ResourceKey(scope, i.serviceId) !in services then None
      else Some(Row(CreationStamp(i.meta), ScopedInvocationItem(Summarize(i), services[ResourceKey(scope, i.serviceId)].name)))
  }

  lemma ScopedInvocationsGiven(s: State, scope: string, state: Option<InvocationState>)
    requires InvocationsKeyed(s.invocations) && InvocationsBound(s.invocations, s.services, s.revisions)
    ensures Gives(s.invocations, JoinInvocation(s.services, scope, state), ScopedInvocationRows(s, scope, state))
    ensures OneStampEach(s.invocations, JoinInvocation(s.services, scope, state))
  {
    var row := JoinInvocation(s.services, scope, state);
    forall k | k in s.invocations
      ensures row(k, s.invocations[k]) ==
        if s.invocations[k].meta.domain == scope && (state.None? || state.value == s.invocations[k].state)
        then Some(ScopedInvocationRow(s, scope, s.invocations[k])) else None
    {
      assert ResourceKey(s.invocations[k].meta.domain, s.invocations[k].serviceId) in s.services;
    }
  }

  /** An artifact whose invocation, or whose invocation's service, is not found is skipped. */
  function JoinArtifact(invocations: map<string, Invocation>, services: map<string, AgentService>, scope: string, state: Option<string>)
    : (string, ArtifactDescriptor) -> Option<Row<Item>>
  {
    (_: string, a: ArtifactDescriptor) =>
      if a.meta.domain != scope || (state.Some? && ARTIFACT_STATE != state.value) then None
      else if ResourceKey(scope, a.invocationId) !in invocations then None
      else
        var i := invocations[ResourceKey(scope, a.invocationId)];
        if ResourceKey(scope, i.serviceId) !in services then None
        else Some(Row(CreationStamp(a.meta), ScopedArtifactItem(a, i.serviceId, services[ResourceKey(scope, i.serviceId)].name, i.revisionId)))
  }

  lemma ScopedArtifactsGiven(s: State, scope: string, state: Option<string>)
    requires ArtifactsKeyed(s.artifacts) && ArtifactsLinked(s)
    ensures Gives(s.artifacts, JoinArtifact(s.invocations, s.services, scope, state), ScopedArtifactRows(s, scope, state))
  {
    var row := JoinArtifact(s.invocations, s.services, scope, state);
    forall k | k in s.artifacts
      ensures row(k, s.artifacts[k]) ==
        if s.artifacts[k].meta.domain == scope && InState(state) then Some(ScopedArtifactRow(s, scope, s.artifacts[k])) else None
    {
      assert InvocationResolves(s, s.artifacts[k].meta.domain, s.artifacts[k].invocationId);
    }
  }

  // ---- Search ---------------------------------------------------------------------------------------------------

  function Offer(listing: Listing, f: Found): Option<Row<Item>>
    requires listing.Discovery?
  {
    if Sought(listing, f) then Some(FoundRow(f)) else None
  }

  function SeekWorkspace(listing: Listing): (string, Workspace) -> Option<Row<Item>>
    requires listing.Discovery?
  {
    (_: string, w: Workspace) => Offer(listing, FoundWorkspace(w))
  }

  lemma WorkspacesSought(s: State, listing: Listing)
    requires listing.Discovery? && WorkspacesKeyed(s.workspaces)
    ensures OneRowEach(s.workspaces, SeekWorkspace(listing))
    ensures forall r :: RowOf(s.workspaces, SeekWorkspace(listing), r) <==> SoughtWorkspace(s, listing, r)
  {
  }

  function SeekService(listing: Listing): (string, AgentService) -> Option<Row<Item>>
    requires listing.Discovery?
  {
    (_: string, v: AgentService) => Offer(listing, FoundService(v))
  }

  lemma ServicesSought(s: State, listing: Listing)
    requires listing.Discovery? && ServicesKeyed(s.services)
    ensures OneRowEach(s.services, SeekService(listing))
    ensures forall r :: RowOf(s.services, SeekService(listing), r) <==> SoughtService(s, listing, r)
  {
  }

  function SeekInvocation(services: map<string, AgentService>, listing: Listing): (string, Invocation) -> Option<Row<Item>>
    requires listing.Discovery?
  {
    (_: string, i: Invocation) =>
      if i.meta.domain != listing.domain then None
      else if ResourceKey(listing.domain, i.serviceId) !in services then None
      else Offer(listing, FoundInvocation(i, services[ResourceKey(listing.domain, i.serviceId)]))
  }

  lemma InvocationsSought(s: State, listing: Listing)
    requires listing.Discovery? && InvocationsKeyed(s.invocations) && InvocationsBound(s.invocations, s.services, s.revisions)
    ensures OneRowEach(s.invocations, SeekInvocation(s.services, listing))
    ensures forall r :: RowOf(s.invocations, SeekInvocation(s.services, listing), r) <==> SoughtInvocation(s, listing, r)
  {
    var row := SeekInvocation(s.services, listing);
    forall k | k in s.invocations
      ensures row(k, s.invocations[k]) ==
        if s.invocations[k].meta.domain == listing.domain then Offer(listing, InvocationFound(s, listing.domain, s.invocations[k])) else None
    {
      assert ResourceKey(s.invocations[k].meta.domain, s.invocations[k].serviceId) in s.services;
    }
  }

  function SeekArtifact(invocations: map<string, Invocation>, services: map<string, AgentService>, listing: Listing)
    : (string, ArtifactDescriptor) -> Option<Row<Item>>
    requires listing.Discovery?
  {
    (_: string, a: ArtifactDescriptor) =>
      if a.meta.domain != listing.domain then None
      else if ResourceKey(listing.domain, a.invocationId) !in invocations then None
      else
        var i := invocations[ResourceKey(listing.domain, a.invocationId)];
        if ResourceKey(listing.domain, i.serviceId) !in services then None
        else Offer(listing, FoundArtifact(a, i, services[ResourceKey(listing.domain, i.serviceId)]))
  }

  lemma ArtifactsSought(s: State, listing: Listing)
    requires listing.Discovery? && ArtifactsKeyed(s.artifacts) && ArtifactsLinked(s)
    ensures OneRowEach(s.artifacts, SeekArtifact(s.invocations, s.services, listing))
    ensures forall r :: RowOf(s.artifacts, SeekArtifact(s.invocations, s.services, listing), r) <==> SoughtArtifact(s, listing, r)
  {
    var row := SeekArtifact(s.invocations, s.services, listing);
    forall k | k in s.artifacts
      ensures row(k, s.artifacts[k]) ==
        if s.artifacts[k].meta.domain == listing.domain then Offer(listing, ArtifactFound(s, listing.domain, s.artifacts[k])) else None
    {
      assert InvocationResolves(s, s.artifacts[k].meta.domain, s.artifacts[k].invocationId);
    }
  }
}
