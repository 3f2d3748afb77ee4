/** What each listing endpoint promises to page through, as a set of rows of the server state,
    and how those sets change while the server runs. */
module Views {
  import opened Text
  import opened Resources
  import opened Requests
  import opened Handlers
  import opened Invariants
  import opened Listings
  import opened Runs

  /** An invocation without its input, result and error. */
  datatype Summary = Summary(
    meta: Metadata, serviceId: string, revisionId: string, alias: string, state: InvocationState,
    correlationId: string, operationId: string, completedAt: Option<Time>)

  function Summarize(i: Invocation): Summary {
    Summary(i.meta, i.serviceId, i.revisionId, i.alias, i.state, i.correlationId, i.operationId, i.completedAt)
  }

  /** The navigation projection of a resource. Every stored artifact is "available", so only invocations vary in state. */
  datatype Found = Found(
    id: string, domain: string, createdAt: Time, kind: ResourceKind, name: string, description: string,
    workspaceId: string, serviceId: string, invocationId: string, state: Option<InvocationState>)

  datatype Item =
    | WorkspaceItem(workspace: Workspace)
    | ServiceItem(service: AgentService)
    | RevisionItem(revision: ServiceRevision)
    | InvocationItem(summary: Summary)
    | ScopedInvocationItem(summary: Summary, serviceName: string)
    | ArtifactItem(artifact: ArtifactDescriptor)
    | ScopedArtifactItem(artifact: ArtifactDescriptor, serviceId: string, serviceName: string, revisionId: string)
    | FoundItem(found: Found)
    | SavedItem(saved: SavedState)

  /** A listing endpoint with its path and query values other than the cursor and the limit. */
  datatype Listing =
    | Workspaces(domain: string, admitsWorkspace: Workspace -> bool)
    | Services(domain: string, admitsService: AgentService -> bool)
    | Revisions(domain: string, serviceId: string)
    | Invocations(domain: string, serviceId: string)
    | Artifacts(domain: string, invocationId: string)
    | ScopeInvocations(domain: string, state: Option<InvocationState>)
    | ScopeArtifacts(domain: string, artifactState: Option<string>)
    | Discovery(domain: string, kind: Option<ResourceKind>, matches: (string, string, string) -> bool)
    | SavedResources(domain: string, principalKind: string, principalId: string)

  function CreationStamp(meta: Metadata): Stamp { Stamp(meta.createdAt, meta.id) }

  function WorkspaceRow(w: Workspace): Row<Item> { Row(CreationStamp(w.meta), WorkspaceItem(w)) }
  function ServiceRow(v: AgentService): Row<Item> { Row(CreationStamp(v.meta), ServiceItem(v)) }
  function RevisionRow(v: ServiceRevision): Row<Item> { Row(Stamp(v.number, v.meta.id), RevisionItem(v)) }
  function InvocationRow(i: Invocation): Row<Item> { Row(CreationStamp(i.meta), InvocationItem(Summarize(i))) }
  function ArtifactRow(a: ArtifactDescriptor): Row<Item> { Row(CreationStamp(a.meta), ArtifactItem(a)) }
  function SavedRow(v: SavedState): Row<Item> { Row(Stamp(v.updatedAt, v.resourceId), SavedItem(v)) }
  function FoundRow(f: Found): Row<Item> { Row(Stamp(f.createdAt, f.id), FoundItem(f)) }

  // ---- Joins, written as if no reference could dangle ---------------------------------------------------

  const NO_SERVICE := AgentService("", Metadata("", "", 0, 0, 0, 0, ""), "", "")
  const NO_INVOCATION := Invocation(Metadata("", "", 0, 0, 0, 0, ""), "", "", "", Running, map[], None, None, None, "", "", [], None)

  function ServiceOf(s: State, domain: string, id: string): AgentService {
    if ResourceKey(domain, id) in s.services then s.services[ResourceKey(domain, id)] else NO_SERVICE
  }

  function InvocationOf(s: State, domain: string, id: string): Invocation {
    if ResourceKey(domain, id) in s.invocations then s.invocations[ResourceKey(domain, id)] else NO_INVOCATION
  }

  function ScopedInvocationRow(s: State, domain: string, i: Invocation): Row<Item> {
    Row(CreationStamp(i.meta), ScopedInvocationItem(Summarize(i), ServiceOf(s, domain, i.serviceId).name))
  }

  function ScopedArtifactRow(s: State, domain: string, a: ArtifactDescriptor): Row<Item> {
    var i := InvocationOf(s, domain, a.invocationId);
    Row(CreationStamp(a.meta), ScopedArtifactItem(a, i.serviceId, ServiceOf(s, domain, i.serviceId).name, i.revisionId))
  }

  function FoundWorkspace(w: Workspace): Found {
    Found(w.meta.id, w.meta.domain, w.meta.createdAt, WorkspaceKind, w.name, w.description, "", "", "", None)
  }

  function FoundService(v: AgentService): Found {
    Found(v.meta.id, v.meta.domain, v.meta.createdAt, ServiceKind, v.name, v.description, v.workspaceId, "", "", None)
  }

  function FoundInvocation(i: Invocation, v: AgentService): Found {
    Found(i.meta.id, i.meta.domain, i.meta.createdAt, InvocationKind, v.name, "", v.workspaceId, i.serviceId, "", Some(i.state))
  }

  function FoundArtifact(a: ArtifactDescriptor, i: Invocation, v: AgentService): Found {
    Found(a.meta.id, a.meta.domain, a.meta.createdAt, ArtifactKind, a.name, "", v.workspaceId, i.serviceId, a.invocationId, None)
  }

  predicate Sought(listing: Listing, f: Found)
    requires listing.Discovery?
  {
    f.domain == listing.domain && (listing.kind.None? || listing.kind.value == f.kind) && listing.matches(f.name, f.description, f.id)
  }

  function InvocationFound(s: State, domain: string, i: Invocation): Found { FoundInvocation(i, ServiceOf(s, domain, i.serviceId)) }

  function ArtifactFound(s: State, domain: string, a: ArtifactDescriptor): Found {
    var i := InvocationOf(s, domain, a.invocationId);
    FoundArtifact(a, i, ServiceOf(s, domain, i.serviceId))
  }

  /** Every resource of the domain, as search sees it. */
  ghost predicate Findable(s: State, domain: string, f: Found) {
    || (exists k :: k in s.workspaces && s.workspaces[k].meta.domain == domain && f == FoundWorkspace(s.workspaces[k]))
    || (exists k :: k in s.services && s.services[k].meta.domain == domain && f == FoundService(s.services[k]))
    || (exists k :: k in s.invocations && s.invocations[k].meta.domain == domain && f == InvocationFound(s, domain, s.invocations[k]))
    || (exists k :: k in s.artifacts && s.artifacts[k].meta.domain == domain && f == ArtifactFound(s, domain, s.artifacts[k]))
  }

  /** The row is a sought resource of one kind. */
  ghost predicate SoughtWorkspace(s: State, listing: Listing, r: Row<Item>)
    requires listing.Discovery?
  {
    exists k :: k in s.workspaces && Sought(listing, FoundWorkspace(s.workspaces[k])) && r == FoundRow(FoundWorkspace(s.workspaces[k]))
  }

  ghost predicate SoughtService(s: State, listing: Listing, r: Row<Item>)
    requires listing.Discovery?
  {
    exists k :: k in s.services && Sought(listing, FoundService(s.services[k])) && r == FoundRow(FoundService(s.services[k]))
  }

  ghost predicate SoughtInvocation(s: State, listing: Listing, r: Row<Item>)
    requires listing.Discovery?
  {
    exists k :: k in s.invocations && Sought(listing, InvocationFound(s, listing.domain, s.invocations[k]))
             && r == FoundRow(InvocationFound(s, listing.domain, s.invocations[k]))
  }

  ghost predicate SoughtArtifact(s: State, listing: Listing, r: Row<Item>)
    requires listing.Discovery?
  {
    exists k :: k in s.artifacts && Sought(listing, ArtifactFound(s, listing.domain, s.artifacts[k]))
             && r == FoundRow(ArtifactFound(s, listing.domain, s.artifacts[k]))
  }

  lemma DiscoveryRows(s: State, listing: Listing, r: Row<Item>)
    requires listing.Discovery?
    ensures r in Rows(s, listing) <==>
      SoughtWorkspace(s, listing, r) || SoughtService(s, listing, r) || SoughtInvocation(s, listing, r) || SoughtArtifact(s, listing, r)
  {
    if r in Rows(s, listing) {
      var f := RowFound(s, listing, r);
    }
    if f :| Findable(s, listing.domain, f) && Sought(listing, f) && r == FoundRow(f) {
      FoundInRows(s, listing, f);
    }
  }

  lemma RowFound(s: State, listing: Listing, r: Row<Item>) returns (f: Found)
    requires listing.Discovery? && r in Rows(s, listing)
    ensures Findable(s, listing.domain, f) && Sought(listing, f) && r == FoundRow(f)
  {
    f :| f in AllFound(s, listing.domain) && Sought(listing, f) && r == FoundRow(f);
  }

  lemma FoundInRows(s: State, listing: Listing, f: Found)
    requires listing.Discovery? && Findable(s, listing.domain, f) && Sought(listing, f)
    ensures FoundRow(f) in Rows(s, listing)
  {
  }

  ghost function FoundWorkspaces(s: State, domain: string): set<Found> {
    set k | k in s.workspaces && s.workspaces[k].meta.domain == domain :: FoundWorkspace(s.workspaces[k])
  }

  ghost function FoundServices(s: State, domain: string): set<Found> {
    set k | k in s.services && s.services[k].meta.domain == domain :: FoundService(s.services[k])
  }

  ghost function FoundInvocations(s: State, domain: string): set<Found> {
    set k | k in s.invocations && s.invocations[k].meta.domain == domain :: InvocationFound(s, domain, s.invocations[k])
  }

  ghost function FoundArtifacts(s: State, domain: string): set<Found> {
    set k | k in s.artifacts && s.artifacts[k].meta.domain == domain :: ArtifactFound(s, domain, s.artifacts[k])
  }

  ghost function AllFound(s: State, domain: string): set<Found> {
    FoundWorkspaces(s, domain) + FoundServices(s, domain) + FoundInvocations(s, domain) + FoundArtifacts(s, domain)
  }

  /** The projection describes a stored resource of that kind and identifier, with its own names. */
  ghost predicate Describes(s: State, scope: string, kind: ResourceKind, id: string, f: Found) {
    match kind
    case WorkspaceKind => ResourceKey(scope, id) in s.workspaces && f == FoundWorkspace(s.workspaces[ResourceKey(scope, id)])
    case ServiceKind => ResourceKey(scope, id) in s.services && f == FoundService(s.services[ResourceKey(scope, id)])
    case InvocationKind =>
      ResourceKey(scope, id) in s.invocations && f == InvocationFound(s, scope, s.invocations[ResourceKey(scope, id)])
    case ArtifactKind =>
      exists k :: k in s.artifacts && s.artifacts[k].meta.domain == scope && s.artifacts[k].meta.id == id
               && f == ArtifactFound(s, scope, s.artifacts[k])
  }

  /** Every stored artifact is in this state. */
  const ARTIFACT_STATE := "available"

  predicate InState(asked: Option<string>) { asked.None? || asked.value == ARTIFACT_STATE }

  predicate InService(domain: string, serviceId: string, meta: Metadata, owner: string) { meta.domain == domain && owner == serviceId }

  predicate OwnedBy(listing: Listing, k: SavedKey)
    requires listing.SavedResources?
  {
    k.scope == listing.domain && k.principalKind == listing.principalKind && k.principalId == listing.principalId
  }

  ghost function WorkspaceRows(s: State, domain: string, admits: Workspace -> bool): set<Row<Item>> {
    set k | k in s.workspaces && s.workspaces[k].meta.domain == domain && admits(s.workspaces[k]) :: WorkspaceRow(s.workspaces[k])
  }

  ghost function ServiceRows(s: State, domain: string, admits: AgentService -> bool): set<Row<Item>> {
    set k | k in s.services && s.services[k].meta.domain == domain && admits(s.services[k]) :: ServiceRow(s.services[k])
  }

  ghost function RevisionRows(s: State, domain: string, serviceId: string): set<Row<Item>> {
    set k | k in s.revisions && InService(domain, serviceId, s.revisions[k].meta, s.revisions[k].serviceId) :: RevisionRow(s.revisions[k])
  }

  ghost function InvocationRows(s: State, domain: string, serviceId: string): set<Row<Item>> {
    set k | k in s.invocations && InService(domain, serviceId, s.invocations[k].meta, s.invocations[k].serviceId) ::
      InvocationRow(s.invocations[k])
  }

  ghost function ArtifactRows(s: State, domain: string, invocationId: string): set<Row<Item>> {
    set k | k in s.artifacts && InService(domain, invocationId, s.artifacts[k].meta, s.artifacts[k].invocationId) :: ArtifactRow(s.artifacts[k])
  }

  ghost function ScopedInvocationRows(s: State, domain: string, state: Option<InvocationState>): set<Row<Item>> {
    set k | k in s.invocations && s.invocations[k].meta.domain == domain && (state.None? || state.value == s.invocations[k].state) ::
      ScopedInvocationRow(s, domain, s.invocations[k])
  }

  ghost function ScopedArtifactRows(s: State, domain: string, state: Option<string>): set<Row<Item>> {
    set k | k in s.artifacts && s.artifacts[k].meta.domain == domain && InState(state) :: ScopedArtifactRow(s, domain, s.artifacts[k])
  }

  ghost function FoundRows(s: State, listing: Listing): set<Row<Item>>
    requires listing.Discovery?
  {
    set f | f in AllFound(s, listing.domain) && Sought(listing, f) :: FoundRow(f)
  }

  ghost function SavedRows(s: State, listing: Listing): set<Row<Item>>
    requires listing.SavedResources?
  {
    set k | k in s.saved && OwnedBy(listing, k) && s.saved[k].saved :: SavedRow(s.saved[k])
  }

  /** All the rows a listing pages through. No join appears to drop a row here. */
  ghost function Rows(s: State, listing: Listing): set<Row<Item>> {
    match listing
    case Workspaces(domain, admits) => WorkspaceRows(s, domain, admits)
    case Services(domain, admits) => ServiceRows(s, domain, admits)
    case Revisions(domain, serviceId) => RevisionRows(s, domain, serviceId)
    case Invocations(domain, serviceId) => InvocationRows(s, domain, serviceId)
    case Artifacts(domain, invocationId) => ArtifactRows(s, domain, invocationId)
    case ScopeInvocations(domain, state) => ScopedInvocationRows(s, domain, state)
    case ScopeArtifacts(domain, state) => ScopedArtifactRows(s, domain, state)
    case Discovery(_, _, _) => FoundRows(s, listing)
    case SavedResources(_, _, _) => SavedRows(s, listing)
  }

  // ---- Listings whose rows never leave ----------------------------------------------------------------------

  /** Listings without a filter on something that changes: their rows stay once they are there. */
  predicate Permanent(listing: Listing) {
    !listing.SavedResources? && (listing.ScopeInvocations? ==> listing.state.None?)
  }

  lemma RowsOnlyGrow(s: State, s': State, listing: Listing)
    requires Permanent(listing) && Inv(s) && Evolves(s, s')
    ensures Stamps(Rows(s, listing)) <= Stamps(Rows(s', listing))
  {
    match listing
    case Workspaces(_, _) => WorkspacesGrow(s, s', listing);
    case Services(_, _) => ServicesGrow(s, s', listing);
    case Revisions(_, _) => RevisionsGrow(s, s', listing);
    case Invocations(_, _) => InvocationsGrow(s, s', listing);
    case Artifacts(_, _) => ArtifactsGrow(s, s', listing);
    case ScopeInvocations(_, _) => ScopeInvocationsGrow(s, s', listing);
    case ScopeArtifacts(_, _) => ScopeArtifactsGrow(s, s', listing);
    case Discovery(_, _, _) => DiscoveryGrows(s, s', listing);
  }

  lemma WorkspacesGrow(s: State, s': State, listing: Listing)
    requires listing.Workspaces? && Includes(s.workspaces, s'.workspaces)
    ensures Stamps(Rows(s, listing)) <= Stamps(Rows(s', listing))
  {
    assert Rows(s, listing) <= Rows(s', listing);
  }

  lemma ServicesGrow(s: State, s': State, listing: Listing)
    requires listing.Services? && Includes(s.services, s'.services)
    ensures Stamps(Rows(s, listing)) <= Stamps(Rows(s', listing))
  {
    assert Rows(s, listing) <= Rows(s', listing);
  }

  lemma ArtifactsGrow(s: State, s': State, listing: Listing)
    requires listing.Artifacts? && Includes(s.artifacts, s'.artifacts)
    ensures Stamps(Rows(s, listing)) <= Stamps(Rows(s', listing))
  {
    assert Rows(s, listing) <= Rows(s', listing);
  }

  lemma RevisionsGrow(s: State, s': State, listing: Listing)
    requires listing.Revisions? && RevisionsEvolve(s.revisions, s'.revisions)
    ensures Stamps(Rows(s, listing)) <= Stamps(Rows(s', listing))
  {
    forall k | k in s.revisions && InService(listing.domain, listing.serviceId, s.revisions[k].meta, s.revisions[k].serviceId)
      ensures RevisionRow(s.revisions[k]).stamp in Stamps(Rows(s', listing))
    {
      assert RevisionRow(s'.revisions[k]) in Rows(s', listing);
    }
  }

  lemma InvocationsGrow(s: State, s': State, listing: Listing)
    requires listing.Invocations? && InvocationsEvolve(s, s')
    ensures Stamps(Rows(s, listing)) <= Stamps(Rows(s', listing))
  {
    forall k | k in s.invocations && InService(listing.domain, listing.serviceId, s.invocations[k].meta, s.invocations[k].serviceId)
      ensures InvocationRow(s.invocations[k]).stamp in Stamps(Rows(s', listing))
    {
      assert InvocationRow(s'.invocations[k]) in Rows(s', listing);
    }
  }

  lemma ScopeInvocationsGrow(s: State, s': State, listing: Listing)
    requires listing.ScopeInvocations? && listing.state.None? && InvocationsEvolve(s, s')
    ensures Stamps(Rows(s, listing)) <= Stamps(Rows(s', listing))
  {
    forall k | k in s.invocations && s.invocations[k].meta.domain == listing.domain
      ensures CreationStamp(s.invocations[k].meta) in Stamps(Rows(s', listing))
    {
      assert ScopedInvocationRow(s', listing.domain, s'.invocations[k]) in Rows(s', listing);
    }
  }

  lemma ScopeArtifactsGrow(s: State, s': State, listing: Listing)
    requires listing.ScopeArtifacts? && Includes(s.artifacts, s'.artifacts)
    ensures Stamps(Rows(s, listing)) <= Stamps(Rows(s', listing))
  {
    forall k | k in s.artifacts && s.artifacts[k].meta.domain == listing.domain && InState(listing.artifactState)
      ensures CreationStamp(s.artifacts[k].meta) in Stamps(Rows(s', listing))
    {
      assert ScopedArtifactRow(s', listing.domain, s'.artifacts[k]) in Rows(s', listing);
    }
  }

  /** What search can match on is fixed when a resource is created. */
  predicate SameIdentity(f: Found, g: Found) {
    f.id == g.id && f.domain == g.domain && f.createdAt == g.createdAt && f.kind == g.kind && f.name == g.name
    && f.description == g.description
  }

  ghost predicate FoundAgain(s: State, domain: string, f: Found) { exists g :: Findable(s, domain, g) && SameIdentity(f, g) }

  lemma DiscoveryGrows(s: State, s': State, listing: Listing)
    requires listing.Discovery? && Inv(s) && Evolves(s, s')
    ensures Stamps(Rows(s, listing)) <= Stamps(Rows(s', listing))
  {
    forall f | Findable(s, listing.domain, f) ensures FoundAgain(s', listing.domain, f) {
      StillFound(s, s', listing.domain, f);
    }
    FoundAgainGrows(s, s', listing);
  }

  lemma FoundAgainGrows(s: State, s': State, listing: Listing)
    requires listing.Discovery? && forall f | Findable(s, listing.domain, f) :: FoundAgain(s', listing.domain, f)
    ensures Stamps(Rows(s, listing)) <= Stamps(Rows(s', listing))
  {
    forall r | r in Rows(s, listing) ensures r.stamp in Stamps(Rows(s', listing)) {
      var f := RowFound(s, listing, r);
      var g :| Findable(s', listing.domain, g) && SameIdentity(f, g);
      FoundInRows(s', listing, g);
    }
  }

  lemma StillFound(s: State, s': State, domain: string, f: Found)
    requires Inv(s) && Evolves(s, s')
    ensures Findable(s, domain, f) ==> FoundAgain(s', domain, f)
  {
    StoredStillFound(s, s', domain);
    InvocationsStillFound(s, s', domain);
    ArtifactsStillFound(s, s', domain);
  }

  lemma StoredStillFound(s: State, s': State, domain: string)
    requires Includes(s.workspaces, s'.workspaces) && Includes(s.services, s'.services)
    ensures forall k | k in s.workspaces && s.workspaces[k].meta.domain == domain :: FoundAgain(s', domain, FoundWorkspace(s.workspaces[k]))
    ensures forall k | k in s.services && s.services[k].meta.domain == domain :: FoundAgain(s', domain, FoundService(s.services[k]))
  {
    forall k | k in s.workspaces && s.workspaces[k].meta.domain == domain ensures FoundAgain(s', domain, FoundWorkspace(s.workspaces[k])) {
      assert Findable(s', domain, FoundWorkspace(s'.workspaces[k]));
    }
    forall k | k in s.services && s.services[k].meta.domain == domain ensures FoundAgain(s', domain, FoundService(s.services[k])) {
      assert Findable(s', domain, FoundService(s'.services[k]));
    }
  }

  lemma InvocationsStillFound(s: State, s': State, domain: string)
    requires InvocationsBound(s.invocations, s.services, s.revisions) && InvocationsEvolve(s, s') && Includes(s.services, s'.services)
    ensures forall k | k in s.invocations && s.invocations[k].meta.domain == domain ::
              FoundAgain(s', domain, InvocationFound(s, domain, s.invocations[k]))
  {
    forall k | k in s.invocations && s.invocations[k].meta.domain == domain
      ensures FoundAgain(s', domain, InvocationFound(s, domain, s.invocations[k]))
    {
      assert ResourceKey(domain, s.invocations[k].serviceId) in s.services;
      assert Findable(s', domain, InvocationFound(s', domain, s'.invocations[k]));
    }
  }

  lemma ArtifactsStillFound(s: State, s': State, domain: string)
    requires Includes(s.artifacts, s'.artifacts)
    ensures forall k | k in s.artifacts && s.artifacts[k].meta.domain == domain ::
              FoundAgain(s', domain, ArtifactFound(s, domain, s.artifacts[k]))
  {
    forall k | k in s.artifacts && s.artifacts[k].meta.domain == domain
      ensures FoundAgain(s', domain, ArtifactFound(s, domain, s.artifacts[k]))
    {
      assert Findable(s', domain, ArtifactFound(s', domain, s'.artifacts[k]));
    }
  }

  // ---- Paging while the server runs ----------------------------------------------------------------------------

  /** The i-th page was read after `moments[i]` requests of the run. */
  ghost predicate ReadDuring(p: Platform, requests: seq<Request>, listing: Listing, moments: seq<nat>, fetches: seq<Fetch<Item>>) {
    && |moments| == |fetches|
    && (forall i | 0 <= i < |moments| :: moments[i] <= |requests|)
    && (forall i, j | 0 <= i < j < |moments| :: moments[i] <= moments[j])
    && (forall i | 0 <= i < |fetches| :: fetches[i].rows == Rows(Exec(p, EMPTY, requests[..moments[i]]), listing))
  }

  /** The pages follow each other's cursors, and the last reports no more. */
  ghost predicate ToTheEnd(fetches: seq<Fetch<Item>>) { Trail(fetches) && fetches != [] && !fetches[|fetches| - 1].more }

  /** The stamps shown strictly descend, so no resource is shown twice even if it changed between the pages, and
      everything there was at the first page is shown. */
  ghost predicate Exact(fetches: seq<Fetch<Item>>)
    requires fetches != []
  {
    && Descending(Collected(fetches))
    && forall stamp | stamp in Stamps(fetches[0].rows) :: Shown(Collected(fetches), stamp)
  }

  /** Paging to the end of a listing, with any requests served between the pages, shows every resource there
      was at the first page exactly once and repeats none. */
  lemma PagingARunIsExact(p: Platform, requests: seq<Request>, listing: Listing, moments: seq<nat>, fetches: seq<Fetch<Item>>)
    requires FreshRun(p, EMPTY, requests) && Permanent(listing)
    ensures ReadDuring(p, requests, listing, moments, fetches) && ToTheEnd(fetches) ==> Exact(fetches)
  {
    if ReadDuring(p, requests, listing, moments, fetches) && ToTheEnd(fetches) {
      FollowingCursorsIsExact(fetches);
      forall stamp, i | stamp in Stamps(fetches[0].rows) && 0 <= i < |fetches| ensures stamp in Stamps(fetches[i].rows) {
        RowsStay(p, requests, listing, moments[0], moments[i]);
      }
      forall stamp | stamp in Stamps(fetches[0].rows) ensures Stays(fetches, stamp) {
      }
    }
  }

  lemma RowsStay(p: Platform, requests: seq<Request>, listing: Listing, i: nat, j: nat)
    requires FreshRun(p, EMPTY, requests) && Permanent(listing) && i <= j <= |requests|
    ensures Stamps(Rows(Exec(p, EMPTY, requests[..i]), listing)) <= Stamps(Rows(Exec(p, EMPTY, requests[..j]), listing))
  {
    FreshPrefix(p, EMPTY, requests, i);
    ReachableStatesHold(p, requests[..i]);
    RunEvolves(p, requests, i, j);
    RowsOnlyGrow(Exec(p, EMPTY, requests[..i]), Exec(p, EMPTY, requests[..j]), listing);
  }
}
