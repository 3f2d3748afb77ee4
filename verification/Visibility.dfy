/** Read your writes: what a successful reply reports is in every listing and search it belongs to, from then on. */
module Visibility {
  import opened Text
  import opened Resources
  import opened Requests
  import opened Handlers
  import opened Invariants
  import opened Listings
  import opened Runs
  import opened Views
  import opened Replies

  function AnyWorkspace(): Workspace -> bool { (w: Workspace) => true }

  function AnyService(): AgentService -> bool { (v: AgentService) => true }

  function Anything(): (string, string, string) -> bool { (name: string, description: string, id: string) => true }

  function Everywhere(domain: string): Listing { Discovery(domain, None, Anything()) }

  ghost predicate Lists(s: State, listing: Listing, stamp: Stamp) { stamp in Stamps(Rows(s, listing)) }

  /** The record of the reply is in every listing it belongs to. */
  ghost predicate Visible(s: State, domain: string, body: Body) {
    match body
    case WorkspaceBody(w) => Lists(s, Workspaces(domain, AnyWorkspace()), CreationStamp(w.meta)) && Lists(s, Everywhere(domain), CreationStamp(w.meta))
    case ServiceBody(v) => Lists(s, Services(domain, AnyService()), CreationStamp(v.meta)) && Lists(s, Everywhere(domain), CreationStamp(v.meta))
    case RevisionBody(v) => Lists(s, Revisions(domain, v.serviceId), Stamp(v.number, v.meta.id))
    case InvocationBody(i) =>
      && Lists(s, Invocations(domain, i.serviceId), CreationStamp(i.meta)) && Lists(s, ScopeInvocations(domain, None), CreationStamp(i.meta))
      && Lists(s, Everywhere(domain), CreationStamp(i.meta))
    case _ => true
  }

  lemma RowLists(s: State, listing: Listing, row: Row<Item>)
    requires row in Rows(s, listing)
    ensures Lists(s, listing, row.stamp)
  {
  }

  lemma Stays(s: State, s': State, listing: Listing, stamp: Stamp)
    requires Permanent(listing) && Inv(s) && Evolves(s, s') && Lists(s, listing, stamp)
    ensures Lists(s', listing, stamp)
  {
    RowsOnlyGrow(s, s', listing);
  }

  lemma SearchFinds(s: State, domain: string, f: Found)
    requires f in AllFound(s, domain) && f.domain == domain
    ensures Lists(s, Everywhere(domain), Stamp(f.createdAt, f.id))
  {
    assert Sought(Everywhere(domain), f);
    RowLists(s, Everywhere(domain), FoundRow(f));
  }

  lemma WorkspaceVisible(s: State, domain: string, w: Workspace)
    requires WorkspacesKeyed(s.workspaces) && ValidDomain(domain)
    requires ResourceKey(domain, w.meta.id) in s.workspaces && s.workspaces[ResourceKey(domain, w.meta.id)] == w
    ensures Visible(s, domain, WorkspaceBody(w))
  {
    ResourceKeyInjective(domain, w.meta.id, w.meta.domain, w.meta.id);
    RowLists(s, Workspaces(domain, AnyWorkspace()), WorkspaceRow(w));
    assert FoundWorkspace(w) in FoundWorkspaces(s, domain);
    SearchFinds(s, domain, FoundWorkspace(w));
  }

  lemma ServiceVisible(s: State, domain: string, v: AgentService)
    requires ServicesKeyed(s.services) && ValidDomain(domain)
    requires ResourceKey(domain, v.meta.id) in s.services && s.services[ResourceKey(domain, v.meta.id)] == v
    ensures Visible(s, domain, ServiceBody(v))
  {
    ResourceKeyInjective(domain, v.meta.id, v.meta.domain, v.meta.id);
    RowLists(s, Services(domain, AnyService()), ServiceRow(v));
    assert FoundService(v) in FoundServices(s, domain);
    SearchFinds(s, domain, FoundService(v));
  }

  lemma RevisionVisible(s: State, domain: string, v: ServiceRevision)
    requires RevisionsKeyed(s.revisions) && ValidDomain(domain)
    requires ResourceKey(domain, v.meta.id) in s.revisions && s.revisions[ResourceKey(domain, v.meta.id)] == v
    ensures Visible(s, domain, RevisionBody(v))
  {
    ResourceKeyInjective(domain, v.meta.id, v.meta.domain, v.meta.id);
    RowLists(s, Revisions(domain, v.serviceId), RevisionRow(v));
  }

  lemma InvocationVisible(s: State, domain: string, i: Invocation)
    requires InvocationsKeyed(s.invocations) && ValidDomain(domain)
    requires ResourceKey(domain, i.meta.id) in s.invocations && s.invocations[ResourceKey(domain, i.meta.id)] == i
    ensures Visible(s, domain, InvocationBody(i))
  {
    ResourceKeyInjective(domain, i.meta.id, i.meta.domain, i.meta.id);
    RowLists(s, Invocations(domain, i.serviceId), InvocationRow(i));
    RowLists(s, ScopeInvocations(domain, None), ScopedInvocationRow(s, domain, i));
    assert InvocationFound(s, domain, i) in FoundInvocations(s, domain);
    SearchFinds(s, domain, InvocationFound(s, domain, i));
  }

  lemma StoredIsVisible(s: State, domain: string, reply: Response)
    requires Keyed(s) && ValidDomain(domain) && ShowsStored(s, domain, reply)
    ensures Visible(s, domain, reply.body)
  {
    match reply.body
    case WorkspaceBody(w) => WorkspaceVisible(s, domain, w);
    case ServiceBody(v) => ServiceVisible(s, domain, v);
    case RevisionBody(v) => RevisionVisible(s, domain, v);
    case InvocationBody(i) => InvocationVisible(s, domain, i);
    case _ =>
  }

  /** What is listed stays listed. */
  ghost predicate Lasting(s: State, s': State) {
    forall listing, stamp | Permanent(listing) && Lists(s, listing, stamp) :: Lists(s', listing, stamp)
  }

  lemma EvolvingLasts(s: State, s': State)
    requires Inv(s) && Evolves(s, s')
    ensures Lasting(s, s')
  {
    forall listing, stamp | Permanent(listing) && Lists(s, listing, stamp) ensures Lists(s', listing, stamp) {
      Stays(s, s', listing, stamp);
    }
  }

  lemma VisibleStays(s: State, s': State, domain: string, body: Body)
    requires Lasting(s, s') && Visible(s, domain, body)
    ensures Visible(s', domain, body)
  {
  }

  /** In any run, the record in a reply that is no repeat is in every listing and search it belongs to at every later
      moment. */
  lemma RepliesStayVisible(p: Platform, requests: seq<Request>, i: nat, j: nat)
    requires FreshRun(p, EMPTY, requests) && i < j <= |requests| && Admitted(p, requests[i])
    requires SlotOf(requests[i]) !in Exec(p, EMPTY, requests[..i]).cache
    ensures Visible(Exec(p, EMPTY, requests[..j]), RouteOf(p, requests[i]).domain, ReplyAt(p, EMPTY, requests, i).body)
  {
    var s, domain, reply := Exec(p, EMPTY, requests[..i + 1]), RouteOf(p, requests[i]).domain, ReplyAt(p, EMPTY, requests, i);
    RepliesShowWhatIsStored(p, requests, i);
    FreshPrefix(p, EMPTY, requests, i + 1);
    ReachableStatesHold(p, requests[..i + 1]);
    StoredIsVisible(s, domain, reply);
    RunEvolves(p, requests, i + 1, j);
    EvolvingLasts(s, Exec(p, EMPTY, requests[..j]));
    VisibleStays(s, Exec(p, EMPTY, requests[..j]), domain, reply.body);
  }
}
