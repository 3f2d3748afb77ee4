/** Listings, search and replay of a domain read only that domain's part of the state, so after any run they answer as
    on a server that served only the domain's requests. */
module ReadIsolation {
  import opened Text
  import opened Resources
  import opened Requests
  import opened Handlers
  import opened Invariants
  import opened Runs
  import opened Isolation
  import opened Views

  /** Lookups of the domain's services and invocations find the same in the domain's part. */
  lemma LookupsLocal(p: Platform, s: State, d: string, id: string)
    requires ValidDomain(d)
    ensures ServiceOf(Project(p, s, d), d, id) == ServiceOf(s, d, id)
    ensures InvocationOf(Project(p, s, d), d, id) == InvocationOf(s, d, id)
  {
    KeyIn(d, id);
  }

  /** A record stored under its own key belongs to its own domain. */
  lemma KeyShowsDomain(meta: Metadata, key: string)
    requires Identified(meta, key)
    ensures DomainOf(key) == meta.domain
  {
    KeyIn(meta.domain, meta.id);
  }

  ghost predicate FiledRecords(s: State) {
    && (forall k | k in s.workspaces :: DomainOf(k) == s.workspaces[k].meta.domain)
    && (forall k | k in s.services :: DomainOf(k) == s.services[k].meta.domain)
    && (forall k | k in s.revisions :: DomainOf(k) == s.revisions[k].meta.domain)
    && (forall k | k in s.invocations :: DomainOf(k) == s.invocations[k].meta.domain)
    && (forall k | k in s.artifacts :: DomainOf(k) == s.artifacts[k].meta.domain)
  }

  lemma KeyedIsFiled(s: State)
    requires Keyed(s)
    ensures FiledRecords(s)
  {
    forall k | k in s.workspaces ensures DomainOf(k) == s.workspaces[k].meta.domain { KeyShowsDomain(s.workspaces[k].meta, k); }
    forall k | k in s.services ensures DomainOf(k) == s.services[k].meta.domain { KeyShowsDomain(s.services[k].meta, k); }
    forall k | k in s.revisions ensures DomainOf(k) == s.revisions[k].meta.domain { KeyShowsDomain(s.revisions[k].meta, k); }
    forall k | k in s.invocations ensures DomainOf(k) == s.invocations[k].meta.domain { KeyShowsDomain(s.invocations[k].meta, k); }
    forall k | k in s.artifacts ensures DomainOf(k) == s.artifacts[k].meta.domain {
      NestedKeySplits(s.artifacts[k].meta.domain, s.artifacts[k].invocationId, s.artifacts[k].meta.id);
    }
  }

  // ---- Each listing -------------------------------------------------------------------------------------------

  lemma WorkspaceRowsLocal(p: Platform, s: State, d: string, admits: Workspace -> bool)
    requires FiledRecords(s)
    ensures WorkspaceRows(Project(p, s, d), d, admits) == WorkspaceRows(s, d, admits)
  {
    var part := Project(p, s, d);
    assert forall k :: k in part.workspaces <==> k in s.workspaces && s.workspaces[k].meta.domain == d;
  }

  lemma ServiceRowsLocal(p: Platform, s: State, d: string, admits: AgentService -> bool)
    requires FiledRecords(s)
    ensures ServiceRows(Project(p, s, d), d, admits) == ServiceRows(s, d, admits)
  {
    var part := Project(p, s, d);
    assert forall k :: k in part.services <==> k in s.services && s.services[k].meta.domain == d;
  }

  lemma RevisionRowsLocal(p: Platform, s: State, d: string, serviceId: string)
    requires FiledRecords(s)
    ensures RevisionRows(Project(p, s, d), d, serviceId) == RevisionRows(s, d, serviceId)
  {
    var part := Project(p, s, d);
    assert forall k :: k in part.revisions <==> k in s.revisions && s.revisions[k].meta.domain == d;
  }

  lemma InvocationRowsLocal(p: Platform, s: State, d: string, serviceId: string)
    requires FiledRecords(s)
    ensures InvocationRows(Project(p, s, d), d, serviceId) == InvocationRows(s, d, serviceId)
  {
    var part := Project(p, s, d);
    assert forall k :: k in part.invocations <==> k in s.invocations && s.invocations[k].meta.domain == d;
  }

  lemma ArtifactRowsLocal(p: Platform, s: State, d: string, invocationId: string)
    requires FiledRecords(s)
    ensures ArtifactRows(Project(p, s, d), d, invocationId) == ArtifactRows(s, d, invocationId)
  {
    var part := Project(p, s, d);
    assert forall k :: k in part.artifacts <==> k in s.artifacts && s.artifacts[k].meta.domain == d;
  }

  lemma ScopedInvocationRowsLocal(p: Platform, s: State, d: string, state: Option<InvocationState>)
    requires FiledRecords(s) && ValidDomain(d)
    ensures ScopedInvocationRows(Project(p, s, d), d, state) == ScopedInvocationRows(s, d, state)
  {
    var part := Project(p, s, d);
    forall k | k in part.invocations ensures ScopedInvocationRow(part, d, part.invocations[k]) == ScopedInvocationRow(s, d, s.invocations[k]) {
      LookupsLocal(p, s, d, s.invocations[k].serviceId);
    }
  }

  lemma ScopedArtifactRowsLocal(p: Platform, s: State, d: string, state: Option<string>)
    requires FiledRecords(s) && ValidDomain(d)
    ensures ScopedArtifactRows(Project(p, s, d), d, state) == ScopedArtifactRows(s, d, state)
  {
    var part := Project(p, s, d);
    forall k | k in part.artifacts ensures ScopedArtifactRow(part, d, part.artifacts[k]) == ScopedArtifactRow(s, d, s.artifacts[k]) {
      LookupsLocal(p, s, d, s.artifacts[k].invocationId);
      LookupsLocal(p, s, d, InvocationOf(s, d, s.artifacts[k].invocationId).serviceId);
    }
  }

  lemma FoundWorkspacesLocal(p: Platform, s: State, d: string)
    requires FiledRecords(s)
    ensures FoundWorkspaces(Project(p, s, d), d) == FoundWorkspaces(s, d)
  {
    var part := Project(p, s, d);
    assert forall k :: k in part.workspaces <==> k in s.workspaces && s.workspaces[k].meta.domain == d;
  }

  lemma FoundServicesLocal(p: Platform, s: State, d: string)
    requires FiledRecords(s)
    ensures FoundServices(Project(p, s, d), d) == FoundServices(s, d)
  {
    var part := Project(p, s, d);
    assert forall k :: k in part.services <==> k in s.services && s.services[k].meta.domain == d;
  }

  lemma FoundInvocationsLocal(p: Platform, s: State, d: string)
    requires FiledRecords(s) && ValidDomain(d)
    ensures FoundInvocations(Project(p, s, d), d) == FoundInvocations(s, d)
  {
    var part := Project(p, s, d);
    assert forall k :: k in part.invocations <==> k in s.invocations && s.invocations[k].meta.domain == d;
    forall k | k in part.invocations ensures InvocationFound(part, d, part.invocations[k]) == InvocationFound(s, d, s.invocations[k]) {
      LookupsLocal(p, s, d, s.invocations[k].serviceId);
    }
  }

  lemma FoundArtifactsLocal(p: Platform, s: State, d: string)
    requires FiledRecords(s) && ValidDomain(d)
    ensures FoundArtifacts(Project(p, s, d), d) == FoundArtifacts(s, d)
  {
    var part := Project(p, s, d);
    assert forall k :: k in part.artifacts <==> k in s.artifacts && s.artifacts[k].meta.domain == d;
    forall k | k in part.artifacts ensures ArtifactFound(part, d, part.artifacts[k]) == ArtifactFound(s, d, s.artifacts[k]) {
      LookupsLocal(p, s, d, s.artifacts[k].invocationId);
      LookupsLocal(p, s, d, InvocationOf(s, d, s.artifacts[k].invocationId).serviceId);
    }
  }

  lemma FoundRowsLocal(p: Platform, s: State, listing: Listing)
    requires FiledRecords(s) && listing.Discovery? && ValidDomain(listing.domain)
    ensures FoundRows(Project(p, s, listing.domain), listing) == FoundRows(s, listing)
  {
    FoundWorkspacesLocal(p, s, listing.domain);
    FoundServicesLocal(p, s, listing.domain);
    FoundInvocationsLocal(p, s, listing.domain);
    FoundArtifactsLocal(p, s, listing.domain);
  }

  lemma SavedRowsLocal(p: Platform, s: State, listing: Listing)
    requires listing.SavedResources?
    ensures SavedRows(Project(p, s, listing.domain), listing) == SavedRows(s, listing)
  {
  }

  /** Every listing of a domain shows the same rows of the whole state and of the domain's part. */
  lemma RowsLocal(p: Platform, s: State, listing: Listing)
    requires Keyed(s) && ValidDomain(listing.domain)
    ensures Rows(Project(p, s, listing.domain), listing) == Rows(s, listing)
  {
    KeyedIsFiled(s);
    match listing
    case Workspaces(d, admits) => WorkspaceRowsLocal(p, s, d, admits);
    case Services(d, admits) => ServiceRowsLocal(p, s, d, admits);
    case Revisions(d, serviceId) => RevisionRowsLocal(p, s, d, serviceId);
    case Invocations(d, serviceId) => InvocationRowsLocal(p, s, d, serviceId);
    case Artifacts(d, invocationId) => ArtifactRowsLocal(p, s, d, invocationId);
    case ScopeInvocations(d, state) => ScopedInvocationRowsLocal(p, s, d, state);
    case ScopeArtifacts(d, state) => ScopedArtifactRowsLocal(p, s, d, state);
    case Discovery(_, _, _) => FoundRowsLocal(p, s, listing);
    case SavedResources(_, _, _) => SavedRowsLocal(p, s, listing);
  }

  /** The journal replay reads, if there is one. */
  function StoredJournal(s: State, domain: string, invocationId: string): Option<seq<Event>> {
    if ResourceKey(domain, invocationId) in s.events then Some(s.events[ResourceKey(domain, invocationId)]) else None
  }

  lemma JournalLocal(p: Platform, s: State, d: string, invocationId: string)
    requires ValidDomain(d)
    ensures StoredJournal(Project(p, s, d), d, invocationId) == StoredJournal(s, d, invocationId)
  {
    KeyIn(d, invocationId);
  }

  // ---- Whole runs -----------------------------------------------------------------------------------------------

  /** After any run, every listing of a domain has the rows, and every replay the journal, that they have on a server
      which served only that domain's requests. */
  lemma ReadsAreIndependent(p: Platform, requests: seq<Request>, listing: Listing, invocationId: string)
    requires FreshRun(p, EMPTY, requests) && (forall r | r in requests :: OnTheWire(r)) && ValidDomain(listing.domain)
    ensures var s := Exec(p, EMPTY, requests); var alone := Exec(p, EMPTY, Of(p, requests, listing.domain));
      Rows(s, listing) == Rows(alone, listing) && StoredJournal(s, listing.domain, invocationId) == StoredJournal(alone, listing.domain, invocationId)
  {
    var s, d := Exec(p, EMPTY, requests), listing.domain;
    EmptyIsFiled(p, d);
    DomainsAreIndependent(p, EMPTY, requests, d);
    ReachableStatesHold(p, requests);
    RowsLocal(p, s, listing);
    JournalLocal(p, s, d, invocationId);
  }
}
