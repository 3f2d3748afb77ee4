/** What an invocation is after its scenario has run, told from the delivered events alone: every event is in the journal
    at its own place, and for each aspect of the record the concerned event of highest sequence decides. */
module Playback {
  import opened Text
  import opened Resources
  import opened Requests
  import opened Journal
  import opened ReferenceRuntime
  import opened Handlers
  import opened Invariants
  import opened InvocationPreservation
  import opened Runs
  import opened Retries
  import Sorting

  // ---- What one delivered event says ------------------------------------------------------------------------

  function PayloadOf(e: RuntimeEvent): Payload { if e.payload.Some? then e.payload.value else map[] }

  function OccursAt(meta: Metadata, e: RuntimeEvent): Time { meta.createdAt + (e.sequence - 1) * MILLISECOND }

  /** A success whose message the output schema refuses. */
  predicate Fails(p: Platform, schema: Option<Json>, e: RuntimeEvent) {
    e.kind.LifecycleSucceeded? && p.outputFault(schema, TextOf(PayloadOf(e), "message")).Some?
  }

  predicate Concerns(p: Platform, schema: Option<Json>, aspect: Aspect, e: RuntimeEvent) {
    match aspect
    case LifecycleAspect => e.kind.LifecycleWaiting? || e.kind.LifecycleSucceeded? || e.kind.LifecycleFailed? || e.kind.LifecycleCancelled?
    case SuccessAspect => e.kind.LifecycleSucceeded? && !Fails(p, schema, e)
    case ErrorAspect => e.kind.ErrorOccurred? || Fails(p, schema, e)
    case UsageAspect => e.kind.UsageRecorded?
    case CompletionAspect => e.kind.LifecycleSucceeded? || e.kind.LifecycleFailed? || e.kind.LifecycleCancelled?
  }

  function StateNamed(p: Platform, schema: Option<Json>, e: RuntimeEvent): InvocationState {
    match e.kind
    case LifecycleWaiting => Waiting
    case LifecycleSucceeded => if Fails(p, schema, e) then Failed else Succeeded
    case LifecycleFailed => Failed
    case LifecycleCancelled => Cancelled
    case _ => Running
  }

  /** The record shows, for one aspect, what the event says. */
  predicate Says(p: Platform, schema: Option<Json>, inv: Invocation, aspect: Aspect, e: RuntimeEvent) {
    var payload := PayloadOf(e);
    match aspect
    case LifecycleAspect => inv.state == StateNamed(p, schema, e)
    case SuccessAspect => inv.result == Some(TextOf(payload, "message"))
    case ErrorAspect =>
      var fault := p.outputFault(schema, TextOf(payload, "message"));
      inv.error == Some(
        if e.kind.LifecycleSucceeded? && fault.Some? then Problem(SchemaProblem(fault.value), inv.correlationId, false)
        else Problem(Reported(TextOf(payload, "code"), TextOf(payload, "message")), inv.correlationId, FlagOf(payload, "retryable")))
    case UsageAspect =>
      inv.usage == Some(Usage(NumberOf(payload, "inputTokens"), NumberOf(payload, "outputTokens"), NumberOf(payload, "totalTokens")))
    case CompletionAspect => inv.completedAt == Some(OccursAt(inv.meta, e))
  }

  /** What the record shows when no event concerns the aspect. */
  predicate Blank(inv: Invocation, aspect: Aspect) {
    match aspect
    case LifecycleAspect => inv.state.Running?
    case SuccessAspect => inv.result.None?
    case ErrorAspect => inv.error.None?
    case UsageAspect => inv.usage.None?
    case CompletionAspect => inv.completedAt.None?
  }

  /** The artifact an event makes available to the invocation with this metadata. */
  function Artifact(p: Platform, meta: Metadata, e: RuntimeEvent): ArtifactDescriptor {
    var payload := PayloadOf(e);
    var id := p.artifactId(meta.id, if "digest" in payload then Some(payload["digest"]) else None);
    ArtifactDescriptor(
      Metadata(id, meta.domain, 1, 1, OccursAt(meta, e), OccursAt(meta, e), "reference-runtime"),
      meta.id, TextOf(payload, "name"), TextOf(payload, "kind"), TextOf(payload, "mediaType"),
      NumberOf(payload, "sizeBytes"), TextOf(payload, "digest"), FlagOf(payload, "sensitive"))
  }

  /** The journal entry of a delivered event. */
  predicate Told(p: Platform, schema: Option<Json>, inv: Invocation, e: RuntimeEvent, x: Event) {
    && x.id == p.eventId(inv.meta.id, e.key) && x.sequence == e.sequence && x.extensions == e.extensions
    && x.domain == inv.meta.domain && x.invocationId == inv.meta.id && x.correlationId == inv.correlationId
    && x.serviceId == inv.serviceId && x.revisionId == inv.revisionId
    && x.occurredAt == OccursAt(inv.meta, e) && x.recordedAt == OccursAt(inv.meta, e)
    && x.kind == (if Fails(p, schema, e) then LifecycleFailed else e.kind)
    && x.payload ==
       if Fails(p, schema, e) then map["state" := Text("failed")]
       else if e.kind.ArtifactAvailable? then
         map["artifactId" := Text(Artifact(p, inv.meta, e).meta.id), "descriptor" := Described(Artifact(p, inv.meta, e))]
       else PayloadOf(e)
  }

  // ---- What all of them say ---------------------------------------------------------------------------------

  /** The concerned event of highest sequence. */
  predicate Decides(p: Platform, schema: Option<Json>, delivered: seq<RuntimeEvent>, aspect: Aspect, e: RuntimeEvent) {
    && e in delivered && Concerns(p, schema, aspect, e)
    && forall x | x in delivered && Concerns(p, schema, aspect, x) :: x.sequence <= e.sequence
  }

  ghost predicate Decided(p: Platform, schema: Option<Json>, delivered: seq<RuntimeEvent>, inv: Invocation, aspect: Aspect) {
    && (forall e | Decides(p, schema, delivered, aspect, e) :: Says(p, schema, inv, aspect, e))
    && ((forall e | e in delivered :: !Concerns(p, schema, aspect, e)) ==> Blank(inv, aspect))
  }

  /** The journal holds exactly the delivered events, each at the place its sequence names. */
  ghost predicate Carried(p: Platform, schema: Option<Json>, delivered: seq<RuntimeEvent>, inv: Invocation, journal: seq<Event>) {
    && (forall e | e in delivered :: 1 <= e.sequence <= |journal| && Told(p, schema, inv, e, journal[e.sequence - 1]))
    && (forall i | 0 <= i < |journal| :: Delivered(p, schema, delivered, inv, journal[i]))
  }

  ghost predicate Delivered(p: Platform, schema: Option<Json>, delivered: seq<RuntimeEvent>, inv: Invocation, x: Event) {
    exists e :: e in delivered && Told(p, schema, inv, e, x)
  }

  /** The artifact event of highest sequence among those of one identifier. */
  predicate LastOfIts(p: Platform, delivered: seq<RuntimeEvent>, meta: Metadata, e: RuntimeEvent) {
    && e in delivered && e.kind.ArtifactAvailable?
    && forall x | x in delivered && x.kind.ArtifactAvailable? && Artifact(p, meta, x).meta.id == Artifact(p, meta, e).meta.id ::
         x.sequence <= e.sequence
  }

  ghost predicate Stocked(p: Platform, delivered: seq<RuntimeEvent>, meta: Metadata, artifacts: map<string, ArtifactDescriptor>) {
    forall e | LastOfIts(p, delivered, meta, e) ::
      var key := ArtifactKey(meta.domain, meta.id, Artifact(p, meta, e).meta.id);
      key in artifacts && artifacts[key] == Artifact(p, meta, e)
  }

  function Stock(p: Platform, meta: Metadata, made: map<string, ArtifactDescriptor>, e: RuntimeEvent): map<string, ArtifactDescriptor> {
    made[ArtifactKey(meta.domain, meta.id, Artifact(p, meta, e).meta.id) := Artifact(p, meta, e)]
  }

  /** The identifiers of the artifacts that events in this order make available. */
  function ArtifactIds(p: Platform, meta: Metadata, events: seq<RuntimeEvent>): seq<string> {
    if events == [] then []
    else
      var e := events[|events| - 1];
      ArtifactIds(p, meta, events[..|events| - 1]) + (if e.kind.ArtifactAvailable? then [Artifact(p, meta, e).meta.id] else [])
  }

  /** The record lists them in the order of the sequences. */
  ghost predicate Listed(p: Platform, delivered: seq<RuntimeEvent>, inv: Invocation) {
    forall events | NormalForm(delivered, events) :: inv.artifactIds == ArtifactIds(p, inv.meta, events)
  }

  // ---- One event more ---------------------------------------------------------------------------------------

  lemma ExtendTells(p: Platform, d: Draft, e: RuntimeEvent, schema: Option<Json>)
    requires e.payload.Some?
    ensures var d' := ExtendDraft(p, d, e, schema);
      && SameIdentity(d'.invocation, d.invocation) && |d'.journal| == |d.journal| + 1 && d.journal <= d'.journal
      && Told(p, schema, d.invocation, e, d'.journal[|d.journal|])
  {
  }

  lemma ExtendSays(p: Platform, d: Draft, e: RuntimeEvent, schema: Option<Json>, aspect: Aspect)
    requires e.payload.Some?
    ensures var inv := ExtendDraft(p, d, e, schema).invocation;
      if Concerns(p, schema, aspect, e) then Says(p, schema, inv, aspect, e) else SameAspect(inv, d.invocation, aspect)
  {
  }

  lemma ExtendStocks(p: Platform, d: Draft, e: RuntimeEvent, schema: Option<Json>)
    requires e.payload.Some?
    ensures ExtendDraft(p, d, e, schema).made == if e.kind.ArtifactAvailable? then Stock(p, d.invocation.meta, d.made, e) else d.made
  {
  }

  lemma ExtendLists(p: Platform, d: Draft, e: RuntimeEvent, schema: Option<Json>)
    requires e.payload.Some?
    ensures ExtendDraft(p, d, e, schema).invocation.artifactIds ==
      d.invocation.artifactIds + if e.kind.ArtifactAvailable? then [Artifact(p, d.invocation.meta, e).meta.id] else []
  {
  }

  lemma SaysStays(p: Platform, schema: Option<Json>, inv: Invocation, inv': Invocation, aspect: Aspect, e: RuntimeEvent)
    requires Says(p, schema, inv, aspect, e) && SameAspect(inv', inv, aspect) && SameIdentity(inv', inv)
    ensures Says(p, schema, inv', aspect, e)
  {
  }

  // ---- All events, in order ---------------------------------------------------------------------------------

  lemma {:induction false} BuildTells(p: Platform, start: Invocation, events: seq<RuntimeEvent>, schema: Option<Json>)
    requires Payloads(events)
    ensures var d := BuildDraft(p, start, events, schema);
      && SameIdentity(d.invocation, start) && |d.journal| == |events|
      && forall i | 0 <= i < |events| :: Told(p, schema, start, events[i], d.journal[i])
  {
    if events != [] {
      var n := |events| - 1;
      var d := BuildDraft(p, start, events[..n], schema);
      BuildTells(p, start, events[..n], schema);
      ExtendTells(p, d, events[n], schema);
      ToldByIdentity(p, schema, d.invocation, start, events[n], BuildDraft(p, start, events, schema).journal[n]);
    }
  }

  lemma ToldByIdentity(p: Platform, schema: Option<Json>, a: Invocation, b: Invocation, e: RuntimeEvent, x: Event)
    requires Told(p, schema, a, e, x) && SameIdentity(a, b)
    ensures Told(p, schema, b, e, x)
  {
  }

  lemma {:induction false} BuildLists(p: Platform, start: Invocation, events: seq<RuntimeEvent>, schema: Option<Json>)
    requires Payloads(events) && start.artifactIds == []
    ensures BuildDraft(p, start, events, schema).invocation.artifactIds == ArtifactIds(p, start.meta, events)
  {
    if events != [] {
      var n := |events| - 1;
      var d := BuildDraft(p, start, events[..n], schema);
      BuildLists(p, start, events[..n], schema);
      BuildTells(p, start, events[..n], schema);
      ExtendLists(p, d, events[n], schema);
    }
  }

  predicate LastConcern(p: Platform, schema: Option<Json>, events: seq<RuntimeEvent>, aspect: Aspect, i: int) {
    && 0 <= i < |events| && Concerns(p, schema, aspect, events[i])
    && forall j | i < j < |events| :: !Concerns(p, schema, aspect, events[j])
  }

  lemma {:induction false} BuildSays(p: Platform, start: Invocation, events: seq<RuntimeEvent>, schema: Option<Json>, aspect: Aspect, i: int)
    requires Payloads(events)
    ensures var inv := BuildDraft(p, start, events, schema).invocation;
      && (LastConcern(p, schema, events, aspect, i) ==> Says(p, schema, inv, aspect, events[i]))
      && ((forall e | e in events :: !Concerns(p, schema, aspect, e)) ==> SameAspect(inv, start, aspect))
  {
    if events != [] {
      var n := |events| - 1;
      var d := BuildDraft(p, start, events[..n], schema);
      var inv := BuildDraft(p, start, events, schema).invocation;
      BuildSays(p, start, events[..n], schema, aspect, i);
      ExtendIdentity(p, d, events[n], schema);
      ExtendSays(p, d, events[n], schema, aspect);
      if LastConcern(p, schema, events, aspect, i) && i < n {
        assert LastConcern(p, schema, events[..n], aspect, i);
        SaysStays(p, schema, d.invocation, inv, aspect, events[i]);
      }
      if forall e | e in events :: !Concerns(p, schema, aspect, e) {
        assert events[n] in events && forall e | e in events[..n] :: e in events;
      }
    }
  }

  lemma ExtendIdentity(p: Platform, d: Draft, e: RuntimeEvent, schema: Option<Json>)
    requires e.payload.Some?
    ensures SameIdentity(ExtendDraft(p, d, e, schema).invocation, d.invocation)
  {
    ExtendTells(p, d, e, schema);
  }

  /** No later artifact event has the same identifier. */
  predicate LastArtifact(p: Platform, meta: Metadata, events: seq<RuntimeEvent>, i: int) {
    && 0 <= i < |events| && events[i].kind.ArtifactAvailable?
    && forall j | i < j < |events| && events[j].kind.ArtifactAvailable? :: Artifact(p, meta, events[j]).meta.id != Artifact(p, meta, events[i]).meta.id
  }

  ghost predicate Made(p: Platform, meta: Metadata, made: map<string, ArtifactDescriptor>, e: RuntimeEvent) {
    var key := ArtifactKey(meta.domain, meta.id, Artifact(p, meta, e).meta.id);
    key in made && made[key] == Artifact(p, meta, e)
  }

  lemma {:induction false} BuildStocks(p: Platform, start: Invocation, events: seq<RuntimeEvent>, schema: Option<Json>, i: int)
    requires Payloads(events) && LastArtifact(p, start.meta, events, i)
    ensures Made(p, start.meta, BuildDraft(p, start, events, schema).made, events[i])
  {
    var n := |events| - 1;
    if i < n {
      assert LastArtifact(p, start.meta, events[..n], i);
      BuildStocks(p, start, events[..n], schema, i);
    }
    OneMoreMade(p, start, events, schema);
    if i < n && events[n].kind.ArtifactAvailable? {
      StockStays(p, start.meta, BuildDraft(p, start, events[..n], schema).made, events[i], events[n]);
    }
  }

  lemma OneMoreMade(p: Platform, start: Invocation, events: seq<RuntimeEvent>, schema: Option<Json>)
    requires Payloads(events) && events != []
    ensures var n := |events| - 1; var made := BuildDraft(p, start, events[..n], schema).made;
      && BuildDraft(p, start, events, schema).made == (if events[n].kind.ArtifactAvailable? then Stock(p, start.meta, made, events[n]) else made)
      && Made(p, start.meta, Stock(p, start.meta, made, events[n]), events[n])
  {
    var n := |events| - 1;
    var d := BuildDraft(p, start, events[..n], schema);
    BuildTells(p, start, events[..n], schema);
    ExtendStocks(p, d, events[n], schema);
  }

  lemma StockStays(p: Platform, meta: Metadata, made: map<string, ArtifactDescriptor>, e: RuntimeEvent, later: RuntimeEvent)
    requires Made(p, meta, made, e) && Artifact(p, meta, later).meta.id != Artifact(p, meta, e).meta.id
    ensures Made(p, meta, Stock(p, meta, made, later), e)
  {
    LeafTellsApart(meta.domain, meta.id, Artifact(p, meta, later).meta.id, Artifact(p, meta, e).meta.id);
  }

  lemma LeafTellsApart(domain: string, id: string, a: string, b: string)
    requires a != b
    ensures ArtifactKey(domain, id, a) != ArtifactKey(domain, id, b)
  {
    var front := ArtifactKey(domain, id, "");
    assert ArtifactKey(domain, id, a) == front + a && ArtifactKey(domain, id, b) == front + b;
    assert (front + a)[|front|..] == a && (front + b)[|front|..] == b;
  }

  // ---- From delivery to record ------------------------------------------------------------------------------

  /** In normal form an event stands where its sequence says. */
  lemma NormalPlace(delivered: seq<RuntimeEvent>, events: seq<RuntimeEvent>, e: RuntimeEvent)
    requires NormalForm(delivered, events)
    ensures e in delivered <==> 1 <= e.sequence <= |events| && events[e.sequence - 1] == e
    ensures e in delivered <==> e in events
  {
    assert e in delivered <==> e in Sorting.Elements(delivered);
    assert e in events <==> e in Sorting.Elements(events);
  }

  lemma PlayedCarried(p: Platform, delivered: seq<RuntimeEvent>, events: seq<RuntimeEvent>, schema: Option<Json>, inv: Invocation, journal: seq<Event>)
    requires NormalForm(delivered, events) && |journal| == |events|
    requires forall i | 0 <= i < |events| :: Told(p, schema, inv, events[i], journal[i])
    ensures Carried(p, schema, delivered, inv, journal)
  {
    forall e | e in delivered ensures 1 <= e.sequence <= |journal| && Told(p, schema, inv, e, journal[e.sequence - 1]) {
      NormalPlace(delivered, events, e);
    }
    forall i | 0 <= i < |journal| ensures Delivered(p, schema, delivered, inv, journal[i]) {
      assert events[i] in events;
      NormalPlace(delivered, events, events[i]);
    }
  }

  lemma PlayedDecided(p: Platform, start: Invocation, delivered: seq<RuntimeEvent>, events: seq<RuntimeEvent>, schema: Option<Json>, aspect: Aspect)
    requires Payloads(events) && NormalForm(delivered, events) && start == Started(start)
    ensures Decided(p, schema, delivered, BuildDraft(p, start, events, schema).invocation, aspect)
  {
    var inv := BuildDraft(p, start, events, schema).invocation;
    forall e | Decides(p, schema, delivered, aspect, e) ensures Says(p, schema, inv, aspect, e) {
      NormalPlace(delivered, events, e);
      HighestIsLast(p, schema, delivered, events, aspect, e);
      BuildSays(p, start, events, schema, aspect, e.sequence - 1);
    }
    if forall e | e in delivered :: !Concerns(p, schema, aspect, e) {
      forall e | e in events ensures !Concerns(p, schema, aspect, e) {
        NormalPlace(delivered, events, e);
      }
      BuildSays(p, start, events, schema, aspect, 0);
      assert Blank(start, aspect);
    }
  }

  lemma HighestIsLast(p: Platform, schema: Option<Json>, delivered: seq<RuntimeEvent>, events: seq<RuntimeEvent>, aspect: Aspect, e: RuntimeEvent)
    requires NormalForm(delivered, events) && Decides(p, schema, delivered, aspect, e)
    ensures LastConcern(p, schema, events, aspect, e.sequence - 1) && events[e.sequence - 1] == e
  {
    NormalPlace(delivered, events, e);
    forall j | e.sequence - 1 < j < |events| ensures !Concerns(p, schema, aspect, events[j]) {
      NormalPlace(delivered, events, events[j]);
    }
  }

  lemma PlayedStocked(p: Platform, start: Invocation, delivered: seq<RuntimeEvent>, events: seq<RuntimeEvent>, schema: Option<Json>)
    requires Payloads(events) && NormalForm(delivered, events)
    ensures Stocked(p, delivered, start.meta, BuildDraft(p, start, events, schema).made)
  {
    forall e | LastOfIts(p, delivered, start.meta, e) ensures Made(p, start.meta, BuildDraft(p, start, events, schema).made, e) {
      NormalPlace(delivered, events, e);
      forall j | e.sequence - 1 < j < |events| && events[j].kind.ArtifactAvailable?
        ensures Artifact(p, start.meta, events[j]).meta.id != Artifact(p, start.meta, e).meta.id
      {
        NormalPlace(delivered, events, events[j]);
      }
      BuildStocks(p, start, events, schema, e.sequence - 1);
    }
  }

  /** The scenario was played: its events are the journal, they decide every aspect of the record, and their artifacts
      are stored. */
  ghost predicate Played(p: Platform, schema: Option<Json>, delivered: seq<RuntimeEvent>, inv: Invocation, journal: seq<Event>,
                         artifacts: map<string, ArtifactDescriptor>) {
    && Carried(p, schema, delivered, inv, journal)
    && (forall aspect :: Decided(p, schema, delivered, inv, aspect))
    && Stocked(p, delivered, inv.meta, artifacts) && Listed(p, delivered, inv)
  }

  lemma DraftPlayed(p: Platform, start: Invocation, delivered: seq<RuntimeEvent>, events: seq<RuntimeEvent>, schema: Option<Json>,
                    artifacts: map<string, ArtifactDescriptor>)
    requires Payloads(events) && NormalForm(delivered, events) && start == Started(start) && start.artifactIds == []
    ensures var d := BuildDraft(p, start, events, schema);
      SameIdentity(d.invocation, start) && Played(p, schema, delivered, d.invocation, d.journal, artifacts + d.made)
  {
    var d := BuildDraft(p, start, events, schema);
    BuildTells(p, start, events, schema);
    forall i | 0 <= i < |events| ensures Told(p, schema, d.invocation, events[i], d.journal[i]) {
      ToldByIdentity(p, schema, start, d.invocation, events[i], d.journal[i]);
    }
    PlayedCarried(p, delivered, events, schema, d.invocation, d.journal);
    forall aspect ensures Decided(p, schema, delivered, d.invocation, aspect) {
      PlayedDecided(p, start, delivered, events, schema, aspect);
    }
    PlayedStocked(p, start, delivered, events, schema);
    BuildLists(p, start, events, schema);
    forall other | NormalForm(delivered, other) ensures d.invocation.artifactIds == ArtifactIds(p, d.invocation.meta, other) {
      NormalFormUnique(delivered, events, other);
    }
  }

  // ---- Requests ---------------------------------------------------------------------------------------------

  /** The request started this invocation: of the service it named, through the alias it named, with the input it gave,
      and the scenario that input asks for was played against the output schema of the revision the alias routes to. */
  ghost predicate Ran(p: Platform, s: State, s': State, r: Request, domain: string, serviceId: string, input: Input) {
    && input.InvokeInput?
    && var key, alias := ResourceKey(domain, r.ids.resource), AliasKey(domain, serviceId, input.alias);
    && key in s'.invocations && key in s'.events && input.arguments.Some?
    && alias in s.aliases && ResourceKey(domain, s.aliases[alias].revisionId) in s.revisions
    && ScenarioOf(input.arguments.value).Some? && p.scenario(ScenarioOf(input.arguments.value).value).Some?
    && var inv, revision := s'.invocations[key], s.revisions[ResourceKey(domain, s.aliases[alias].revisionId)];
    && inv.meta == NewMetadata(r.ids.resource, domain, Actor(r), r.now) && inv.operationId == r.ids.operation
    && inv.serviceId == serviceId && inv.alias == input.alias && inv.input == input.arguments.value && inv.correlationId == r.correlation
    && inv.revisionId == revision.meta.id && Operated(s', r, domain, inv)
    && Played(p, revision.outputSchema, p.scenario(ScenarioOf(input.arguments.value).value).value, inv, s'.events[key], s'.artifacts)
  }

  /** Its operation wants success, and has seen and holds what became of it. */
  predicate Operated(s: State, r: Request, domain: string, inv: Invocation) {
    var key := ResourceKey(domain, r.ids.operation);
    && key in s.operations && s.operations[key].resourceId == inv.meta.id
    && s.operations[key].command.InvokeCommand? && s.operations[key].desired.Succeeded?
    && s.operations[key].observed == (if inv.state.Running? then Observing else Settled(inv.state))
    && s.operations[key].terminalResult == inv.result && s.operations[key].error == inv.error
  }

  lemma InvokeRan(p: Platform, s: State, r: Request, domain: string, serviceId: string, input: Input)
    requires DoInvoke(p, s, r, domain, serviceId, input).reply.status == 202
    ensures Ran(p, s, DoInvoke(p, s, r, domain, serviceId, input).state, r, domain, serviceId, input)
  {
    var revision := Resolve(s, domain, serviceId, input.alias).value;
    var delivered := p.scenario(ScenarioOf(input.arguments.value).value).value;
    NormalizedPayloads(delivered);
    DraftPlayed(p, NewInvocation(r, domain, serviceId, revision.meta.id, input.alias, input.arguments.value), delivered,
                Normalized(delivered).value, revision.outputSchema, s.artifacts);
  }

  /** A new invocation that is answered 202 has run, and the reply is its record. */
  ghost predicate Answered(p: Platform, s: State, r: Request, done: Outcome)
    requires r.body.Some? && RouteOf(p, r).Invoke?
  {
    var route := RouteOf(p, r);
    var key := ResourceKey(route.domain, r.ids.resource);
    && Ran(p, s, done.state, r, route.domain, route.serviceId, p.decode(route, r.body.value))
    && done.reply.body == InvocationBody(done.state.invocations[key])
  }

  lemma RequestRan(p: Platform, s: State, r: Request)
    requires Admitted(p, r) && SlotOf(r) !in s.cache && RouteOf(p, r).Invoke? && Mutate(p, s, r).reply.status == 202
    ensures Answered(p, s, r, Mutate(p, s, r))
  {
    var route := RouteOf(p, r);
    var input := p.decode(route, r.body.value);
    var done := DoInvoke(p, s, r, route.domain, route.serviceId, input);
    InvokeRan(p, s, r, route.domain, route.serviceId, input);
    var cache := Mutate(p, s, r).state.cache;
    assert Mutate(p, s, r) == Outcome(done.state.(cache := cache), done.reply);
    RanIgnoresCache(p, s, done.state, r, route.domain, route.serviceId, input, cache);
  }

  lemma RanIgnoresCache(p: Platform, s: State, s': State, r: Request, domain: string, serviceId: string, input: Input, cache: map<string, Stored>)
    requires Ran(p, s, s', r, domain, serviceId, input)
    ensures Ran(p, s, s'.(cache := cache), r, domain, serviceId, input)
  {
  }

  /** In any run, an invocation answered 202 for the first time has played its whole scenario, and the reply is its record. */
  lemma ScenariosArePlayed(p: Platform, requests: seq<Request>, i: nat)
    requires FirstClaim(p, requests, i) && RouteOf(p, requests[i]).Invoke? && ReplyAt(p, EMPTY, requests, i).status == 202
    ensures Answered(p, Exec(p, EMPTY, requests[..i]), requests[i], Outcome(Exec(p, EMPTY, requests[..i + 1]), ReplyAt(p, EMPTY, requests, i)))
  {
    CacheHoldsClaims(p, requests[..i]);
    ExecStep(p, EMPTY, requests, i);
    RequestRan(p, Exec(p, EMPTY, requests[..i]), requests[i]);
  }
}
