/** What reaches the server: routed requests, decoded inputs, and the outside functions it relies on. */
module Requests {
  import opened Text
  import opened Resources

  /** A mutation route with its path values. The isolation domain is common to all of them. */
  datatype Route =
    | CreateWorkspace(domain: string)
    | CreateService(domain: string, workspaceId: string)
    | CreateRevision(domain: string, serviceId: string)
    | PublishRevision(domain: string, revisionId: string)
    | RetireRevision(domain: string, revisionId: string)
    | AssignAlias(domain: string, serviceId: string, alias: string)
    | WithdrawAlias(domain: string, serviceId: string, alias: string)
    | Invoke(domain: string, serviceId: string)
    | CancelInvocation(domain: string, invocationId: string)
    | SetSaved(domain: string)
    | ResolveApproval(domain: string)

  /** A request body after strict decoding for its route. */
  datatype Input =
    | Malformed
    | NamedInput(name: string, description: string)
    | RevisionInput(runtimeProfile: string, requiredCapabilities: seq<string>,
                    inputSchema: Option<Json>, outputSchema: Option<Json>)
    | VersionInput(expectedVersion: int)
    | AliasInput(revisionId: string, expected: Option<int>)
    | InvokeInput(alias: string, arguments: Option<map<string, Value>>)
    | CancelInput(reason: string)
    | SavedInput(kind: ResourceKind, resourceId: string, saved: bool)
    | ApprovalInput(version: int, decided: bool)

  datatype Principal = Principal(kind: string, id: string)

  /** Identifiers drawn for this request: the resource, its operation, and an error correlation. */
  datatype Ids = Ids(resource: string, operation: string, problem: string)

  datatype Request = Request(
    verb: string, path: string, key: string,
    principal: Option<Principal>, correlation: string,
    jsonMedia: bool, body: Option<string>,
    now: Time, ids: Ids)

  /** Functions supplied from outside the handlers: routing, decoding, digests, schemas, fixtures. */
  datatype Platform = Platform(
    route: (string, string) -> Route,
    decode: (Route, string) -> Input,
    hash: string -> string,
    ownerValid: Principal -> bool,
    trim: string -> string,
    plainText: string -> bool,
    capable: string -> bool,
    schemasFault: (Option<Json>, Option<Json>) -> Option<SchemaFault>,
    inputFault: (Option<Json>, map<string, Value>) -> Option<SchemaFault>,
    outputFault: (Option<Json>, string) -> Option<SchemaFault>,
    scenario: string -> Option<seq<RuntimeEvent>>,
    artifactId: (string, Option<Value>) -> string,
    eventId: (string, string) -> string,
    cancelEventId: (string, int) -> string)

  datatype Body =
    | ProblemBody(problem: Problem)
    | WorkspaceBody(workspace: Workspace)
    | ServiceBody(service: AgentService)
    | RevisionBody(revision: ServiceRevision)
    | AliasBody(alias: ServiceAlias)
    | InvocationBody(invocation: Invocation)
    | SavedBody(state: SavedState)

  datatype Response = Response(status: int, body: Body)

  function Refuse(status: int, code: Code, correlation: string, retryable: bool := false): Response {
    Response(status, ProblemBody(Problem(code, correlation, retryable)))
  }

  // ---- The idempotency slot of a request ---------------------------------------------------

  function CacheKey(verb: string, path: string, key: string): string {
    verb + [' '] + (path + [' '] + key)
  }

  function SlotOf(r: Request): string { CacheKey(r.verb, r.path, r.key) }

  /** A request line: neither the method nor the escaped path contains a space. */
  predicate OnTheWire(r: Request) { ' ' !in r.verb && ' ' !in r.path }

  /** The isolation domain an idempotency slot belongs to. */
  function SlotDomain(p: Platform, slot: string): string {
    p.route(Before(slot, ' '), Before(After(slot, ' '), ' ')).domain
  }

  lemma SlotSplits(p: Platform, r: Request)
    requires OnTheWire(r)
    ensures Before(SlotOf(r), ' ') == r.verb
    ensures Before(After(SlotOf(r), ' '), ' ') == r.path
    ensures After(After(SlotOf(r), ' '), ' ') == r.key
    ensures SlotDomain(p, SlotOf(r)) == p.route(r.verb, r.path).domain
  {
    SplitAtFirst(r.verb, ' ', r.path + [' '] + r.key);
    SplitAtFirst(r.path, ' ', r.key);
  }

  /** One slot is one method, path and key. */
  lemma SlotInjective(p: Platform, a: Request, b: Request)
    requires OnTheWire(a) && OnTheWire(b)
    ensures SlotOf(a) == SlotOf(b) <==> a.verb == b.verb && a.path == b.path && a.key == b.key
  {
    SlotSplits(p, a);
    SlotSplits(p, b);
  }
}
