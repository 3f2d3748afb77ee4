/** How runtime events drive an invocation, and what its journal says about it. */
module Journal {
  import opened Text
  import opened Resources

  /** The effect of one event on an invocation record. */
  function ApplyEvent(inv: Invocation, kind: EventKind, payload: Payload, at: Time): Invocation {
    match kind
    case LifecycleWaiting => inv.(state := Waiting)
    case LifecycleSucceeded =>
      inv.(state := Succeeded, result := Some(TextOf(payload, "message")), completedAt := Some(at))
    case LifecycleFailed => inv.(state := Failed, completedAt := Some(at))
    case LifecycleCancelled => inv.(state := Cancelled, completedAt := Some(at))
    case ErrorOccurred =>
      inv.(error := Some(Problem(Reported(TextOf(payload, "code"), TextOf(payload, "message")),
                                 inv.correlationId, FlagOf(payload, "retryable"))))
    case UsageRecorded =>
      inv.(usage := Some(Usage(NumberOf(payload, "inputTokens"), NumberOf(payload, "outputTokens"),
                               NumberOf(payload, "totalTokens"))))
    case ArtifactAvailable => inv
    case OtherKind(_) => inv
  }

  /** An invocation record as it is before any event was applied. */
  function Started(inv: Invocation): Invocation {
    inv.(state := Running, result := None, error := None, usage := None, completedAt := None)
  }

  /** Event sourcing: fold the journal over the record it started from. */
  function Replay(start: Invocation, journal: seq<Event>): Invocation {
    if journal == [] then start
    else
      var last := journal[|journal| - 1];
      ApplyEvent(Replay(start, journal[..|journal| - 1]), last.kind, last.payload, last.occurredAt)
  }

  /** Agreement on what events alone determine. */
  predicate SameProgress(a: Invocation, b: Invocation) {
    && a.state == b.state && a.result == b.result && a.usage == b.usage && a.completedAt == b.completedAt
    && a.correlationId == b.correlationId
  }

  /** The record carries the error of a result its output schema refused, which is set beside the journal. */
  predicate Refused(inv: Invocation) {
    && inv.error.Some? && inv.error.value.code.SchemaProblem?
    && inv.error.value.correlation == inv.correlationId && !inv.error.value.retryable
  }

  /** The record shows what the replay shows, save for the error of a refused result. */
  predicate InStep(inv: Invocation, replayed: Invocation) {
    SameProgress(inv, replayed) && (inv.error == replayed.error || Refused(inv))
  }

  /** The journal is numbered 1, 2, ..., n. */
  predicate Numbered(journal: seq<Event>) {
    forall i | 0 <= i < |journal| :: journal[i].sequence == i + 1
  }

  /** `inv` is what its journal says it is. */
  predicate Sourced(inv: Invocation, journal: seq<Event>) {
    InStep(inv, Replay(Started(inv), journal))
  }

  predicate Alike(a: Invocation, b: Invocation) { SameProgress(a, b) && a.error == b.error }

  lemma {:induction false} ReplayDetermined(a: Invocation, b: Invocation, journal: seq<Event>)
    requires Alike(a, b)
    ensures Alike(Replay(a, journal), Replay(b, journal))
  {
    if journal != [] {
      var n := |journal| - 1;
      ReplayDetermined(a, b, journal[..n]);
      ApplyDetermined(Replay(a, journal[..n]), Replay(b, journal[..n]), journal[n].kind, journal[n].payload, journal[n].occurredAt);
    }
  }

  lemma ApplyDetermined(a: Invocation, b: Invocation, kind: EventKind, payload: Payload, at: Time)
    requires Alike(a, b)
    ensures Alike(ApplyEvent(a, kind, payload, at), ApplyEvent(b, kind, payload, at))
  {
  }

  lemma ApplyKeepsStep(inv: Invocation, replayed: Invocation, kind: EventKind, payload: Payload, at: Time)
    requires InStep(inv, replayed)
    ensures InStep(ApplyEvent(inv, kind, payload, at), ApplyEvent(replayed, kind, payload, at))
  {
  }

  /** Appending one event to a sourced journal and applying it to the record keeps them in step. */
  lemma SourcedExtends(inv: Invocation, journal: seq<Event>, inv': Invocation, e: Event)
    requires Sourced(inv, journal)
    requires InStep(inv', ApplyEvent(inv, e.kind, e.payload, e.occurredAt))
    ensures Sourced(inv', journal + [e])
  {
    var replayed := Replay(Started(inv'), journal);
    ApplyKeepsCorrelation(inv, e);
    ReplayDetermined(Started(inv), Started(inv'), journal);
    assert InStep(inv, replayed);
    ApplyKeepsStep(inv, replayed, e.kind, e.payload, e.occurredAt);
    InStepTransitive(inv', ApplyEvent(inv, e.kind, e.payload, e.occurredAt), ApplyEvent(replayed, e.kind, e.payload, e.occurredAt));
    ReplaySnoc(Started(inv'), journal, e);
  }

  lemma ApplyKeepsCorrelation(inv: Invocation, e: Event)
    ensures ApplyEvent(inv, e.kind, e.payload, e.occurredAt).correlationId == inv.correlationId
  {
  }

  lemma ReplaySnoc(start: Invocation, journal: seq<Event>, e: Event)
    ensures Replay(start, journal + [e]) == ApplyEvent(Replay(start, journal), e.kind, e.payload, e.occurredAt)
  {
    assert (journal + [e])[..|journal|] == journal;
  }

  lemma InStepTransitive(a: Invocation, b: Invocation, c: Invocation)
    requires InStep(a, b) && InStep(b, c)
    ensures InStep(a, c)
  {
  }

  // ---- What a replayed journal means, without mentioning the fold -----------------------

  datatype Aspect = LifecycleAspect | SuccessAspect | ErrorAspect | UsageAspect | CompletionAspect

  predicate Touches(aspect: Aspect, kind: EventKind) {
    match aspect
    case LifecycleAspect => kind.LifecycleWaiting? || kind.LifecycleSucceeded? || kind.LifecycleFailed? || kind.LifecycleCancelled?
    case SuccessAspect => kind.LifecycleSucceeded?
    case UsageAspect => kind.UsageRecorded?
    case ErrorAspect => kind.ErrorOccurred?
    case CompletionAspect => kind.LifecycleSucceeded? || kind.LifecycleFailed? || kind.LifecycleCancelled?
  }

  predicate LastTouch(journal: seq<Event>, aspect: Aspect, i: int) {
    && 0 <= i < |journal|
    && Touches(aspect, journal[i].kind)
    && forall j | i < j < |journal| :: !Touches(aspect, journal[j].kind)
  }

  predicate Untouched(journal: seq<Event>, aspect: Aspect) {
    forall j | 0 <= j < |journal| :: !Touches(aspect, journal[j].kind)
  }

  predicate Names(kind: EventKind, state: InvocationState) {
    match state
    case Running => false
    case Waiting => kind.LifecycleWaiting?
    case Succeeded => kind.LifecycleSucceeded?
    case Failed => kind.LifecycleFailed?
    case Cancelled => kind.LifecycleCancelled?
  }

  /** The record shows, for one aspect, exactly what the event says. */
  predicate Shows(inv: Invocation, aspect: Aspect, e: Event) {
    match aspect
    case LifecycleAspect => Names(e.kind, inv.state)
    case SuccessAspect => inv.result == Some(TextOf(e.payload, "message"))
    case UsageAspect =>
      inv.usage == Some(Usage(NumberOf(e.payload, "inputTokens"), NumberOf(e.payload, "outputTokens"),
                              NumberOf(e.payload, "totalTokens")))
    case ErrorAspect =>
      inv.error == Some(Problem(Reported(TextOf(e.payload, "code"), TextOf(e.payload, "message")),
                                inv.correlationId, FlagOf(e.payload, "retryable")))
    case CompletionAspect => inv.completedAt == Some(e.occurredAt)
  }

  predicate SameAspect(a: Invocation, b: Invocation, aspect: Aspect) {
    match aspect
    case LifecycleAspect => a.state == b.state
    case SuccessAspect => a.result == b.result
    case UsageAspect => a.usage == b.usage
    case ErrorAspect => a.error == b.error
    case CompletionAspect => a.completedAt == b.completedAt
  }

  /** The last event that touches an aspect decides it; an aspect no event touches keeps its start. */
  lemma {:induction false} LastEventDecides(start: Invocation, journal: seq<Event>, aspect: Aspect, i: int)
    ensures LastTouch(journal, aspect, i) ==> Shows(Replay(start, journal), aspect, journal[i])
    ensures Untouched(journal, aspect) ==> SameAspect(Replay(start, journal), start, aspect)
  {
    if journal != [] {
      var n := |journal| - 1;
      var before := Replay(start, journal[..n]);
      LastEventDecides(start, journal[..n], aspect, i);
      EventDecides(before, journal[n], aspect);
      if LastTouch(journal, aspect, i) && i < n {
        assert LastTouch(journal[..n], aspect, i);
        OthersSpareAspect(before, journal[n], aspect, journal[i]);
      }
      if Untouched(journal, aspect) {
        assert Untouched(journal[..n], aspect) && !Touches(aspect, journal[n].kind);
      }
    }
  }

  lemma EventDecides(inv: Invocation, e: Event, aspect: Aspect)
    ensures var inv' := ApplyEvent(inv, e.kind, e.payload, e.occurredAt);
      if Touches(aspect, e.kind) then Shows(inv', aspect, e) else SameAspect(inv', inv, aspect)
  {
  }

  lemma OthersSpareAspect(inv: Invocation, e: Event, aspect: Aspect, earlier: Event)
    requires Shows(inv, aspect, earlier) && !Touches(aspect, e.kind)
    ensures Shows(ApplyEvent(inv, e.kind, e.payload, e.occurredAt), aspect, earlier)
  {
  }
}
