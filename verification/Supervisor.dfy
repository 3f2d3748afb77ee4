/** The bounded restart supervisor: one child at a time, a restart budget, and a one-way switch from initializing to
    recovering. Child exit, readiness, timeouts and cancellation arrive in any order. */
module Supervisor {
  import opened Text

  datatype Policy = Policy(restartBackoffs: seq<int>, readinessTimeout: int, readinessPoll: int, shutdownTimeout: int)

  datatype Line = Ready | RestartScheduled

  /** What the supervisor did and saw, in order. */
  datatype Event =
    | Observed(exists_: bool)
    | Unreadable
    | Started(initializing: bool)
    | StartFailed(initializing: bool)
    | NotReady
    | BecameReady
    | TimedOut
    | Ended
    | ExitReceived
    | Interrupted
    | Killed
    | Wrote(line: Line)
    | WriteFailed(line: Line)

  /** Everything that has happened, latest last. */
  datatype Trace = Begin | Then(before: Trace, event: Event)

  /** What arrives first after an unsuccessful poll. */
  datatype Arrival = ChildExit | Deadline | Tick

  /** How the outside answers, given everything that has happened: the state file; whether a child starts and is ready;
      what arrives first between polls, the deadline at the latest after `patience` polls; whether the context is seen
      to have ended; whether a line can be written; and whether an interrupted child exits in time. */
  datatype Environment = Environment(
    state: Trace -> Option<bool>,
    starts: Trace -> bool,
    ready: Trace -> bool,
    arrives: Trace -> Arrival,
    patience: nat,
    done: Trace -> bool,
    writes: Trace -> bool,
    timely: Trace -> bool)

  datatype Result = Stopped | PolicyInvalid | StateUnreadable | BoundaryInvalid | OutputFailed | BudgetExhausted

  ghost predicate ValidPolicy(p: Policy) {
    && p.restartBackoffs != [] && p.readinessTimeout > 0 && 0 < p.readinessPoll <= p.readinessTimeout && p.shutdownTimeout > 0
    && forall i | 0 <= i < |p.restartBackoffs| :: p.restartBackoffs[i] >= 0
  }

  method ValidateSupervisorPolicy(p: Policy) returns (valid: bool)
    ensures valid <==> ValidPolicy(p)
  {
    if p.restartBackoffs == [] || p.readinessTimeout <= 0 || p.readinessPoll <= 0 || p.readinessPoll > p.readinessTimeout || p.shutdownTimeout <= 0 {
      return false;
    }
    for i := 0 to |p.restartBackoffs|
      invariant forall j | 0 <= j < i :: p.restartBackoffs[j] >= 0
    {
      if p.restartBackoffs[i] < 0 {
        return false;
      }
    }
    return true;
  }

  // ---- Reading a trace -----------------------------------------------------------------------------------

  /** What a trace amounts to: children whose exit has not been received, attempts made, the latest observation of the
      state file, restarts announced, unsuccessful polls of the latest child, the last line, and what a run that ends
      here would return if its trace decides that. */
  datatype Tally = Tally(live: int, attempts: nat, latest: Option<bool>, restarts: nat, polls: nat, line: Option<Line>,
                         verdict: Option<Result>)

  function VerdictAfter(x: Tally, e: Event): Option<Result> {
    match e
    case Ended => Some(Stopped)
    case WriteFailed(_) => Some(OutputFailed)
    case Unreadable => Some(StateUnreadable)
    case _ => x.verdict
  }

  function With(x: Tally, e: Event): Tally {
    Tally(
      x.live + (match e case Started(_) => 1 case ExitReceived => -1 case _ => 0),
      x.attempts + (match e case Started(_) => 1 case StartFailed(_) => 1 case _ => 0),
      if e.Observed? then Some(e.exists_) else x.latest,
      x.restarts + (if e == Wrote(RestartScheduled) then 1 else 0),
      if e.Started? then 0 else x.polls + (if e.NotReady? then 1 else 0),
      if e.Wrote? then Some(e.line) else x.line,
      VerdictAfter(x, e))
  }

  function Sum(t: Trace): Tally { if t.Begin? then Tally(0, 0, None, 0, 0, None, None) else With(Sum(t.before), t.event) }

  function Lines(t: Trace): seq<Line> {
    if t.Begin? then [] else Lines(t.before) + (if t.event.Wrote? then [t.event.line] else [])
  }

  predicate LastIs(t: Trace, e: Event) { t.Then? && t.event == e }

  /** The child's readiness is polled. */
  predicate Polling(t: Trace) { t.Then? && (t.event.Started? || t.event.NotReady?) }

  /** A child is stopped only for one of these. */
  predicate StopReason(e: Event) { e.TimedOut? || e.Ended? || e == WriteFailed(Ready) }

  /** The supervisor looks whether the context has ended. */
  predicate Heeding(t: Trace) {
    && t.Then?
    && (|| t.event.NotReady? || t.event.BecameReady? || t.event.TimedOut? || t.event == Wrote(Ready)
        || (t.event.ExitReceived? && LastIs(t.before, NotReady)))
  }

  /** What may happen next, given what has happened: a child only when no exit is outstanding, after a restart was
      announced for every attempt so far, with arguments that follow the latest observation; a ready child is announced
      before anything else, and then nothing ends it but itself or the context; an interrupt only for a reason; a
      child's exit only once; and everything as the environment has it. */
  predicate Allowed(env: Environment, budget: nat, t: Trace, x: Tally, e: Event) {
    match e
    case Observed(found) => env.state(t) == Some(found) && x.live == 0 && x.latest != Some(true)
    case Unreadable => env.state(t) == None && x.live == 0
    case Started(initializing) => env.starts(t) && MayAttempt(env, budget, t, x, initializing)
    case StartFailed(initializing) => !env.starts(t) && MayAttempt(env, budget, t, x, initializing)
    case NotReady => x.live == 1 && Polling(t) && !env.ready(t)
    case BecameReady => x.live == 1 && Polling(t) && env.ready(t)
    case TimedOut => x.live == 1 && LastIs(t, NotReady) && (env.arrives(t).Deadline? || x.polls > env.patience)
    case Ended => env.done(t) && !LastIs(t, Interrupted) && !LastIs(t, Killed)
    case ExitReceived => x.live == 1 && Exits(env, t)
    case Interrupted => x.live == 1 && t.Then? && StopReason(t.event)
    case Killed => x.live == 1 && LastIs(t, Interrupted) && !env.timely(t)
    case Wrote(Ready) => x.live == 1 && LastIs(t, BecameReady) && x.line != Some(Ready) && env.writes(t)
    case WriteFailed(Ready) => x.live == 1 && LastIs(t, BecameReady) && !env.writes(t)
    case Wrote(RestartScheduled) => x.live == 0 && x.restarts + 1 == x.attempts && env.writes(t)
    case WriteFailed(RestartScheduled) => x.live == 0 && !env.writes(t)
  }

  /** The exit arrives between polls, or of itself after the announcement, or because the child was stopped. */
  predicate Exits(env: Environment, t: Trace) {
    || (LastIs(t, NotReady) && env.arrives(t).ChildExit?)
    || LastIs(t, Wrote(Ready))
    || (LastIs(t, Interrupted) && env.timely(t))
    || LastIs(t, Killed)
  }

  predicate MayAttempt(env: Environment, budget: nat, t: Trace, x: Tally, initializing: bool) {
    && x.live == 0 && x.attempts < budget && x.latest == Some(!initializing) && x.restarts == x.attempts
    && (x.attempts > 0 ==> !env.done(t))
  }

  /** Stopping a child is all that still happens once the verdict is in. */
  predicate Stopping(e: Event) { e.Interrupted? || e.Killed? || e.ExitReceived? }

  predicate Follows(env: Environment, budget: nat, t: Trace, e: Event) {
    && Allowed(env, budget, t, Sum(t), e)
    && (Sum(t).verdict.Some? ==> Stopping(e))
    && (Heeding(t) && Sum(t).verdict.None? && env.done(t) ==> e.Ended?)
  }

  predicate Orderly(env: Environment, budget: nat, t: Trace) {
    t.Begin? || (Orderly(env, budget, t.before) && Follows(env, budget, t.before, t.event))
  }

  /** One more event. */
  lemma Goes(env: Environment, budget: nat, t: Trace, e: Event)
    requires Orderly(env, budget, t) && Follows(env, budget, t, e)
    ensures Orderly(env, budget, Then(t, e)) && Sum(Then(t, e)) == With(Sum(t), e) && Moment(t, Then(t, e))
  {
  }

  lemma {:induction false} VerdictKinds(t: Trace)
    ensures var v := Sum(t).verdict; v == None || v == Some(Stopped) || v == Some(OutputFailed) || v == Some(StateUnreadable)
  {
    if t.Then? {
      VerdictKinds(t.before);
    }
  }

  /** The trace at an earlier moment, or now. */
  predicate Moment(u: Trace, t: Trace) { u == t || (t.Then? && Moment(u, t.before)) }

  lemma {:induction false} MomentTransitive(u: Trace, v: Trace, t: Trace)
    requires Moment(u, v) && Moment(v, t)
    ensures Moment(u, t)
  {
    if v != t {
      MomentTransitive(u, v, t.before);
    }
  }

  // ---- The supervisor ---------------------------------------------------------------------------------------

  /** The trace goes on in order, and nothing but the latest child has changed. */
  predicate Beside(env: Environment, budget: nat, before: Trace, t: Trace) {
    && Orderly(env, budget, t) && Moment(before, t)
    && Sum(t).attempts == Sum(before).attempts && Sum(t).latest == Sum(before).latest && Sum(t).restarts == Sum(before).restarts
  }

  /** Poll until the child is ready, exits, the deadline passes or the context ends. A child that is ready may already
      have exited: its exit then waits in the channel. */
  method WaitForRouteChild(env: Environment, budget: nat, before: Trace) returns (exited: bool, ready: bool, ended: bool, t: Trace)
    requires Orderly(env, budget, before) && Sum(before).live == 1 && Sum(before).verdict.None? && before.Then? && before.event.Started?
    ensures Beside(env, budget, before, t) && Sum(t).line == Sum(before).line && t.Then?
    ensures Sum(t).live == (if exited then 0 else 1) && Sum(t).verdict == (if ended then Some(Stopped) else None)
    ensures t.event == if exited then ExitReceived else if ready then BecameReady else if ended then Ended else TimedOut
    ensures !(exited && ready) && (ended ==> !exited && !ready)
  {
    exited, ready, ended, t := false, false, false, before;
    var polls := 0;
    while true
      invariant Beside(env, budget, before, t) && Sum(t).line == Sum(before).line && !exited && !ready && !ended
      invariant Polling(t) && Sum(t).live == 1 && Sum(t).verdict.None? && polls == Sum(t).polls <= env.patience
      invariant Heeding(t) ==> !env.done(t)
      decreases env.patience - polls
    {
      if env.ready(t) {
        Goes(env, budget, t, BecameReady);
        ready, t := true, Then(t, BecameReady);
        return;
      }
      Goes(env, budget, t, NotReady);
      polls, t := polls + 1, Then(t, NotReady);
      if env.done(t) {
        Goes(env, budget, t, Ended);
        ended, t := true, Then(t, Ended);
        return;
      }
      var arrival := env.arrives(t);
      if arrival.ChildExit? {
        Goes(env, budget, t, ExitReceived);
        exited, t := true, Then(t, ExitReceived);
        return;
      }
      if arrival.Deadline? || polls > env.patience {
        Goes(env, budget, t, TimedOut);
        t := Then(t, TimedOut);
        return;
      }
    }
  }

  /** Interrupt, then kill after the timeout; either way the exit is received. */
  method StopRouteChild(env: Environment, budget: nat, before: Trace) returns (t: Trace)
    requires Orderly(env, budget, before) && Sum(before).live == 1 && before.Then? && StopReason(before.event)
    requires before.event.TimedOut? ==> !env.done(before)
    ensures Beside(env, budget, before, t) && Sum(t).line == Sum(before).line
    ensures Sum(t).live == 0 && Sum(t).verdict == Sum(before).verdict && !Heeding(t)
  {
    Goes(env, budget, before, Interrupted);
    t := Then(before, Interrupted);
    if !env.timely(t) {
      Goes(env, budget, t, Killed);
      t := Then(t, Killed);
    }
    Goes(env, budget, t, ExitReceived);
    t := Then(t, ExitReceived);
  }

  /** Everything between a successful start and the next attempt. */
  method SuperviseChild(env: Environment, budget: nat, before: Trace) returns (finished: Option<Result>, t: Trace)
    requires Orderly(env, budget, before) && Sum(before).live == 1 && Sum(before).verdict.None? && before.Then? && before.event.Started?
    requires Sum(before).line != Some(Ready)
    ensures Beside(env, budget, before, t) && Sum(t).live == 0 && finished == Sum(t).verdict
    ensures finished.None? && Heeding(t) ==> !env.done(t)
  {
    var exited, ready, ended;
    exited, ready, ended, t := WaitForRouteChild(env, budget, before);
    ghost var waited := t;
    if !ended && env.done(t) {
      Goes(env, budget, t, Ended);
      ended, t := true, Then(t, Ended);
    }
    finished := None;
    if ended {
      finished := Some(Stopped);
      if !exited {
        ghost var u := t;
        t := StopRouteChild(env, budget, t);
        MomentTransitive(before, u, t);
      }
    } else if ready {
      finished, t := AnnounceReady(env, budget, t);
      MomentTransitive(before, waited, t);
    } else if !exited {
      t := StopRouteChild(env, budget, t);
      MomentTransitive(before, waited, t);
    }
  }

  /** Announce a ready child and wait until it exits or the context ends. */
  method AnnounceReady(env: Environment, budget: nat, before: Trace) returns (finished: Option<Result>, t: Trace)
    requires Orderly(env, budget, before) && Sum(before).live == 1 && LastIs(before, BecameReady) && Sum(before).line != Some(Ready)
    requires Sum(before).verdict.None? && !env.done(before)
    ensures Beside(env, budget, before, t) && Sum(t).live == 0 && finished == Sum(t).verdict && !Heeding(t)
  {
    ghost var u := before;
    if !env.writes(before) {
      Goes(env, budget, before, WriteFailed(Ready));
      u := Then(before, WriteFailed(Ready));
      t := StopRouteChild(env, budget, Then(before, WriteFailed(Ready)));
      MomentTransitive(before, u, t);
      return Some(OutputFailed), t;
    }
    Goes(env, budget, before, Wrote(Ready));
    t := Then(before, Wrote(Ready));
    if env.done(t) {
      Goes(env, budget, t, Ended);
      u := Then(t, Ended);
      t := StopRouteChild(env, budget, Then(t, Ended));
      MomentTransitive(before, u, t);
      return Some(Stopped), t;
    }
    Goes(env, budget, t, ExitReceived);
    return None, Then(t, ExitReceived);
  }

  /** The attempt loop. Whatever the environment does, the trace stays orderly and ends with no child left, and the result
      is what the trace says. */
  method RunBoundedConformanceSupervisor(env: Environment, policy: Policy, initial: bool) returns (result: Result, t: Trace)
    ensures Orderly(env, |policy.restartBackoffs| + 1, t) && Sum(t).live == 0
    ensures result == ResultOf(policy, initial, t)
    ensures result.BudgetExhausted? ==> Sum(t).attempts == |policy.restartBackoffs| + 1
    ensures result.PolicyInvalid? ==> t.Begin?
    ensures Sum(t).attempts > 0 ==> Moment(Then(Begin, Observed(!initial)), t)
  {
    var valid := ValidateSupervisorPolicy(policy);
    if !valid {
      return PolicyInvalid, Begin;
    }
    ghost var budget := |policy.restartBackoffs| + 1;
    var state := env.state(Begin);
    if state.None? {
      Goes(env, budget, Begin, Unreadable);
      return StateUnreadable, Then(Begin, Unreadable);
    }
    Goes(env, budget, Begin, Observed(state.value));
    t := Then(Begin, Observed(state.value));
    if initial == state.value {
      return BoundaryInvalid, t;
    }
    var finished;
    finished, t := MakeAttempts(env, |policy.restartBackoffs|, initial, t);
    assert Sum(Then(Begin, Observed(initial))).attempts == 0;
    VerdictKinds(t);
    result := if finished.Some? then finished.value else BudgetExhausted;
  }

  /** An invalid policy or boundary, what the trace decides, or an exhausted budget. */
  ghost function ResultOf(policy: Policy, initial: bool, t: Trace): Result {
    if !ValidPolicy(policy) then PolicyInvalid
    else if Sum(t).verdict.Some? then Sum(t).verdict.value
    else if t == Then(Begin, Observed(initial)) then BoundaryInvalid
    else BudgetExhausted
  }

  /** Try children until something decides the run or every restart has been used. */
  method MakeAttempts(env: Environment, restarts: nat, initial: bool, before: Trace) returns (finished: Option<Result>, t: Trace)
    requires Between(env, restarts + 1, initial, before) && Sum(before).attempts == 0
    ensures Orderly(env, restarts + 1, t) && Moment(before, t)
    ensures Sum(t).live == 0 && finished == Sum(t).verdict && Sum(t).attempts > 0
    ensures finished.None? ==> Sum(t).attempts == restarts + 1
  {
    var initializing := initial;
    t := before;
    var attempt := 0;
    while true
      invariant 0 <= attempt <= restarts && attempt == Sum(t).attempts && Moment(before, t)
      invariant Between(env, restarts + 1, initializing, t)
      decreases restarts - attempt
    {
      ghost var u := t;
      finished, t := TryChild(env, restarts + 1, initializing, t);
      MomentTransitive(before, u, t);
      if finished.Some? || attempt >= restarts {
        return;
      }
      u := t;
      finished, initializing, t := BackOff(env, restarts + 1, initializing, t);
      MomentTransitive(before, u, t);
      if finished.Some? {
        return;
      }
      attempt := attempt + 1;
    }
  }

  /** Between attempts: no child, and the arguments to pass follow the latest observation. */
  predicate Between(env: Environment, budget: nat, initializing: bool, t: Trace) {
    && Orderly(env, budget, t) && Sum(t).live == 0 && Sum(t).latest == Some(!initializing) && Sum(t).line != Some(Ready)
    && Sum(t).restarts == Sum(t).attempts && Sum(t).verdict.None? && !Heeding(t) && (Sum(t).attempts > 0 ==> !env.done(t))
  }

  /** Start a child and supervise it until it is gone. */
  method TryChild(env: Environment, budget: nat, initializing: bool, before: Trace) returns (finished: Option<Result>, t: Trace)
    requires Between(env, budget, initializing, before) && Sum(before).attempts < budget
    ensures Orderly(env, budget, t) && Moment(before, t) && Sum(t).live == 0 && finished == Sum(t).verdict
    ensures Sum(t).attempts == Sum(before).attempts + 1 && Sum(t).latest == Sum(before).latest && Sum(t).restarts == Sum(before).restarts
    ensures finished.None? && Heeding(t) ==> !env.done(t)
  {
    if env.starts(before) {
      Goes(env, budget, before, Started(initializing));
      ghost var u := Then(before, Started(initializing));
      finished, t := SuperviseChild(env, budget, Then(before, Started(initializing)));
      MomentTransitive(before, u, t);
    } else {
      Goes(env, budget, before, StartFailed(initializing));
      finished, t := None, Then(before, StartFailed(initializing));
    }
  }

  /** Announce the restart and wait, unless the context ends. */
  method BackOff(env: Environment, budget: nat, initializing0: bool, before: Trace)
    returns (finished: Option<Result>, initializing: bool, t: Trace)
    requires Orderly(env, budget, before) && Sum(before).live == 0 && Sum(before).latest == Some(!initializing0)
    requires Sum(before).restarts + 1 == Sum(before).attempts && Sum(before).verdict.None? && (Heeding(before) ==> !env.done(before))
    ensures Orderly(env, budget, t) && Moment(before, t) && Sum(t).live == 0
    ensures Sum(t).attempts == Sum(before).attempts && finished == Sum(t).verdict
    ensures finished.None? ==> Between(env, budget, initializing, t)
    ensures initializing ==> initializing0
  {
    finished, initializing, t := ScheduleRestart(env, budget, initializing0, before);
    if finished.None? && env.done(t) {
      Goes(env, budget, t, Ended);
      finished, t := Some(Stopped), Then(t, Ended);
    }
  }

  /** Announce the restart and, while still initializing, look again whether the state exists. */
  method ScheduleRestart(env: Environment, budget: nat, initializing0: bool, before: Trace)
    returns (finished: Option<Result>, initializing: bool, t: Trace)
    requires Orderly(env, budget, before) && Sum(before).live == 0 && Sum(before).latest == Some(!initializing0)
    requires Sum(before).restarts + 1 == Sum(before).attempts && Sum(before).verdict.None? && (Heeding(before) ==> !env.done(before))
    ensures Orderly(env, budget, t) && Moment(before, t) && Sum(t).live == 0
    ensures Sum(t).attempts == Sum(before).attempts && finished == Sum(t).verdict
    ensures finished.None? && !env.done(t) ==> Between(env, budget, initializing, t)
    ensures finished.None? ==> !LastIs(t, Interrupted) && !LastIs(t, Killed)
    ensures initializing ==> initializing0
  {
    initializing := initializing0;
    if !env.writes(before) {
      Goes(env, budget, before, WriteFailed(RestartScheduled));
      return Some(OutputFailed), initializing, Then(before, WriteFailed(RestartScheduled));
    }
    Goes(env, budget, before, Wrote(RestartScheduled));
    t := Then(before, Wrote(RestartScheduled));
    if initializing {
      var state := env.state(t);
      if state.None? {
        Goes(env, budget, t, Unreadable);
        return Some(StateUnreadable), initializing, Then(t, Unreadable);
      }
      Goes(env, budget, t, Observed(state.value));
      t := Then(t, Observed(state.value));
      if state.value {
        initializing := false;
      }
    }
    finished := None;
  }

  // ---- What an orderly trace means -----------------------------------------------------------------------------

  lemma {:induction false} OrderlyMoment(env: Environment, budget: nat, t: Trace, u: Trace)
    requires Orderly(env, budget, t) && Moment(u, t)
    ensures Orderly(env, budget, u)
  {
    if u != t {
      OrderlyMoment(env, budget, t.before, u);
    }
  }

  /** At every moment the exit of at most one child is outstanding, and no exit is received without one. */
  lemma AtMostOneChild(env: Environment, budget: nat, t: Trace, u: Trace)
    requires Orderly(env, budget, t) && Moment(u, t)
    ensures 0 <= Sum(u).live <= 1 && Sum(u).attempts <= budget
  {
    OrderlyMoment(env, budget, t, u);
    LiveBounded(env, budget, u);
  }

  lemma {:induction false} LiveBounded(env: Environment, budget: nat, t: Trace)
    requires Orderly(env, budget, t)
    ensures 0 <= Sum(t).live <= 1 && Sum(t).attempts <= budget
  {
    if t.Then? {
      LiveBounded(env, budget, t.before);
    }
  }

  /** A start, a failed start or a received exit. */
  predicate Turning(e: Event) { e.Started? || e.StartFailed? || e.ExitReceived? }

  /** From the moment u to the moment v nothing turned. */
  predicate Quiet(u: Trace, v: Trace) { u == v || (v.Then? && !Turning(v.event) && Quiet(u, v.before)) }

  /** Every started child's exit is received exactly once, before the next start and before the end. */
  lemma {:induction false} EachExitReceivedOnce(env: Environment, budget: nat, t: Trace, u: Trace)
    requires Orderly(env, budget, t) && Sum(t).live == 0 && Moment(u, t) && u.Then? && u.event.Started?
    ensures exists v :: Quiet(u, v) && Sum(v).live == 1 && Moment(Then(v, ExitReceived), t)
  {
    OrderlyMoment(env, budget, t, u);
    NextExit(env, budget, t, u);
  }

  /** From where a child is live on, either nothing has turned, or its exit was the first thing that did. */
  lemma {:induction false} NextExit(env: Environment, budget: nat, t: Trace, u: Trace)
    requires Orderly(env, budget, t) && Moment(u, t) && Sum(u).live == 1
    ensures (Quiet(u, t) && Sum(t).live == 1) || exists v :: Quiet(u, v) && Sum(v).live == 1 && Moment(Then(v, ExitReceived), t)
  {
    if u != t {
      NextExit(env, budget, t.before, u);
      if Quiet(u, t.before) && Sum(t.before).live == 1 {
        if t.event.ExitReceived? {
          assert Moment(Then(t.before, ExitReceived), t);
        }
      } else {
        var v :| Quiet(u, v) && Sum(v).live == 1 && Moment(Then(v, ExitReceived), t.before);
        assert Moment(Then(v, ExitReceived), t);
      }
    }
  }

  /** Initial-route arguments are passed exactly while the latest observation was that the state is absent. */
  lemma ArgumentsFollowObservation(env: Environment, budget: nat, t: Trace, u: Trace)
    requires Orderly(env, budget, t) && Moment(u, t) && u.Then? && (u.event.Started? || u.event.StartFailed?)
    ensures u.event.initializing <==> Sum(u.before).latest == Some(false)
  {
    OrderlyMoment(env, budget, t, u);
  }

  /** Once an attempt was made without them, no later attempt passes them again. */
  lemma ArgumentsNeverReturn(env: Environment, budget: nat, t: Trace, u: Trace, v: Trace)
    requires Orderly(env, budget, t) && Moment(v, t) && v.Then? && Moment(u, v.before) && u.Then?
    requires (u.event.Started? || u.event.StartFailed?) && (v.event.Started? || v.event.StartFailed?) && !u.event.initializing
    ensures !v.event.initializing
  {
    OrderlyMoment(env, budget, t, v);
    OrderlyMoment(env, budget, v.before, u);
    PresenceStays(env, budget, v.before, u);
  }

  lemma {:induction false} PresenceStays(env: Environment, budget: nat, t: Trace, u: Trace)
    requires Orderly(env, budget, t) && Moment(u, t) && Sum(u).latest == Some(true)
    ensures Sum(t).latest == Some(true)
  {
    if u != t {
      PresenceStays(env, budget, t.before, u);
    }
  }

  /** A restart is announced between any two attempts and at most once after the last. */
  lemma {:induction false} RestartsMatchAttempts(env: Environment, budget: nat, t: Trace)
    requires Orderly(env, budget, t)
    ensures Sum(t).restarts <= Sum(t).attempts <= Sum(t).restarts + 1
  {
    if t.Then? {
      RestartsMatchAttempts(env, budget, t.before);
    }
  }

  /** "Ready" is written only right after a child became ready whose exit has not been received (it may be waiting in
      the channel), a restart only when every exit has been received; and a child that became ready is announced before
      anything else, unless the context has ended or the line cannot be written. */
  lemma LinesTellTheTruth(env: Environment, budget: nat, t: Trace, u: Trace)
    requires Orderly(env, budget, t) && Moment(u, t) && u.Then?
    ensures u.event == Wrote(Ready) ==> LastIs(u.before, BecameReady) && Sum(u.before).live == 1
    ensures u.event == Wrote(RestartScheduled) ==> Sum(u.before).live == 0
    ensures LastIs(u.before, BecameReady) ==>
      u.event == if env.done(u.before) then Ended else if env.writes(u.before) then Wrote(Ready) else WriteFailed(Ready)
  {
    OrderlyMoment(env, budget, t, u);
  }

  /** A child is interrupted only right after its readiness deadline passed, the context ended or its readiness could not
      be announced, and each of these is what the environment answered then. */
  lemma StopsHaveReasons(env: Environment, budget: nat, t: Trace, u: Trace)
    requires Orderly(env, budget, t) && Moment(u, t) && LastIs(u, Interrupted)
    ensures u.before.Then? && Reason(env, u.before)
  {
    OrderlyMoment(env, budget, t, u);
    LastFollows(env, budget, u);
    LastFollows(env, budget, u.before);
  }

  predicate Reason(env: Environment, u: Trace)
    requires u.Then?
  {
    || (u.event.TimedOut? && (env.arrives(u.before).Deadline? || Sum(u.before).polls > env.patience))
    || (u.event.Ended? && env.done(u.before))
    || (u.event == WriteFailed(Ready) && !env.writes(u.before))
  }

  lemma LastFollows(env: Environment, budget: nat, u: Trace)
    requires Orderly(env, budget, u) && u.Then?
    ensures Orderly(env, budget, u.before) && Follows(env, budget, u.before, u.event)
  {
  }

  /** Once announced, a child is left alone until it exits or the context ends. */
  lemma {:induction false} ReadyChildrenAreLeftAlone(env: Environment, budget: nat, t: Trace, u: Trace)
    requires Orderly(env, budget, t) && Sum(t).live == 0 && Moment(Then(u, Wrote(Ready)), t)
    ensures var announced := Then(u, Wrote(Ready)); Moment(Then(announced, if env.done(announced) then Ended else ExitReceived), t)
  {
    var announced := Then(u, Wrote(Ready));
    OrderlyMoment(env, budget, t, announced);
    LastFollows(env, budget, announced);
    var v := NextMoment(announced, t);
    OrderlyMoment(env, budget, t, v);
    LastFollows(env, budget, v);
  }

  lemma {:induction false} NextMoment(u: Trace, t: Trace) returns (v: Trace)
    requires Moment(u, t) && u != t
    ensures v.Then? && v.before == u && Moment(v, t)
  {
    if t.before == u {
      v := t;
    } else {
      v := NextMoment(u, t.before);
    }
  }

  /** A context seen to have ended while a child is waited for ends the run, and so does one seen while a restart is due;
      nothing is started or written any more. */
  lemma EndingIsHeeded(env: Environment, budget: nat, t: Trace, u: Trace)
    requires Orderly(env, budget, t) && Moment(u, t) && u.Then?
    ensures Heeding(u.before) && env.done(u.before) ==> u.event.Ended?
    ensures (u.event.Started? || u.event.StartFailed?) && Sum(u.before).attempts > 0 ==> !env.done(u.before)
    ensures u.event.Ended? ==> OnlyStops(u, t)
  {
    OrderlyMoment(env, budget, t, u);
    LastFollows(env, budget, u);
    if Heeding(u.before) {
      NothingDecided(env, budget, u.before);
    }
    if u.event.Ended? {
      EndingIsLast(env, budget, t, u);
    }
  }

  lemma NothingDecided(env: Environment, budget: nat, u: Trace)
    requires Orderly(env, budget, u) && Heeding(u)
    ensures Sum(u).verdict.None?
  {
    LastFollows(env, budget, u);
    if u.event.ExitReceived? {
      LastFollows(env, budget, u.before);
    }
  }

  /** From the moment u to the moment v at most a child was stopped. */
  predicate OnlyStops(u: Trace, v: Trace) { u == v || (v.Then? && Stopping(v.event) && OnlyStops(u, v.before)) }

  lemma {:induction false} EndingIsLast(env: Environment, budget: nat, t: Trace, u: Trace)
    requires Orderly(env, budget, t) && Moment(u, t) && Sum(u).verdict.Some?
    ensures OnlyStops(u, t) && Sum(t).verdict.Some?
  {
    if u != t {
      EndingIsLast(env, budget, t.before, u);
    }
  }

  /** (ready? restart-scheduled)* ready? */
  predicate Form(lines: seq<Line>) {
    || lines == []
    || lines == [Ready]
    || (lines[0] == RestartScheduled && Form(lines[1..]))
    || (|lines| >= 2 && lines[0] == Ready && lines[1] == RestartScheduled && Form(lines[2..]))
  }

  /** The emitted lines have that form. */
  lemma LinesFollowForm(env: Environment, budget: nat, t: Trace)
    requires Orderly(env, budget, t)
    ensures Form(Lines(t))
  {
    ReadyNeverTwice(env, budget, t);
    AlternatingForm(Lines(t));
  }

  ghost predicate NoTwoReady(lines: seq<Line>) { forall i, j | 0 <= i < j < |lines| && j == i + 1 :: lines[i] == RestartScheduled || lines[j] == RestartScheduled }

  lemma {:induction false} ReadyNeverTwice(env: Environment, budget: nat, t: Trace)
    requires Orderly(env, budget, t)
    ensures NoTwoReady(Lines(t))
    ensures Sum(t).line == if Lines(t) == [] then None else Some(Lines(t)[|Lines(t)| - 1])
  {
    if t.Then? {
      ReadyNeverTwice(env, budget, t.before);
    }
  }

  lemma {:induction false} AlternatingForm(lines: seq<Line>)
    ensures NoTwoReady(lines) <==> Form(lines)
  {
    if |lines| >= 2 {
      AlternatingForm(lines[1..]);
      AlternatingForm(lines[2..]);
    } else if |lines| == 1 {
      assert lines[1..] == [] && lines == [lines[0]];
    }
  }
}
