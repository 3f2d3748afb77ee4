/** Strict local runtime acceptance: checks and closes run concurrently, meeting only in sections under one lock.
    Failure latches, and the deployment observation has one owner at a time. */
module RuntimeAcceptance {
  import opened Text

  /** What the lock protects. */
  datatype Shared = Shared(closed: bool, failed: bool, stored: bool)

  /** What the observer factory gave back: an observation or none, with or without an error. */
  datatype Made = Made(given: bool, error: bool)

  /** How a check leaves the deployment section. */
  datatype Entry = Refused | Discard | Observe

  predicate Unusable(s: Shared) { s.closed || s.failed }

  /** The factory is called only here, and only when nothing is stored. */
  predicate CallsFactory(strict: bool, s: Shared) { !Unusable(s) && strict && !s.stored }

  function Deploy(strict: bool, s: Shared, made: Made): (Shared, Entry) {
    if Unusable(s) || !strict then (s, Refused)
    else if s.stored then (s, Observe)
    else if made.error || !made.given then (s.(failed := true), if made.given then Discard else Refused)
    else (s.(stored := true), Observe)
  }

  /** The section of Close: only the first close takes over the observation, if there is one. */
  function TakesOver(s: Shared): (Shared, bool) { (s.(closed := true), !s.closed && s.stored) }

  // ---- All interleavings -------------------------------------------------------------------------------------

  /** Where a check or a close is. Each step is one section, or one action outside the lock. */
  datatype Task =
    | CheckBegins | CheckVerifies | CheckDeploys | CheckDiscards | CheckObserves | CheckMarks | CheckEnds | CheckJudges
    | CheckRefused | CheckProved
    | CloseBegins | CloseReleases | CloseDone

  /** `runs` factory calls, of which `made` gave an observation, which was closed `closes` times. */
  datatype World = World(shared: Shared, runs: nat, made: nat, closes: nat, tasks: seq<Task>)

  datatype Action = StartCheck | StartClose | Step(who: nat, fine: bool, outcome: Made)

  /** What one step of a task does: to the shared state, to the task, and whether it called the factory, was given an
      observation, or closed one. */
  datatype Effect = Effect(shared: Shared, task: Task, called: bool, given: bool, closed: bool)

  function Quiet(s: Shared, task: Task): Effect { Effect(s, task, false, false, false) }

  function Act(strict: bool, s: Shared, task: Task, fine: bool, outcome: Made): Effect {
    match task
    case CheckBegins => Quiet(s, if Unusable(s) then CheckRefused else CheckVerifies)
    case CheckVerifies => Quiet(s, if !fine then CheckRefused else if strict then CheckDeploys else CheckEnds)
    case CheckDeploys =>
      var (s', entry) := Deploy(strict, s, outcome);
      var next := match entry case Refused => CheckRefused case Discard => CheckDiscards case Observe => CheckObserves;
      Effect(s', next, CallsFactory(strict, s), CallsFactory(strict, s) && outcome.given, false)
    case CheckDiscards => Effect(s, CheckRefused, false, false, true)
    case CheckObserves => Quiet(s, if fine then CheckEnds else CheckMarks)
    case CheckMarks => Quiet(s.(failed := true), CheckRefused)
    case CheckEnds => Quiet(s, if Unusable(s) then CheckRefused else CheckJudges)
    case CheckJudges => Quiet(s, if fine then CheckProved else CheckRefused)
    case CloseBegins =>
      var (s', owes) := TakesOver(s);
      Quiet(s', if owes then CloseReleases else CloseDone)
    case CloseReleases => Effect(s, CloseDone, false, false, true)
    case CheckRefused => Quiet(s, task)
    case CheckProved => Quiet(s, task)
    case CloseDone => Quiet(s, task)
  }

  function Count(b: bool): nat { if b then 1 else 0 }

  function Next(strict: bool, w: World, action: Action): World {
    match action
    case StartCheck => w.(tasks := w.tasks + [CheckBegins])
    case StartClose => w.(tasks := w.tasks + [CloseBegins])
    case Step(who, fine, outcome) =>
      if who >= |w.tasks| then w
      else
        var e := Act(strict, w.shared, w.tasks[who], fine, outcome);
        World(e.shared, w.runs + Count(e.called), w.made + Count(e.given), w.closes + Count(e.closed), w.tasks[who := e.task])
  }

  function Run(strict: bool, actions: seq<Action>): World {
    if actions == [] then World(Shared(false, false, false), 0, 0, 0, [])
    else Next(strict, Run(strict, actions[..|actions| - 1]), actions[|actions| - 1])
  }

  function Held(task: Task): nat { Count(task.CheckDiscards? || task.CloseReleases?) }

  /** Tasks that hold an observation they are about to close. */
  function Holding(tasks: seq<Task>): nat {
    if tasks == [] then 0 else Holding(tasks[..|tasks| - 1]) + Held(tasks[|tasks| - 1])
  }

  lemma {:induction false} HoldingUpdate(tasks: seq<Task>, who: nat, task: Task)
    requires who < |tasks|
    ensures Holding(tasks[who := task]) == Holding(tasks) - Held(tasks[who]) + Held(task)
  {
    var n := |tasks| - 1;
    if who < n {
      HoldingUpdate(tasks[..n], who, task);
      assert tasks[who := task][..n] == tasks[..n][who := task];
    } else {
      assert tasks[who := task][..n] == tasks[..n];
    }
  }

  /** An observation is stored that no close has taken over yet. */
  function Unclaimed(s: Shared): nat { Count(s.stored && !s.closed) }

  /** One step moves ownership and never duplicates or drops it. */
  lemma ActConserves(strict: bool, s: Shared, task: Task, fine: bool, outcome: Made)
    ensures var e := Act(strict, s, task, fine, outcome);
      && Count(e.given) + Held(task) + Unclaimed(s) == Count(e.closed) + Held(e.task) + Unclaimed(e.shared)
      && (e.called ==> !s.stored && !s.failed && (e.shared.stored || e.shared.failed))
      && (e.given ==> e.called) && (e.shared.stored && !s.stored ==> e.given)
      && (s.stored ==> e.shared.stored) && (s.failed ==> e.shared.failed)
  {
  }

  /** Single ownership: an observation that was made is stored and not yet taken over, or held by exactly one task, or
      closed; and the factory has run at most once. */
  ghost predicate Owned(w: World) {
    && w.made == w.closes + Holding(w.tasks) + Unclaimed(w.shared)
    && w.made <= w.runs <= 1
    && (w.runs == 1 ==> w.shared.stored || w.shared.failed)
    && (w.shared.stored ==> w.made == 1)
  }

  lemma NextKeepsOwned(strict: bool, w: World, action: Action)
    requires Owned(w)
    ensures Owned(Next(strict, w, action))
  {
    match action
    case StartCheck => HoldingMore(w.tasks, CheckBegins);
    case StartClose => HoldingMore(w.tasks, CloseBegins);
    case Step(who, fine, outcome) =>
      if who < |w.tasks| {
        ActConserves(strict, w.shared, w.tasks[who], fine, outcome);
        HoldingUpdate(w.tasks, who, Act(strict, w.shared, w.tasks[who], fine, outcome).task);
      }
  }

  lemma HoldingMore(tasks: seq<Task>, task: Task)
    ensures Holding(tasks + [task]) == Holding(tasks) + Held(task)
  {
    assert (tasks + [task])[..|tasks|] == tasks;
  }

  /** In every reachable state: the factory ran at most once, its observation was closed at most once, and once a close
      has gone through its section and nobody still holds it, it was closed exactly once. */
  lemma {:induction false} ObservationClosedOnce(strict: bool, actions: seq<Action>)
    ensures var w := Run(strict, actions);
      && Owned(w)
      && w.runs <= 1 && w.closes <= w.made <= 1
      && (w.shared.closed && Holding(w.tasks) == 0 ==> w.closes == w.made)
  {
    if actions != [] {
      var n := |actions| - 1;
      ObservationClosedOnce(strict, actions[..n]);
      NextKeepsOwned(strict, Run(strict, actions[..n]), actions[n]);
    }
  }

  // ---- No proof after closing or failing -------------------------------------------------------------------------

  /** The check has gone through its last section. */
  predicate PastEnd(task: Task) { task.CheckJudges? || task.CheckProved? }

  /** Closed or failed, with the check still before its last section: it has no proof. */
  predicate Barred(w: World, i: nat) { Unusable(w.shared) && (i < |w.tasks| ==> !PastEnd(w.tasks[i])) }

  lemma RunPrefix(strict: bool, actions: seq<Action>, m: nat)
    requires m < |actions|
    ensures Run(strict, actions[..m + 1]) == Next(strict, Run(strict, actions[..m]), actions[m])
  {
    assert actions[..m + 1][..m] == actions[..m];
  }

  /** Closing and failing latch: from then on no check goes through its last section with success, so none that has yet
      to reach it ever returns a proof. */
  lemma {:induction false} NoProofAfterClose(strict: bool, actions: seq<Action>, n: nat, m: nat, i: nat)
    requires n <= m <= |actions| && Barred(Run(strict, actions[..n]), i)
    ensures Barred(Run(strict, actions[..m]), i)
    decreases m
  {
    if n < m {
      NoProofAfterClose(strict, actions, n, m - 1, i);
      RunPrefix(strict, actions, m - 1);
      NextLatches(strict, Run(strict, actions[..m - 1]), actions[m - 1], i);
    }
  }

  lemma NextLatches(strict: bool, w: World, action: Action, i: nat)
    requires Barred(w, i)
    ensures Barred(Next(strict, w, action), i)
  {
    if action.Step? && action.who < |w.tasks| {
      ActLatches(strict, w.shared, w.tasks[action.who], action.fine, action.outcome);
    }
  }

  lemma ActLatches(strict: bool, s: Shared, task: Task, fine: bool, outcome: Made)
    requires Unusable(s)
    ensures Unusable(Act(strict, s, task, fine, outcome).shared)
    ensures !PastEnd(task) ==> !PastEnd(Act(strict, s, task, fine, outcome).task)
  {
  }

  /** A failed observation, once marked, and a factory that gave nothing usable leave the checker failed for good. */
  lemma {:induction false} FailureIsForGood(strict: bool, actions: seq<Action>, n: nat, m: nat)
    requires n < m <= |actions| && Fails(strict, Run(strict, actions[..n]), actions[n])
    ensures Run(strict, actions[..m]).shared.failed
    decreases m
  {
    RunPrefix(strict, actions, m - 1);
    if n == m - 1 {
      FailsNow(strict, Run(strict, actions[..n]), actions[n]);
    } else {
      FailureIsForGood(strict, actions, n, m - 1);
      FailedStays(strict, Run(strict, actions[..m - 1]), actions[m - 1]);
    }
  }

  lemma FailsNow(strict: bool, w: World, action: Action)
    requires Fails(strict, w, action)
    ensures Next(strict, w, action).shared.failed
  {
  }

  /** The step marks a failed observation, or calls the factory and gets nothing usable. */
  predicate Fails(strict: bool, w: World, action: Action) {
    && action.Step? && action.who < |w.tasks|
    && (|| w.tasks[action.who].CheckMarks?
        || (w.tasks[action.who].CheckDeploys? && CallsFactory(strict, w.shared) && (action.outcome.error || !action.outcome.given)))
  }

  lemma FailedStays(strict: bool, w: World, action: Action)
    requires w.shared.failed
    ensures Next(strict, w, action).shared.failed
  {
  }

  // ---- Verdicts are earned -------------------------------------------------------------------------------------------

  /** With the m-th action the i-th task took this step and was answered so. */
  predicate TookAt(strict: bool, actions: seq<Action>, i: nat, task: Task, fine: bool, m: nat) {
    && m < |actions| && actions[m].Step? && actions[m].who == i && actions[m].fine == fine
    && i < |Run(strict, actions[..m]).tasks| && Run(strict, actions[..m]).tasks[i] == task
  }

  ghost predicate Took(strict: bool, actions: seq<Action>, i: nat, task: Task, fine: bool) {
    exists m: nat :: TookAt(strict, actions, i, task, fine, m)
  }

  /** What the i-th task has behind it, by where it is. */
  ghost predicate Earned(strict: bool, actions: seq<Action>, i: nat, w: World)
    requires i < |w.tasks|
  {
    var task := w.tasks[i];
    && (task.CheckDeploys? || task.CheckObserves? || task.CheckEnds? || PastEnd(task) ==> Took(strict, actions, i, CheckVerifies, true))
    && (task.CheckDeploys? || task.CheckDiscards? || task.CheckObserves? || task.CheckMarks? ==> strict)
    && (task.CheckObserves? ==> w.shared.stored)
    && (strict && (task.CheckEnds? || PastEnd(task)) ==> w.shared.stored && Took(strict, actions, i, CheckObserves, true))
    && (task.CheckProved? ==> Took(strict, actions, i, CheckJudges, true))
    && (task.CheckDiscards? ==> w.shared.failed)
    && (task.CheckRefused? ==>
          Unusable(w.shared) || Took(strict, actions, i, CheckVerifies, false) || Took(strict, actions, i, CheckJudges, false))
  }

  lemma TookStays(strict: bool, actions: seq<Action>, i: nat, task: Task, fine: bool)
    requires actions != [] && Took(strict, actions[..|actions| - 1], i, task, fine)
    ensures Took(strict, actions, i, task, fine)
  {
    var n := |actions| - 1;
    var m: nat :| TookAt(strict, actions[..n], i, task, fine, m);
    assert actions[..n][..m] == actions[..m];
    assert TookAt(strict, actions, i, task, fine, m);
  }

  lemma EarnedStays(strict: bool, actions: seq<Action>, i: nat, w: World, w': World)
    requires actions != [] && i < |w.tasks| && i < |w'.tasks| && w'.tasks[i] == w.tasks[i] && Others(w.shared, w'.shared)
    requires Earned(strict, actions[..|actions| - 1], i, w)
    ensures Earned(strict, actions, i, w')
  {
    forall task, fine | Took(strict, actions[..|actions| - 1], i, task, fine) ensures Took(strict, actions, i, task, fine) {
      TookStays(strict, actions, i, task, fine);
    }
  }

  /** No check is proved unless its evidence was verified, its deployment, where strict, found healthy on the stored
      observation, and its result judged good; and none is refused while the checker stays usable unless it failed one
      of the two judgements of its own. */
  lemma {:induction false} VerdictsAreEarned(strict: bool, actions: seq<Action>, i: nat)
    requires i < |Run(strict, actions).tasks|
    ensures Earned(strict, actions, i, Run(strict, actions))
  {
    if actions != [] {
      var n := |actions| - 1;
      var w, action := Run(strict, actions[..n]), actions[n];
      var w' := Next(strict, w, action);
      if action.Step? && action.who < |w.tasks| {
        ActKeepsLatches(strict, w.shared, w.tasks[action.who], action.fine, action.outcome);
      }
      if i < |w.tasks| {
        VerdictsAreEarned(strict, actions[..n], i);
        EarnedStays(strict, actions, i, w, w.(shared := w'.shared));
        if action.Step? && action.who == i {
          assert TookAt(strict, actions, i, w.tasks[i], action.fine, n);
          EarnedStep(strict, actions, i, w, w');
        } else {
          EarnedStays(strict, actions, i, w, w');
        }
      }
    }
  }

  lemma EarnedStep(strict: bool, actions: seq<Action>, i: nat, w: World, w': World)
    requires actions != [] && var action := actions[|actions| - 1]; action.Step? && action.who == i < |w.tasks| && w' == Next(strict, w, action)
    requires Earned(strict, actions, i, w.(shared := w'.shared))
    requires Took(strict, actions, i, w.tasks[i], actions[|actions| - 1].fine)
    ensures Earned(strict, actions, i, w')
  {
  }

  // ---- The program ---------------------------------------------------------------------------------------------------

  /** One step of a check or close: what it found under the lock, and what the outside answered. */
  datatype Turn = Turn(before: Shared, fine: bool, outcome: Made)

  /** Where a check or close is, and how often it called the factory, was given an observation, and closed one. */
  datatype Point = Point(shared: Shared, task: Task, calls: nat, given: nat, closes: nat)

  const NOTHING := Made(false, false)

  function Following(strict: bool, at: Point, t: Turn): Point {
    var e := Act(strict, t.before, at.task, t.fine, t.outcome);
    Point(e.shared, e.task, at.calls + Count(e.called), at.given + Count(e.given), at.closes + Count(e.closed))
  }

  /** Others may close, fail and store, and undo none of it. */
  predicate Others(s: Shared, s': Shared) { (s.closed ==> s'.closed) && (s.failed ==> s'.failed) && (s.stored ==> s'.stored) }

  ghost function EndOf(strict: bool, from: Point, turns: seq<Turn>): Point {
    if turns == [] then from else Following(strict, EndOf(strict, from, turns[..|turns| - 1]), turns[|turns| - 1])
  }

  /** Between the steps of one task the others take theirs. */
  ghost predicate Interleaved(strict: bool, from: Point, turns: seq<Turn>) {
    turns == [] ||
    var n := |turns| - 1;
    Interleaved(strict, from, turns[..n]) && Others(EndOf(strict, from, turns[..n]).shared, turns[n].before)
  }

  /** The steps lead from one point to the other. */
  ghost predicate Leads(strict: bool, from: Point, turns: seq<Turn>, to: Point) {
    Interleaved(strict, from, turns) && EndOf(strict, from, turns) == to
  }

  lemma OneMore(strict: bool, from: Point, turns: seq<Turn>, via: Point, t: Turn)
    requires Leads(strict, from, turns, via) && Others(via.shared, t.before)
    ensures Leads(strict, from, turns + [t], Following(strict, via, t))
  {
    assert (turns + [t])[..|turns|] == turns;
  }

  /** Along its own steps a check or close never undoes a latch, which is all the others rely on. */
  lemma {:induction false} StepsKeepLatches(strict: bool, from: Point, turns: seq<Turn>, to: Point)
    requires Leads(strict, from, turns, to)
    ensures Others(from.shared, to.shared)
  {
    if turns != [] {
      var n := |turns| - 1;
      var via := EndOf(strict, from, turns[..n]);
      StepsKeepLatches(strict, from, turns[..n], via);
      ActKeepsLatches(strict, turns[n].before, via.task, turns[n].fine, turns[n].outcome);
    }
  }

  lemma ActKeepsLatches(strict: bool, s: Shared, task: Task, fine: bool, outcome: Made)
    ensures Others(s, Act(strict, s, task, fine, outcome).shared)
  {
  }

  /** What the outside answers during one check: the verifier, the factory, the observation, and the final judgement. */
  datatype Answers = Answers(verified: bool, given: Option<int>, error: bool, healthy: bool, judged: bool)

  class Checker {
    const strict: bool
    var closed: bool
    var deploymentFailed: bool
    var observation: Option<int>

    ghost function Here(): Shared
      reads this
    {
      Shared(closed, deploymentFailed, observation.Some?)
    }

    constructor (strict: bool)
      ensures Here() == Shared(false, false, false) && this.strict == strict
    {
      this.strict, closed, deploymentFailed, observation := strict, false, false, None;
    }

    /** Whatever other checks and closes do while the lock is free. */
    method Meanwhile()
      modifies this
      ensures Others(old(Here()), Here()) && (old(observation).Some? ==> observation == old(observation))
    {
      var close: bool, fail: bool, store: Option<int> := *, *, *;
      closed, deploymentFailed := closed || close, deploymentFailed || fail;
      if observation.None? {
        observation := store;
      }
    }

    // ---- The locked sections ---------------------------------------------------------------------------------

    method StillOpen() returns (open: bool)
      ensures open <==> !Unusable(Here())
    {
      var latched := closed || deploymentFailed;
      return !latched;
    }

    /** The section that obtains the observation. `given` and `error` are what the factory returns if it is called. */
    method EnterDeployment(given: Option<int>, error: bool) returns (called: bool, entry: Entry, current: Option<int>)
      modifies this
      ensures (Here(), entry) == Deploy(strict, old(Here()), Made(given.Some?, error))
      ensures called <==> CallsFactory(strict, old(Here()))
      ensures old(observation).Some? ==> observation == old(observation)
      ensures old(observation).None? ==> observation == None || observation == given
      ensures entry.Observe? ==> current == observation && current.Some?
    {
      called, entry, current := false, Refused, None;
      if closed || deploymentFailed || !strict {
        return;
      }
      if observation.None? {
        called := true;
        if error || given.None? {
          deploymentFailed := true;
          entry := if given.Some? then Discard else Refused;
          return;
        }
        observation := given;
      }
      entry, current := Observe, observation;
    }

    method MarkFailed()
      modifies this`deploymentFailed
      ensures Here() == old(Here()).(failed := true)
    {
      deploymentFailed := true;
    }

    method TakeOver() returns (owed: Option<int>)
      modifies this`closed
      ensures (Here(), owed.Some?) == TakesOver(old(Here()))
      ensures owed.Some? ==> owed == observation
    {
      if closed {
        return None;
      }
      closed := true;
      return observation;
    }

    // ---- Check and Close -------------------------------------------------------------------------------------------

    /** A check takes exactly the steps of a check task, from its first section to its verdict. It proves nothing that was
        not verified, judged good and, where strict, observed healthy; and unless the checker is closed or failed in the
        end, it proves everything that was. */
    method Check(answers: Answers) returns (proved: bool, ghost turns: seq<Turn>, ghost end: Point)
      modifies this
      ensures Leads(strict, Point(old(Here()), CheckBegins, 0, 0, 0), turns, end)
      ensures end.shared == Here() && end.task == (if proved then CheckProved else CheckRefused)
      ensures proved ==> answers.verified && answers.judged && (strict ==> answers.healthy && observation.Some?)
      ensures !Unusable(Here()) ==> (proved <==> answers.verified && answers.judged && (strict ==> answers.healthy))
      ensures Others(old(Here()), Here())
    {
      ghost var from := Point(Here(), CheckBegins, 0, 0, 0);
      turns, end := [], from;
      var open := StillOpen();
      turns, end := Step(from, turns, end, CheckBegins, true, NOTHING);
      if open {
        turns, end := Step(from, turns, end, CheckVerifies, answers.verified, NOTHING);
      }
      proved := open && answers.verified;
      if proved && strict {
        proved, turns, end := CheckDeployment(answers, from, turns, end);
      }
      if proved {
        proved, turns, end := Conclude(answers, from, turns, end);
      }
      StepsKeepLatches(strict, from, turns, end);
    }

    /** The last section, and the judgement after it. */
    method Conclude(answers: Answers, ghost from: Point, ghost so: seq<Turn>, ghost at: Point)
      returns (proved: bool, ghost turns: seq<Turn>, ghost to: Point)
      requires Leads(strict, from, so, at) && at.task == CheckEnds && at.shared == Here()
      modifies this
      ensures Leads(strict, from, turns, to) && to.shared == Here()
      ensures to.task == (if proved then CheckProved else CheckRefused) && (proved ==> answers.judged)
      ensures !Unusable(Here()) ==> (proved <==> answers.judged)
      ensures old(observation).Some? ==> observation == old(observation)
    {
      Meanwhile();
      var open := StillOpen();
      turns, to := Step(from, so, at, CheckEnds, true, NOTHING);
      if open {
        turns, to := Step(from, turns, to, CheckJudges, answers.judged, NOTHING);
      }
      proved := open && answers.judged;
    }

    /** Record the step a task takes from here. */
    ghost method Step(from: Point, so: seq<Turn>, at: Point, task: Task, fine: bool, outcome: Made) returns (turns: seq<Turn>, to: Point)
      requires Leads(strict, from, so, at) && Others(at.shared, Here()) && at.task == task
      ensures Leads(strict, from, turns, to)
      ensures var e := Act(strict, Here(), task, fine, outcome);
        to == Point(e.shared, e.task, at.calls + Count(e.called), at.given + Count(e.given), at.closes + Count(e.closed))
    {
      turns, to := so + [Turn(Here(), fine, outcome)], Following(strict, at, Turn(Here(), fine, outcome));
      OneMore(strict, from, so, at, Turn(Here(), fine, outcome));
    }

    /** Obtain the observation, discard it if it came with an error, and ask it. */
    method CheckDeployment(answers: Answers, ghost from: Point, ghost so: seq<Turn>, ghost at: Point)
      returns (passed: bool, ghost turns: seq<Turn>, ghost to: Point)
      requires strict && Leads(strict, from, so, at) && at.task == CheckDeploys && at.shared == Here()
      modifies this
      ensures Leads(strict, from, turns, to) && to.shared == Here()
      ensures to.task == if passed then CheckEnds else CheckRefused
      ensures passed ==> answers.healthy && observation.Some?
      ensures !passed ==> Unusable(Here())
    {
      Meanwhile();
      turns, to := Step(from, so, at, CheckDeploys, true, Made(answers.given.Some?, answers.error));
      var called, entry, current := EnterDeployment(answers.given, answers.error);
      passed := false;
      if entry.Discard? {
        Meanwhile();
        turns, to := Step(from, turns, to, CheckDiscards, true, NOTHING);
      } else if entry.Observe? {
        passed, turns, to := AskObservation(answers.healthy, from, turns, to);
      }
    }

    method AskObservation(healthy: bool, ghost from: Point, ghost so: seq<Turn>, ghost at: Point)
      returns (passed: bool, ghost turns: seq<Turn>, ghost to: Point)
      requires Leads(strict, from, so, at) && at.task == CheckObserves && at.shared == Here() && observation.Some?
      modifies this
      ensures Leads(strict, from, turns, to) && to.shared == Here()
      ensures to.task == if passed then CheckEnds else CheckRefused
      ensures (passed <==> healthy) && observation == old(observation) && (!passed ==> deploymentFailed)
    {
      Meanwhile();
      turns, to := Step(from, so, at, CheckObserves, healthy, NOTHING);
      if !healthy {
        Meanwhile();
        turns, to := Step(from, turns, to, CheckMarks, true, NOTHING);
        MarkFailed();
      }
      passed := healthy;
    }

    /** A close takes exactly the steps of a close task, and closes the observation exactly when it took it over. */
    method Close() returns (released: bool, ghost turns: seq<Turn>, ghost end: Point)
      modifies this
      ensures Leads(strict, Point(old(Here()), CloseBegins, 0, 0, 0), turns, end)
      ensures end.shared == Here() && end.task == CloseDone && closed
      ensures end.closes == Count(released) && end.calls == 0
      ensures released <==> TakesOver(old(Here())).1
      ensures Others(old(Here()), Here())
    {
      ghost var from := Point(Here(), CloseBegins, 0, 0, 0);
      turns, end := Step(from, [], from, CloseBegins, true, NOTHING);
      var owed := TakeOver();
      released := owed.Some?;
      if released {
        turns, end := Release(from, turns, end);
      }
      StepsKeepLatches(strict, from, turns, end);
    }

    /** Close the observation taken over, outside the lock. */
    method Release(ghost from: Point, ghost so: seq<Turn>, ghost at: Point) returns (ghost turns: seq<Turn>, ghost to: Point)
      requires Leads(strict, from, so, at) && at.task == CloseReleases && at.shared == Here()
      modifies this
      ensures Leads(strict, from, turns, to) && to == Point(Here(), CloseDone, at.calls, at.given, at.closes + 1)
      ensures closed == old(closed) || closed
    {
      Meanwhile();
      turns, to := Step(from, so, at, CloseReleases, true, NOTHING);
    }
  }
}
