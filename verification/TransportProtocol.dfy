/** The delivery protocol for encrypted audit packages: reserve, write if absent, read back exactly, then complete.
    Transports run interleaved with each other and with foreign writers, calls may fail before or after they took
    effect, and any of them may crash. */
module TransportProtocol {
  import opened Text
  import opened Calls

  const MAXIMUM_PACKAGE_BYTES := 100 * 0x10_0000

  datatype Failure = Refused | Conflict | Unavailable | Cancelled

  datatype Delivery = Delivery(id: string, digest: string)

  /** One transport: whether it is authorized, what it delivers, the package file if it can be read, and where to. */
  datatype Job = Job(authorized: bool, delivery: Delivery, package: Option<Bytes>, key: string)

  /** A completed delivery with the place and the bytes it was completed for. */
  datatype Receipt = Receipt(delivery: Delivery, key: string, content: Bytes)

  /** The destination, and what the repository has recorded. */
  datatype World = World(objects: map<string, Bytes>, reserved: set<Delivery>, completed: set<Receipt>)

  // ---- One transport, one call at a time -----------------------------------------------------------------

  /** Where a transport is: what it does next, or how it ended (without a failure, it has completed). */
  datatype Phase =
    | Arrived
    | Reserving
    | Fetching
    | Checking
    | Writing
    | Opening(refused: bool)
    | Reading(observed: Bytes)
    | Completing
    | Finished(failure: Option<Failure>)
    | Crashed

  predicate Fetched(digest: Bytes -> string, job: Job) { job.package.Some? && digest(job.package.value) == job.delivery.digest }

  predicate Deliverable(digest: Bytes -> string, key: string, content: Bytes, expected: string) {
    key != "" && digest(content) == expected && 0 < |content| <= MAXIMUM_PACKAGE_BYTES
  }

  predicate Ready(digest: Bytes -> string, job: Job) {
    job.package.Some? && Deliverable(digest, job.key, job.package.value, job.delivery.digest)
  }

  function Interrupted(luck: Luck): Phase {
    if luck.Crash? then Crashed else Finished(Some(if luck.Halted? then Cancelled else Unavailable))
  }

  function Reserve(w: World, d: Delivery): World { w.(reserved := w.reserved + {d}) }

  function Put(w: World, key: string, content: Bytes): World {
    if key in w.objects then w else w.(objects := w.objects[key := content])
  }

  function Complete(w: World, r: Receipt): World { w.(completed := w.completed + {r}) }

  function Refusal(refused: bool, luck: Luck): Phase {
    if luck.Crash? || luck.Halted? then Interrupted(luck)
    else Finished(Some(if refused || (luck.Broken? && luck.conflict) then Conflict else Unavailable))
  }

  function AfterOpen(w: World, key: string, refused: bool, luck: Luck): Phase {
    if luck.Smooth? && key in w.objects then Reading(w.objects[key]) else Refusal(refused, luck)
  }

  function AfterRead(digest: Bytes -> string, content: Bytes, expected: string, observed: Bytes, luck: Luck): Phase {
    if luck.Crash? then Crashed
    else if !luck.Smooth? || |observed| == 0 || |observed| > MAXIMUM_PACKAGE_BYTES then Finished(Some(Unavailable))
    else if digest(observed) != expected || observed != content then Finished(Some(Conflict))
    else Completing
  }

  /** What the transport has of the package; only looked at where it has it. */
  function ContentOf(job: Job): Bytes { if job.package.Some? then job.package.value else [] }

  function ReceiptOf(job: Job): Receipt { Receipt(job.delivery, job.key, ContentOf(job)) }

  /** One step of a transport, and what it leads to. */
  function Advance(digest: Bytes -> string, job: Job, w: World, phase: Phase, luck: Luck): (World, Phase) {
    match phase
    case Arrived => (w, if job.authorized then Reserving else Finished(Some(Refused)))
    case Reserving => (if Took(luck) then Reserve(w, job.delivery) else w, if luck.Smooth? then Fetching else Interrupted(luck))
    case Fetching => (w, if Fetched(digest, job) then Checking else Finished(Some(Unavailable)))
    case Checking => (w, if Ready(digest, job) then Writing else Finished(Some(Conflict)))
    case Writing =>
      (if Took(luck) then Put(w, job.key, ContentOf(job)) else w,
       match luck
       case Smooth => Opening(job.key in w.objects && w.objects[job.key] != ContentOf(job))
       case Broken(_, conflict) => Opening(conflict)
       case _ => Interrupted(luck))
    case Opening(refused) => (w, AfterOpen(w, job.key, refused, luck))
    case Reading(observed) => (w, AfterRead(digest, ContentOf(job), job.delivery.digest, observed, luck))
    case Completing =>
      (if Took(luck) then Complete(w, ReceiptOf(job)) else w, if luck.Smooth? then Finished(None) else Interrupted(luck))
    case Finished(_) => (w, phase)
    case Crashed => (w, phase)
  }

  // ---- What holds whatever happens ---------------------------------------------------------------------------

  /** Nothing stored is replaced, nothing recorded is withdrawn. */
  ghost predicate Grows(w: World, w': World) {
    && (forall key | key in w.objects :: key in w'.objects && w'.objects[key] == w.objects[key])
    && w.reserved <= w'.reserved && w.completed <= w'.completed
  }

  /** The delivery was reserved, and the destination holds exactly the package under the key. */
  ghost predicate Delivered(digest: Bytes -> string, w: World, r: Receipt) {
    && r.delivery in w.reserved
    && r.key in w.objects && w.objects[r.key] == r.content
    && digest(r.content) == r.delivery.digest && 0 < |r.content| <= MAXIMUM_PACKAGE_BYTES
  }

  /** Completion is recorded only for what was delivered. */
  ghost predicate Honest(digest: Bytes -> string, w: World) { forall r | r in w.completed :: Delivered(digest, w, r) }

  /** What a transport knows of the world at each point. */
  ghost predicate Knows(digest: Bytes -> string, job: Job, w: World, phase: Phase) {
    match phase
    case Arrived => true
    case Reserving => job.authorized
    case Fetching => job.authorized && job.delivery in w.reserved
    case Checking => job.authorized && job.delivery in w.reserved
    case Writing => job.authorized && job.delivery in w.reserved && Ready(digest, job)
    case Opening(_) => job.authorized && job.delivery in w.reserved && Ready(digest, job)
    case Reading(observed) =>
      && job.authorized && job.delivery in w.reserved && Ready(digest, job)
      && job.key in w.objects && w.objects[job.key] == observed
    case Completing => job.authorized && Ready(digest, job) && Delivered(digest, w, ReceiptOf(job))
    case Finished(None) => job.authorized && Ready(digest, job) && ReceiptOf(job) in w.completed && Delivered(digest, w, ReceiptOf(job))
    case Finished(Some(_)) => true
    case Crashed => true
  }

  /** What one transport knows stays true whatever the others do. */
  lemma KnowledgeStays(digest: Bytes -> string, job: Job, w: World, w': World, phase: Phase)
    requires Knows(digest, job, w, phase) && Grows(w, w')
    ensures Knows(digest, job, w', phase)
  {
  }

  /** No step, however it goes, replaces or withdraws anything, or completes what is not delivered. */
  lemma AdvanceKeeps(digest: Bytes -> string, job: Job, w: World, phase: Phase, luck: Luck)
    requires Knows(digest, job, w, phase)
    ensures var (w', phase') := Advance(digest, job, w, phase, luck);
      && Grows(w, w') && Knows(digest, job, w', phase')
      && (Honest(digest, w) ==> Honest(digest, w'))
  {
  }

  // ---- Many transports at once -----------------------------------------------------------------------------------

  datatype Process = Process(job: Job, phase: Phase)

  datatype System = System(world: World, processes: seq<Process>)

  /** A transport starts; one of them takes a step; somebody else stores an object under a key that is free. */
  datatype Action = Start(job: Job) | Call(who: nat, luck: Luck) | Foreign(key: string, content: Bytes)

  function Next(digest: Bytes -> string, sys: System, action: Action): System {
    match action
    case Start(job) => sys.(processes := sys.processes + [Process(job, Arrived)])
    case Call(who, luck) =>
      if who >= |sys.processes| then sys
      else
        var p := sys.processes[who];
        var (w, phase) := Advance(digest, p.job, sys.world, p.phase, luck);
        System(w, sys.processes[who := p.(phase := phase)])
    case Foreign(key, content) => sys.(world := Put(sys.world, key, content))
  }

  function Run(digest: Bytes -> string, sys: System, actions: seq<Action>): System {
    if actions == [] then sys
    else Next(digest, Run(digest, sys, actions[..|actions| - 1]), actions[|actions| - 1])
  }

  ghost predicate Consistent(digest: Bytes -> string, sys: System) {
    && Honest(digest, sys.world)
    && forall i | 0 <= i < |sys.processes| :: Knows(digest, sys.processes[i].job, sys.world, sys.processes[i].phase)
  }

  lemma OthersStillKnow(digest: Bytes -> string, sys: System, w: World)
    requires Consistent(digest, sys) && Grows(sys.world, w)
    ensures forall i | 0 <= i < |sys.processes| :: Knows(digest, sys.processes[i].job, w, sys.processes[i].phase)
  {
    forall i | 0 <= i < |sys.processes| ensures Knows(digest, sys.processes[i].job, w, sys.processes[i].phase) {
      KnowledgeStays(digest, sys.processes[i].job, sys.world, w, sys.processes[i].phase);
    }
  }

  lemma NextKeeps(digest: Bytes -> string, sys: System, action: Action)
    requires Consistent(digest, sys)
    ensures Consistent(digest, Next(digest, sys, action))
    ensures Grows(sys.world, Next(digest, sys, action).world)
  {
    var sys' := Next(digest, sys, action);
    match action
    case Start(_) =>
    case Call(who, luck) =>
      if who < |sys.processes| {
        var p := sys.processes[who];
        AdvanceKeeps(digest, p.job, sys.world, p.phase, luck);
        OthersStillKnow(digest, sys, sys'.world);
      }
    case Foreign(key, content) => OthersStillKnow(digest, sys, sys'.world);
  }

  /** Under any interleaving of transports and foreign writers, with crashes and lost acknowledgements, completion is
      recorded only for reserved deliveries whose exact package is in place, and no object is ever replaced. */
  lemma {:induction false} EveryCompletionDelivered(digest: Bytes -> string, sys: System, actions: seq<Action>)
    requires Consistent(digest, sys)
    ensures Consistent(digest, Run(digest, sys, actions))
    ensures Grows(sys.world, Run(digest, sys, actions).world)
  {
    if actions != [] {
      var n := |actions| - 1;
      EveryCompletionDelivered(digest, sys, actions[..n]);
      NextKeeps(digest, Run(digest, sys, actions[..n]), actions[n]);
    }
  }

  /** Once a different object is under the key, it stays there, and the package is never completed there. */
  lemma DifferentNeverCompleted(digest: Bytes -> string, sys: System, actions: seq<Action>, r: Receipt)
    requires Consistent(digest, sys) && r.key in sys.world.objects && sys.world.objects[r.key] != r.content
    ensures var w := Run(digest, sys, actions).world;
      r.key in w.objects && w.objects[r.key] == sys.world.objects[r.key] && r !in w.completed
  {
    EveryCompletionDelivered(digest, sys, actions);
  }

  // ---- Retrying -----------------------------------------------------------------------------------------------------

  function Remaining(phase: Phase): nat {
    match phase
    case Arrived => 7 case Reserving => 6 case Fetching => 5 case Checking => 4 case Writing => 3
    case Opening(_) => 2 case Reading(_) => 1 case Completing => 0 case Finished(_) => 0 case Crashed => 0
  }

  /** A transport left alone, with every call answered. */
  function Undisturbed(digest: Bytes -> string, job: Job, w: World, phase: Phase): (World, Phase)
    decreases Remaining(phase)
  {
    var (w', phase') := Advance(digest, job, w, phase, Smooth);
    if Remaining(phase) == 0 then (w', phase') else Undisturbed(digest, job, w', phase')
  }

  /** A different object is under the transport's key. */
  predicate Occupied(w: World, job: Job) { job.key in w.objects && w.objects[job.key] != ContentOf(job) }

  /** From any world earlier attempts, faults and crashes may have left, an undisturbed transport completes exactly when
      it is authorized, its package is deliverable and no different object is under its key. A different object costs
      it the reservation and nothing else; how it is told apart depends on whether the object could be a package. */
  lemma CompletesUnlessDifferent(digest: Bytes -> string, job: Job, w: World)
    ensures var (w', phase) := Undisturbed(digest, job, w, Arrived);
      && (phase == Finished(None) <==> job.authorized && Ready(digest, job) && !Occupied(w, job))
      && (phase == Finished(None) ==> w' == Complete(Put(Reserve(w, job.delivery), job.key, ContentOf(job)), ReceiptOf(job)))
      && (phase != Finished(None) ==> w' == if job.authorized then Reserve(w, job.delivery) else w)
      && (job.authorized && Ready(digest, job) && Occupied(w, job) ==>
            phase == Finished(Some(if 0 < |w.objects[job.key]| <= MAXIMUM_PACKAGE_BYTES then Conflict else Unavailable)))
  {
    if job.authorized {
      var reserved := Reserve(w, job.delivery);
      assert Undisturbed(digest, job, w, Arrived) == Undisturbed(digest, job, reserved, Fetching);
      if Ready(digest, job) {
        FromWriting(digest, job, reserved);
        assert Undisturbed(digest, job, reserved, Fetching) == Undisturbed(digest, job, reserved, Writing);
      }
    }
  }

  lemma FromWriting(digest: Bytes -> string, job: Job, w: World)
    requires Ready(digest, job)
    ensures Undisturbed(digest, job, w, Writing) ==
      if Occupied(w, job) then (w, Finished(Some(if 0 < |w.objects[job.key]| <= MAXIMUM_PACKAGE_BYTES then Conflict else Unavailable)))
      else (Complete(Put(w, job.key, ContentOf(job)), ReceiptOf(job)), Finished(None))
  {
    var stored := Put(w, job.key, ContentOf(job));
    var refused := Occupied(w, job);
    var observed := stored.objects[job.key];
    assert Undisturbed(digest, job, w, Writing) == Undisturbed(digest, job, stored, Opening(refused));
    assert Undisturbed(digest, job, stored, Opening(refused)) == Undisturbed(digest, job, stored, Reading(observed));
    var next := AfterRead(digest, ContentOf(job), job.delivery.digest, observed, Smooth);
    assert Undisturbed(digest, job, stored, Reading(observed)) == Undisturbed(digest, job, stored, next);
  }

  /** A transport left alone, with every call answered except perhaps the write. */
  function WithPut(digest: Bytes -> string, job: Job, w: World, phase: Phase, put: Luck): (World, Phase)
    decreases Remaining(phase)
  {
    var (w', phase') := Advance(digest, job, w, phase, if phase.Writing? then put else Smooth);
    if Remaining(phase) == 0 then (w', phase') else WithPut(digest, job, w', phase', put)
  }

  /** A write whose answer was lost is settled by reading back: the transport completes exactly when the package is there,
      whoever stored it, and otherwise ends with what the write had said. */
  lemma LostWriteSettles(digest: Bytes -> string, job: Job, w: World, took: bool, conflict: bool)
    requires job.authorized && Ready(digest, job) && !Occupied(w, job)
    ensures var reserved := Reserve(w, job.delivery);
      WithPut(digest, job, w, Arrived, Broken(took, conflict)) ==
      if took || job.key in w.objects then (Complete(Put(reserved, job.key, ContentOf(job)), ReceiptOf(job)), Finished(None))
      else (reserved, Finished(Some(if conflict then Conflict else Unavailable)))
  {
    var put, reserved := Broken(took, conflict), Reserve(w, job.delivery);
    var stored := if took then Put(reserved, job.key, ContentOf(job)) else reserved;
    assert WithPut(digest, job, w, Arrived, put) == WithPut(digest, job, w, Reserving, put);
    assert WithPut(digest, job, w, Reserving, put) == WithPut(digest, job, reserved, Fetching, put);
    assert WithPut(digest, job, reserved, Fetching, put) == WithPut(digest, job, reserved, Checking, put);
    assert WithPut(digest, job, reserved, Checking, put) == WithPut(digest, job, reserved, Writing, put);
    assert WithPut(digest, job, reserved, Writing, put) == WithPut(digest, job, stored, Opening(conflict), put);
    if took || job.key in w.objects {
      assert WithPut(digest, job, stored, Opening(conflict), put) == WithPut(digest, job, stored, Reading(ContentOf(job)), put);
      assert WithPut(digest, job, stored, Reading(ContentOf(job)), put) == WithPut(digest, job, stored, Completing, put);
    } else {
      assert WithPut(digest, job, stored, Opening(conflict), put)
          == WithPut(digest, job, stored, Finished(Some(if conflict then Conflict else Unavailable)), put);
    }
  }

  /** The other job works elsewhere, or delivers the same bytes. */
  predicate Agrees(job: Job, other: Job) { other.key != job.key || ContentOf(other) == ContentOf(job) }

  predicate Harmless(job: Job, action: Action) {
    match action
    case Start(other) => Agrees(job, other)
    case Call(_, _) => true
    case Foreign(key, content) => key != job.key || content == ContentOf(job)
  }

  ghost predicate AllAgree(job: Job, sys: System) { forall i | 0 <= i < |sys.processes| :: Agrees(job, sys.processes[i].job) }

  /** Attempts at one delivery, however they fail and however many there are, never stand in the way of a retry. */
  lemma {:induction false} AttemptsNeverBlock(digest: Bytes -> string, job: Job, sys: System, actions: seq<Action>)
    requires job.authorized && Ready(digest, job) && AllAgree(job, sys) && !Occupied(sys.world, job)
    requires forall a | a in actions :: Harmless(job, a)
    ensures var after := Run(digest, sys, actions);
      && AllAgree(job, after) && !Occupied(after.world, job)
      && Undisturbed(digest, job, after.world, Arrived).1 == Finished(None)
  {
    if actions != [] {
      var n := |actions| - 1;
      assert forall a | a in actions[..n] :: a in actions;
      AttemptsNeverBlock(digest, job, sys, actions[..n]);
      NextStaysFree(digest, job, Run(digest, sys, actions[..n]), actions[n]);
    }
    CompletesUnlessDifferent(digest, job, Run(digest, sys, actions).world);
  }

  lemma NextStaysFree(digest: Bytes -> string, job: Job, sys: System, action: Action)
    requires AllAgree(job, sys) && !Occupied(sys.world, job) && Harmless(job, action)
    ensures AllAgree(job, Next(digest, sys, action)) && !Occupied(Next(digest, sys, action).world, job)
  {
  }
}
