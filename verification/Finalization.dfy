/** The finalization protocol: write if absent, read back and verify, then bind. Finalizers run interleaved with each
    other and with foreign writers, calls may fail before or after they took effect, and any of them may crash. */
module FinalizationProtocol {
  import opened Text
  import opened Calls
  import opened Artifacts

  datatype Name = Name(domain: string, id: string)

  /** The object store and the catalog. */
  datatype World = World(objects: map<string, Bytes>, catalog: map<Name, Record>)

  datatype Finalization = Finalization(binding: Binding, content: Bytes)

  datatype Failure = Invalid | Missing | Conflict | Unavailable | Cancelled

  datatype Outcome = Finalized(record: Record) | Failed(failure: Failure)

  function NameOf(r: Record): Name { Name(r.domain, r.id) }

  predicate Matches(rules: Rules, r: Record, content: Bytes) { |content| == r.sizeBytes && rules.digest(content) == r.digest }

  /** The record a finalization is for, once its binding and content have been checked. */
  function Accept(rules: Rules, maximum: nat, f: Finalization): Option<Record> {
    var binding := NormalizeBinding(rules, f.binding);
    if binding.None? then None
    else if binding.value.record.sizeBytes > maximum || |f.content| > maximum then None
    else if !Matches(rules, binding.value.record, f.content) then None
    else Some(binding.value.record)
  }

  // ---- One finalizer, one call at a time -------------------------------------------------------------------

  /** Where a finalizer is: the call it makes next, or how it ended. */
  datatype Phase =
    | Arrived
    | Looking(record: Record)
    | Rechecking(record: Record)
    | Writing(record: Record)
    | Verifying(record: Record, refused: bool)
    | Committing(record: Record)
    | Finished(outcome: Outcome)
    | Crashed

  function Interrupted(luck: Luck): Phase {
    if luck.Crash? then Crashed else Finished(Failed(if luck.Halted? then Cancelled else Unavailable))
  }

  /** Read an object back and check it against its record. */
  function ReadObject(rules: Rules, w: World, r: Record, maximum: nat): (Failure, Option<Bytes>) {
    if r.objectKey !in w.objects then (Unavailable, None)
    else
      var content := w.objects[r.objectKey];
      if |content| > maximum || !Matches(rules, r, content) then (Conflict, None) else (Conflict, Some(content))
  }

  function Put(w: World, key: string, content: Bytes): World {
    if key in w.objects then w else w.(objects := w.objects[key := content])
  }

  function Bind(w: World, r: Record): World {
    if NameOf(r) in w.catalog then w else w.(catalog := w.catalog[NameOf(r) := r])
  }

  function AfterLookup(rules: Rules, w: World, r: Record): Phase {
    if NameOf(r) !in w.catalog then Writing(r)
    else if NormalizeRecord(rules, w.catalog[NameOf(r)]) != Some(r) then Finished(Failed(Conflict))
    else Rechecking(r)
  }

  function AfterRecheck(rules: Rules, maximum: nat, f: Finalization, w: World, r: Record): Phase {
    var (failure, content) := ReadObject(rules, w, r, maximum);
    if content.None? then Finished(Failed(failure))
    else if content.value != f.content then Finished(Failed(Conflict))
    else Finished(Finalized(r))
  }

  function AfterVerify(rules: Rules, maximum: nat, f: Finalization, w: World, r: Record, refused: bool): Phase {
    var (failure, content) := ReadObject(rules, w, r, maximum);
    if content.None? then Finished(Failed(if refused then Conflict else failure))
    else if content.value != f.content then Finished(Failed(Conflict))
    else Committing(r)
  }

  function AfterBind(rules: Rules, w: World, r: Record): Phase {
    if NameOf(r) in w.catalog && w.catalog[NameOf(r)] != r then Finished(Failed(Conflict))
    else if NormalizeRecord(rules, r) != Some(r) then Finished(Failed(Conflict))
    else Finished(Finalized(r))
  }

  /** One call of a finalizer, and what it leads to. */
  function Advance(rules: Rules, maximum: nat, f: Finalization, w: World, phase: Phase, luck: Luck): (World, Phase) {
    match phase
    case Arrived =>
      (w, if Accept(rules, maximum, f).None? then Finished(Failed(Invalid)) else Looking(Accept(rules, maximum, f).value))
    case Looking(r) => (w, if luck.Smooth? then AfterLookup(rules, w, r) else Interrupted(luck))
    case Rechecking(r) => (w, if luck.Smooth? then AfterRecheck(rules, maximum, f, w, r) else Interrupted(luck))
    case Writing(r) =>
      (if Took(luck) then Put(w, r.objectKey, f.content) else w,
       match luck
       case Smooth => Verifying(r, r.objectKey in w.objects && w.objects[r.objectKey] != f.content)
       case Broken(_, conflict) => Verifying(r, conflict)
       case _ => Interrupted(luck))
    case Verifying(r, refused) =>
      (w, if luck.Smooth? then AfterVerify(rules, maximum, f, w, r, refused)
          else if luck.Broken? && refused then Finished(Failed(Conflict)) else Interrupted(luck))
    case Committing(r) =>
      (if Took(luck) then Bind(w, r) else w,
       if luck.Smooth? then AfterBind(rules, w, r)
       else if luck.Broken? && luck.conflict then Finished(Failed(Conflict)) else Interrupted(luck))
    case Finished(_) => (w, phase)
    case Crashed => (w, phase)
  }

  // ---- What holds whatever happens ---------------------------------------------------------------------------

  /** The record's object is there, with exactly the recorded size and digest. */
  ghost predicate Backed(rules: Rules, w: World, r: Record) {
    NormalizeRecord(rules, r) == Some(r) && r.objectKey in w.objects && Matches(rules, r, w.objects[r.objectKey])
  }

  ghost predicate Sound(rules: Rules, w: World) {
    forall n | n in w.catalog :: n == NameOf(w.catalog[n]) && Backed(rules, w, w.catalog[n])
  }

  /** No object and no record is ever changed or removed. */
  ghost predicate Extends(w: World, w': World) {
    && (forall key | key in w.objects :: key in w'.objects && w'.objects[key] == w.objects[key])
    && (forall n | n in w.catalog :: n in w'.catalog && w'.catalog[n] == w.catalog[n])
  }

  lemma ExtendsTransitive(a: World, b: World, c: World)
    requires Extends(a, b) && Extends(b, c)
    ensures Extends(a, c)
  {
  }

  ghost predicate Held(w: World, f: Finalization, r: Record) { r.objectKey in w.objects && w.objects[r.objectKey] == f.content }

  /** What a finalizer knows of the world at each point. */
  ghost predicate Knows(rules: Rules, maximum: nat, f: Finalization, w: World, phase: Phase) {
    match phase
    case Arrived => true
    case Looking(r) => Accept(rules, maximum, f) == Some(r)
    case Rechecking(r) => Accept(rules, maximum, f) == Some(r) && NameOf(r) in w.catalog && w.catalog[NameOf(r)] == r
    case Writing(r) => Accept(rules, maximum, f) == Some(r)
    case Verifying(r, _) => Accept(rules, maximum, f) == Some(r)
    case Committing(r) => Accept(rules, maximum, f) == Some(r) && Held(w, f, r)
    case Finished(Finalized(r)) =>
      Accept(rules, maximum, f) == Some(r) && Held(w, f, r) && NameOf(r) in w.catalog && w.catalog[NameOf(r)] == r
    case Finished(Failed(_)) => true
    case Crashed => true
  }

  lemma AcceptedMatches(rules: Rules, maximum: nat, f: Finalization, r: Record)
    requires Accept(rules, maximum, f) == Some(r)
    ensures NormalizeRecord(rules, r) == Some(r) && Matches(rules, r, f.content) && |f.content| <= maximum
  {
    NormalizeStable(rules, f.binding.record);
  }

  /** What one finalizer knows stays true whatever the others do. */
  lemma KnowledgeStays(rules: Rules, maximum: nat, f: Finalization, w: World, w': World, phase: Phase)
    requires Knows(rules, maximum, f, w, phase) && Extends(w, w')
    ensures Knows(rules, maximum, f, w', phase)
  {
  }

  lemma PutKeeps(rules: Rules, w: World, key: string, content: Bytes)
    requires Sound(rules, w)
    ensures Sound(rules, Put(w, key, content)) && Extends(w, Put(w, key, content))
    ensures key in Put(w, key, content).objects
  {
  }

  lemma BindKeeps(rules: Rules, w: World, r: Record)
    requires Sound(rules, w) && Backed(rules, w, r)
    ensures Sound(rules, Bind(w, r)) && Extends(w, Bind(w, r))
  {
  }

  lemma LookupKnows(rules: Rules, maximum: nat, f: Finalization, w: World, r: Record)
    requires Sound(rules, w) && Accept(rules, maximum, f) == Some(r)
    ensures Knows(rules, maximum, f, w, AfterLookup(rules, w, r))
  {
    if NameOf(r) in w.catalog {
      assert Backed(rules, w, w.catalog[NameOf(r)]);
    }
  }

  lemma ReadBackKnows(rules: Rules, maximum: nat, f: Finalization, w: World, r: Record, refused: bool)
    requires Accept(rules, maximum, f) == Some(r)
    ensures Knows(rules, maximum, f, w, AfterVerify(rules, maximum, f, w, r, refused))
    ensures NameOf(r) in w.catalog && w.catalog[NameOf(r)] == r ==> Knows(rules, maximum, f, w, AfterRecheck(rules, maximum, f, w, r))
  {
  }

  lemma CommitKeeps(rules: Rules, maximum: nat, f: Finalization, w: World, r: Record, luck: Luck)
    requires Sound(rules, w) && Knows(rules, maximum, f, w, Committing(r))
    ensures var (w', phase') := Advance(rules, maximum, f, w, Committing(r), luck);
      Sound(rules, w') && Extends(w, w') && Knows(rules, maximum, f, w', phase')
  {
    AcceptedMatches(rules, maximum, f, r);
    BindKeeps(rules, w, r);
  }

  /** No call, however it goes, leaves a record without its object or touches what is stored. */
  lemma AdvanceKeeps(rules: Rules, maximum: nat, f: Finalization, w: World, phase: Phase, luck: Luck)
    requires Sound(rules, w) && Knows(rules, maximum, f, w, phase)
    ensures var (w', phase') := Advance(rules, maximum, f, w, phase, luck);
      Sound(rules, w') && Extends(w, w') && Knows(rules, maximum, f, w', phase')
  {
    match phase
    case Looking(r) => LookupKnows(rules, maximum, f, w, r);
    case Rechecking(r) => ReadBackKnows(rules, maximum, f, w, r, false);
    case Writing(r) => PutKeeps(rules, w, r.objectKey, f.content);
    case Verifying(r, refused) => ReadBackKnows(rules, maximum, f, w, r, refused);
    case Committing(r) => CommitKeeps(rules, maximum, f, w, r, luck);
    case _ =>
  }

  // ---- Many finalizers at once -----------------------------------------------------------------------------------

  datatype Process = Process(job: Finalization, phase: Phase)

  datatype System = System(world: World, processes: seq<Process>)

  /** A finalizer starts; one of them makes a call; somebody else stores an object under a key that is free. */
  datatype Action = Start(job: Finalization) | Call(who: nat, luck: Luck) | Foreign(key: string, content: Bytes)

  function Next(rules: Rules, maximum: nat, sys: System, action: Action): System {
    match action
    case Start(job) => sys.(processes := sys.processes + [Process(job, Arrived)])
    case Call(who, luck) =>
      if who >= |sys.processes| then sys
      else
        var p := sys.processes[who];
        var (w, phase) := Advance(rules, maximum, p.job, sys.world, p.phase, luck);
        System(w, sys.processes[who := p.(phase := phase)])
    case Foreign(key, content) => sys.(world := Put(sys.world, key, content))
  }

  function Run(rules: Rules, maximum: nat, sys: System, actions: seq<Action>): System {
    if actions == [] then sys
    else Next(rules, maximum, Run(rules, maximum, sys, actions[..|actions| - 1]), actions[|actions| - 1])
  }

  ghost predicate Consistent(rules: Rules, maximum: nat, sys: System) {
    && Sound(rules, sys.world)
    && forall i | 0 <= i < |sys.processes| :: Knows(rules, maximum, sys.processes[i].job, sys.world, sys.processes[i].phase)
  }

  lemma NextKeeps(rules: Rules, maximum: nat, sys: System, action: Action)
    requires Consistent(rules, maximum, sys)
    ensures Consistent(rules, maximum, Next(rules, maximum, sys, action))
    ensures Extends(sys.world, Next(rules, maximum, sys, action).world)
  {
    var sys' := Next(rules, maximum, sys, action);
    match action
    case Start(_) =>
    case Call(who, luck) =>
      if who < |sys.processes| {
        var p := sys.processes[who];
        AdvanceKeeps(rules, maximum, p.job, sys.world, p.phase, luck);
        OthersStillKnow(rules, maximum, sys, sys'.world);
      }
    case Foreign(key, content) =>
      PutKeeps(rules, sys.world, key, content);
      OthersStillKnow(rules, maximum, sys, sys'.world);
  }

  lemma OthersStillKnow(rules: Rules, maximum: nat, sys: System, w: World)
    requires Consistent(rules, maximum, sys) && Extends(sys.world, w)
    ensures forall i | 0 <= i < |sys.processes| :: Knows(rules, maximum, sys.processes[i].job, w, sys.processes[i].phase)
  {
    forall i | 0 <= i < |sys.processes| ensures Knows(rules, maximum, sys.processes[i].job, w, sys.processes[i].phase) {
      KnowledgeStays(rules, maximum, sys.processes[i].job, sys.world, w, sys.processes[i].phase);
    }
  }

  /** Under any interleaving, with crashes and lost acknowledgements, every record in the catalog has its object under
      its key with exactly the recorded size and digest, and nothing stored is ever changed or removed. */
  lemma {:induction false} EveryRecordIsBacked(rules: Rules, maximum: nat, sys: System, actions: seq<Action>)
    requires Consistent(rules, maximum, sys)
    ensures Consistent(rules, maximum, Run(rules, maximum, sys, actions))
    ensures Extends(sys.world, Run(rules, maximum, sys, actions).world)
  {
    if actions != [] {
      var n := |actions| - 1;
      EveryRecordIsBacked(rules, maximum, sys, actions[..n]);
      var before := Run(rules, maximum, sys, actions[..n]);
      NextKeeps(rules, maximum, before, actions[n]);
      ExtendsTransitive(sys.world, before.world, Run(rules, maximum, sys, actions).world);
    }
  }

  /** A finalizer that returned a record has it in the catalog and its content in the store, then and ever after. */
  lemma FinalizedForGood(rules: Rules, maximum: nat, sys: System, actions: seq<Action>, i: nat)
    requires Consistent(rules, maximum, sys) && i < |sys.processes| && sys.processes[i].phase.Finished?
    requires sys.processes[i].phase.outcome.Finalized?
    ensures var r := sys.processes[i].phase.outcome.record; var w := Run(rules, maximum, sys, actions).world;
      NameOf(r) in w.catalog && w.catalog[NameOf(r)] == r && Held(w, sys.processes[i].job, r)
  {
    EveryRecordIsBacked(rules, maximum, sys, actions);
  }

  // ---- Retrying -----------------------------------------------------------------------------------------------------

  function Remaining(phase: Phase): nat {
    match phase
    case Arrived => 5 case Looking(_) => 4 case Writing(_) => 3 case Verifying(_, _) => 2
    case Rechecking(_) => 1 case Committing(_) => 1 case Finished(_) => 0 case Crashed => 0
  }

  /** A finalizer left alone, with every call answered. */
  function Undisturbed(rules: Rules, maximum: nat, f: Finalization, w: World, phase: Phase): (World, Phase)
    decreases Remaining(phase)
  {
    if Remaining(phase) == 0 then (w, phase)
    else
      var (w', phase') := Advance(rules, maximum, f, w, phase, Smooth);
      Undisturbed(rules, maximum, f, w', phase')
  }

  /** A different record under the name, or different content under the key. */
  ghost predicate Clashes(w: World, f: Finalization, r: Record) {
    || (NameOf(r) in w.catalog && w.catalog[NameOf(r)] != r)
    || (r.objectKey in w.objects && w.objects[r.objectKey] != f.content)
  }

  /** From any state that earlier attempts, faults and crashes may have left, an undisturbed finalization returns its
      record exactly when nothing conflicting is stored, and otherwise reports the conflict and changes nothing. */
  lemma RetrySucceedsUnlessClash(rules: Rules, maximum: nat, f: Finalization, w: World, r: Record)
    requires Sound(rules, w) && Accept(rules, maximum, f) == Some(r)
    ensures var (w', phase) := Undisturbed(rules, maximum, f, w, Arrived);
      && (Clashes(w, f, r) ==> phase == Finished(Failed(Conflict)) && w' == w)
      && (!Clashes(w, f, r) ==> phase == Finished(Finalized(r)) && w' == Bind(Put(w, r.objectKey, f.content), r))
  {
    AcceptedMatches(rules, maximum, f, r);
    var start := Advance(rules, maximum, f, w, Arrived, Smooth);
    assert start == (w, Looking(r));
    if NameOf(r) in w.catalog {
      KnownRetry(rules, maximum, f, w, r);
    } else {
      NewRetry(rules, maximum, f, w, r);
    }
  }

  lemma KnownRetry(rules: Rules, maximum: nat, f: Finalization, w: World, r: Record)
    requires Sound(rules, w) && NormalizeRecord(rules, r) == Some(r) && Matches(rules, r, f.content) && |f.content| <= maximum
    requires NameOf(r) in w.catalog
    ensures Undisturbed(rules, maximum, f, w, Looking(r)) ==
      (w, Finished(if Clashes(w, f, r) then Failed(Conflict) else Finalized(r)))
    ensures !Clashes(w, f, r) ==> w == Bind(Put(w, r.objectKey, f.content), r)
  {
    assert Backed(rules, w, w.catalog[NameOf(r)]);
    if w.catalog[NameOf(r)] == r {
      assert Undisturbed(rules, maximum, f, w, Rechecking(r)) == (w, AfterRecheck(rules, maximum, f, w, r));
    }
  }

  lemma NewRetry(rules: Rules, maximum: nat, f: Finalization, w: World, r: Record)
    requires NormalizeRecord(rules, r) == Some(r) && Matches(rules, r, f.content) && |f.content| <= maximum
    requires NameOf(r) !in w.catalog
    ensures Undisturbed(rules, maximum, f, w, Looking(r)) ==
      if Clashes(w, f, r) then (w, Finished(Failed(Conflict))) else (Bind(Put(w, r.objectKey, f.content), r), Finished(Finalized(r)))
  {
    var stored := Put(w, r.objectKey, f.content);
    var refused := r.objectKey in w.objects && w.objects[r.objectKey] != f.content;
    assert Undisturbed(rules, maximum, f, w, Writing(r)) == Undisturbed(rules, maximum, f, stored, Verifying(r, refused));
    if refused {
      assert Undisturbed(rules, maximum, f, stored, Verifying(r, refused)) == (w, Finished(Failed(Conflict)));
    } else {
      assert Undisturbed(rules, maximum, f, stored, Verifying(r, refused)) == Undisturbed(rules, maximum, f, stored, Committing(r));
      assert Undisturbed(rules, maximum, f, stored, Committing(r)) == (Bind(stored, r), Finished(Finalized(r)));
    }
  }

  /** A finalizer left alone, with every call answered except perhaps the write. */
  function WithWrite(rules: Rules, maximum: nat, f: Finalization, w: World, phase: Phase, write: Luck): (World, Phase)
    decreases Remaining(phase)
  {
    if Remaining(phase) == 0 then (w, phase)
    else
      var (w', phase') := Advance(rules, maximum, f, w, phase, if phase.Writing? then write else Smooth);
      WithWrite(rules, maximum, f, w', phase', write)
  }

  /** A write whose answer was lost is settled by reading back: the attempt returns its record exactly when the content is
      there, whoever stored it, and otherwise ends with what the write had said. */
  lemma LostWriteSettles(rules: Rules, maximum: nat, f: Finalization, w: World, r: Record, took: bool, conflict: bool)
    requires Accept(rules, maximum, f) == Some(r) && NameOf(r) !in w.catalog && !Clashes(w, f, r)
    ensures WithWrite(rules, maximum, f, w, Arrived, Broken(took, conflict)) ==
      if took || r.objectKey in w.objects then (Bind(Put(w, r.objectKey, f.content), r), Finished(Finalized(r)))
      else (w, Finished(Failed(if conflict then Conflict else Unavailable)))
  {
    var write := Broken(took, conflict);
    AcceptedMatches(rules, maximum, f, r);
    var stored := if took then Put(w, r.objectKey, f.content) else w;
    assert WithWrite(rules, maximum, f, w, Arrived, write) == WithWrite(rules, maximum, f, w, Looking(r), write);
    assert WithWrite(rules, maximum, f, w, Looking(r), write) == WithWrite(rules, maximum, f, w, Writing(r), write);
    assert WithWrite(rules, maximum, f, w, Writing(r), write) == WithWrite(rules, maximum, f, stored, Verifying(r, conflict), write);
    if took || r.objectKey in w.objects {
      assert WithWrite(rules, maximum, f, stored, Verifying(r, conflict), write) == WithWrite(rules, maximum, f, stored, Committing(r), write);
      assert WithWrite(rules, maximum, f, stored, Committing(r), write) == (Bind(stored, r), Finished(Finalized(r)));
    } else {
      assert WithWrite(rules, maximum, f, stored, Verifying(r, conflict), write) == (w, Finished(Failed(if conflict then Conflict else Unavailable)));
    }
  }

  /** Another attempt at the same record and content, under whatever claim, or work for another artifact. */
  ghost predicate Friendly(rules: Rules, maximum: nat, f: Finalization, r: Record, job: Finalization) {
    var other := Accept(rules, maximum, job);
    other.Some? ==> NameOf(other.value) != NameOf(r) || (other.value == r && job.content == f.content)
  }

  ghost predicate Harmless(rules: Rules, maximum: nat, f: Finalization, r: Record, action: Action) {
    match action
    case Start(job) => Friendly(rules, maximum, f, r, job)
    case Call(_, _) => true
    case Foreign(key, content) => key != r.objectKey || content == f.content
  }

  ghost predicate AllFriendly(rules: Rules, maximum: nat, f: Finalization, r: Record, sys: System) {
    forall i | 0 <= i < |sys.processes| :: Friendly(rules, maximum, f, r, sys.processes[i].job)
  }

  /** Attempts at one record and content, under whatever lease and however they fail, never stand in the way of a retry. */
  lemma {:induction false} AttemptsNeverClash(rules: Rules, maximum: nat, f: Finalization, r: Record, sys: System, actions: seq<Action>)
    requires Accept(rules, maximum, f) == Some(r) && Consistent(rules, maximum, sys) && AllFriendly(rules, maximum, f, r, sys)
    requires !Clashes(sys.world, f, r) && forall a | a in actions :: Harmless(rules, maximum, f, r, a)
    ensures var after := Run(rules, maximum, sys, actions);
      && AllFriendly(rules, maximum, f, r, after) && !Clashes(after.world, f, r)
      && Undisturbed(rules, maximum, f, after.world, Arrived).1 == Finished(Finalized(r))
  {
    if actions != [] {
      var n := |actions| - 1;
      assert forall a | a in actions[..n] :: a in actions;
      AttemptsNeverClash(rules, maximum, f, r, sys, actions[..n]);
      EveryRecordIsBacked(rules, maximum, sys, actions[..n]);
      NextStaysClear(rules, maximum, f, r, Run(rules, maximum, sys, actions[..n]), actions[n]);
    }
    EveryRecordIsBacked(rules, maximum, sys, actions);
    RetrySucceedsUnlessClash(rules, maximum, f, Run(rules, maximum, sys, actions).world, r);
  }

  lemma NextStaysClear(rules: Rules, maximum: nat, f: Finalization, r: Record, sys: System, action: Action)
    requires Accept(rules, maximum, f) == Some(r) && Consistent(rules, maximum, sys) && AllFriendly(rules, maximum, f, r, sys)
    requires !Clashes(sys.world, f, r) && Harmless(rules, maximum, f, r, action)
    ensures AllFriendly(rules, maximum, f, r, Next(rules, maximum, sys, action))
    ensures !Clashes(Next(rules, maximum, sys, action).world, f, r)
  {
    if action.Call? && action.who < |sys.processes| {
      var p := sys.processes[action.who];
      CallStaysClear(rules, maximum, f, r, sys.world, p.job, p.phase, action.luck);
    }
  }

  lemma CallStaysClear(rules: Rules, maximum: nat, f: Finalization, r: Record, w: World, job: Finalization, phase: Phase, luck: Luck)
    requires Accept(rules, maximum, f) == Some(r) && Knows(rules, maximum, job, w, phase) && !Clashes(w, f, r)
    requires Friendly(rules, maximum, f, r, job)
    ensures !Clashes(Advance(rules, maximum, job, w, phase, luck).0, f, r)
  {
    if phase.Writing? || phase.Committing? {
      FriendlyRecord(rules, maximum, f, r, job, phase.record);
    }
  }

  /** Two accepted records of different names name different objects. */
  lemma FriendlyRecord(rules: Rules, maximum: nat, f: Finalization, r: Record, job: Finalization, record: Record)
    requires Accept(rules, maximum, f) == Some(r) && Accept(rules, maximum, job) == Some(record)
    requires Friendly(rules, maximum, f, r, job)
    ensures (record == r && job.content == f.content) || (NameOf(record) != NameOf(r) && record.objectKey != r.objectKey)
  {
    if record != r {
      AcceptedMatches(rules, maximum, f, r);
      AcceptedMatches(rules, maximum, job, record);
      ObjectKeyInjective(rules, record, r);
    }
  }
}
