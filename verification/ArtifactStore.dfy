/** Finalizing and reading artifacts, call by call, against a store that other processes use at the same time.
    `Finalize` is proved to take only the steps of the finalization protocol. */
module ArtifactStore {
  import opened Text
  import opened Calls
  import opened Artifacts
  import opened FinalizationProtocol

  datatype Result<T> = Ok(value: T) | Err(failure: Failure)

  /** The calls a finalizer may make. */
  datatype Site = AtLookup | AtRecheck | AtWrite | AtVerify | AtBind

  /** One call: the world it found, and how it went. */
  datatype Turn = Turn(before: World, luck: Luck)

  ghost function PhaseAfter(rules: Rules, maximum: nat, f: Finalization, turns: seq<Turn>): Phase {
    if turns == [] then Arrived
    else
      var last := turns[|turns| - 1];
      Advance(rules, maximum, f, last.before, PhaseAfter(rules, maximum, f, turns[..|turns| - 1]), last.luck).1
  }

  /** The world right after the last call, given the world before the first. */
  ghost function WorldAfter(rules: Rules, maximum: nat, f: Finalization, start: World, turns: seq<Turn>): World {
    if turns == [] then start
    else
      var last := turns[|turns| - 1];
      Advance(rules, maximum, f, last.before, PhaseAfter(rules, maximum, f, turns[..|turns| - 1]), last.luck).0
  }

  /** How the call made at this point goes. */
  function LuckAt(weather: Site -> Luck, phase: Phase): Luck {
    match phase
    case Looking(_) => weather(AtLookup)
    case Rechecking(_) => weather(AtRecheck)
    case Writing(_) => weather(AtWrite)
    case Verifying(_, _) => weather(AtVerify)
    case Committing(_) => weather(AtBind)
    case _ => Smooth
  }

  /** Each call goes as the weather says, and between the calls others only add to a sound world. */
  ghost predicate Interleaved(rules: Rules, maximum: nat, f: Finalization, weather: Site -> Luck, start: World, turns: seq<Turn>) {
    turns == [] ||
    var n := |turns| - 1;
    && Interleaved(rules, maximum, f, weather, start, turns[..n])
    && turns[n].luck == LuckAt(weather, PhaseAfter(rules, maximum, f, turns[..n]))
    && Others(rules, WorldAfter(rules, maximum, f, start, turns[..n]), turns[n].before)
  }

  ghost predicate Others(rules: Rules, w: World, w': World) { Extends(w, w') && (Sound(rules, w) ==> Sound(rules, w')) }

  predicate Succeeded(end: Phase) { end.Finished? && end.outcome.Finalized? }

  /** The record is the finalization's, it is bound, and exactly its content is under its key. */
  ghost predicate Bound(rules: Rules, maximum: nat, f: Finalization, w: World, r: Record) {
    Accept(rules, maximum, f) == Some(r) && NameOf(r) in w.catalog && w.catalog[NameOf(r)] == r && Held(w, f, r)
  }

  datatype Content = Content(record: Record, bytes: Bytes)

  /** Where a read looks at its context or makes a call. */
  datatype Moment = AtStart | AtFirst | BeforeObject | AtObject | AfterObject | AtSecond

  /** The artifact belongs to the invocation and is within the bound. */
  ghost predicate Available(w: World, maximum: nat, domain: string, invocationId: string, artifactId: string) {
    var name := Name(domain, artifactId);
    && Tagged(domain, "iso") && Tagged(invocationId, "inv") && Tagged(artifactId, "art")
    && name in w.catalog && w.catalog[name].invocationId == invocationId && w.catalog[name].sizeBytes <= maximum
  }

  /** The artifact belongs to another invocation. */
  ghost predicate Elsewhere(w: World, domain: string, invocationId: string, artifactId: string) {
    var name := Name(domain, artifactId);
    && Tagged(domain, "iso") && Tagged(invocationId, "inv") && Tagged(artifactId, "art")
    && name in w.catalog && w.catalog[name].invocationId != invocationId
  }

  /** Every call was answered and the context never seen to have ended. */
  predicate Calm(weather: Moment -> Luck) {
    && weather(AtFirst).Smooth? && weather(AtObject).Smooth? && weather(AtSecond).Smooth?
    && !weather(AtStart).Halted? && !weather(BeforeObject).Halted? && !weather(AfterObject).Halted?
  }

  ghost predicate LookupRefused(w: World, maximum: nat, name: Name, invocationId: string, luck: Luck, failure: Failure) {
    match failure
    case Missing => luck.Smooth? && (name !in w.catalog || w.catalog[name].invocationId != invocationId)
    case Cancelled => luck.Halted?
    case Unavailable => luck.Broken? || luck.Crash? || (name in w.catalog && w.catalog[name].sizeBytes > maximum)
    case _ => false
  }

  lemma RefusedEarlier(w: World, w': World, maximum: nat, domain: string, invocationId: string, artifactId: string,
                       weather: Moment -> Luck, failure: Failure)
    requires Extends(w, w') && LookupRefused(w', maximum, Name(domain, artifactId), invocationId, weather(AtFirst), failure)
    ensures ReadRefused(w, maximum, domain, invocationId, artifactId, weather, failure)
  {
  }

  /** What a read may answer instead of the content: it never reports an artifact of the invocation missing, and never
      blames the stored content. */
  ghost predicate ReadRefused(w: World, maximum: nat, domain: string, invocationId: string, artifactId: string,
                              weather: Moment -> Luck, failure: Failure) {
    var name := Name(domain, artifactId);
    match failure
    case Invalid => !Tagged(domain, "iso") || !Tagged(invocationId, "inv") || !Tagged(artifactId, "art")
    case Missing => name !in w.catalog || w.catalog[name].invocationId != invocationId
    case Cancelled => exists at :: weather(at).Halted?
    case Unavailable =>
      (exists at :: weather(at).Broken? || weather(at).Crash?) || name !in w.catalog || w.catalog[name].sizeBytes > maximum
    case Conflict => false
  }

  ghost function Stored(w: World, name: Name): Content
    requires name in w.catalog && w.catalog[name].objectKey in w.objects
  {
    Content(w.catalog[name], w.objects[w.catalog[name].objectKey])
  }

  lemma {:induction false} TurnsKeep(rules: Rules, maximum: nat, f: Finalization, weather: Site -> Luck, start: World, turns: seq<Turn>)
    requires Sound(rules, start) && Interleaved(rules, maximum, f, weather, start, turns)
    ensures var w := WorldAfter(rules, maximum, f, start, turns);
      Sound(rules, w) && Extends(start, w) && Knows(rules, maximum, f, w, PhaseAfter(rules, maximum, f, turns))
  {
    if turns != [] {
      var n := |turns| - 1;
      TurnsKeep(rules, maximum, f, weather, start, turns[..n]);
      var w, phase := WorldAfter(rules, maximum, f, start, turns[..n]), PhaseAfter(rules, maximum, f, turns[..n]);
      KnowledgeStays(rules, maximum, f, w, turns[n].before, phase);
      AdvanceKeeps(rules, maximum, f, turns[n].before, phase, turns[n].luck);
      ExtendsTransitive(start, w, turns[n].before);
      ExtendsTransitive(start, turns[n].before, WorldAfter(rules, maximum, f, start, turns));
    }
  }

  /** One more call by the finalizer. */
  lemma ExtendTurns(rules: Rules, maximum: nat, f: Finalization, weather: Site -> Luck, start: World, turns: seq<Turn>, t: Turn)
    requires Interleaved(rules, maximum, f, weather, start, turns) && Others(rules, WorldAfter(rules, maximum, f, start, turns), t.before)
    requires t.luck == LuckAt(weather, PhaseAfter(rules, maximum, f, turns))
    ensures Interleaved(rules, maximum, f, weather, start, turns + [t])
    ensures Advance(rules, maximum, f, t.before, PhaseAfter(rules, maximum, f, turns), t.luck)
         == (WorldAfter(rules, maximum, f, start, turns + [t]), PhaseAfter(rules, maximum, f, turns + [t]))
  {
    assert (turns + [t])[..|turns|] == turns;
  }

  // ---- How attempts end, whatever the others do -------------------------------------------------------------

  ghost predicate Told(weather: Site -> Luck) { exists at :: weather(at).Broken? && weather(at).conflict }

  predicate WentThrough(luck: Luck) { luck.Smooth? || luck.Broken? }

  /** Every failure has its reason: a refused finalization, a failed call, an ended context, a crash, or a clash. And every
      success has had its answers: only that of the write may have been lost. */
  ghost predicate Reasoned(rules: Rules, maximum: nat, f: Finalization, weather: Site -> Luck, w: World, phase: Phase) {
    match phase
    case Finished(Failed(Invalid)) => Accept(rules, maximum, f).None?
    case Finished(Failed(Missing)) => false
    case Finished(Failed(Cancelled)) => exists at :: weather(at).Halted?
    case Finished(Failed(Unavailable)) => exists at :: weather(at).Broken?
    case Finished(Failed(Conflict)) => Told(weather) || (Accept(rules, maximum, f).Some? && Clashes(w, f, Accept(rules, maximum, f).value))
    case Crashed => exists at :: weather(at).Crash?
    case Writing(_) => weather(AtLookup).Smooth?
    case Rechecking(_) => weather(AtLookup).Smooth?
    case Verifying(r, refused) =>
      && weather(AtLookup).Smooth? && WentThrough(weather(AtWrite))
      && (refused ==> Told(weather) || Clashes(w, f, r))
      && (r.objectKey !in w.objects ==> weather(AtWrite).Broken?)
    case Committing(_) => weather(AtLookup).Smooth? && WentThrough(weather(AtWrite)) && weather(AtVerify).Smooth?
    case Finished(Finalized(_)) =>
      && weather(AtLookup).Smooth?
      && (weather(AtRecheck).Smooth? || (WentThrough(weather(AtWrite)) && weather(AtVerify).Smooth? && weather(AtBind).Smooth?))
    case _ => true
  }

  lemma ReasonStays(rules: Rules, maximum: nat, f: Finalization, weather: Site -> Luck, w: World, w': World, phase: Phase)
    requires Reasoned(rules, maximum, f, weather, w, phase) && Extends(w, w')
    ensures Reasoned(rules, maximum, f, weather, w', phase)
  {
  }

  lemma ReasonStep(rules: Rules, maximum: nat, f: Finalization, weather: Site -> Luck, w: World, phase: Phase)
    requires Sound(rules, w) && Knows(rules, maximum, f, w, phase) && Reasoned(rules, maximum, f, weather, w, phase)
    ensures var (w', phase') := Advance(rules, maximum, f, w, phase, LuckAt(weather, phase));
      Reasoned(rules, maximum, f, weather, w', phase')
  {
    match phase
    case Looking(r) => LookupReasoned(rules, maximum, f, weather, w, r);
    case Rechecking(r) => RecheckReasoned(rules, maximum, f, weather, w, r);
    case Verifying(r, refused) => VerifyReasoned(rules, maximum, f, weather, w, r, refused);
    case Committing(r) => AcceptedMatches(rules, maximum, f, r);
    case _ =>
  }

  lemma LookupReasoned(rules: Rules, maximum: nat, f: Finalization, weather: Site -> Luck, w: World, r: Record)
    requires Sound(rules, w) && Accept(rules, maximum, f) == Some(r)
    ensures Reasoned(rules, maximum, f, weather, w, Advance(rules, maximum, f, w, Looking(r), weather(AtLookup)).1)
  {
    AcceptedMatches(rules, maximum, f, r);
    assert NameOf(r) in w.catalog ==> Backed(rules, w, w.catalog[NameOf(r)]);
  }

  lemma RecheckReasoned(rules: Rules, maximum: nat, f: Finalization, weather: Site -> Luck, w: World, r: Record)
    requires Sound(rules, w) && Knows(rules, maximum, f, w, Rechecking(r)) && weather(AtLookup).Smooth?
    ensures Reasoned(rules, maximum, f, weather, w, Advance(rules, maximum, f, w, Rechecking(r), weather(AtRecheck)).1)
  {
    AcceptedMatches(rules, maximum, f, r);
    assert Backed(rules, w, w.catalog[NameOf(r)]);
  }

  lemma VerifyReasoned(rules: Rules, maximum: nat, f: Finalization, weather: Site -> Luck, w: World, r: Record, refused: bool)
    requires Accept(rules, maximum, f) == Some(r) && Reasoned(rules, maximum, f, weather, w, Verifying(r, refused))
    ensures Reasoned(rules, maximum, f, weather, w, Advance(rules, maximum, f, w, Verifying(r, refused), weather(AtVerify)).1)
  {
    AcceptedMatches(rules, maximum, f, r);
  }

  lemma {:induction false} FailuresHaveReasons(rules: Rules, maximum: nat, f: Finalization, weather: Site -> Luck, start: World, turns: seq<Turn>)
    requires Sound(rules, start) && Interleaved(rules, maximum, f, weather, start, turns)
    ensures Reasoned(rules, maximum, f, weather, WorldAfter(rules, maximum, f, start, turns), PhaseAfter(rules, maximum, f, turns))
  {
    if turns != [] {
      var n := |turns| - 1;
      var w, phase := WorldAfter(rules, maximum, f, start, turns[..n]), PhaseAfter(rules, maximum, f, turns[..n]);
      FailuresHaveReasons(rules, maximum, f, weather, start, turns[..n]);
      TurnsKeep(rules, maximum, f, weather, start, turns[..n]);
      KnowledgeStays(rules, maximum, f, w, turns[n].before, phase);
      ReasonStays(rules, maximum, f, weather, w, turns[n].before, phase);
      ReasonStep(rules, maximum, f, weather, turns[n].before, phase);
    }
  }

  /** On the way to the record, or something different is stored in its place. */
  ghost predicate OnTrack(f: Finalization, r: Record, w: World, phase: Phase) {
    Clashes(w, f, r) ||
    match phase
    case Arrived => true
    case Verifying(x, _) => x == r && r.objectKey in w.objects
    case Finished(outcome) => outcome == Finalized(r)
    case Crashed => false
    case _ => phase.record == r
  }

  /** Every call is answered, or only the answer to a write is lost whose content is there all the same. */
  ghost predicate OnlyWriteLost(weather: Site -> Luck, w: World, r: Record) {
    && (forall at | at != AtWrite :: weather(at).Smooth?)
    && (weather(AtWrite).Smooth? || (weather(AtWrite).Broken? && (weather(AtWrite).took || r.objectKey in w.objects)))
  }

  lemma TrackStep(rules: Rules, maximum: nat, f: Finalization, r: Record, weather: Site -> Luck, w: World, phase: Phase)
    requires Sound(rules, w) && Knows(rules, maximum, f, w, phase) && Accept(rules, maximum, f) == Some(r)
    requires OnTrack(f, r, w, phase) && OnlyWriteLost(weather, w, r)
    ensures var (w', phase') := Advance(rules, maximum, f, w, phase, LuckAt(weather, phase)); OnTrack(f, r, w', phase')
  {
    AcceptedMatches(rules, maximum, f, r);
    if NameOf(r) in w.catalog {
      assert Backed(rules, w, w.catalog[NameOf(r)]);
    }
    AdvanceKeeps(rules, maximum, f, w, phase, LuckAt(weather, phase));
  }

  /** Whatever the others do, an attempt whose calls are answered, a lost write being settled by reading back, returns its
      record, or something different has been stored in its place. */
  lemma {:induction false} AnsweredAttemptsSettle(rules: Rules, maximum: nat, f: Finalization, r: Record, weather: Site -> Luck,
                                                  start: World, turns: seq<Turn>)
    requires Sound(rules, start) && Interleaved(rules, maximum, f, weather, start, turns)
    requires Accept(rules, maximum, f) == Some(r) && OnlyWriteLost(weather, start, r)
    ensures OnTrack(f, r, WorldAfter(rules, maximum, f, start, turns), PhaseAfter(rules, maximum, f, turns))
  {
    if turns != [] {
      var n := |turns| - 1;
      var w, phase := WorldAfter(rules, maximum, f, start, turns[..n]), PhaseAfter(rules, maximum, f, turns[..n]);
      AnsweredAttemptsSettle(rules, maximum, f, r, weather, start, turns[..n]);
      TurnsKeep(rules, maximum, f, weather, start, turns[..n]);
      KnowledgeStays(rules, maximum, f, w, turns[n].before, phase);
      TrackStep(rules, maximum, f, r, weather, turns[n].before, phase);
    }
  }

  lemma AttemptConcludes(rules: Rules, maximum: nat, f: Finalization, weather: Site -> Luck, start: World, turns: seq<Turn>)
    requires Sound(rules, start) && Interleaved(rules, maximum, f, weather, start, turns)
    ensures var w, end := WorldAfter(rules, maximum, f, start, turns), PhaseAfter(rules, maximum, f, turns);
      && Sound(rules, w) && Extends(start, w) && Reasoned(rules, maximum, f, weather, w, end)
      && (Succeeded(end) ==> Bound(rules, maximum, f, w, end.outcome.record))
      && var r := Accept(rules, maximum, f);
         (r.Some? && OnlyWriteLost(weather, start, r.value) ==> OnTrack(f, r.value, w, end))
  {
    TurnsKeep(rules, maximum, f, weather, start, turns);
    FailuresHaveReasons(rules, maximum, f, weather, start, turns);
    var r := Accept(rules, maximum, f);
    if r.Some? && OnlyWriteLost(weather, start, r.value) {
      AnsweredAttemptsSettle(rules, maximum, f, r.value, weather, start, turns);
    }
  }

  class Storage {
    var objects: map<string, Bytes>
    var catalog: map<Name, Record>

    ghost function Here(): World
      reads this
    {
      World(objects, catalog)
    }

    /** Whatever other finalizers and writers do meanwhile: store objects under free keys, bind records they verified. */
    method Meanwhile(rules: Rules)
      modifies this
      ensures Others(rules, old(Here()), Here())
    {
      var chosen: int := *;
      for i := 0 to if chosen < 0 then 0 else chosen
        invariant Others(rules, old(Here()), Here())
      {
        var key: string, content: Bytes, record: Record := *, *, *;
        MeanwhileStored(rules, key, content);
        MeanwhileBound(rules, record);
      }
    }

    method MeanwhileStored(rules: Rules, key: string, content: Bytes)
      modifies this
      ensures Others(rules, old(Here()), Here())
    {
      if key !in objects {
        objects := objects[key := content];
      }
    }

    method MeanwhileBound(rules: Rules, record: Record)
      modifies this
      ensures Others(rules, old(Here()), Here())
    {
      if NameOf(record) !in catalog && NormalizeRecord(rules, record) == Some(record) && record.objectKey in objects
         && Matches(rules, record, objects[record.objectKey]) {
        catalog := catalog[NameOf(record) := record];
      }
    }

    // ---- The ports ------------------------------------------------------------------------------------------

    static function Excuse(luck: Luck): Failure { if luck.Halted? then Cancelled else Unavailable }

    method GetInvocationArtifactRecord(name: Name, luck: Luck) returns (answer: Result<Record>)
      ensures luck.Smooth? ==> answer == if name in catalog then Ok(catalog[name]) else Err(Missing)
      ensures !luck.Smooth? ==> answer == Err(Excuse(luck))
    {
      if !luck.Smooth? {
        return Err(Excuse(luck));
      }
      if name !in catalog {
        return Err(Missing);
      }
      return Ok(catalog[name]);
    }

    method OpenInvocationArtifactObject(key: string, luck: Luck) returns (answer: Result<Bytes>)
      ensures luck.Smooth? ==> answer == if key in objects then Ok(objects[key]) else Err(Missing)
      ensures !luck.Smooth? ==> answer == Err(Excuse(luck))
    {
      if !luck.Smooth? {
        return Err(Excuse(luck));
      }
      if key !in objects {
        return Err(Missing);
      }
      return Ok(objects[key]);
    }

    method PutInvocationArtifactObjectIfAbsent(key: string, content: Bytes, luck: Luck) returns (problem: Option<Failure>)
      modifies this`objects
      ensures Here() == if Took(luck) then Put(old(Here()), key, content) else old(Here())
      ensures luck.Smooth? ==> problem == if key in old(objects) && old(objects)[key] != content then Some(Conflict) else None
      ensures luck.Broken? ==> problem == Some(if luck.conflict then Conflict else Unavailable)
      ensures luck.Halted? ==> problem == Some(Cancelled)
    {
      problem := if key in objects && objects[key] != content then Some(Conflict) else None;
      if (luck.Smooth? || luck.took) && key !in objects {
        objects := objects[key := content];
      }
      if luck.Broken? {
        problem := Some(if luck.conflict then Conflict else Unavailable);
      } else if luck.Halted? {
        problem := Some(Cancelled);
      }
    }

    method BindInvocationArtifact(record: Record, luck: Luck) returns (answer: Result<Record>)
      modifies this`catalog
      ensures Here() == if Took(luck) then Bind(old(Here()), record) else old(Here())
      ensures luck.Smooth? ==> answer == if NameOf(record) in old(catalog) && old(catalog)[NameOf(record)] != record then Err(Conflict) else Ok(record)
      ensures !luck.Smooth? ==> answer == Err(if luck.Broken? && luck.conflict then Conflict else Excuse(luck))
    {
      var name := NameOf(record);
      if (luck.Smooth? || luck.took) && name !in catalog {
        catalog := catalog[name := record];
      }
      if !luck.Smooth? {
        return Err(if luck.Broken? && luck.conflict then Conflict else Excuse(luck));
      }
      if catalog[name] != record {
        return Err(Conflict);
      }
      return Ok(catalog[name]);
    }

    /** Open, read at most one byte more than allowed, and verify. */
    method ReadObject(rules: Rules, record: Record, maximum: nat, luck: Luck) returns (answer: Result<Bytes>)
      ensures luck.Smooth? ==>
        var (failure, content) := FinalizationProtocol.ReadObject(rules, Here(), record, maximum);
        answer == if content.Some? then Ok(content.value) else Err(failure)
      ensures !luck.Smooth? ==> answer == Err(Excuse(luck))
    {
      var found := OpenInvocationArtifactObject(record.objectKey, luck);
      if found.Err? {
        return Err(if luck.Halted? then Cancelled else Unavailable);
      }
      var content := if |found.value| > maximum + 1 then found.value[..maximum + 1] else found.value;
      if |content| > maximum || |content| != record.sizeBytes || rules.digest(content) != record.digest {
        return Err(Conflict);
      }
      return Ok(content);
    }

    // ---- Finalizing -----------------------------------------------------------------------------------------

    /** Every execution, also one cut off by a crash, is a run of the protocol; a sound world stays sound and nothing in
        it changes; a returned record is bound, with exactly the given content under its key; every failure has its
        reason; and with all calls answered, or only a write's answer lost, nothing but a clash keeps it from returning
        its record. */
    method Finalize(rules: Rules, maximum: nat, f: Finalization, weather: Site -> Luck) returns (end: Phase, ghost turns: seq<Turn>)
      modifies this
      ensures Interleaved(rules, maximum, f, weather, old(Here()), turns)
      ensures PhaseAfter(rules, maximum, f, turns) == end && (end.Finished? || end.Crashed?)
      ensures Here() == WorldAfter(rules, maximum, f, old(Here()), turns)
      ensures Sound(rules, old(Here())) ==> Sound(rules, Here()) && Extends(old(Here()), Here())
      ensures Sound(rules, old(Here())) && Succeeded(end) ==> Bound(rules, maximum, f, Here(), end.outcome.record)
      ensures Sound(rules, old(Here())) ==> Reasoned(rules, maximum, f, weather, Here(), end)
      ensures var r := Accept(rules, maximum, f);
        Sound(rules, old(Here())) && r.Some? && OnlyWriteLost(weather, old(Here()), r.value) ==>
        end == Finished(Finalized(r.value)) || Clashes(Here(), f, r.value)
    {
      end, turns := Attempt(rules, maximum, f, weather);
      if Sound(rules, old(Here())) {
        AttemptConcludes(rules, maximum, f, weather, old(Here()), turns);
      }
    }

    /** The world is where the calls so far have led, and the finalizer is at this point. */
    ghost predicate Driven(rules: Rules, maximum: nat, f: Finalization, weather: Site -> Luck, start: World, turns: seq<Turn>, phase: Phase)
      reads this
    {
      && Interleaved(rules, maximum, f, weather, start, turns)
      && PhaseAfter(rules, maximum, f, turns) == phase
      && Here() == WorldAfter(rules, maximum, f, start, turns)
    }

    method Attempt(rules: Rules, maximum: nat, f: Finalization, weather: Site -> Luck) returns (end: Phase, ghost turns: seq<Turn>)
      modifies this
      ensures Driven(rules, maximum, f, weather, old(Here()), turns, end)
      ensures end.Finished? || end.Crashed?
    {
      turns := [] + [Turn(Here(), Smooth)];
      ExtendTurns(rules, maximum, f, weather, Here(), [], Turn(Here(), Smooth));
      var binding := NormalizeBinding(rules, f.binding);
      if binding.None? {
        return Finished(Failed(Invalid)), turns;
      }
      var record := binding.value.record;
      if record.sizeBytes > maximum || |f.content| > maximum {
        return Finished(Failed(Invalid)), turns;
      }
      if |f.content| != record.sizeBytes || rules.digest(f.content) != record.digest {
        return Finished(Failed(Invalid)), turns;
      }
      var early;
      early, turns := Preflight(rules, maximum, f, record, weather, turns, old(Here()));
      if early.Some? {
        return early.value, turns;
      }
      var refused;
      early, refused, turns := Write(rules, maximum, f, record, weather, turns, old(Here()));
      if early.Some? {
        return early.value, turns;
      }
      early, turns := Verify(rules, maximum, f, record, refused, weather, turns, old(Here()));
      if early.Some? {
        return early.value, turns;
      }
      end, turns := Commit(rules, maximum, f, record, weather, turns, old(Here()));
    }

    /** Is the record there already, with the content? */
    method Preflight(rules: Rules, maximum: nat, f: Finalization, record: Record, weather: Site -> Luck,
                     ghost so: seq<Turn>, ghost start: World) returns (early: Option<Phase>, ghost turns: seq<Turn>)
      requires Driven(rules, maximum, f, weather, start, so, Looking(record))
      modifies this
      ensures Driven(rules, maximum, f, weather, start, turns, if early.Some? then early.value else Writing(record))
      ensures early.Some? ==> early.value.Finished? || early.value.Crashed?
    {
      var found;
      early, found, turns := Lookup(rules, maximum, f, record, weather, so, start);
      if found {
        var end;
        end, turns := Recheck(rules, maximum, f, record, weather, turns, start);
        early := Some(end);
      }
    }

    method Lookup(rules: Rules, maximum: nat, f: Finalization, record: Record, weather: Site -> Luck, ghost so: seq<Turn>, ghost start: World)
      returns (early: Option<Phase>, found: bool, ghost turns: seq<Turn>)
      requires Driven(rules, maximum, f, weather, start, so, Looking(record))
      modifies this
      ensures Driven(rules, maximum, f, weather, start, turns,
        if early.Some? then early.value else if found then Rechecking(record) else Writing(record))
      ensures found ==> early.None?
      ensures early.Some? ==> early.value.Finished? || early.value.Crashed?
    {
      var luck := weather(AtLookup);
      Meanwhile(rules);
      turns := so + [Turn(Here(), luck)];
      ExtendTurns(rules, maximum, f, weather, start, so, Turn(Here(), luck));
      var existing := GetInvocationArtifactRecord(NameOf(record), luck);
      if luck.Crash? {
        return Some(Crashed), false, turns;
      }
      if existing.Err? {
        if luck.Halted? {
          return Some(Finished(Failed(Cancelled))), false, turns;
        }
        if existing.failure.Missing? {
          return None, false, turns;
        }
        return Some(Finished(Failed(Unavailable))), false, turns;
      }
      var known := NormalizeRecord(rules, existing.value);
      if known.None? || known.value != record {
        return Some(Finished(Failed(Conflict))), false, turns;
      }
      return None, true, turns;
    }

    method Recheck(rules: Rules, maximum: nat, f: Finalization, record: Record, weather: Site -> Luck, ghost so: seq<Turn>, ghost start: World)
      returns (end: Phase, ghost turns: seq<Turn>)
      requires Driven(rules, maximum, f, weather, start, so, Rechecking(record))
      modifies this
      ensures Driven(rules, maximum, f, weather, start, turns, end)
      ensures end.Finished? || end.Crashed?
    {
      var luck := weather(AtRecheck);
      Meanwhile(rules);
      turns := so + [Turn(Here(), luck)];
      ExtendTurns(rules, maximum, f, weather, start, so, Turn(Here(), luck));
      var persisted := ReadObject(rules, record, maximum, luck);
      if luck.Crash? {
        return Crashed, turns;
      }
      if persisted.Err? {
        return Finished(Failed(persisted.failure)), turns;
      }
      if persisted.value != f.content {
        return Finished(Failed(Conflict)), turns;
      }
      return Finished(Finalized(record)), turns;
    }

    /** Write if absent; only a cancelled context ends the attempt here. */
    method Write(rules: Rules, maximum: nat, f: Finalization, record: Record, weather: Site -> Luck, ghost so: seq<Turn>, ghost start: World)
      returns (early: Option<Phase>, refused: bool, ghost turns: seq<Turn>)
      requires Driven(rules, maximum, f, weather, start, so, Writing(record))
      modifies this
      ensures Driven(rules, maximum, f, weather, start, turns, if early.Some? then early.value else Verifying(record, refused))
      ensures early.Some? ==> early.value.Finished? || early.value.Crashed?
    {
      var luck := weather(AtWrite);
      Meanwhile(rules);
      turns := so + [Turn(Here(), luck)];
      ExtendTurns(rules, maximum, f, weather, start, so, Turn(Here(), luck));
      var problem := PutInvocationArtifactObjectIfAbsent(record.objectKey, f.content, luck);
      if luck.Crash? {
        return Some(Crashed), false, turns;
      }
      if luck.Halted? {
        return Some(Finished(Failed(Cancelled))), false, turns;
      }
      return None, problem == Some(Conflict), turns;
    }

    /** Whatever the write said, read the object back and compare. */
    method Verify(rules: Rules, maximum: nat, f: Finalization, record: Record, refused: bool, weather: Site -> Luck,
                  ghost so: seq<Turn>, ghost start: World) returns (early: Option<Phase>, ghost turns: seq<Turn>)
      requires Driven(rules, maximum, f, weather, start, so, Verifying(record, refused))
      modifies this
      ensures Driven(rules, maximum, f, weather, start, turns, if early.Some? then early.value else Committing(record))
      ensures early.Some? ==> early.value.Finished? || early.value.Crashed?
    {
      var luck := weather(AtVerify);
      Meanwhile(rules);
      turns := so + [Turn(Here(), luck)];
      ExtendTurns(rules, maximum, f, weather, start, so, Turn(Here(), luck));
      early := ReadBack(rules, maximum, f, record, refused, luck);
    }

    /** What the object says, whatever the write said. */
    method ReadBack(rules: Rules, maximum: nat, f: Finalization, record: Record, refused: bool, luck: Luck) returns (early: Option<Phase>)
      ensures Advance(rules, maximum, f, Here(), Verifying(record, refused), luck).1 == if early.Some? then early.value else Committing(record)
      ensures early.Some? ==> early.value.Finished? || early.value.Crashed?
    {
      var persisted := ReadObject(rules, record, maximum, luck);
      if luck.Crash? {
        return Some(Crashed);
      }
      if persisted.Err? {
        if luck.Halted? {
          return Some(Finished(Failed(Cancelled)));
        }
        if persisted.failure == Conflict || refused {
          return Some(Finished(Failed(Conflict)));
        }
        return Some(Finished(Failed(Unavailable)));
      }
      if persisted.value != f.content {
        return Some(Finished(Failed(Conflict)));
      }
      return None;
    }

    method Commit(rules: Rules, maximum: nat, f: Finalization, record: Record, weather: Site -> Luck, ghost so: seq<Turn>, ghost start: World)
      returns (end: Phase, ghost turns: seq<Turn>)
      requires Driven(rules, maximum, f, weather, start, so, Committing(record))
      modifies this
      ensures Driven(rules, maximum, f, weather, start, turns, end)
      ensures end.Finished? || end.Crashed?
    {
      var luck := weather(AtBind);
      Meanwhile(rules);
      turns := so + [Turn(Here(), luck)];
      ExtendTurns(rules, maximum, f, weather, start, so, Turn(Here(), luck));
      var bound := BindInvocationArtifact(record, luck);
      if luck.Crash? {
        return Crashed, turns;
      }
      if bound.Err? {
        if luck.Halted? {
          return Finished(Failed(Cancelled)), turns;
        }
        if bound.failure == Conflict {
          return Finished(Failed(Conflict)), turns;
        }
        return Finished(Failed(Unavailable)), turns;
      }
      var known := NormalizeRecord(rules, bound.value);
      if known.None? || known.value != record {
        return Finished(Failed(Conflict)), turns;
      }
      return Finished(Finalized(known.value)), turns;
    }

    // ---- Reading -----------------------------------------------------------------------------------------------

    /** Look the record up, read and verify its object, and look the record up again. What it returns is bound and is
        exactly what is stored; and undisturbed it returns every artifact of the invocation within its size bound. */
    method Read(rules: Rules, maximum: nat, domain: string, invocationId: string, artifactId: string, weather: Moment -> Luck)
      returns (answer: Result<Content>)
      requires Sound(rules, Here())
      modifies this
      ensures Sound(rules, Here()) && Extends(old(Here()), Here())
      ensures answer.Ok? ==>
        && answer.value.record.invocationId == invocationId && answer.value.record.sizeBytes <= maximum
        && Name(domain, artifactId) in catalog && catalog[Name(domain, artifactId)] == answer.value.record
        && Backed(rules, Here(), answer.value.record) && objects[answer.value.record.objectKey] == answer.value.bytes
      ensures (forall at :: weather(at).Smooth?) && Available(old(Here()), maximum, domain, invocationId, artifactId) ==>
        answer == Ok(Stored(old(Here()), Name(domain, artifactId)))
      ensures (forall at :: weather(at).Smooth?) && Elsewhere(old(Here()), domain, invocationId, artifactId) ==> answer == Err(Missing)
      ensures answer.Ok? ==> Calm(weather)
      ensures answer.Err? ==> ReadRefused(old(Here()), maximum, domain, invocationId, artifactId, weather, answer.failure)
    {
      if weather(AtStart).Halted? {
        return Err(Cancelled);
      }
      if !Tagged(domain, "iso") || !Tagged(invocationId, "inv") || !Tagged(artifactId, "art") {
        return Err(Invalid);
      }
      Meanwhile(rules);
      var first := FirstLookup(rules, maximum, domain, invocationId, artifactId, weather(AtFirst));
      if first.Err? {
        RefusedEarlier(old(Here()), Here(), maximum, domain, invocationId, artifactId, weather, first.failure);
        return Err(first.failure);
      }
      answer := ReadStored(rules, first.value, domain, artifactId, weather);
    }

    /** Read and verify the object of a record that was found, and look the record up again. */
    method ReadStored(rules: Rules, record: Record, domain: string, artifactId: string, weather: Moment -> Luck)
      returns (answer: Result<Content>)
      requires Sound(rules, Here()) && Name(domain, artifactId) in catalog && catalog[Name(domain, artifactId)] == record
      modifies this
      ensures Sound(rules, Here()) && Extends(old(Here()), Here())
      ensures answer.Ok? ==> answer == Ok(Stored(Here(), Name(domain, artifactId)))
      ensures answer.Ok? ==> weather(AtObject).Smooth? && weather(AtSecond).Smooth? && !weather(BeforeObject).Halted? && !weather(AfterObject).Halted?
      ensures (forall at :: weather(at).Smooth?) ==> answer.Ok?
      ensures answer.Err? ==> answer.failure.Cancelled? || answer.failure.Unavailable?
      ensures answer == Err(Cancelled) ==> exists at :: weather(at).Halted?
      ensures answer == Err(Unavailable) ==> exists at :: weather(at).Broken? || weather(at).Crash?
    {
      if weather(BeforeObject).Halted? {
        return Err(Cancelled);
      }
      Meanwhile(rules);
      assert Backed(rules, Here(), catalog[Name(domain, artifactId)]);
      var content := ReadObject(rules, record, record.sizeBytes, weather(AtObject));
      if content.Err? {
        return Err(content.failure);
      }
      if weather(AfterObject).Halted? {
        return Err(Cancelled);
      }
      Meanwhile(rules);
      var second := SecondLookup(rules, record, domain, artifactId, weather(AtSecond));
      if !second {
        return Err(Excuse(weather(AtSecond)));
      }
      return Ok(Content(record, content.value));
    }

    method FirstLookup(rules: Rules, maximum: nat, domain: string, invocationId: string, artifactId: string, luck: Luck)
      returns (answer: Result<Record>)
      requires Sound(rules, Here())
      ensures answer.Ok? ==>
        && Name(domain, artifactId) in catalog && catalog[Name(domain, artifactId)] == answer.value
        && answer.value.invocationId == invocationId && answer.value.sizeBytes <= maximum
      ensures luck.Smooth? && Available(Here(), maximum, domain, invocationId, artifactId) ==> answer == Ok(catalog[Name(domain, artifactId)])
      ensures luck.Smooth? && Elsewhere(Here(), domain, invocationId, artifactId) ==> answer == Err(Missing)
      ensures answer.Err? ==> LookupRefused(Here(), maximum, Name(domain, artifactId), invocationId, luck, answer.failure)
      ensures answer.Ok? ==> luck.Smooth?
    {
      var found := GetInvocationArtifactRecord(Name(domain, artifactId), luck);
      if found.Err? {
        return Err(found.failure);
      }
      if found.value.domain != domain || found.value.invocationId != invocationId || found.value.id != artifactId {
        return Err(Missing);
      }
      var record := NormalizeRecord(rules, found.value);
      if record.None? || record.value.sizeBytes > maximum {
        return Err(Unavailable);
      }
      assert Backed(rules, Here(), catalog[Name(domain, artifactId)]);
      return Ok(record.value);
    }

    /** Whether the record is still what it was. */
    method SecondLookup(rules: Rules, record: Record, domain: string, artifactId: string, luck: Luck) returns (same: bool)
      ensures same <==> luck.Smooth? && Name(domain, artifactId) in catalog && NormalizeRecord(rules, catalog[Name(domain, artifactId)]) == Some(record)
    {
      var current := GetInvocationArtifactRecord(Name(domain, artifactId), luck);
      if current.Err? {
        return false;
      }
      var known := NormalizeRecord(rules, current.value);
      return known.Some? && known.value == record;
    }

    /** What was finalized is what is read, however much later and whatever else was stored in between. */
    method FinalizeThenRead(rules: Rules, maximum: nat, bound: nat, f: Finalization, weather: Site -> Luck)
      returns (end: Phase, answer: Result<Content>)
      requires Sound(rules, Here())
      modifies this
      ensures Succeeded(end) && |f.content| <= bound ==> answer == Ok(Content(end.outcome.record, f.content))
    {
      ghost var turns;
      end, turns := Finalize(rules, maximum, f, weather);
      answer := Err(Missing);
      if Succeeded(end) {
        var record := end.outcome.record;
        Meanwhile(rules);
        AcceptedMatches(rules, maximum, f, record);
        answer := Read(rules, bound, record.domain, record.invocationId, record.id, _ => Smooth);
      }
    }
  }
}
