/** Delivering an encrypted audit package, call by call, against a destination and a repository that other processes
    use at the same time. Every execution, also one cut off by a crash, is proved to be a path of the protocol. */
module AuditTransport {
  import opened Text
  import opened Calls
  import opened TransportProtocol

  /** The calls of one transport. */
  datatype Site = AtReserve | AtPut | AtOpen | AtBody | AtComplete

  /** One step: the world it found, and how it went. */
  datatype Turn = Turn(before: World, luck: Luck)

  /** A world, and where the transport is in it. */
  datatype Point = Point(world: World, phase: Phase)

  /** What every transport guarantees, and all it assumes of the others. */
  ghost predicate Others(digest: Bytes -> string, w: World, w': World) { Grows(w, w') && (Honest(digest, w) ==> Honest(digest, w')) }

  ghost function EndOf(digest: Bytes -> string, job: Job, from: Point, turns: seq<Turn>): Point {
    if turns == [] then from
    else
      var last := turns[|turns| - 1];
      var (w, phase) := Advance(digest, job, last.before, EndOf(digest, job, from, turns[..|turns| - 1]).phase, last.luck);
      Point(w, phase)
  }

  /** How the step made at this point goes. */
  function LuckAt(weather: Site -> Luck, phase: Phase): Luck {
    match phase
    case Reserving => weather(AtReserve)
    case Writing => weather(AtPut)
    case Opening(_) => weather(AtOpen)
    case Reading(_) => weather(AtBody)
    case Completing => weather(AtComplete)
    case _ => Smooth
  }

  /** Each step goes as the weather says, and between the steps of one transport the others keep their guarantee. */
  ghost predicate Interleaved(digest: Bytes -> string, job: Job, weather: Site -> Luck, from: Point, turns: seq<Turn>) {
    turns == [] ||
    var n := |turns| - 1;
    && Interleaved(digest, job, weather, from, turns[..n])
    && turns[n].luck == LuckAt(weather, EndOf(digest, job, from, turns[..n]).phase)
    && Others(digest, EndOf(digest, job, from, turns[..n]).world, turns[n].before)
  }

  /** The steps lead from one point to the other. */
  ghost predicate Leads(digest: Bytes -> string, job: Job, weather: Site -> Luck, from: Point, turns: seq<Turn>, to: Point) {
    Interleaved(digest, job, weather, from, turns) && EndOf(digest, job, from, turns) == to
  }

  lemma OneTurn(digest: Bytes -> string, job: Job, weather: Site -> Luck, from: Point, t: Turn)
    requires Others(digest, from.world, t.before) && t.luck == LuckAt(weather, from.phase)
    ensures var (w, phase) := Advance(digest, job, t.before, from.phase, t.luck); Leads(digest, job, weather, from, [t], Point(w, phase))
  {
    assert [t][..0] == [];
    assert EndOf(digest, job, from, []) == from && Interleaved(digest, job, weather, from, []);
  }

  lemma {:induction false} LeadsOn(digest: Bytes -> string, job: Job, weather: Site -> Luck, from: Point, a: seq<Turn>, via: Point, b: seq<Turn>, to: Point)
    requires Leads(digest, job, weather, from, a, via) && Leads(digest, job, weather, via, b, to)
    ensures Leads(digest, job, weather, from, a + b, to)
  {
    if b == [] {
      assert a + b == a;
    } else {
      var n := |b| - 1;
      LeadsOn(digest, job, weather, from, a, via, b[..n], EndOf(digest, job, via, b[..n]));
      assert (a + b)[..|a + b| - 1] == a + b[..n];
    }
  }

  /** Along any path of one transport, nothing is replaced or withdrawn, honesty is kept, and its knowledge is right. */
  lemma {:induction false} PathKeeps(digest: Bytes -> string, job: Job, weather: Site -> Luck, from: Point, turns: seq<Turn>, to: Point)
    requires Leads(digest, job, weather, from, turns, to) && Knows(digest, job, from.world, from.phase)
    ensures Others(digest, from.world, to.world) && Knows(digest, job, to.world, to.phase)
  {
    if turns != [] {
      var n := |turns| - 1;
      var via := EndOf(digest, job, from, turns[..n]);
      PathKeeps(digest, job, weather, from, turns[..n], via);
      KnowledgeStays(digest, job, via.world, turns[n].before, via.phase);
      AdvanceKeeps(digest, job, turns[n].before, via.phase, turns[n].luck);
    }
  }

  // ---- How transports end, whatever the others do -----------------------------------------------------------

  ghost predicate Told(weather: Site -> Luck) { exists at :: weather(at).Broken? && weather(at).conflict }

  predicate WentThrough(luck: Luck) { luck.Smooth? || luck.Broken? }

  /** Every success has had its answers, only that of the write may have been lost; and every failure has its reason: no
      authority, a package that cannot be delivered, a failed call, an ended context, a crash, or a different object under
      the key. */
  ghost predicate Reasoned(digest: Bytes -> string, job: Job, weather: Site -> Luck, w: World, phase: Phase) {
    match phase
    case Finished(Some(Refused)) => !job.authorized
    case Finished(Some(Cancelled)) => exists at :: weather(at).Halted?
    case Finished(Some(Unavailable)) => (exists at :: weather(at).Broken? || weather(at).Halted?) || !Fetched(digest, job) || Occupied(w, job)
    case Finished(Some(Conflict)) => Told(weather) || !Ready(digest, job) || Occupied(w, job)
    case Crashed => exists at :: weather(at).Crash?
    case Fetching => weather(AtReserve).Smooth?
    case Checking => weather(AtReserve).Smooth?
    case Writing => weather(AtReserve).Smooth?
    case Opening(refused) =>
      && weather(AtReserve).Smooth? && WentThrough(weather(AtPut))
      && (refused ==> Told(weather) || Occupied(w, job))
      && (job.key !in w.objects ==> weather(AtPut).Broken?)
    case Reading(_) => weather(AtReserve).Smooth? && WentThrough(weather(AtPut)) && weather(AtOpen).Smooth?
    case Completing => weather(AtReserve).Smooth? && WentThrough(weather(AtPut)) && weather(AtOpen).Smooth? && weather(AtBody).Smooth?
    case Finished(None) => weather(AtReserve).Smooth? && WentThrough(weather(AtPut)) && weather(AtOpen).Smooth? && weather(AtBody).Smooth? && weather(AtComplete).Smooth?
    case _ => true
  }

  lemma ReasonStep(digest: Bytes -> string, job: Job, weather: Site -> Luck, w: World, phase: Phase)
    requires Knows(digest, job, w, phase) && Reasoned(digest, job, weather, w, phase)
    ensures var (w', phase') := Advance(digest, job, w, phase, LuckAt(weather, phase)); Reasoned(digest, job, weather, w', phase')
  {
  }

  /** On the way to completion, or a different object is in its place. */
  ghost predicate OnTrack(job: Job, w: World, phase: Phase) {
    Occupied(w, job) ||
    match phase
    case Opening(_) => job.key in w.objects
    case Reading(observed) => observed == ContentOf(job)
    case Finished(failure) => failure.None?
    case Crashed => false
    case _ => true
  }

  /** Every call is answered, or only the answer to a write is lost whose content is there all the same. */
  ghost predicate OnlyPutLost(weather: Site -> Luck, w: World, job: Job) {
    && (forall at | at != AtPut :: weather(at).Smooth?)
    && (weather(AtPut).Smooth? || (weather(AtPut).Broken? && (weather(AtPut).took || job.key in w.objects)))
  }

  lemma TrackStep(digest: Bytes -> string, job: Job, weather: Site -> Luck, w: World, phase: Phase)
    requires job.authorized && Ready(digest, job) && Knows(digest, job, w, phase)
    requires OnTrack(job, w, phase) && OnlyPutLost(weather, w, job)
    ensures var (w', phase') := Advance(digest, job, w, phase, LuckAt(weather, phase)); OnTrack(job, w', phase')
  {
  }

  /** Whatever the others do: a failed transport has its reason, and one whose calls are answered, a lost write being
      settled by reading back, completes unless a different object is under its key. */
  lemma {:induction false} TransportsSettle(digest: Bytes -> string, job: Job, weather: Site -> Luck, start: World, turns: seq<Turn>, to: Point)
    requires Leads(digest, job, weather, Point(start, Arrived), turns, to)
    ensures Reasoned(digest, job, weather, to.world, to.phase)
    ensures job.authorized && Ready(digest, job) && OnlyPutLost(weather, start, job) ==> OnTrack(job, to.world, to.phase)
  {
    if turns != [] {
      var n := |turns| - 1;
      var from := Point(start, Arrived);
      var via := EndOf(digest, job, from, turns[..n]);
      TransportsSettle(digest, job, weather, start, turns[..n], via);
      PathKeeps(digest, job, weather, from, turns[..n], via);
      KnowledgeStays(digest, job, via.world, turns[n].before, via.phase);
      ReasonStep(digest, job, weather, turns[n].before, via.phase);
      if job.authorized && Ready(digest, job) && OnlyPutLost(weather, start, job) {
        TrackStep(digest, job, weather, turns[n].before, via.phase);
      }
    }
  }

  /** The write may fail in any way it likes, as long as the process goes on to read back. */
  predicate ReadsBack(weather: Site -> Luck) {
    weather(AtOpen).Smooth? && weather(AtBody).Smooth? && !weather(AtPut).Halted? && !weather(AtPut).Crash?
  }

  class Destination {
    var objects: map<string, Bytes>
    var reserved: set<Delivery>
    var completed: set<Receipt>

    ghost function Here(): World
      reads this
    {
      World(objects, reserved, completed)
    }

    /** Whatever others do: store objects under free keys, reserve, and complete what is delivered. */
    method Meanwhile(digest: Bytes -> string)
      modifies this
      ensures Others(digest, old(Here()), Here())
    {
      var chosen: int := *;
      for i := 0 to if chosen < 0 then 0 else chosen
        invariant Others(digest, old(Here()), Here())
      {
        var key: string := *;
        var content: Bytes := *;
        if key !in objects {
          objects := objects[key := content];
        }
        var delivery: Delivery := *;
        reserved := reserved + {delivery};
        if key in objects && digest(objects[key]) == delivery.digest && 0 < |objects[key]| <= MAXIMUM_PACKAGE_BYTES {
          completed := completed + {Receipt(delivery, key, objects[key])};
        }
      }
    }

    // ---- The ports ------------------------------------------------------------------------------------------

    method PutAuditExportObjectIfAbsent(key: string, content: Bytes, luck: Luck) returns (conflict: bool)
      modifies this`objects
      ensures Here() == if Took(luck) then Put(old(Here()), key, content) else old(Here())
      ensures luck.Smooth? ==> (conflict <==> key in old(objects) && old(objects)[key] != content)
      ensures luck.Broken? ==> conflict == luck.conflict
    {
      conflict := if luck.Broken? then luck.conflict else key in objects && objects[key] != content;
      if Took(luck) && key !in objects {
        objects := objects[key := content];
      }
    }

    // ---- Execute: install one package and verify the exact read-back ----------------------------------------

    method WritePackage(digest: Bytes -> string, key: string, content: Bytes, weather: Site -> Luck, ghost job: Job)
      returns (end: Option<Phase>, refused: bool, ghost turns: seq<Turn>)
      requires job.key == key && job.package == Some(content)
      modifies this
      ensures Leads(digest, job, weather, Point(old(Here()), Writing), turns, Point(Here(), if end.Some? then end.value else Opening(refused)))
      ensures Others(digest, old(Here()), Here()) && (end.None? <==> weather(AtPut).Smooth? || weather(AtPut).Broken?)
      ensures Took(weather(AtPut)) ==> key in objects
      ensures end.Some? ==> end == Some(Crashed) || end == Some(Finished(Some(Cancelled)))
    {
      var luck := weather(AtPut);
      ghost var from := Point(Here(), Writing);
      Meanwhile(digest);
      turns := [Turn(Here(), luck)];
      OneTurn(digest, job, weather, from, Turn(Here(), luck));
      refused := PutAuditExportObjectIfAbsent(key, content, luck);
      if luck.Crash? {
        return Some(Crashed), refused, turns;
      }
      if luck.Halted? {
        return Some(Finished(Some(Cancelled))), refused, turns;
      }
      end := None;
    }

    method OpenPackage(digest: Bytes -> string, key: string, refused: bool, weather: Site -> Luck, ghost job: Job)
      returns (end: Option<Phase>, observed: Bytes, ghost turns: seq<Turn>)
      requires job.key == key
      modifies this
      ensures Leads(digest, job, weather, Point(old(Here()), Opening(refused)), turns, Point(Here(), if end.Some? then end.value else Reading(observed)))
      ensures Others(digest, old(Here()), Here()) && (end.None? ==> key in objects && objects[key] == observed)
      ensures weather(AtOpen).Smooth? && key in old(objects) ==> end.None?
      ensures end.Some? ==> end.value.Crashed? || (end.value.Finished? && end.value.failure.Some?)
    {
      var luck := weather(AtOpen);
      ghost var from := Point(Here(), Opening(refused));
      Meanwhile(digest);
      turns := [Turn(Here(), luck)];
      OneTurn(digest, job, weather, from, Turn(Here(), luck));
      if !luck.Smooth? || key !in objects {
        if luck.Crash? {
          return Some(Crashed), [], turns;
        }
        if luck.Halted? {
          return Some(Finished(Some(Cancelled))), [], turns;
        }
        if (luck.Broken? && luck.conflict) || refused {
          return Some(Finished(Some(Conflict))), [], turns;
        }
        return Some(Finished(Some(Unavailable))), [], turns;
      }
      end, observed := None, objects[key];
    }

    /** Read at most one byte more than a package may have, and compare. */
    method ReadBack(digest: Bytes -> string, content: Bytes, expected: string, stored: Bytes, weather: Site -> Luck, ghost job: Job)
      returns (end: Option<Phase>, ghost turns: seq<Turn>)
      requires job.package == Some(content) && job.delivery.digest == expected
      ensures Leads(digest, job, weather, Point(Here(), Reading(stored)), turns, Point(Here(), if end.Some? then end.value else Completing))
      ensures end.None? ==> stored == content
      ensures weather(AtBody).Smooth? && stored == content && digest(content) == expected && 0 < |content| <= MAXIMUM_PACKAGE_BYTES ==> end.None?
      ensures end.Some? ==> end.value.Crashed? || (end.value.Finished? && end.value.failure.Some?)
    {
      var luck := weather(AtBody);
      turns := [Turn(Here(), luck)];
      OneTurn(digest, job, weather, Point(Here(), Reading(stored)), Turn(Here(), luck));
      if luck.Crash? {
        return Some(Crashed), turns;
      }
      var observed := if |stored| > MAXIMUM_PACKAGE_BYTES + 1 then stored[..MAXIMUM_PACKAGE_BYTES + 1] else stored;
      if !luck.Smooth? || |observed| == 0 || |observed| > MAXIMUM_PACKAGE_BYTES {
        return Some(Finished(Some(Unavailable))), turns;
      }
      if digest(observed) != expected || observed != content {
        return Some(Finished(Some(Conflict))), turns;
      }
      end := None;
    }

    /** Install the package if nothing is there, then accept only an exact read-back, whatever the write reported.
        Without an end, the package is in place and only completion is left. */
    method Execute(digest: Bytes -> string, key: string, content: Bytes, expected: string, weather: Site -> Luck, ghost job: Job)
      returns (end: Option<Phase>, ghost turns: seq<Turn>)
      requires job.key == key && job.package == Some(content) && job.delivery.digest == expected
      modifies this
      ensures Leads(digest, job, weather, Point(old(Here()), Checking), turns, Point(Here(), if end.Some? then end.value else Completing))
      ensures end.Some? ==> end.value.Crashed? || (end.value.Finished? && end.value.failure.Some?)
      ensures Others(digest, old(Here()), Here())
      ensures end.None? ==> Deliverable(digest, key, content, expected) && key in objects && objects[key] == content
      ensures key in old(objects) && old(objects)[key] != content ==> end.Some?
      // A matching object, whoever stored it, settles a lost or conflicting write response; a different one never does.
      ensures Deliverable(digest, key, content, expected) && ReadsBack(weather) && (Took(weather(AtPut)) || key in old(objects)) ==>
        key in objects && (end.None? <==> objects[key] == content)
    {
      ghost var from := Point(Here(), Checking);
      turns := [Turn(Here(), Smooth)];
      OneTurn(digest, job, weather, from, Turn(Here(), Smooth));
      if key == "" || |content| == 0 || |content| > MAXIMUM_PACKAGE_BYTES || digest(content) != expected {
        return Some(Finished(Some(Conflict))), turns;
      }
      ghost var via := Point(Here(), Writing);
      var refused;
      ghost var more;
      end, refused, more := WritePackage(digest, key, content, weather, job);
      ghost var to := Point(Here(), if end.Some? then end.value else Opening(refused));
      LeadsOn(digest, job, weather, from, turns, via, more, to);
      turns := turns + more;
      if end.Some? {
        return;
      }
      var observed;
      end, observed, more := OpenPackage(digest, key, refused, weather, job);
      via, to := to, Point(Here(), if end.Some? then end.value else Reading(observed));
      LeadsOn(digest, job, weather, from, turns, via, more, to);
      turns := turns + more;
      if end.Some? {
        return;
      }
      end, more := ReadBack(digest, content, expected, observed, weather, job);
      via, to := to, Point(Here(), if end.Some? then end.value else Completing);
      LeadsOn(digest, job, weather, from, turns, via, more, to);
      turns := turns + more;
    }

    // ---- The whole transport ----------------------------------------------------------------------------------

    method ReserveDelivery(digest: Bytes -> string, delivery: Delivery, weather: Site -> Luck, ghost job: Job)
      returns (end: Option<Phase>, ghost turns: seq<Turn>)
      requires job.delivery == delivery
      modifies this
      ensures Leads(digest, job, weather, Point(old(Here()), Reserving), turns, Point(Here(), if end.Some? then end.value else Fetching))
      ensures end.Some? ==> end.value.Crashed? || end.value.Finished?
    {
      var luck := weather(AtReserve);
      ghost var from := Point(Here(), Reserving);
      Meanwhile(digest);
      turns := [Turn(Here(), luck)];
      OneTurn(digest, job, weather, from, Turn(Here(), luck));
      if Took(luck) {
        reserved := reserved + {delivery};
      }
      end := if luck.Smooth? then None else Some(Interrupted(luck));
    }

    method CompleteDelivery(digest: Bytes -> string, receipt: Receipt, weather: Site -> Luck, ghost job: Job)
      returns (end: Phase, ghost turns: seq<Turn>)
      requires receipt == ReceiptOf(job)
      modifies this
      ensures Leads(digest, job, weather, Point(old(Here()), Completing), turns, Point(Here(), end))
      ensures end == Finished(None) || end == Interrupted(weather(AtComplete))
    {
      var luck := weather(AtComplete);
      ghost var from := Point(Here(), Completing);
      Meanwhile(digest);
      turns := [Turn(Here(), luck)];
      OneTurn(digest, job, weather, from, Turn(Here(), luck));
      if Took(luck) {
        completed := completed + {receipt};
      }
      end := if luck.Smooth? then Finished(None) else Interrupted(luck);
    }

    /** Reserve, read the package, deliver it, complete: a path of the protocol to its end, or to a crash. Completion
        is recorded only for a reserved delivery whose package is in place, wherever the transport is cut off. */
    method ExecuteTransport(digest: Bytes -> string, job: Job, weather: Site -> Luck) returns (end: Phase, ghost turns: seq<Turn>)
      modifies this
      ensures Leads(digest, job, weather, Point(old(Here()), Arrived), turns, Point(Here(), end))
      ensures end.Finished? || end.Crashed?
      ensures Others(digest, old(Here()), Here())
      ensures end == Finished(None) ==> job.package.Some? && ReceiptOf(job) in completed && Delivered(digest, Here(), ReceiptOf(job))
      ensures !job.authorized ==> end == Finished(Some(Refused)) && Here() == old(Here())
      ensures Reasoned(digest, job, weather, Here(), end)
      ensures job.authorized && Ready(digest, job) && OnlyPutLost(weather, old(Here()), job) ==>
        end == Finished(None) || Occupied(Here(), job)
    {
      end, turns := Transport(digest, job, weather);
      PathKeeps(digest, job, weather, Point(old(Here()), Arrived), turns, Point(Here(), end));
      TransportsSettle(digest, job, weather, old(Here()), turns, Point(Here(), end));
    }

    method Transport(digest: Bytes -> string, job: Job, weather: Site -> Luck) returns (end: Phase, ghost turns: seq<Turn>)
      modifies this
      ensures Leads(digest, job, weather, Point(old(Here()), Arrived), turns, Point(Here(), end))
      ensures end.Finished? || end.Crashed?
      ensures !job.authorized ==> end == Finished(Some(Refused)) && Here() == old(Here())
    {
      ghost var from := Point(Here(), Arrived);
      turns := [Turn(Here(), Smooth)];
      OneTurn(digest, job, weather, from, Turn(Here(), Smooth));
      if !job.authorized {
        return Finished(Some(Refused)), turns;
      }
      ghost var via := Point(Here(), Reserving);
      ghost var more;
      var early;
      early, more := ReserveDelivery(digest, job.delivery, weather, job);
      ghost var to := Point(Here(), if early.Some? then early.value else Fetching);
      LeadsOn(digest, job, weather, from, turns, via, more, to);
      turns := turns + more;
      if early.Some? {
        return early.value, turns;
      }
      early, more := Deliver(digest, job, weather);
      via, to := to, Point(Here(), if early.Some? then early.value else Completing);
      LeadsOn(digest, job, weather, from, turns, via, more, to);
      turns := turns + more;
      if early.Some? {
        return early.value, turns;
      }
      end, more := CompleteDelivery(digest, ReceiptOf(job), weather, job);
      via, to := to, Point(Here(), end);
      LeadsOn(digest, job, weather, from, turns, via, more, to);
      turns := turns + more;
    }

    /** Read the package file and execute. */
    method Deliver(digest: Bytes -> string, job: Job, weather: Site -> Luck) returns (early: Option<Phase>, ghost turns: seq<Turn>)
      modifies this
      ensures Leads(digest, job, weather, Point(old(Here()), Fetching), turns, Point(Here(), if early.Some? then early.value else Completing))
      ensures early.Some? ==> early.value.Crashed? || early.value.Finished?
    {
      ghost var from := Point(Here(), Fetching);
      turns := [Turn(Here(), Smooth)];
      OneTurn(digest, job, weather, from, Turn(Here(), Smooth));
      if job.package.None? || digest(job.package.value) != job.delivery.digest {
        return Some(Finished(Some(Unavailable))), turns;
      }
      ghost var via := Point(Here(), Checking);
      ghost var more;
      early, more := Execute(digest, job.key, job.package.value, job.delivery.digest, weather, job);
      LeadsOn(digest, job, weather, from, turns, via, more, Point(Here(), if early.Some? then early.value else Completing));
      turns := turns + more;
    }
  }
}
