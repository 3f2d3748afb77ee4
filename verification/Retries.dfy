/** Idempotent retries: what a repeated request does, and that erasing repeats changes nothing. */
module Retries {
  import opened Text
  import opened Resources
  import opened Requests
  import opened Handlers
  import opened Invariants
  import opened Runs

  /** Some request of the run was admitted under this slot. */
  ghost predicate Claimed(p: Platform, requests: seq<Request>, slot: string) {
    exists i :: 0 <= i < |requests| && Admitted(p, requests[i]) && SlotOf(requests[i]) == slot
  }

  /** The first admitted request of a slot. */
  ghost predicate FirstClaim(p: Platform, requests: seq<Request>, i: nat) {
    && i < |requests| && Admitted(p, requests[i])
    && !Claimed(p, requests[..i], SlotOf(requests[i]))
  }

  /** A request runs its handler exactly when it is admitted and its slot is not stored;
      otherwise the state is untouched. */
  lemma OnlyFirstRuns(p: Platform, s: State, r: Request)
    ensures Mutate(p, s, r).state == s <==> !Admitted(p, r) || SlotOf(r) in s.cache
    ensures Admitted(p, r) ==> SlotOf(r) in Mutate(p, s, r).state.cache
    ensures forall slot :: slot in Mutate(p, s, r).state.cache <==> slot in s.cache || (Admitted(p, r) && slot == SlotOf(r))
    ensures forall slot | slot in s.cache :: Mutate(p, s, r).state.cache[slot] == s.cache[slot]
  {
    if Admitted(p, r) && SlotOf(r) !in s.cache {
      HandlersSpareCache(p, s, r, RouteOf(p, r), p.decode(RouteOf(p, r), r.body.value));
    }
  }

  /** The cache holds exactly the slots that some admitted request of the run claimed. */
  lemma {:induction false} CacheHoldsClaims(p: Platform, requests: seq<Request>)
    ensures forall slot :: slot in Exec(p, EMPTY, requests).cache <==> Claimed(p, requests, slot)
  {
    if requests != [] {
      var n := |requests| - 1;
      var s := Exec(p, EMPTY, requests[..n]);
      CacheHoldsClaims(p, requests[..n]);
      OnlyFirstRuns(p, s, requests[n]);
      forall slot ensures slot in Exec(p, EMPTY, requests).cache <==> Claimed(p, requests, slot) {
        ClaimedSnoc(p, requests, slot);
      }
    }
  }

  lemma ClaimedSnoc(p: Platform, requests: seq<Request>, slot: string)
    requires requests != []
    ensures var n := |requests| - 1;
      Claimed(p, requests, slot) <==>
      Claimed(p, requests[..n], slot) || (Admitted(p, requests[n]) && SlotOf(requests[n]) == slot)
  {
    var n := |requests| - 1;
    if Claimed(p, requests[..n], slot) {
      var i :| 0 <= i < n && Admitted(p, requests[..n][i]) && SlotOf(requests[..n][i]) == slot;
      assert Admitted(p, requests[i]) && SlotOf(requests[i]) == slot;
    }
    if Claimed(p, requests, slot) {
      var i :| 0 <= i < |requests| && Admitted(p, requests[i]) && SlotOf(requests[i]) == slot;
      if i < n {
        assert requests[..n][i] == requests[i];
      }
    }
  }

  /** The run without every request whose slot an earlier request claimed. */
  ghost function Erase(p: Platform, requests: seq<Request>): seq<Request> {
    if requests == [] then []
    else
      var n := |requests| - 1;
      Erase(p, requests[..n]) + (if Claimed(p, requests[..n], SlotOf(requests[n])) then [] else [requests[n]])
  }

  /** Retry erasure: erasing repeats of claimed slots leaves the final state exactly as it was. */
  lemma {:induction false} RetriesLeaveNoTrace(p: Platform, requests: seq<Request>)
    ensures Exec(p, EMPTY, Erase(p, requests)) == Exec(p, EMPTY, requests)
  {
    if requests != [] {
      var n := |requests| - 1;
      RetriesLeaveNoTrace(p, requests[..n]);
      CacheHoldsClaims(p, requests[..n]);
      var s := Exec(p, EMPTY, requests[..n]);
      if Claimed(p, requests[..n], SlotOf(requests[n])) {
        OnlyFirstRuns(p, s, requests[n]);
        assert Erase(p, requests) == Erase(p, requests[..n]);
      } else {
        var erased := Erase(p, requests);
        assert erased[..|erased| - 1] == Erase(p, requests[..n]);
      }
    }
  }

  /** A stored reply never changes: it is the reply of the slot's first admitted request. */
  lemma StoredReplyIsFirstReply(p: Platform, requests: seq<Request>, i: nat)
    requires FirstClaim(p, requests, i)
    ensures SlotOf(requests[i]) in Exec(p, EMPTY, requests).cache
    ensures Exec(p, EMPTY, requests).cache[SlotOf(requests[i])] == Stored(DigestOf(p, requests[i]), ReplyAt(p, EMPTY, requests, i))
  {
    CacheHoldsClaims(p, requests[..i]);
    ExecStep(p, EMPTY, requests, i);
    StoredStays(p, requests, i + 1, |requests|, SlotOf(requests[i]));
    assert requests[..|requests|] == requests;
  }

  lemma {:induction false} StoredStays(p: Platform, requests: seq<Request>, i: nat, j: nat, slot: string)
    requires i <= j <= |requests| && slot in Exec(p, EMPTY, requests[..i]).cache
    ensures slot in Exec(p, EMPTY, requests[..j]).cache
    ensures Exec(p, EMPTY, requests[..j]).cache[slot] == Exec(p, EMPTY, requests[..i]).cache[slot]
    decreases j
  {
    if i < j {
      StoredStays(p, requests, i, j - 1, slot);
      StoredStaysOnce(p, requests, j, slot);
    }
  }

  lemma StoredStaysOnce(p: Platform, requests: seq<Request>, j: nat, slot: string)
    requires 0 < j <= |requests| && slot in Exec(p, EMPTY, requests[..j - 1]).cache
    ensures slot in Exec(p, EMPTY, requests[..j]).cache
    ensures Exec(p, EMPTY, requests[..j]).cache[slot] == Exec(p, EMPTY, requests[..j - 1]).cache[slot]
  {
    assert requests[..j][..j - 1] == requests[..j - 1];
    OnlyFirstRuns(p, Exec(p, EMPTY, requests[..j - 1]), requests[j - 1]);
  }

  /** An admitted repeat gets the first reply again when its digest matches, and a conflict when it does not. */
  lemma RepeatGetsStoredReply(p: Platform, requests: seq<Request>, i: nat, j: nat)
    requires FirstClaim(p, requests, i) && i < j < |requests|
    requires Admitted(p, requests[j]) && SlotOf(requests[j]) == SlotOf(requests[i])
    ensures DigestOf(p, requests[j]) == DigestOf(p, requests[i]) ==>
      ReplyAt(p, EMPTY, requests, j) == ReplyAt(p, EMPTY, requests, i)
    ensures DigestOf(p, requests[j]) != DigestOf(p, requests[i]) ==>
      ReplyAt(p, EMPTY, requests, j) == Refuse(409, IdempotencyKeyReused, requests[j].ids.problem)
    ensures Mutate(p, Exec(p, EMPTY, requests[..j]), requests[j]).state == Exec(p, EMPTY, requests[..j])
  {
    assert requests[..j][..i] == requests[..i] && requests[..j][i] == requests[i];
    StoredReplyIsFirstReply(p, requests[..j], i);
  }

  // ---- What counts as the same request ---------------------------------------------------------------------

  /** No two texts share a hash, and a hash contains no zero byte. */
  ghost predicate CollisionFree(p: Platform) {
    && (forall a, b :: p.hash(a) == p.hash(b) ==> a == b)
    && (forall a :: '\0' !in p.hash(a))
  }

  /** Principal kinds and identifiers come from alphabets without the separators. */
  predicate PlainPrincipal(r: Request) { r.principal.Some? ==> '\0' !in r.principal.value.id && ':' !in r.principal.value.kind }

  /** The same body from the same sender; for saved resources the sender is the whole principal. */
  predicate SameRequest(p: Platform, a: Request, b: Request) {
    a.body == b.body && if p.route(a.verb, a.path).SetSaved? then a.principal == b.principal else Actor(a) == Actor(b)
  }

  lemma DigestTellsApart(p: Platform, a: Request, b: Request)
    requires CollisionFree(p) && PlainPrincipal(a) && PlainPrincipal(b) && a.verb == b.verb && a.path == b.path
    requires a.body.Some? && b.body.Some? && a.principal.Some? && b.principal.Some?
    ensures DigestOf(p, a) == DigestOf(p, b) <==> SameRequest(p, a, b)
  {
    var saved := p.route(a.verb, a.path).SetSaved?;
    var x := if saved then OwnerBinding(p, a.principal.value) else Actor(a);
    var y := if saved then OwnerBinding(p, b.principal.value) else Actor(b);
    SplitAtFirst(x, '\0', a.body.value);
    SplitAtFirst(y, '\0', b.body.value);
    assert DigestOf(p, a) == DigestOf(p, b) <==> x == y && a.body == b.body;
    if saved {
      OwnerTellsApart(p, a.principal.value, b.principal.value);
    }
  }

  lemma OwnerTellsApart(p: Platform, a: Principal, b: Principal)
    requires CollisionFree(p) && ':' !in a.kind && ':' !in b.kind
    ensures OwnerBinding(p, a) == OwnerBinding(p, b) <==> a == b
  {
    var x, y := a.kind + [':'] + a.id, b.kind + [':'] + b.id;
    SplitAtFirst(a.kind, ':', a.id);
    SplitAtFirst(b.kind, ':', b.id);
    if OWNER_TAG + x == OWNER_TAG + y {
      assert x == (OWNER_TAG + x)[|OWNER_TAG|..] && y == (OWNER_TAG + y)[|OWNER_TAG|..];
    }
  }

  /** An admitted request whose slot is claimed gets the first reply again exactly when it is the same request, and is
      told that its key was reused when it is not; either way nothing changes. */
  lemma RepeatIsRecognized(p: Platform, requests: seq<Request>, i: nat, j: nat)
    requires CollisionFree(p) && FirstClaim(p, requests, i) && i < j < |requests| && Admitted(p, requests[j])
    requires OnTheWire(requests[i]) && OnTheWire(requests[j]) && PlainPrincipal(requests[i]) && PlainPrincipal(requests[j])
    requires SlotOf(requests[j]) == SlotOf(requests[i])
    ensures ReplyAt(p, EMPTY, requests, j) ==
      if SameRequest(p, requests[i], requests[j]) then ReplyAt(p, EMPTY, requests, i)
      else Response(409, ProblemBody(Problem(IdempotencyKeyReused, requests[j].ids.problem, false)))
    ensures Exec(p, EMPTY, requests[..j + 1]) == Exec(p, EMPTY, requests[..j])
  {
    SlotInjective(p, requests[i], requests[j]);
    DigestTellsApart(p, requests[i], requests[j]);
    RepeatGetsStoredReply(p, requests, i, j);
    ExecStep(p, EMPTY, requests, j);
  }

  /** Exactly when the j-th request of a run leaves no trace: it was refused at the door, or an
      earlier request of its slot was let in. Having merely been sent before is not enough. */
  lemma TracelessIff(p: Platform, requests: seq<Request>, j: nat)
    requires j < |requests|
    ensures Exec(p, EMPTY, requests[..j + 1]) == Exec(p, EMPTY, requests[..j]) <==>
      !Admitted(p, requests[j]) || Claimed(p, requests[..j], SlotOf(requests[j]))
  {
    ExecStep(p, EMPTY, requests, j);
    CacheHoldsClaims(p, requests[..j]);
    OnlyFirstRuns(p, Exec(p, EMPTY, requests[..j]), requests[j]);
  }

  // ---- Erasing by method, path and key alone ----------------------------------------------------------------

  /** Some request of the run was sent with this slot, let in or not. */
  ghost predicate Sent(requests: seq<Request>, slot: string) {
    exists i :: 0 <= i < |requests| && SlotOf(requests[i]) == slot
  }

  /** The run without every request that repeats the method, path and key of an earlier one. */
  ghost function EraseSent(requests: seq<Request>): seq<Request> {
    if requests == [] then []
    else
      var n := |requests| - 1;
      EraseSent(requests[..n]) + (if Sent(requests[..n], SlotOf(requests[n])) then [] else [requests[n]])
  }

  /** No request is let in after earlier ones of its slot were all refused at the door. */
  ghost predicate FirstSentDecides(p: Platform, requests: seq<Request>) {
    forall j | 0 <= j < |requests| && Sent(requests[..j], SlotOf(requests[j])) && Admitted(p, requests[j]) ::
      Claimed(p, requests[..j], SlotOf(requests[j]))
  }

  /** Exactly when erasing by method, path and key alone leaves the final state unchanged. */
  lemma LiteralErasureIff(p: Platform, requests: seq<Request>)
    ensures Exec(p, EMPTY, EraseSent(requests)) == Exec(p, EMPTY, requests) <==> FirstSentDecides(p, requests)
  {
    if FirstSentDecides(p, requests) {
      LiteralErasure(p, requests);
    } else {
      var j :| 0 <= j < |requests| && Sent(requests[..j], SlotOf(requests[j])) && Admitted(p, requests[j])
            && !Claimed(p, requests[..j], SlotOf(requests[j]));
      LiteralErasureFails(p, requests, j);
    }
  }

  lemma {:induction false} LiteralErasure(p: Platform, requests: seq<Request>)
    requires FirstSentDecides(p, requests)
    ensures Exec(p, EMPTY, EraseSent(requests)) == Exec(p, EMPTY, requests)
  {
    if requests != [] {
      var n := |requests| - 1;
      DecidesPrefix(p, requests, n);
      LiteralErasure(p, requests[..n]);
      CacheHoldsClaims(p, requests[..n]);
      var erased := EraseSent(requests);
      if Sent(requests[..n], SlotOf(requests[n])) {
        OnlyFirstRuns(p, Exec(p, EMPTY, requests[..n]), requests[n]);
        assert erased == EraseSent(requests[..n]);
      } else {
        assert erased[..|erased| - 1] == EraseSent(requests[..n]);
      }
    }
  }

  lemma DecidesPrefix(p: Platform, requests: seq<Request>, n: nat)
    requires FirstSentDecides(p, requests) && n <= |requests|
    ensures FirstSentDecides(p, requests[..n])
  {
    forall j | 0 <= j < n && Sent(requests[..n][..j], SlotOf(requests[..n][j])) && Admitted(p, requests[..n][j])
      ensures Claimed(p, requests[..n][..j], SlotOf(requests[..n][j]))
    {
      assert requests[..n][..j] == requests[..j];
    }
  }

  lemma LiteralErasureFails(p: Platform, requests: seq<Request>, j: nat)
    requires j < |requests| && Sent(requests[..j], SlotOf(requests[j])) && Admitted(p, requests[j])
    requires !Claimed(p, requests[..j], SlotOf(requests[j]))
    ensures Exec(p, EMPTY, EraseSent(requests)) != Exec(p, EMPTY, requests)
  {
    var slot := SlotOf(requests[j]);
    CacheHoldsClaims(p, requests);
    CacheHoldsClaims(p, EraseSent(requests));
    OnlyFirstKept(p, requests, j, slot);
    assert Claimed(p, requests, slot);
  }

  /** What is kept of a slot is its first request. */
  lemma {:induction false} OnlyFirstKept(p: Platform, requests: seq<Request>, j: nat, slot: string)
    requires j <= |requests| && Sent(requests[..j], slot)
    ensures Claimed(p, EraseSent(requests), slot) ==> Claimed(p, requests[..j], slot)
    decreases |requests|
  {
    if j == |requests| {
      assert requests[..j] == requests;
      KeptWereSent(p, requests, slot);
    } else {
      var n := |requests| - 1;
      assert requests[..n][..j] == requests[..j];
      OnlyFirstKept(p, requests[..n], j, slot);
      KeptSnoc(p, requests, slot);
    }
  }

  /** The last request is kept, and may claim the slot. */
  ghost predicate NewClaim(p: Platform, requests: seq<Request>, slot: string)
    requires requests != []
  {
    var n := |requests| - 1;
    !Sent(requests[..n], SlotOf(requests[n])) && Admitted(p, requests[n]) && SlotOf(requests[n]) == slot
  }

  lemma KeptSnoc(p: Platform, requests: seq<Request>, slot: string)
    requires requests != []
    ensures Claimed(p, EraseSent(requests), slot) <==> (Claimed(p, EraseSent(requests[..|requests| - 1]), slot) || NewClaim(p, requests, slot))
  {
    var n := |requests| - 1;
    if Sent(requests[..n], SlotOf(requests[n])) {
      assert EraseSent(requests) == EraseSent(requests[..n]);
    } else {
      ClaimedAppended(p, EraseSent(requests[..n]), requests[n], slot);
    }
  }

  lemma ClaimedAppended(p: Platform, requests: seq<Request>, r: Request, slot: string)
    ensures Claimed(p, requests + [r], slot) <==> (Claimed(p, requests, slot) || (Admitted(p, r) && SlotOf(r) == slot))
  {
    assert (requests + [r])[..|requests|] == requests;
    ClaimedSnoc(p, requests + [r], slot);
  }

  lemma {:induction false} KeptWereSent(p: Platform, requests: seq<Request>, slot: string)
    ensures Claimed(p, EraseSent(requests), slot) ==> Claimed(p, requests, slot)
  {
    if requests != [] {
      KeptWereSent(p, requests[..|requests| - 1], slot);
      KeptSnoc(p, requests, slot);
      ClaimedSnoc(p, requests, slot);
    }
  }

  /** A platform on which every path is a workspace creation in one domain. */
  function SampleWorkspace(domain: string): Platform {
    Platform(
      (verb: string, path: string) => CreateWorkspace(domain),
      (route: Route, raw: string) => NamedInput("n", ""),
      (text: string) => text, (owner: Principal) => true,
      (text: string) => text, (text: string) => true, (name: string) => true,
      (a: Option<Json>, b: Option<Json>) => None,
      (a: Option<Json>, b: map<string, Value>) => None,
      (a: Option<Json>, b: string) => None,
      (name: string) => None,
      (id: string, v: Option<Value>) => id, (id: string, key: string) => id, (id: string, n: int) => id)
  }

  /** Resending after a refusal is not a repeat: a request refused for its media type does not claim its slot, so the
      same method, path and key sent again still takes effect, and erasing it changes the final state. */
  lemma RefusalClaimsNothing(r: Request, domain: string)
    requires ValidDomain(domain) && IdempotencyKey(r.key) && Actor(r) != "" && r.body.Some? && r.jsonMedia
    ensures var p := SampleWorkspace(domain);
      var refused := r.(jsonMedia := false);
      && EraseSent([refused, r]) == [refused]
      && Exec(p, EMPTY, EraseSent([refused, r])) != Exec(p, EMPTY, [refused, r])
  {
    var p := SampleWorkspace(domain);
    var refused := r.(jsonMedia := false);
    var both := [refused, r];
    TracelessIff(p, both, 1);
    assert both[..2] == both && both[..1] == [refused];
    assert Admitted(p, r) && !Admitted(p, refused);
    assert !Claimed(p, both[..1], SlotOf(r));
    ErasesSecond(refused, r);
  }

  lemma ErasesSecond(a: Request, b: Request)
    requires SlotOf(a) == SlotOf(b)
    ensures EraseSent([a, b]) == [a]
  {
    assert [a, b][..1] == [a] && [a][..0] == [];
    assert EraseSent([a]) == [a];
    assert SlotOf([a][0]) == SlotOf(b);
  }
}
