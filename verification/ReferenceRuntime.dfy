/** Normalization of a runtime's event deliveries: duplicates dropped, order restored, numbered 1..n. */
module ReferenceRuntime {
  import opened Text
  import opened Resources
  import opened Sorting

  /** Every field normalization requires is present. */
  predicate Complete(e: RuntimeEvent) {
    e.key != "" && e.sequence > 0 && e.kind != OtherKind("") && e.payload.Some?
  }

  /** Two deliveries under one key are the same event. */
  predicate Consistent(events: seq<RuntimeEvent>) {
    forall i, j | 0 <= i < |events| && 0 <= j < |events| && events[i].key == events[j].key :: events[i] == events[j]
  }

  /** `out` holds exactly the delivered events, once each, and the i-th carries sequence i + 1. */
  predicate NormalForm(events: seq<RuntimeEvent>, out: seq<RuntimeEvent>) {
    && Elements(out) == Elements(events)
    && forall i | 0 <= i < |out| :: out[i].sequence == i + 1
  }

  predicate Clean(events: seq<RuntimeEvent>, out: seq<RuntimeEvent>) {
    && (forall e | e in events :: Complete(e))
    && Consistent(events)
    && NormalForm(events, out)
  }

  /** The normalized journal of a delivery, when it has one. */
  ghost function Normalized(events: seq<RuntimeEvent>): (r: Option<seq<RuntimeEvent>>)
    ensures r.Some? ==> Clean(events, r.value)
    ensures r.None? ==> forall out :: !Clean(events, out)
  {
    if exists out :: Clean(events, out) then
      var out :| Clean(events, out);
      Some(out)
    else None
  }

  /** A delivery has at most one normal form. */
  lemma NormalFormUnique(events: seq<RuntimeEvent>, a: seq<RuntimeEvent>, b: seq<RuntimeEvent>)
    requires NormalForm(events, a) && NormalForm(events, b)
    ensures a == b
  {
    NormalFormLength(events, a);
    NormalFormLength(events, b);
    forall i | 0 <= i < |a| ensures a[i] == b[i] {
      assert a[i] in Elements(b);
    }
  }

  lemma NormalFormLength(events: seq<RuntimeEvent>, out: seq<RuntimeEvent>)
    requires NormalForm(events, out)
    ensures NoRepeats(out) && |out| == |Elements(events)|
  {
    CountDistinct(out);
  }

  /** Delivery order and duplication do not matter: the same events normalize to the same journal. */
  lemma DeliveryOrderIrrelevant(a: seq<RuntimeEvent>, b: seq<RuntimeEvent>)
    requires Elements(a) == Elements(b)
    ensures Normalized(a) == Normalized(b)
  {
    forall out ensures Clean(a, out) == Clean(b, out) {
      if Clean(a, out) { CleanDependsOnElements(a, b, out); }
      if Clean(b, out) { CleanDependsOnElements(b, a, out); }
    }
    if Normalized(a).Some? {
      assert Clean(b, Normalized(a).value);
      NormalFormUnique(b, Normalized(a).value, Normalized(b).value);
    }
  }

  lemma CleanDependsOnElements(a: seq<RuntimeEvent>, b: seq<RuntimeEvent>, out: seq<RuntimeEvent>)
    requires Elements(a) == Elements(b) && Clean(a, out)
    ensures Clean(b, out)
  {
    forall e | e in b ensures Complete(e) {
      assert e in Elements(a);
    }
    forall i, j | 0 <= i < |b| && 0 <= j < |b| && b[i].key == b[j].key ensures b[i] == b[j] {
      assert b[i] in Elements(a) && b[j] in Elements(a);
    }
  }

  // ---- The algorithm ----------------------------------------------------------------------

  predicate Earlier(a: RuntimeEvent, b: RuntimeEvent) { a.sequence < b.sequence }

  method Normalize(events: seq<RuntimeEvent>) returns (r: Option<seq<RuntimeEvent>>)
    ensures r == Normalized(events)
  {
    var accepted, byKey := ByKey(events);
    if !accepted {
      return None;
    }
    var gathered := Values(byKey);
    var normalized := SortSlice(gathered, Earlier);
    Permuted(normalized, gathered);
    for n := 0 to |normalized|
      invariant forall i | 0 <= i < n :: normalized[i].sequence == i + 1
    {
      if normalized[n].sequence != n + 1 {
        GapMeansNone(events, normalized, n);
        return None;
      }
    }
    assert Clean(events, normalized);
    NormalFormUnique(events, normalized, Normalized(events).value);
    return Some(normalized);
  }

  /** The first loop: one event per key, rejecting incomplete and conflicting deliveries. */
  method ByKey(events: seq<RuntimeEvent>) returns (accepted: bool, byKey: map<string, RuntimeEvent>)
    ensures accepted == ((forall e | e in events :: Complete(e)) && Consistent(events))
    ensures accepted ==> Indexes(events, byKey)
  {
    byKey := map[];
    for n := 0 to |events|
      invariant forall i | 0 <= i < n :: Complete(events[i])
      invariant Indexes(events[..n], byKey)
    {
      var candidate := events[n];
      if !Complete(candidate) {
        assert candidate in events;
        return false, byKey;
      }
      if candidate.key in byKey && byKey[candidate.key] != candidate {
        var i :| 0 <= i < n && events[i] == byKey[candidate.key];
        assert events[i].key == events[n].key && events[i] != events[n];
        return false, byKey;
      }
      byKey := byKey[candidate.key := candidate];
      assert events[..n + 1] == events[..n] + [candidate];
    }
    assert events[..|events|] == events;
    return true, byKey;
  }

  /** `byKey` maps each delivered key to its event, and holds nothing else. */
  predicate Indexes(events: seq<RuntimeEvent>, byKey: map<string, RuntimeEvent>) {
    && (forall i | 0 <= i < |events| :: events[i].key in byKey && byKey[events[i].key] == events[i])
    && (forall k | k in byKey :: byKey[k].key == k && byKey[k] in events)
  }

  method Values(byKey: map<string, RuntimeEvent>) returns (values: seq<RuntimeEvent>)
    requires forall k | k in byKey :: byKey[k].key == k
    ensures NoRepeats(values)
    ensures forall e :: e in values <==> e.key in byKey && byKey[e.key] == e
  {
    values := [];
    var keys := byKey.Keys;
    while keys != {}
      invariant keys <= byKey.Keys
      invariant forall e :: e in values <==> e.key in byKey.Keys - keys && byKey[e.key] == e
      invariant NoRepeats(values)
      decreases |keys|
    {
      var k :| k in keys;
      keys := keys - {k};
      values := values + [byKey[k]];
    }
  }

  /** A gap in the sorted, duplicate-free list rules out every normal form. */
  lemma GapMeansNone(events: seq<RuntimeEvent>, sorted: seq<RuntimeEvent>, n: nat)
    requires Elements(sorted) == Elements(events) && NoRepeats(sorted) && InOrder(sorted, Earlier)
    requires n < |sorted| && sorted[n].sequence != n + 1
    ensures forall out :: !Clean(events, out)
  {
    forall out ensures !Clean(events, out) {
      if Clean(events, out) {
        SortedIsNumbered(events, sorted, out);
      }
    }
  }

  lemma SortedIsNumbered(events: seq<RuntimeEvent>, sorted: seq<RuntimeEvent>, out: seq<RuntimeEvent>)
    requires Elements(sorted) == Elements(events) && NoRepeats(sorted) && InOrder(sorted, Earlier)
    requires NormalForm(events, out)
    ensures forall i | 0 <= i < |sorted| :: sorted[i].sequence == i + 1
  {
    NormalFormLength(events, out);
    CountDistinct(sorted);
    forall i | 0 <= i < |sorted| ensures 1 <= sorted[i].sequence <= |out| && out[sorted[i].sequence - 1] == sorted[i] {
      assert sorted[i] in Elements(out);
    }
    forall i, j | 0 <= i < j < |sorted| ensures sorted[i].sequence < sorted[j].sequence {
      assert !Earlier(sorted[j], sorted[i]);
      assert sorted[i] != sorted[j];
    }
    forall i | 0 <= i < |sorted| ensures sorted[i].sequence == i + 1 {
      ClimbsAtLeast(sorted, i);
      LeavesRoom(sorted, i, |out|);
    }
  }

  lemma {:induction false} ClimbsAtLeast(s: seq<RuntimeEvent>, i: nat)
    requires i < |s| && s[0].sequence >= 1
    requires forall j, k | 0 <= j < k < |s| :: s[j].sequence < s[k].sequence
    ensures s[i].sequence >= i + 1
  {
    if i > 0 {
      ClimbsAtLeast(s, i - 1);
    }
  }

  lemma {:induction false} LeavesRoom(s: seq<RuntimeEvent>, i: nat, bound: int)
    requires i < |s| == bound
    requires forall j | 0 <= j < |s| :: s[j].sequence <= bound
    requires forall j, k | 0 <= j < k < |s| :: s[j].sequence < s[k].sequence
    ensures s[i].sequence <= i + 1
    decreases |s| - i
  {
    if i < |s| - 1 {
      LeavesRoom(s, i + 1, bound);
    }
  }
}
