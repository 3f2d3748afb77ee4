/** The keyset request validator: one JSON object, distinct member names, bounded nesting; and how what it accepts
    compares with the configuration validator. */
module KeysetJson {
  import opened Text
  import opened JsonTrees
  import C = ConfigurationJson

  const MAXIMUM_DEPTH := 16

  // ---- The recogniser, as a function of the remaining tokens ----------------------------------------------

  function Closing(braces: bool): Token { if braces then CloseBrace else CloseBracket }

  /** What remains after the rest of a container, from anywhere inside it. */
  function AfterEntries(tokens: seq<Token>, braces: bool, seen: set<string>, depth: nat): (r: Option<seq<Token>>)
    ensures r.Some? ==> |r.value| < |tokens|
    decreases |tokens|, 1
  {
    if tokens == [] then None
    else if Closes(tokens[0]) then if tokens[0] == Closing(braces) then Some(tokens[1..]) else None
    else if braces && (!tokens[0].Str? || tokens[0].text in seen) then None
    else
      var rest := AfterEntry(if braces then tokens[1..] else tokens, depth);
      if rest.None? then None else AfterEntries(rest.value, braces, if braces then seen + {tokens[0].text} else seen, depth)
  }

  /** What remains after one value inside a container at this depth. */
  function AfterEntry(tokens: seq<Token>, depth: nat): (r: Option<seq<Token>>)
    ensures r.Some? ==> |r.value| < |tokens|
    decreases |tokens|, 0
  {
    if tokens == [] then None
    else match tokens[0]
      case OpenBrace => if depth + 1 > MAXIMUM_DEPTH then None else AfterEntries(tokens[1..], true, {}, depth + 1)
      case OpenBracket => if depth + 1 > MAXIMUM_DEPTH then None else AfterEntries(tokens[1..], false, {}, depth + 1)
      case CloseBrace => None
      case CloseBracket => None
      case Str(_) => Some(tokens[1..])
      case Literal(_) => Some(tokens[1..])
  }

  predicate AcceptsRequest(tokens: seq<Token>) {
    tokens != [] && tokens[0].OpenBrace? && AfterEntries(tokens[1..], true, {}, 1) == Some([])
  }

  // ---- The validator, advancing a position -------------------------------------------------------------------

  method ValidateContainer(tokens: seq<Token>, from: nat, braces: bool, depth: nat) returns (accepted: bool, next: nat)
    requires from <= |tokens|
    ensures accepted <==> depth <= MAXIMUM_DEPTH && AfterEntries(tokens[from..], braces, {}, depth).Some?
    ensures accepted ==> from < next <= |tokens| && tokens[next..] == AfterEntries(tokens[from..], braces, {}, depth).value
    decreases |tokens| - from, 1
  {
    next := from;
    if depth > MAXIMUM_DEPTH {
      return false, next;
    }
    var seen: set<string> := {};
    while next < |tokens| && !Closes(tokens[next])
      invariant from <= next <= |tokens|
      invariant AfterEntries(tokens[from..], braces, {}, depth) == AfterEntries(tokens[next..], braces, seen, depth)
      decreases |tokens| - next
    {
      assert tokens[next..][1..] == tokens[next + 1..];
      var at := next;
      if braces {
        var member := tokens[next];
        if !member.Str? {
          return false, next;
        }
        if member.text in seen {
          return false, next;
        }
        seen := seen + {member.text};
        at := next + 1;
      }
      var ok, after := ValidateEntry(tokens, at, depth);
      if !ok {
        return false, next;
      }
      next := after;
    }
    if next == |tokens| || tokens[next] != Closing(braces) {
      return false, next;
    }
    assert tokens[next..][1..] == tokens[next + 1..];
    return true, next + 1;
  }

  method ValidateEntry(tokens: seq<Token>, from: nat, depth: nat) returns (accepted: bool, next: nat)
    requires from <= |tokens|
    ensures accepted <==> AfterEntry(tokens[from..], depth).Some?
    ensures accepted ==> from < next <= |tokens| && tokens[next..] == AfterEntry(tokens[from..], depth).value
    decreases |tokens| - from, 0
  {
    next := from;
    if from == |tokens| {
      return false, next;
    }
    assert tokens[from..][1..] == tokens[from + 1..];
    match tokens[from]
    case OpenBrace => accepted, next := ValidateContainer(tokens, from + 1, true, depth + 1);
    case OpenBracket => accepted, next := ValidateContainer(tokens, from + 1, false, depth + 1);
    case CloseBrace => accepted := false;
    case CloseBracket => accepted := false;
    case Str(_) => accepted, next := true, from + 1;
    case Literal(_) => accepted, next := true, from + 1;
  }

  /** Acceptance of a whole request; `clean` is whether the decoder reaches the end of the input after these tokens. */
  method RequireUniqueKeysetRequestJson(tokens: seq<Token>, clean: bool) returns (accepted: bool)
    ensures accepted <==> clean && InLanguage(tokens)
  {
    ExactLanguage(tokens);
    if tokens == [] || !tokens[0].OpenBrace? {
      return false;
    }
    var ok, next := ValidateContainer(tokens, 1, true, 1);
    if !ok {
      return false;
    }
    if next < |tokens| || !clean {
      return false;
    }
    return true;
  }

  // ---- The accepted language, in terms of trees -------------------------------------------------------------------

  /** The tokens are those of an object with distinct member names at every level and at most 16 containers inside one
      another. */
  ghost predicate InLanguage(tokens: seq<Token>) {
    exists v: Value :: Proper(v) && tokens == Flatten(v) && v.Obj? && Distinct(v) && Nesting(v) <= MAXIMUM_DEPTH
  }

  lemma ExactLanguage(tokens: seq<Token>)
    ensures AcceptsRequest(tokens) <==> InLanguage(tokens)
  {
    if AcceptsRequest(tokens) {
      var ms := ReadMembers(tokens[1..], {}, 1);
      WrapMembers(tokens, ms, []);
      assert tokens == Flatten(Obj(ms));
      AcceptsMembers(ms, [], {}, 1);
    }
    if InLanguage(tokens) {
      var v: Value :| Proper(v) && tokens == Flatten(v) && v.Obj? && Distinct(v) && Nesting(v) <= MAXIMUM_DEPTH;
      assert tokens[1..] == FlattenMembers(v.members) + ([CloseBrace] + []);
      AcceptsMembers(v.members, [], {}, 1);
    }
  }

  lemma {:induction false} AcceptsTree(v: Value, rest: seq<Token>, depth: nat)
    requires Proper(v) && depth <= MAXIMUM_DEPTH
    ensures AfterEntry(Flatten(v) + rest, depth) == if Distinct(v) && depth + Nesting(v) <= MAXIMUM_DEPTH then Some(rest) else None
  {
    var tokens := Flatten(v) + rest;
    match v
    case Scalar(_) => assert tokens[1..] == rest;
    case Obj(ms) =>
      assert tokens[1..] == FlattenMembers(ms) + ([CloseBrace] + rest);
      if depth < MAXIMUM_DEPTH {
        AcceptsMembers(ms, rest, {}, depth + 1);
      }
    case Arr(xs) =>
      assert tokens[1..] == FlattenItems(xs) + ([CloseBracket] + rest);
      if depth < MAXIMUM_DEPTH {
        AcceptsItems(xs, rest, depth + 1);
      }
  }

  lemma {:induction false} AcceptsMembers(ms: Members, rest: seq<Token>, seen: set<string>, depth: nat)
    requires ProperMembers(ms) && depth <= MAXIMUM_DEPTH
    ensures AfterEntries(FlattenMembers(ms) + ([CloseBrace] + rest), true, seen, depth)
         == if DistinctMembers(ms) && Names(ms) !! seen && depth + NestingMembers(ms) <= MAXIMUM_DEPTH then Some(rest) else None
  {
    var tokens := FlattenMembers(ms) + ([CloseBrace] + rest);
    if ms.NoMembers? {
      assert tokens == [CloseBrace] + rest && tokens[1..] == rest;
    } else {
      var after := FlattenMembers(ms.others) + ([CloseBrace] + rest);
      assert tokens[1..] == Flatten(ms.value) + after;
      AcceptsTree(ms.value, after, depth);
      AcceptsMembers(ms.others, rest, seen + {ms.name}, depth);
    }
  }

  lemma {:induction false} AcceptsItems(xs: Items, rest: seq<Token>, depth: nat)
    requires ProperItems(xs) && depth <= MAXIMUM_DEPTH
    ensures AfterEntries(FlattenItems(xs) + ([CloseBracket] + rest), false, {}, depth)
         == if DistinctItems(xs) && depth + NestingItems(xs) <= MAXIMUM_DEPTH then Some(rest) else None
  {
    var tokens := FlattenItems(xs) + ([CloseBracket] + rest);
    if xs.NoItems? {
      assert tokens == [CloseBracket] + rest && tokens[1..] == rest;
    } else {
      var after := FlattenItems(xs.others) + ([CloseBracket] + rest);
      assert tokens == Flatten(xs.value) + after;
      AcceptsTree(xs.value, after, depth);
      AcceptsItems(xs.others, rest, depth);
    }
  }

  lemma {:induction false} ReadEntry(tokens: seq<Token>, depth: nat) returns (v: Value)
    requires AfterEntry(tokens, depth).Some?
    ensures Proper(v) && tokens == Flatten(v) + AfterEntry(tokens, depth).value
    decreases |tokens|, 0
  {
    var rest := AfterEntry(tokens, depth).value;
    match tokens[0]
    case OpenBrace =>
      var ms := ReadMembers(tokens[1..], {}, depth + 1);
      WrapMembers(tokens, ms, rest);
      v := Obj(ms);
    case OpenBracket =>
      var xs := ReadItems(tokens[1..], {}, depth + 1);
      WrapItems(tokens, xs, rest);
      v := Arr(xs);
    case Str(_) => v := Scalar(tokens[0]);
    case Literal(_) => v := Scalar(tokens[0]);
  }

  lemma {:induction false} ReadMembers(tokens: seq<Token>, seen: set<string>, depth: nat) returns (ms: Members)
    requires AfterEntries(tokens, true, seen, depth).Some?
    ensures ProperMembers(ms) && tokens == FlattenMembers(ms) + ([CloseBrace] + AfterEntries(tokens, true, seen, depth).value)
    decreases |tokens|, 1
  {
    var end := [CloseBrace] + AfterEntries(tokens, true, seen, depth).value;
    if Closes(tokens[0]) {
      ms := NoMembers;
      assert tokens == end;
    } else {
      var v := ReadEntry(tokens[1..], depth);
      var after := AfterEntry(tokens[1..], depth).value;
      var others := ReadMembers(after, seen + {tokens[0].text}, depth);
      ms := Member(tokens[0].text, v, others);
      JoinMembers(tokens, v, others, after, end);
    }
  }

  lemma {:induction false} ReadItems(tokens: seq<Token>, seen: set<string>, depth: nat) returns (xs: Items)
    requires AfterEntries(tokens, false, seen, depth).Some?
    ensures ProperItems(xs) && tokens == FlattenItems(xs) + ([CloseBracket] + AfterEntries(tokens, false, seen, depth).value)
    decreases |tokens|, 1
  {
    var end := [CloseBracket] + AfterEntries(tokens, false, seen, depth).value;
    if Closes(tokens[0]) {
      xs := NoItems;
      assert tokens == end;
    } else {
      var v := ReadEntry(tokens, depth);
      var after := AfterEntry(tokens, depth).value;
      var others := ReadItems(after, seen, depth);
      xs := Item(v, others);
      JoinItems(tokens, v, others, after, end);
    }
  }

  // ---- The two validators compared ---------------------------------------------------------------------------------

  /** Every keyset request is acceptable configuration JSON. */
  lemma KeysetImpliesConfiguration(tokens: seq<Token>)
    requires InLanguage(tokens)
    ensures C.InLanguage(tokens)
  {
    var v: Value :| Proper(v) && tokens == Flatten(v) && v.Obj? && Distinct(v) && Nesting(v) <= MAXIMUM_DEPTH;
    HeightBelowNesting(v);
  }

  /** On the tokens of a tree the configuration validator accepts and the keyset validator does not exactly when the
      tree is acceptable but its root is no object or an empty container lies at depth 16. */
  lemma ValidatorsDiffer(v: Value)
    requires Proper(v)
    ensures C.InLanguage(Flatten(v)) && !InLanguage(Flatten(v)) <==>
      Distinct(v) && Height(v) <= C.MAXIMUM_DEPTH && (!v.Obj? || EmptyAt(v, MAXIMUM_DEPTH))
  {
    ConfigurationTree(v);
    KeysetTree(v);
    if Height(v) <= MAXIMUM_DEPTH {
      NestingExceeds(v, MAXIMUM_DEPTH);
    }
    HeightBelowNesting(v);
  }

  /** The languages, told of the tree itself rather than of some tree with the same tokens. */
  lemma ConfigurationTree(v: Value)
    requires Proper(v)
    ensures C.InLanguage(Flatten(v)) <==> Distinct(v) && Height(v) <= C.MAXIMUM_DEPTH
  {
    C.ExactLanguage(Flatten(v));
    C.AcceptsTree(v, [], 0);
    assert Flatten(v) + [] == Flatten(v);
  }

  lemma KeysetTree(v: Value)
    requires Proper(v)
    ensures InLanguage(Flatten(v)) <==> v.Obj? && Distinct(v) && Nesting(v) <= MAXIMUM_DEPTH
  {
    ExactLanguage(Flatten(v));
    if v.Obj? {
      AcceptsMembers(v.members, [], {}, 1);
      assert Flatten(v)[1..] == FlattenMembers(v.members) + ([CloseBrace] + []);
    }
  }
}
