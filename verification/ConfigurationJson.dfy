/** The configuration validator: one JSON value, distinct member names, bounded depth, nothing after it. */
module ConfigurationJson {
  import opened Text
  import opened JsonTrees

  const MAXIMUM_DEPTH := 16

  // ---- The recogniser, as a function of the remaining tokens ----------------------------------------------

  /** What remains after one acceptable value; None when there is none. */
  function AfterValue(tokens: seq<Token>, depth: nat): (r: Option<seq<Token>>)
    ensures r.Some? ==> |r.value| < |tokens|
    decreases |tokens|, 1
  {
    if depth > MAXIMUM_DEPTH || tokens == [] then None
    else match tokens[0]
      case OpenBrace => AfterMembers(tokens[1..], {}, depth)
      case OpenBracket => AfterItems(tokens[1..], depth)
      case CloseBrace => None
      case CloseBracket => None
      case Str(_) => Some(tokens[1..])
      case Literal(_) => Some(tokens[1..])
  }

  function AfterMembers(tokens: seq<Token>, seen: set<string>, depth: nat): (r: Option<seq<Token>>)
    ensures r.Some? ==> |r.value| < |tokens|
    decreases |tokens|, 0
  {
    if tokens == [] then None
    else if Closes(tokens[0]) then if tokens[0].CloseBrace? then Some(tokens[1..]) else None
    else if !tokens[0].Str? || tokens[0].text in seen then None
    else
      var rest := AfterValue(tokens[1..], depth + 1);
      if rest.None? then None else AfterMembers(rest.value, seen + {tokens[0].text}, depth)
  }

  function AfterItems(tokens: seq<Token>, depth: nat): (r: Option<seq<Token>>)
    ensures r.Some? ==> |r.value| < |tokens|
    decreases |tokens|, 2
  {
    if tokens == [] then None
    else if Closes(tokens[0]) then if tokens[0].CloseBracket? then Some(tokens[1..]) else None
    else
      var rest := AfterValue(tokens, depth + 1);
      if rest.None? then None else AfterItems(rest.value, depth)
  }

  // ---- The validator, advancing a position -------------------------------------------------------------------

  method ValidateValue(tokens: seq<Token>, from: nat, depth: nat) returns (accepted: bool, next: nat)
    requires from <= |tokens|
    ensures accepted <==> AfterValue(tokens[from..], depth).Some?
    ensures accepted ==> from < next <= |tokens| && tokens[next..] == AfterValue(tokens[from..], depth).value
    decreases |tokens| - from, 1
  {
    next := from;
    if depth > MAXIMUM_DEPTH {
      return false, next;
    }
    if from == |tokens| {
      return false, next;
    }
    var token := tokens[from];
    assert tokens[from..][1..] == tokens[from + 1..];
    match token
    case OpenBrace => accepted, next := ValidateMembers(tokens, from + 1, depth);
    case OpenBracket => accepted, next := ValidateItems(tokens, from + 1, depth);
    case CloseBrace => accepted := false;
    case CloseBracket => accepted := false;
    case Str(_) => accepted, next := true, from + 1;
    case Literal(_) => accepted, next := true, from + 1;
  }

  method ValidateMembers(tokens: seq<Token>, from: nat, depth: nat) returns (accepted: bool, next: nat)
    requires from <= |tokens|
    ensures accepted <==> AfterMembers(tokens[from..], {}, depth).Some?
    ensures accepted ==> from < next <= |tokens| && tokens[next..] == AfterMembers(tokens[from..], {}, depth).value
    decreases |tokens| - from, 2
  {
    var seen: set<string> := {};
    next := from;
    while next < |tokens| && !Closes(tokens[next])
      invariant from <= next <= |tokens|
      invariant AfterMembers(tokens[from..], {}, depth) == AfterMembers(tokens[next..], seen, depth)
      decreases |tokens| - next
    {
      var key := tokens[next];
      assert tokens[next..][1..] == tokens[next + 1..];
      if !key.Str? {
        return false, next;
      }
      if key.text in seen {
        return false, next;
      }
      var ok, after := ValidateValue(tokens, next + 1, depth + 1);
      if !ok {
        return false, next;
      }
      seen := seen + {key.text};
      next := after;
    }
    if next == |tokens| || !tokens[next].CloseBrace? {
      return false, next;
    }
    assert tokens[next..][1..] == tokens[next + 1..];
    return true, next + 1;
  }

  method ValidateItems(tokens: seq<Token>, from: nat, depth: nat) returns (accepted: bool, next: nat)
    requires from <= |tokens|
    ensures accepted <==> AfterItems(tokens[from..], depth).Some?
    ensures accepted ==> from < next <= |tokens| && tokens[next..] == AfterItems(tokens[from..], depth).value
    decreases |tokens| - from, 2
  {
    next := from;
    while next < |tokens| && !Closes(tokens[next])
      invariant from <= next <= |tokens|
      invariant AfterItems(tokens[from..], depth) == AfterItems(tokens[next..], depth)
      decreases |tokens| - next
    {
      var ok, after := ValidateValue(tokens, next, depth + 1);
      if !ok {
        return false, next;
      }
      next := after;
    }
    if next == |tokens| || !tokens[next].CloseBracket? {
      return false, next;
    }
    assert tokens[next..][1..] == tokens[next + 1..];
    return true, next + 1;
  }

  /** Acceptance of a whole document: one value, then the end of a well-formed input. `clean` is whether the decoder
      reaches the end of the input after these tokens rather than a syntax error. */
  method RequireUniqueConfigurationJson(tokens: seq<Token>, clean: bool) returns (accepted: bool)
    ensures accepted <==> clean && InLanguage(tokens)
  {
    var ok, next := ValidateValue(tokens, 0, 0);
    assert tokens[0..] == tokens;
    ExactLanguage(tokens);
    if !ok {
      return false;
    }
    if next < |tokens| || !clean {
      return false;
    }
    return true;
  }

  // ---- The accepted language, in terms of trees -------------------------------------------------------------------

  /** The tokens are those of a value with distinct member names at every level and nothing deeper than 16. */
  ghost predicate InLanguage(tokens: seq<Token>) {
    exists v :: Proper(v) && tokens == Flatten(v) && Distinct(v) && Height(v) <= MAXIMUM_DEPTH
  }

  lemma ExactLanguage(tokens: seq<Token>)
    ensures AfterValue(tokens, 0) == Some([]) <==> InLanguage(tokens)
  {
    if AfterValue(tokens, 0) == Some([]) {
      var v := ReadValue(tokens, 0);
      assert tokens == Flatten(v) + [] == Flatten(v);
      AcceptsTree(v, [], 0);
    }
    if InLanguage(tokens) {
      var v :| Proper(v) && tokens == Flatten(v) && Distinct(v) && Height(v) <= MAXIMUM_DEPTH;
      assert Flatten(v) + [] == Flatten(v);
      AcceptsTree(v, [], 0);
    }
  }

  /** On the tokens of a tree the validator accepts exactly when the tree is within the rules. */
  lemma {:induction false} AcceptsTree(v: Value, rest: seq<Token>, depth: nat)
    requires Proper(v)
    ensures AfterValue(Flatten(v) + rest, depth) == if Distinct(v) && depth + Height(v) <= MAXIMUM_DEPTH then Some(rest) else None
  {
    var tokens := Flatten(v) + rest;
    match v
    case Scalar(_) => assert tokens[1..] == rest;
    case Obj(ms) =>
      assert tokens[1..] == FlattenMembers(ms) + ([CloseBrace] + rest);
      if depth <= MAXIMUM_DEPTH {
        AcceptsMembers(ms, rest, {}, depth);
      }
    case Arr(xs) =>
      assert tokens[1..] == FlattenItems(xs) + ([CloseBracket] + rest);
      if depth <= MAXIMUM_DEPTH {
        AcceptsItems(xs, rest, depth);
      }
  }

  lemma {:induction false} AcceptsMembers(ms: Members, rest: seq<Token>, seen: set<string>, depth: nat)
    requires ProperMembers(ms) && depth <= MAXIMUM_DEPTH
    ensures AfterMembers(FlattenMembers(ms) + ([CloseBrace] + rest), seen, depth)
         == if DistinctMembers(ms) && Names(ms) !! seen && depth + HeightMembers(ms) <= MAXIMUM_DEPTH then Some(rest) else None
  {
    var tokens := FlattenMembers(ms) + ([CloseBrace] + rest);
    if ms.NoMembers? {
      assert tokens == [CloseBrace] + rest && tokens[1..] == rest;
    } else {
      var after := FlattenMembers(ms.others) + ([CloseBrace] + rest);
      assert tokens[1..] == Flatten(ms.value) + after;
      AcceptsTree(ms.value, after, depth + 1);
      AcceptsMembers(ms.others, rest, seen + {ms.name}, depth);
    }
  }

  lemma {:induction false} AcceptsItems(xs: Items, rest: seq<Token>, depth: nat)
    requires ProperItems(xs) && depth <= MAXIMUM_DEPTH
    ensures AfterItems(FlattenItems(xs) + ([CloseBracket] + rest), depth)
         == if DistinctItems(xs) && depth + HeightItems(xs) <= MAXIMUM_DEPTH then Some(rest) else None
  {
    var tokens := FlattenItems(xs) + ([CloseBracket] + rest);
    if xs.NoItems? {
      assert tokens == [CloseBracket] + rest && tokens[1..] == rest;
    } else {
      var after := FlattenItems(xs.others) + ([CloseBracket] + rest);
      assert tokens == Flatten(xs.value) + after;
      AcceptsTree(xs.value, after, depth + 1);
      AcceptsItems(xs.others, rest, depth);
    }
  }

  /** Whatever is accepted is the token stream of some tree. */
  lemma {:induction false} ReadValue(tokens: seq<Token>, depth: nat) returns (v: Value)
    requires AfterValue(tokens, depth).Some?
    ensures Proper(v) && tokens == Flatten(v) + AfterValue(tokens, depth).value
    decreases |tokens|, 1
  {
    var rest := AfterValue(tokens, depth).value;
    match tokens[0]
    case OpenBrace =>
      var ms := ReadMembers(tokens[1..], {}, depth);
      WrapMembers(tokens, ms, rest);
      v := Obj(ms);
    case OpenBracket =>
      var xs := ReadItems(tokens[1..], depth);
      WrapItems(tokens, xs, rest);
      v := Arr(xs);
    case Str(_) => v := Scalar(tokens[0]);
    case Literal(_) => v := Scalar(tokens[0]);
  }

  lemma {:induction false} ReadMembers(tokens: seq<Token>, seen: set<string>, depth: nat) returns (ms: Members)
    requires AfterMembers(tokens, seen, depth).Some?
    ensures ProperMembers(ms) && tokens == FlattenMembers(ms) + ([CloseBrace] + AfterMembers(tokens, seen, depth).value)
    decreases |tokens|, 0
  {
    var end := [CloseBrace] + AfterMembers(tokens, seen, depth).value;
    if Closes(tokens[0]) {
      ms := NoMembers;
      assert tokens == end;
    } else {
      var v := ReadValue(tokens[1..], depth + 1);
      var after := AfterValue(tokens[1..], depth + 1).value;
      var others := ReadMembers(after, seen + {tokens[0].text}, depth);
      ms := Member(tokens[0].text, v, others);
      JoinMembers(tokens, v, others, after, end);
    }
  }

  lemma {:induction false} ReadItems(tokens: seq<Token>, depth: nat) returns (xs: Items)
    requires AfterItems(tokens, depth).Some?
    ensures ProperItems(xs) && tokens == FlattenItems(xs) + ([CloseBracket] + AfterItems(tokens, depth).value)
    decreases |tokens|, 2
  {
    var end := [CloseBracket] + AfterItems(tokens, depth).value;
    if Closes(tokens[0]) {
      xs := NoItems;
      assert tokens == end;
    } else {
      var v := ReadValue(tokens, depth + 1);
      var after := AfterValue(tokens, depth + 1).value;
      var others := ReadItems(after, depth);
      xs := Item(v, others);
      JoinItems(tokens, v, others, after, end);
    }
  }
}
