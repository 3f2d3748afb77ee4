/** JSON values as trees, and the token streams a decoder yields for them. */
module JsonTrees {
  datatype Token = OpenBrace | CloseBrace | OpenBracket | CloseBracket | Str(text: string) | Literal(text: string)

  datatype Value = Scalar(token: Token) | Obj(members: Members) | Arr(items: Items)

  datatype Members = NoMembers | Member(name: string, value: Value, others: Members)

  datatype Items = NoItems | Item(value: Value, others: Items)

  predicate IsScalar(t: Token) { t.Str? || t.Literal? }

  predicate Closes(t: Token) { t.CloseBrace? || t.CloseBracket? }

  /** Leaves are scalars. */
  predicate Proper(v: Value) {
    match v case Scalar(t) => IsScalar(t) case Obj(ms) => ProperMembers(ms) case Arr(xs) => ProperItems(xs)
  }

  predicate ProperMembers(ms: Members) { ms.NoMembers? || (Proper(ms.value) && ProperMembers(ms.others)) }

  predicate ProperItems(xs: Items) { xs.NoItems? || (Proper(xs.value) && ProperItems(xs.others)) }

  function Flatten(v: Value): seq<Token> {
    match v
    case Scalar(t) => [t]
    case Obj(ms) => [OpenBrace] + FlattenMembers(ms) + [CloseBrace]
    case Arr(xs) => [OpenBracket] + FlattenItems(xs) + [CloseBracket]
  }

  function FlattenMembers(ms: Members): seq<Token> {
    if ms.NoMembers? then [] else [Str(ms.name)] + Flatten(ms.value) + FlattenMembers(ms.others)
  }

  function FlattenItems(xs: Items): seq<Token> {
    if xs.NoItems? then [] else Flatten(xs.value) + FlattenItems(xs.others)
  }

  // ---- Putting token streams together ----------------------------------------------------------------------------

  lemma JoinMembers(tokens: seq<Token>, v: Value, others: Members, after: seq<Token>, end: seq<Token>)
    requires |tokens| > 0 && tokens[0].Str? && tokens[1..] == Flatten(v) + after && after == FlattenMembers(others) + end
    ensures tokens == FlattenMembers(Member(tokens[0].text, v, others)) + end
  {
    assert tokens == [tokens[0]] + (Flatten(v) + (FlattenMembers(others) + end));
  }

  lemma JoinItems(tokens: seq<Token>, v: Value, others: Items, after: seq<Token>, end: seq<Token>)
    requires tokens == Flatten(v) + after && after == FlattenItems(others) + end
    ensures tokens == FlattenItems(Item(v, others)) + end
  {
  }

  lemma WrapMembers(tokens: seq<Token>, ms: Members, rest: seq<Token>)
    requires |tokens| > 0 && tokens[0] == OpenBrace && tokens[1..] == FlattenMembers(ms) + ([CloseBrace] + rest)
    ensures tokens == Flatten(Obj(ms)) + rest
  {
    assert tokens == [OpenBrace] + (FlattenMembers(ms) + ([CloseBrace] + rest));
  }

  lemma WrapItems(tokens: seq<Token>, xs: Items, rest: seq<Token>)
    requires |tokens| > 0 && tokens[0] == OpenBracket && tokens[1..] == FlattenItems(xs) + ([CloseBracket] + rest)
    ensures tokens == Flatten(Arr(xs)) + rest
  {
    assert tokens == [OpenBracket] + (FlattenItems(xs) + ([CloseBracket] + rest));
  }

  function Names(ms: Members): set<string> { if ms.NoMembers? then {} else {ms.name} + Names(ms.others) }

  /** Every object, at every level, has distinct member names. */
  predicate Distinct(v: Value) {
    match v case Scalar(_) => true case Obj(ms) => DistinctMembers(ms) case Arr(xs) => DistinctItems(xs)
  }

  predicate DistinctMembers(ms: Members) {
    ms.NoMembers? || (ms.name !in Names(ms.others) && Distinct(ms.value) && DistinctMembers(ms.others))
  }

  predicate DistinctItems(xs: Items) { xs.NoItems? || (Distinct(xs.value) && DistinctItems(xs.others)) }

  function Max(a: nat, b: nat): nat { if a < b then b else a }

  /** How deep the deepest value lies, the root being at depth 0. */
  function Height(v: Value): nat {
    match v case Scalar(_) => 0 case Obj(ms) => HeightMembers(ms) case Arr(xs) => HeightItems(xs)
  }

  function HeightMembers(ms: Members): nat {
    if ms.NoMembers? then 0 else Max(1 + Height(ms.value), HeightMembers(ms.others))
  }

  function HeightItems(xs: Items): nat {
    if xs.NoItems? then 0 else Max(1 + Height(xs.value), HeightItems(xs.others))
  }

  /** How many containers lie inside one another at most. */
  function Nesting(v: Value): nat {
    match v case Scalar(_) => 0 case Obj(ms) => 1 + NestingMembers(ms) case Arr(xs) => 1 + NestingItems(xs)
  }

  function NestingMembers(ms: Members): nat {
    if ms.NoMembers? then 0 else Max(Nesting(ms.value), NestingMembers(ms.others))
  }

  function NestingItems(xs: Items): nat {
    if xs.NoItems? then 0 else Max(Nesting(xs.value), NestingItems(xs.others))
  }

  /** An empty container lies at exactly this depth. */
  predicate EmptyAt(v: Value, depth: nat) {
    match v
    case Scalar(_) => false
    case Obj(ms) => if ms.NoMembers? then depth == 0 else depth > 0 && EmptyAtMembers(ms, depth - 1)
    case Arr(xs) => if xs.NoItems? then depth == 0 else depth > 0 && EmptyAtItems(xs, depth - 1)
  }

  predicate EmptyAtMembers(ms: Members, depth: nat) { ms.Member? && (EmptyAt(ms.value, depth) || EmptyAtMembers(ms.others, depth)) }

  predicate EmptyAtItems(xs: Items, depth: nat) { xs.Item? && (EmptyAt(xs.value, depth) || EmptyAtItems(xs.others, depth)) }

  /** Containers nest one deeper than values only where an empty container lies as deep as values may. */
  lemma {:induction false} NestingExceeds(v: Value, depth: nat)
    requires Height(v) <= depth
    ensures Nesting(v) <= depth + 1
    ensures Nesting(v) > depth <==> EmptyAt(v, depth)
  {
    match v
    case Scalar(_) =>
    case Obj(ms) => NestingExceedsMembers(ms, depth);
    case Arr(xs) => NestingExceedsItems(xs, depth);
  }

  lemma {:induction false} NestingExceedsMembers(ms: Members, depth: nat)
    requires HeightMembers(ms) <= depth
    ensures NestingMembers(ms) <= depth
    ensures depth > 0 ==> (NestingMembers(ms) > depth - 1 <==> EmptyAtMembers(ms, depth - 1))
  {
    if ms.Member? {
      NestingExceeds(ms.value, depth - 1);
      NestingExceedsMembers(ms.others, depth);
    }
  }

  lemma {:induction false} NestingExceedsItems(xs: Items, depth: nat)
    requires HeightItems(xs) <= depth
    ensures NestingItems(xs) <= depth
    ensures depth > 0 ==> (NestingItems(xs) > depth - 1 <==> EmptyAtItems(xs, depth - 1))
  {
    if xs.Item? {
      NestingExceeds(xs.value, depth - 1);
      NestingExceedsItems(xs.others, depth);
    }
  }

  lemma {:induction false} HeightBelowNesting(v: Value)
    ensures Height(v) <= Nesting(v)
  {
    match v
    case Scalar(_) =>
    case Obj(ms) => HeightBelowNestingMembers(ms);
    case Arr(xs) => HeightBelowNestingItems(xs);
  }

  lemma {:induction false} HeightBelowNestingMembers(ms: Members)
    ensures HeightMembers(ms) <= 1 + NestingMembers(ms)
  {
    if ms.Member? {
      HeightBelowNesting(ms.value);
      HeightBelowNestingMembers(ms.others);
    }
  }

  lemma {:induction false} HeightBelowNestingItems(xs: Items)
    ensures HeightItems(xs) <= 1 + NestingItems(xs)
  {
    if xs.Item? {
      HeightBelowNesting(xs.value);
      HeightBelowNestingItems(xs.others);
    }
  }
}
