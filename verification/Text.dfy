/** Strings as the server uses them: byte strings (one char per byte), compared
    lexicographically, and joined with a separator into map keys. */
module Text {

  datatype Option<+T> = None | Some(value: T)

  /** Everything before the first occurrence of `c` (the whole string when there is none). */
  function Before(s: string, c: char): (r: string)
    ensures c !in r
  {
    if s == [] || s[0] == c then [] else [s[0]] + Before(s[1..], c)
  }

  /** Everything after the first occurrence of `c` (empty when there is none). */
  function After(s: string, c: char): (r: string)
    ensures |r| <= |s| && (s != [] ==> |r| < |s|)
  {
    if s == [] then [] else if s[0] == c then s[1..] else After(s[1..], c)
  }

  /** Joining a part that lacks the separator can be undone. */
  lemma {:induction false} SplitAtFirst(a: string, c: char, b: string)
    requires c !in a
    ensures Before(a + [c] + b, c) == a
    ensures After(a + [c] + b, c) == b
  {
    var s := a + [c] + b;
    if a != [] {
      assert s[1..] == a[1..] + [c] + b;
      SplitAtFirst(a[1..], c, b);
    }
  }

  // ---- Lexicographic order on byte strings, as Go compares strings -----------------

  predicate Less(a: string, b: string) {
    b != [] && (a == [] || a[0] < b[0] || (a[0] == b[0] && Less(a[1..], b[1..])))
  }

  lemma {:induction false} LessTrichotomy(a: string, b: string)
    ensures Less(a, b) || Less(b, a) || a == b
    ensures !(Less(a, b) && Less(b, a))
    ensures !Less(a, a)
  {
    if a != [] {
      LessTrichotomy(a[1..], a[1..]);
      if b != [] {
        LessTrichotomy(a[1..], b[1..]);
        if a[0] == b[0] && a[1..] == b[1..] {
          assert a == [a[0]] + a[1..] && b == [b[0]] + b[1..];
        }
      }
    }
  }

  lemma {:induction false} LessTransitive(a: string, b: string, c: string)
    requires Less(a, b) && Less(b, c)
    ensures Less(a, c)
  {
    if a != [] && a[0] == b[0] && b[0] == c[0] {
      LessTransitive(a[1..], b[1..], c[1..]);
    }
  }

  // ---- Alphabets used by the identifier patterns ------------------------------------

  predicate LowerAlnum(c: char) { '0' <= c <= '9' || 'a' <= c <= 'z' }

  /** `^<prefix>_[0-9a-z]{20,32}$`, the shape of every generated identifier. */
  predicate Tagged(s: string, prefix: string) {
    && prefix + "_" <= s
    && 20 <= |s| - |prefix| - 1 <= 32
    && forall i | |prefix| < i < |s| :: LowerAlnum(s[i])
  }
}
