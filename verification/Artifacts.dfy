/** Artifact records, their validation, and the keys their objects are stored under. */
module Artifacts {
  import opened Text
  import opened Calls

  /** The text rules and the content digest, which come from outside. */
  datatype Rules = Rules(trimmed: string -> bool, digest: Bytes -> string)

  const SCHEMA := "dataground.invocation-artifact/v1"
  const STATE_MACHINE_VERSION := 2
  const KEY_PREFIX := "invocation-artifacts/v1"
  const DIGEST_PREFIX := "sha256:"

  datatype Kind = File | StructuredOutput | EventPayload | Log | Other | Unknown(text: string)

  datatype Record = Record(
    schemaVersion: string, domain: string, id: string, invocationId: string, operationId: string, effectId: string,
    name: string, kind: Kind, mediaType: string, sizeBytes: int, digest: string, sensitive: bool, objectKey: string)

  datatype Binding = Binding(
    record: Record, actorId: string, correlationId: string, leaseOwner: string, fencingToken: int, stateMachineVersion: int)

  predicate Hex(c: char) { '0' <= c <= '9' || 'a' <= c <= 'f' }

  /** `^sha256:[0-9a-f]{64}$` */
  predicate DigestPattern(s: string) {
    |s| == |DIGEST_PREFIX| + 64 && DIGEST_PREFIX <= s && forall i | |DIGEST_PREFIX| <= i < |s| :: Hex(s[i])
  }

  predicate PortableValue(rules: Rules, value: string, limit: nat) {
    value != "" && |value| <= limit && rules.trimmed(value) && '\0' !in value && '\n' !in value && '\r' !in value
  }

  predicate WellFormed(rules: Rules, r: Record) {
    && r.schemaVersion == SCHEMA
    && Tagged(r.domain, "iso") && Tagged(r.id, "art") && Tagged(r.invocationId, "inv")
    && Tagged(r.operationId, "op") && Tagged(r.effectId, "eff")
    && PortableValue(rules, r.name, 255) && PortableValue(rules, r.mediaType, 255)
    && !r.kind.Unknown? && r.sizeBytes >= 0 && DigestPattern(r.digest)
  }

  /** The parts of a key, joined by slashes. */
  function Joined(parts: seq<string>): string {
    if parts == [] then "" else if |parts| == 1 then parts[0] else parts[0] + ['/'] + Joined(parts[1..])
  }

  function Coordinates(r: Record): seq<string> {
    [r.domain, r.invocationId, r.id, if DIGEST_PREFIX <= r.digest then r.digest[|DIGEST_PREFIX|..] else r.digest]
  }

  function ObjectKey(r: Record): string { KEY_PREFIX + ['/'] + Joined(Coordinates(r)) }

  function NormalizeRecord(rules: Rules, r: Record): Option<Record> {
    if !WellFormed(rules, r) then None
    else if r.objectKey != "" && r.objectKey != ObjectKey(r) then None
    else Some(r.(objectKey := ObjectKey(r)))
  }

  function NormalizeBinding(rules: Rules, b: Binding): Option<Binding> {
    var record := NormalizeRecord(rules, b.record);
    if record.None? then None
    else if !PortableValue(rules, b.actorId, 256) || !PortableValue(rules, b.correlationId, 256) || !PortableValue(rules, b.leaseOwner, 256)
            || b.fencingToken <= 0 || b.stateMachineVersion != STATE_MACHINE_VERSION then None
    else Some(b.(record := record.value))
  }

  /** Normalizing is stable, and only fills in the key. */
  lemma NormalizeStable(rules: Rules, r: Record)
    requires NormalizeRecord(rules, r).Some?
    ensures var n := NormalizeRecord(rules, r).value;
      NormalizeRecord(rules, n) == Some(n) && n.objectKey == ObjectKey(n) && n.(objectKey := r.objectKey) == r
  {
    var n := NormalizeRecord(rules, r).value;
    assert Coordinates(n) == Coordinates(r);
  }

  /** Two joined lists of parts without separators, equally long, are the same list. */
  lemma {:induction false} JoinedInjective(a: seq<string>, b: seq<string>)
    requires |a| == |b| && (forall p | p in a :: '/' !in p) && (forall p | p in b :: '/' !in p)
    requires Joined(a) == Joined(b)
    ensures a == b
  {
    if |a| > 1 {
      SplitAtFirst(a[0], '/', Joined(a[1..]));
      SplitAtFirst(b[0], '/', Joined(b[1..]));
      assert a[0] in a && b[0] in b;
      JoinedInjective(a[1..], b[1..]);
      assert a == [a[0]] + a[1..] && b == [b[0]] + b[1..];
    } else if |a| == 1 {
      assert a == [a[0]] && b == [b[0]];
    }
  }

  /** Records with different domains, invocations, artifacts or digests never share an object key. */
  lemma ObjectKeyInjective(rules: Rules, a: Record, b: Record)
    requires WellFormed(rules, a) && WellFormed(rules, b)
    ensures ObjectKey(a) == ObjectKey(b) <==>
      a.domain == b.domain && a.invocationId == b.invocationId && a.id == b.id && a.digest == b.digest
  {
    if ObjectKey(a) == ObjectKey(b) {
      var n := |KEY_PREFIX| + 1;
      assert ObjectKey(a)[n..] == Joined(Coordinates(a)) && ObjectKey(b)[n..] == Joined(Coordinates(b));
      JoinedInjective(Coordinates(a), Coordinates(b));
      assert a.digest == DIGEST_PREFIX + Coordinates(a)[3] && b.digest == DIGEST_PREFIX + Coordinates(b)[3];
    }
  }
}
