/** The credential vault's use of its bucket: conditional writes, tombstones, and bounded reads. */
module ExchangeTokenVault {
  import opened Wrappers
  import opened ByteStreams
  import Base64Url

  const MAX_READS: nat := 256

  type Key = nat
  type Etag = nat

  /** A sealed credential, or the sealed tombstone that replaces it. */
  datatype Sealed = Credential(payload: nat) | Tombstone

  datatype Object = Object(etag: Etag, content: Sealed)

  /** What a write insists on: that nothing is there yet, or that this version still is. */
  datatype Condition = CreateOnly | Replace(etag: Etag)

  /** Every stored version gets an etag never used before. */
  datatype Objects = Objects(at: map<Key, Object>, next: Etag)

  const EMPTY := Objects(map[], 0)

  predicate Permits(o: Objects, key: Key, c: Condition) {
    match c
    case CreateOnly => key !in o.at
    case Replace(etag) => key in o.at && o.at[key].etag == etag
  }

  /** A refused condition is reported as a conflict, here None. */
  function PutIf(o: Objects, key: Key, content: Sealed, c: Condition): (Objects, Option<Etag>) {
    if Permits(o, key, c) then (Objects(o.at[key := Object(o.next, content)], o.next + 1), Some(o.next)) else (o, None)
  }

  datatype Write = Write(key: Key, content: Sealed, condition: Condition)

  function PutAll(o: Objects, ws: seq<Write>): Objects
    decreases ws
  {
    if ws == [] then o else PutAll(PutIf(o, ws[0].key, ws[0].content, ws[0].condition).0, ws[1..])
  }

  predicate Valid(o: Objects) { forall k | k in o.at :: o.at[k].etag < o.next }

  /** Objects are never removed, and an object that changed has a newer etag. */
  predicate Moved(o: Objects, o': Objects) {
    && o.next <= o'.next
    && forall k | k in o.at :: k in o'.at && (o'.at[k] == o.at[k] || o'.at[k].etag >= o.next)
  }

  lemma {:induction false} WritesMoveOn(o: Objects, ws: seq<Write>)
    requires Valid(o)
    ensures Valid(PutAll(o, ws)) && Moved(o, PutAll(o, ws))
    decreases ws
  {
    if ws != [] {
      var o1 := PutIf(o, ws[0].key, ws[0].content, ws[0].condition).0;
      WritesMoveOn(o1, ws[1..]);
    }
  }

  /**
   * No lost updates: a replacement conditioned on the etag that was read
   * succeeds only if nobody wrote the object since, whatever other conditional
   * writes happened in between.
   */
  lemma ReplacementSeesNoChange(o: Objects, ws: seq<Write>, key: Key, content: Sealed)
    requires Valid(o) && key in o.at
    ensures
      var o' := PutAll(o, ws);
      && key in o'.at
      && (PutIf(o', key, content, Replace(o.at[key].etag)).1.Some? <==> o'.at[key] == o.at[key])
  {
    WritesMoveOn(o, ws);
  }

  /** A create-only write never touches an existing object, live or tombstoned: what was revoked is not written over. */
  lemma CreationNeverReplaces(o: Objects, ws: seq<Write>, key: Key, content: Sealed)
    requires Valid(o) && key in o.at
    ensures PutIf(PutAll(o, ws), key, content, CreateOnly) == (PutAll(o, ws), None)
  {
    WritesMoveOn(o, ws);
  }

  class Bucket {
    var at: map<Key, Object>
    var next: Etag

    function Value(): Objects
      reads this
    {
      Objects(at, next)
    }

    constructor ()
      ensures Value() == EMPTY
    {
      at, next := map[], 0;
    }

    method PutConditional(key: Key, content: Sealed, c: Condition) returns (etag: Option<Etag>)
      modifies this
      ensures (Value(), etag) == PutIf(old(Value()), key, content, c)
      ensures etag.None? ==> Value() == old(Value())
      ensures etag.Some? ==> at == old(at)[key := Object(etag.value, content)]
      ensures old(Valid(Value())) ==> Valid(Value()) && Moved(old(Value()), Value())
      ensures old(Valid(Value())) && etag.Some? ==>
        (forall k | k in old(at) :: old(at)[k].etag != etag.value) && !Permits(Value(), key, c)
    {
      match c {
        case CreateOnly => if key in at { return None; }
        case Replace(expected) => if key !in at || at[key].etag != expected { return None; }
      }
      at := at[key := Object(next, content)];
      etag := Some(next);
      next := next + 1;
    }

    /** Revocation keeps an object in place, so that its etag goes on guarding the name. */
    method TombstoneCredential(key: Key, expected: Etag) returns (etag: Option<Etag>)
      modifies this
      ensures (Value(), etag) == PutIf(old(Value()), key, Tombstone, Replace(expected))
      ensures etag.Some? <==> key in old(at) && old(at)[key].etag == expected
      ensures etag.Some? ==> key in at && at[key].content == Tombstone && !Permits(Value(), key, CreateOnly)
      ensures old(Valid(Value())) && etag.Some? ==> !Permits(Value(), key, Replace(expected))
      ensures at - {key} == old(at) - {key}
    {
      etag := PutConditional(key, Tombstone, Replace(expected));
    }
  }

  /** Reads a body of a declared size; too many pieces, too many bytes or too few are refused. */
  method ReadBoundedBody(pieces: seq<Bytes>, expectedSize: nat) returns (bytes: Option<Bytes>)
    ensures bytes ==
      if |pieces| <= MAX_READS && |Concat(pieces)| == expectedSize <= Base64Url.MAX_ENVELOPE then Some(Concat(pieces))
      else None
  {
    var limit := if expectedSize <= Base64Url.MAX_ENVELOPE then expectedSize else Base64Url.MAX_ENVELOPE;
    bytes := ReadWithin(pieces, limit, MAX_READS);
    if bytes.Some? && |bytes.value| != expectedSize { bytes := None; }
  }
}
