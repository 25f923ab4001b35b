/** `serialize_datetimes` of the legacy time utilities
    (src/rollback_agent/utils/time_utils.py). Formatting a datetime is the
    uninterpreted `format` of `TimeFormat`. */
module TimeUtils {
  import opened Values

  /** Datetimes become their formatted text, dictionaries and lists are
      rebuilt from their serialised entries, and every other value, tuples
      included, is returned as it is. */
  function Serialize(v: Value, tf: TimeFormat): Value {
    match v
    case VDatetime(t) => VStr(tf.format(t))
    case VDict(m) => VDict(map k | k in m :: Serialize(m[k], tf))
    case VList(xs) => VList(seq(|xs|, i requires 0 <= i < |xs| => Serialize(xs[i], tf)))
    case _ => v
  }

  /** `serialize_datetimes` on a dictionary. */
  function SerializeDict(d: Dict, tf: TimeFormat): (r: Dict)
    ensures r.Keys == d.Keys
  {
    map k | k in d :: Serialize(d[k], tf)
  }

  /** Serialising a dictionary with one entry set is setting the serialised entry. */
  lemma SerializeDictUpdate(m: Dict, k: string, v: Value, tf: TimeFormat)
    ensures SerializeDict(m[k := v], tf) == SerializeDict(m, tf)[k := Serialize(v, tf)]
  {
  }

  /** The shape `serialize_datetimes` keeps: a datetime maps to its text,
      a dictionary to one with the same keys, a list to one of the same
      length, element by element, and any other value to itself. */
  lemma SerializeShape(v: Value, tf: TimeFormat)
    ensures v.VDatetime? ==> Serialize(v, tf) == VStr(tf.format(v.t))
    ensures v.VDict? ==> Serialize(v, tf).VDict? && Serialize(v, tf).entries.Keys == v.entries.Keys
                         && forall k :: k in v.entries ==> Serialize(v, tf).entries[k] == Serialize(v.entries[k], tf)
    ensures v.VList? ==> Serialize(v, tf).VList? && |Serialize(v, tf).items| == |v.items|
                         && forall i :: 0 <= i < |v.items| ==> Serialize(v, tf).items[i] == Serialize(v.items[i], tf)
    ensures !v.VDatetime? && !v.VDict? && !v.VList? ==> Serialize(v, tf) == v
  {
  }

  /** No datetime anywhere outside a tuple. */
  predicate NoDatetime(v: Value) {
    match v
    case VDatetime(_) => false
    case VDict(m) => forall k :: k in m ==> NoDatetime(m[k])
    case VList(xs) => forall i :: 0 <= i < |xs| ==> NoDatetime(xs[i])
    case _ => true
  }

  /** The result holds no datetime outside a tuple; for values built only
      from dictionaries, lists and scalars it holds no datetime at all. */
  lemma {:induction false} SerializedHasNoDatetime(v: Value, tf: TimeFormat)
    ensures NoDatetime(Serialize(v, tf))
  {
    match v
    case VDict(m) =>
      forall k | k in m ensures NoDatetime(Serialize(v, tf).entries[k]) {
        SerializedHasNoDatetime(m[k], tf);
      }
    case VList(xs) =>
      forall i | 0 <= i < |xs| ensures NoDatetime(Serialize(v, tf).items[i]) {
        SerializedHasNoDatetime(xs[i], tf);
      }
    case _ =>
  }

  /** A value without datetimes is serialised to itself. */
  lemma {:induction false} NoDatetimeUnchanged(v: Value, tf: TimeFormat)
    requires NoDatetime(v)
    ensures Serialize(v, tf) == v
  {
    match v
    case VDict(m) =>
      forall k | k in m ensures Serialize(m[k], tf) == m[k] {
        NoDatetimeUnchanged(m[k], tf);
      }
      assert Serialize(v, tf).entries == m;
    case VList(xs) =>
      forall i | 0 <= i < |xs| ensures Serialize(xs[i], tf) == xs[i] {
        NoDatetimeUnchanged(xs[i], tf);
      }
      assert Serialize(v, tf).items == xs;
    case _ =>
  }

  /** Serialising twice is serialising once. */
  lemma SerializeIdempotent(v: Value, tf: TimeFormat)
    ensures Serialize(Serialize(v, tf), tf) == Serialize(v, tf)
  {
    SerializedHasNoDatetime(v, tf);
    NoDatetimeUnchanged(Serialize(v, tf), tf);
  }

  lemma SerializeDictIdempotent(d: Dict, tf: TimeFormat)
    ensures SerializeDict(SerializeDict(d, tf), tf) == SerializeDict(d, tf)
  {
    forall k | k in d ensures Serialize(Serialize(d[k], tf), tf) == Serialize(d[k], tf) {
      SerializeIdempotent(d[k], tf);
    }
  }
}
