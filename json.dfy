/**
 * JSON values as the library handles them: objects are key/value maps,
 * arrays are sequences.  Text serialisation is not modelled; a value is
 * what `JSONObject`/`JSONArray` hold in memory.
 */
module Json {

  datatype Value =
    | Null                           // JSONObject.NULL
    | Bool(b: bool)
    | Num(n: int)                    // an integral number (int or long)
    | Frac(thousandths: int)         // a decimal number, in thousandths
    | Str(s: string)
    | Arr(items: seq<Value>)
    | Obj(fields: map<string, Value>)

  /** Every leaf of `v` is `Null`; objects and arrays may remain. */
  predicate NullLeaves(v: Value) {
    match v
    case Obj(m) => forall k :: k in m ==> NullLeaves(m[k])
    case Arr(s) => forall i :: 0 <= i < |s| ==> NullLeaves(s[i])
    case _ => v == Null
  }

  /** `a` and `b` have the same object keys and array lengths at every level. */
  predicate SameShape(a: Value, b: Value) {
    match a
    case Obj(m) =>
      b.Obj? && b.fields.Keys == m.Keys &&
      forall k :: k in m ==> SameShape(m[k], b.fields[k])
    case Arr(s) =>
      b.Arr? && |b.items| == |s| &&
      forall i :: 0 <= i < |s| ==> SameShape(s[i], b.items[i])
    case _ => !b.Obj? && !b.Arr?
  }

  /**
   * The value left behind when a super-property is unregistered: an object
   * or array keeps its shape with every leaf replaced by null, anything else
   * becomes null.
   */
  function Nullify(v: Value): (r: Value)
    ensures v.Obj? ==> r.Obj? && r.fields.Keys == v.fields.Keys
    ensures v.Arr? ==> r.Arr? && |r.items| == |v.items|
    ensures !v.Obj? && !v.Arr? ==> r == Null
  {
    match v
    case Obj(m) => Obj(map k | k in m :: Nullify(m[k]))
    case Arr(s) => Arr(seq(|s|, i requires 0 <= i < |s| => Nullify(s[i])))
    case _ => Null
  }

  /** Nullify keeps the shape of its argument and leaves only null leaves. */
  lemma {:induction false} NullifyShape(v: Value)
    ensures SameShape(v, Nullify(v))
    ensures NullLeaves(Nullify(v))
  {
    match v
    case Obj(m) =>
      forall k | k in m
        ensures SameShape(m[k], Nullify(v).fields[k]) && NullLeaves(Nullify(v).fields[k])
      {
        NullifyShape(m[k]);
      }
    case Arr(s) =>
      forall i | 0 <= i < |s|
        ensures SameShape(s[i], Nullify(v).items[i]) && NullLeaves(Nullify(v).items[i])
      {
        NullifyShape(s[i]);
      }
    case _ =>
  }

  /** A value is left unchanged by Nullify exactly when all its leaves are already null. */
  lemma {:induction false} NullifyFixpoint(v: Value)
    ensures Nullify(v) == v <==> NullLeaves(v)
  {
    match v
    case Obj(m) =>
      var r := Nullify(v);
      forall k | k in m ensures Nullify(m[k]) == m[k] <==> NullLeaves(m[k]) {
        NullifyFixpoint(m[k]);
      }
      if NullLeaves(v) {
        assert r.fields == m;
      }
      if r == v {
        forall k | k in m ensures NullLeaves(m[k]) {
          assert r.fields[k] == m[k];
        }
      }
    case Arr(s) =>
      var r := Nullify(v);
      forall i | 0 <= i < |s| ensures Nullify(s[i]) == s[i] <==> NullLeaves(s[i]) {
        NullifyFixpoint(s[i]);
      }
      if NullLeaves(v) {
        assert r.items == s;
      }
      if r == v {
        forall i | 0 <= i < |s| ensures NullLeaves(s[i]) {
          assert r.items[i] == s[i];
        }
      }
    case _ =>
  }

  /** Nullifying twice is the same as nullifying once. */
  lemma NullifyIdempotent(v: Value)
    ensures Nullify(Nullify(v)) == Nullify(v)
  {
    NullifyShape(v);
    NullifyFixpoint(Nullify(v));
  }
}
