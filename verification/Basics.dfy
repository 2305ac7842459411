/** Types shared by every component of the model. */
module Basics {

  /** A Go pointer, or the second result of a comma-ok expression. */
  datatype Option<+T> = None | Some(value: T)

  /** The range of Go's `int` and `int64` on a 64-bit platform. */
  type int64 = x: int | -0x8000_0000_0000_0000 <= x < 0x8000_0000_0000_0000

  predicate FitsInt64(n: int) {
    -0x8000_0000_0000_0000 <= n < 0x8000_0000_0000_0000
  }

  /** All the values, if none is missing. */
  function CollectSeq<T>(rs: seq<Option<T>>): (r: Option<seq<T>>)
    ensures r.Some? <==> forall i | 0 <= i < |rs| :: rs[i].Some?
    ensures r.Some? ==> |r.value| == |rs| && forall i | 0 <= i < |rs| :: rs[i] == Some(r.value[i])
  {
    if forall i | 0 <= i < |rs| :: rs[i].Some?
    then Some(seq(|rs|, i requires 0 <= i < |rs| && rs[i].Some? => rs[i].value))
    else None
  }

  function CollectMap<K, T>(rs: map<K, Option<T>>): (r: Option<map<K, T>>)
    ensures r.Some? <==> forall k | k in rs :: rs[k].Some?
    ensures r.Some? ==> r.value.Keys == rs.Keys && forall k | k in rs :: rs[k] == Some(r.value[k])
  {
    if forall k | k in rs :: rs[k].Some? then Some(map k | k in rs :: rs[k].value) else None
  }
}
