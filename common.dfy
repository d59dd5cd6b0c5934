/** Small value types shared by every widget model. */
module Common {

  /** A value that may be missing: a JavaScript `undefined`/`null`/`NaN`
      result, a Python `None`, a lookup that found nothing. */
  datatype Option<+T> = None | Some(value: T) {
    function GetOr(default: T): T {
      match this
      case Some(v) => v
      case None => default
    }
  }

  /** One octet of a raw HTTP request body or of a random token. */
  newtype byte = x: int | 0 <= x < 256

  function Min(a: int, b: int): int { if a <= b then a else b }

  function Max(a: int, b: int): int { if a <= b then b else a }

  /** The integers lo, lo+1, ..., hi-1 in increasing order (empty when hi <= lo). */
  function Range(lo: int, hi: int): (r: seq<int>)
    ensures |r| == if hi <= lo then 0 else hi - lo
    ensures forall k :: 0 <= k < |r| ==> r[k] == lo + k
    decreases hi - lo
  {
    if hi <= lo then [] else Range(lo, hi - 1) + [hi - 1]
  }

  lemma {:induction false} RangeSplit(lo: int, mid: int, hi: int)
    requires lo <= mid <= hi
    ensures Range(lo, hi) == Range(lo, mid) + Range(mid, hi)
  {
    var a, b, c := Range(lo, hi), Range(lo, mid), Range(mid, hi);
    assert |a| == |b| + |c|;
    forall k | 0 <= k < |a| ensures a[k] == (b + c)[k] {
      if k < |b| { assert (b + c)[k] == b[k]; } else { assert (b + c)[k] == c[k - |b|]; }
    }
  }
}
