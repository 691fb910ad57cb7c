/** JavaScript value semantics that the components rely on: `null`/`undefined`,
    truthiness of optional strings, `Math.ceil(a / b)`, `Array.prototype.slice`
    and `Array.prototype.find`. */
module Js {

  /** `T | null | undefined`: None stands for both null and undefined. */
  datatype Option<+T> = None | Some(value: T)

  /** `a ?? b` */
  function OrElse<T>(o: Option<T>, default: T): T
  {
    match o
    case Some(v) => v
    case None => default
  }

  /** Truthiness of a `string | null` value: null, undefined and "" are falsy. */
  predicate Present(s: Option<string>)
  {
    s.Some? && s.value != ""
  }

  /** Truthiness of a `number | null` id (ids are integers here, so NaN does not arise). */
  predicate PresentId(n: Option<int>)
  {
    n.Some? && n.value != 0
  }

  /** A JavaScript number as produced by `Number(...)` or `parseInt(...)`; only
      integer values are modelled. */
  datatype Number = Finite(value: int) | NaN

  /** `Math.ceil(a / b)` for a positive divisor. */
  function CeilDiv(a: int, b: int): (r: int)
    requires b > 0
    ensures (r - 1) * b < a <= r * b
    ensures a >= 0 ==> r >= 0
  {
    var q := (-a) / b;
    assert (-a) == q * b + (-a) % b;
    -q
  }

  /** More than one page of b items exactly when there are more than b items. */
  lemma CeilDivAboveOne(a: int, b: int)
    requires b > 0
    ensures CeilDiv(a, b) > 1 <==> a > b
  {
    var r := CeilDiv(a, b);
    if r <= 1 {
      assert (1 - r) * b >= 0;
      assert r * b == b - (1 - r) * b;
    } else {
      assert (r - 2) * b >= 0;
      assert (r - 1) * b == b + (r - 2) * b;
    }
  }

  /** How `slice` normalises one index: negative indices count from the end. */
  function ClampIndex(i: int, len: nat): (r: nat)
    ensures r <= len
    ensures 0 <= i <= len ==> r == i
    ensures i > len ==> r == len
    // a negative index counts back from the end, and stops at the start
    ensures i < 0 && len + i >= 0 ==> r == len + i
    ensures len + i < 0 ==> r == 0
  {
    if i < 0 then (if len + i < 0 then 0 else len + i)
    else if i > len then len
    else i
  }

  /** `s.slice(start, end)` */
  function Slice<T>(s: seq<T>, start: int, end: int): (r: seq<T>)
    ensures |r| <= |s|
    ensures 0 <= start <= end <= |s| ==> r == s[start..end]
    ensures 0 <= start && 0 <= end <= start ==> r == []
    // negative bounds count from the end: `s.slice(-k)` is the last k elements
    ensures start < 0 && |s| + start >= 0 && end >= |s| ==> r == s[|s| + start..]
    ensures |s| + start < 0 && end >= |s| ==> r == s
    ensures end < 0 && 0 <= start <= |s| + end ==> r == s[start..|s| + end]
    ensures ClampIndex(end, |s|) <= ClampIndex(start, |s|) ==> r == []
  {
    var b, e := ClampIndex(start, |s|), ClampIndex(end, |s|);
    if e <= b then [] else s[b..e]
  }

  /** The index of the element found by `s.find(x => idOf(x) === id)`, if any:
      the first element whose id matches. */
  function FindIndex<T>(s: seq<T>, id: int, idOf: T -> int): (r: Option<nat>)
    ensures r.Some? ==> r.value < |s| && idOf(s[r.value]) == id
    ensures r.Some? ==> forall k :: 0 <= k < r.value ==> idOf(s[k]) != id
    ensures r.None? <==> forall k :: 0 <= k < |s| ==> idOf(s[k]) != id
  {
    if s == [] then None
    else if idOf(s[0]) == id then Some(0)
    else match FindIndex(s[1..], id, idOf)
      case None => None
      case Some(i) => Some(i + 1)
  }

  /** `s.find(x => idOf(x) === id)` */
  function Find<T>(s: seq<T>, id: int, idOf: T -> int): (r: Option<T>)
    ensures r.Some? <==> FindIndex(s, id, idOf).Some?
    ensures r.Some? ==> r.value == s[FindIndex(s, id, idOf).value]
  {
    match FindIndex(s, id, idOf)
    case None => None
    case Some(i) => Some(s[i])
  }

  /** `s.filter(Boolean)` on a list of objects and nulls: the objects, in order. */
  function Somes<T>(s: seq<Option<T>>): (r: seq<T>)
    ensures |r| <= |s|
    ensures forall j :: 0 <= j < |r| ==> Some(r[j]) in s
    ensures forall i :: 0 <= i < |s| && s[i].Some? ==> s[i].value in r
  {
    if s == [] then []
    else
      var rest := Somes(s[1..]);
      assert forall i :: 1 <= i < |s| ==> s[i] == s[1..][i - 1];
      match s[0]
      case None => rest
      case Some(x) => [x] + rest
  }

  /** `a` is `b` with some elements left out, order kept. */
  predicate IsSubsequence<T(==)>(a: seq<T>, b: seq<T>)
  {
    if a == [] then true
    else if b == [] then false
    else if a[0] == b[0] then IsSubsequence(a[1..], b[1..])
    else IsSubsequence(a, b[1..])
  }

  /** Putting an element in front of the sequence keeps every subsequence. */
  lemma {:induction false} SubsequenceConsSkip<T>(a: seq<T>, x: T, b: seq<T>)
    requires IsSubsequence(a, b)
    ensures IsSubsequence(a, [x] + b)
    decreases |a| + |b|, 1
  {
    assert ([x] + b)[1..] == b;
    if a != [] && a[0] == x {
      SubsequenceDropFirst(a, b);
    }
  }

  lemma {:induction false} SubsequenceDropFirst<T>(a: seq<T>, b: seq<T>)
    requires a != [] && IsSubsequence(a, b)
    ensures IsSubsequence(a[1..], b)
    decreases |a| + |b|, 0
  {
    assert [b[0]] + b[1..] == b;
    if a[0] == b[0] {
      SubsequenceConsSkip(a[1..], b[0], b[1..]);
    } else {
      SubsequenceDropFirst(a, b[1..]);
      SubsequenceConsSkip(a[1..], b[0], b[1..]);
    }
  }

  /** Every element of a subsequence is an element of the sequence. */
  lemma {:induction false} SubsequenceMembers<T>(a: seq<T>, b: seq<T>, x: T)
    requires IsSubsequence(a, b) && x in a
    ensures x in b
    decreases |b|
  {
    if a[0] == b[0] {
      if x != a[0] { SubsequenceMembers(a[1..], b[1..], x); }
    } else {
      SubsequenceMembers(a, b[1..], x);
    }
  }
}
