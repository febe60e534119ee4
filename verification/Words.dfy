/** Go's fixed-width integers and the small result types the other modules share. */
module Words {

  const TWO64 := 0x1_0000_0000_0000_0000

  const TWO63 := 0x8000_0000_0000_0000

  type uint64 = x: int | 0 <= x < 0x1_0000_0000_0000_0000

  type int64 = x: int | -0x8000_0000_0000_0000 <= x < 0x8000_0000_0000_0000

  /** `^uint64(0)`, the version that skips the version check. */
  const APPEND_ONLY: uint64 := TWO64 - 1

  /** `int64(AppendOnly >> 1)`, the count that asks for everything. */
  const ALL_EVENTS: int64 := TWO63 - 1

  /** Go's `a + b` on uint64. */
  function Add(a: uint64, b: uint64): (r: uint64)
    ensures r == (a + b) % TWO64
  {
    if a + b < TWO64 then a + b else a + b - TWO64
  }

  /** Go's `a - b` on uint64. */
  function Sub(a: uint64, b: uint64): (r: uint64)
    ensures r == (a - b) % TWO64
    ensures Add(r, b) == a
  {
    if b <= a then a - b else a - b + TWO64
  }

  /** Go's `int64(a)`. */
  function ToSigned(a: uint64): (r: int64)
    ensures ToUnsigned(r) == a
  {
    if a < TWO63 then a else a - TWO64
  }

  /** Go's `uint64(a)`. */
  function ToUnsigned(a: int64): (r: uint64)
    ensures r == a % TWO64
  {
    if 0 <= a then a else a + TWO64
  }

  function Min(a: int, b: int): int {
    if a <= b then a else b
  }

  function Max(a: int, b: int): int {
    if a <= b then b else a
  }

  function Abs(a: int): nat {
    if a < 0 then -a else a
  }

  datatype Option<+T> = None | Some(value: T)

  datatype Result<+T, +E> = Ok(value: T) | Err(error: E)

  // Loops that stop at the first error

  /** The values in front of the first error, and that error. */
  function Collect<T, E>(rs: seq<Result<T, E>>): (r: (seq<T>, Option<E>))
    ensures |r.0| <= |rs| && (r.1.None? <==> |r.0| == |rs|)
    ensures forall k | 0 <= k < |r.0| :: rs[k] == Ok(r.0[k])
    ensures r.1.Some? ==> rs[|r.0|] == Err(r.1.value)
  {
    if rs == [] then ([], None)
    else
      var init := Collect(rs[..|rs| - 1]);
      if init.1.Some? then init
      else
        match rs[|rs| - 1]
        case Ok(v) => (init.0 + [v], None)
        case Err(e) => (init.0, Some(e))
  }

  /** All of the values, or the first error. */
  function All<T, E>(rs: seq<Result<T, E>>): (r: Result<seq<T>, E>)
    ensures r.Ok? ==> |r.value| == |rs| && forall k | 0 <= k < |rs| :: rs[k] == Ok(r.value[k])
    ensures r.Err? ==> exists k | 0 <= k < |rs| :: rs[k] == Err(r.error)
  {
    var r := Collect(rs);
    if r.1.Some? then Err(r.1.value) else Ok(r.0)
  }

  /** `Collect` is what a loop has gathered once it stops, at an error or at the end. */
  lemma CollectIs<T, E>(rs: seq<Result<T, E>>, oks: seq<T>)
    requires |oks| <= |rs| && forall k | 0 <= k < |oks| :: rs[k] == Ok(oks[k])
    requires |oks| == |rs| || rs[|oks|].Err?
    ensures Collect(rs) == (oks, if |oks| == |rs| then None else Some(rs[|oks|].error))
  {
    var r := Collect(rs);
    var n := |oks|;
    assert n < |r.0| ==> rs[n] == Ok(r.0[n]);
    assert r.0 == oks;
  }
}
