/** Python values as the adapters see their loosely typed keyword arguments
    (`commit`, `replace`, `sendonly`, ...), with the three Python tests the
    source applies to them: truthiness, membership in `(True, False)` (which
    compares with `==`, so `1` and `0` pass) and identity with `True`/`False`. */
module PyValues {

  datatype Value = None | Bool(b: bool) | Int(i: int) | Str(s: string)

  /** `bool(v)` */
  predicate Truthy(v: Value) {
    match v
    case None => false
    case Bool(b) => b
    case Int(i) => i != 0
    case Str(s) => s != ""
  }

  /** `v or False` */
  function OrFalse(v: Value): (r: Value)
    ensures Truthy(r) == Truthy(v)
    ensures Truthy(v) ==> r == v
    ensures !Truthy(v) ==> r == Bool(false)
  {
    if Truthy(v) then v else Bool(false)
  }

  /** `v in (True, False)`: Python's `==` makes `True == 1` and `False == 0` */
  predicate InBools(v: Value) {
    v.Bool? || v == Int(0) || v == Int(1)
  }

  /** `v in (None, True, False)` */
  predicate IsFlag(v: Value) {
    v.None? || InBools(v)
  }

  /** `v is True` */
  predicate IsTrue(v: Value) {
    v == Bool(true)
  }

  /** `v is False` */
  predicate IsFalse(v: Value) {
    v == Bool(false)
  }

  /** What survives `x = x or False; if x not in (True, False): raise`:
      exactly the falsy values (normalised to False), the two booleans and 1.
      Of those, only `True` and `1` are truthy, and only `True` is `True`. */
  lemma NormalisedFlag(v: Value)
    ensures InBools(OrFalse(v)) <==> !Truthy(v) || v == Bool(true) || v == Int(1)
    ensures InBools(OrFalse(v)) ==>
              (Truthy(OrFalse(v)) <==> OrFalse(v) in {Bool(true), Int(1)})
    ensures InBools(OrFalse(v)) && !Truthy(OrFalse(v)) ==> IsFalse(OrFalse(v))
  {
  }
}
