/**
  Optional values, and the JavaScript truthiness test the handlers apply to
  request parameters (`if (query.cuisine) ...`, `if (!email || !password)`).
 */
module Options {

  datatype Option<+T> = None | Some(value: T) {
    function GetOr(default: T): T {
      match this
      case Some(v) => v
      case None => default
    }
  }

  /** A request parameter is taken into account when it is present and is not
      the empty string: `undefined` and `''` are the falsy strings. */
  predicate Present(p: Option<string>) {
    p.Some? && p.value != ""
  }

  /** The parameter as the handlers see it: a falsy parameter counts as absent. */
  function Normalize(p: Option<string>): (r: Option<string>)
    ensures r.Some? <==> Present(p)
    ensures Present(p) ==> r == p
  {
    if Present(p) then p else None
  }

  /** The values of the present parameters, in the order the parameters are given. */
  function PresentValues(ps: seq<Option<string>>): (r: seq<string>)
    ensures |r| <= |ps|
    ensures forall v :: v in r ==> v != ""
    ensures (forall i :: 0 <= i < |ps| ==> !Present(ps[i])) <==> r == []
  {
    if |ps| == 0 then []
    else (if Present(ps[0]) then [ps[0].value] else []) + PresentValues(ps[1..])
  }

  /** The present values of a concatenation are those of each part, in order. */
  lemma {:induction false} PresentValuesAppend(a: seq<Option<string>>, b: seq<Option<string>>)
    ensures PresentValues(a + b) == PresentValues(a) + PresentValues(b)
  {
    if |a| == 0 {
      assert a + b == b;
    } else {
      assert (a + b)[0] == a[0];
      assert (a + b)[1..] == a[1..] + b;
      PresentValuesAppend(a[1..], b);
    }
  }
}
