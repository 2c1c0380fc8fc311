/** Small shared vocabulary: optional values, the Python exceptions the
    scripts can raise, and an order-preserving index filter. */
module Base {

  datatype Option<T> = None | Some(value: T)

  /** The exceptions the modelled scripts raise on bad input; a member that
      returns one leaves the state it was given unchanged. */
  datatype PyError = KeyError | ZeroDivisionError | IndexError | ValueError

  /** A value, or the exception raised instead of producing it. */
  datatype Result<T> = Ok(value: T) | Err(error: PyError)

  /** Strictly increasing sequence of indices (the order of a filtered list). */
  predicate Increasing(r: seq<nat>)
  {
    forall i, j :: 0 <= i < j < |r| ==> r[i] < r[j]
  }

  /** The indices of `s` whose element satisfies `p`, in list order: the shape
      of every `for x in xs: if cond(x): out.append(x)` loop in the scripts. */
  function Select<T>(s: seq<T>, p: T -> bool): (r: seq<nat>)
    ensures forall i: nat :: i in r <==> i < |s| && p(s[i])
    ensures Increasing(r)
    ensures |r| <= |s|
  {
    if |s| == 0 then []
    else
      var init := s[..|s| - 1];
      var front := Select(init, p);
      assert forall i :: 0 <= i < |init| ==> init[i] == s[i];
      var r := front + (if p(s[|s| - 1]) then [|s| - 1] else []);
      assert forall i :: 0 <= i < |r| ==> r[i] in front || r[i] == |s| - 1;
      r
  }

  function Abs(v: real): (r: real)
    ensures r >= 0.0 && (r == v || r == -v)
  {
    if v < 0.0 then -v else v
  }

  function IntAbs(v: int): (r: nat)
    ensures r == v || r == -v
  {
    if v < 0 then -v else v
  }

  function Min(a: real, b: real): (r: real)
    ensures r <= a && r <= b && (r == a || r == b)
  {
    if a <= b then a else b
  }

  function Max(a: real, b: real): (r: real)
    ensures r >= a && r >= b && (r == a || r == b)
  {
    if a >= b then a else b
  }

  /** Whether `needle` occurs as a contiguous part of `hay` (Python's `in` on strings). */
  predicate Contains(hay: string, needle: string)
    decreases |hay|
  {
    StartsWith(hay, needle) || (|hay| > 0 && Contains(hay[1..], needle))
  }

  predicate StartsWith(s: string, prefix: string)
  {
    |prefix| <= |s| && s[..|prefix|] == prefix
  }

  /** The needle sits in the haystack at offset i. */
  predicate OccursAt(hay: string, needle: string, i: int)
  {
    0 <= i && i + |needle| <= |hay| && hay[i..i + |needle|] == needle
  }

  /** Contains means the needle sits at some offset of the haystack. */
  lemma {:induction false} ContainsAt(hay: string, needle: string)
    ensures Contains(hay, needle) <==> exists i :: OccursAt(hay, needle, i)
    decreases |hay|
  {
    if StartsWith(hay, needle) {
      assert OccursAt(hay, needle, 0);
    } else if |hay| > 0 {
      ContainsAt(hay[1..], needle);
      if Contains(hay[1..], needle) {
        var i :| OccursAt(hay[1..], needle, i);
        assert OccursAt(hay, needle, i + 1);
      }
      if exists i :: OccursAt(hay, needle, i) {
        var i :| OccursAt(hay, needle, i);
        assert i != 0;
        assert OccursAt(hay[1..], needle, i - 1);
      }
    }
  }
}
