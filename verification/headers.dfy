/** The in-place upper-casing of the table's column headers. Only ASCII
    letters are case-mapped. */
module Headers {

  predicate IsLower(c: char) {
    'a' <= c <= 'z'
  }

  function UpperChar(c: char): (u: char)
    ensures !IsLower(u)
    ensures IsLower(c) ==> u as int == c as int - 32
    ensures !IsLower(c) ==> u == c
  {
    if IsLower(c) then (c as int - 32) as char else c
  }

  /** The upper-case form of a string. */
  function Upper(s: string): (r: string)
    ensures |r| == |s|
    ensures forall i :: 0 <= i < |s| ==> r[i] == UpperChar(s[i])
  {
    if s == [] then [] else [UpperChar(s[0])] + Upper(s[1..])
  }

  /** Upper-casing twice is upper-casing once. */
  lemma UpperIdempotent(s: string)
    ensures Upper(Upper(s)) == Upper(s)
  {
  }

  /** Every element upper-cased, in place. */
  function UpperAll(xs: seq<string>): (ys: seq<string>)
    ensures |ys| == |xs|
    ensures forall i :: 0 <= i < |xs| ==> ys[i] == Upper(xs[i])
  {
    if xs == [] then [] else [Upper(xs[0])] + UpperAll(xs[1..])
  }

  lemma {:induction false} UpperAllIdempotent(xs: seq<string>)
    ensures UpperAll(UpperAll(xs)) == UpperAll(xs)
  {
    if xs != [] {
      UpperIdempotent(xs[0]);
      UpperAllIdempotent(xs[1..]);
      assert UpperAll(xs)[1..] == UpperAll(xs[1..]);
    }
  }

  /** Overwrites every header with its upper-case form and returns the same
      slice. */
  method CapitalizeHeaders(data: array<string>) returns (r: array<string>)
    modifies data
    ensures r == data
    ensures data[..] == UpperAll(old(data[..]))
  {
    for i := 0 to data.Length
      invariant forall k :: 0 <= k < i ==> data[k] == Upper(old(data[k]))
      invariant forall k :: i <= k < data.Length ==> data[k] == old(data[k])
    {
      data[i] := Upper(data[i]);
    }
    r := data;
  }
}
