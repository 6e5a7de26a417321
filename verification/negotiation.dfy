/** Option negotiation shared by the volume, speed and quality setters: clamping
    to a range, taking the first numeric candidate of a fallback chain, and
    snapping a value to the closest available option.

    `closest` belongs to the array utilities, which are not part of this model;
    it is specified here as a left fold that keeps the accumulator unless the
    next option is strictly nearer, so among equally near options the first one
    in list order wins. */
module Negotiation {
  import opened JsValues

  /** Bound x to [lo, hi]. */
  function Clamp(x: real, lo: real, hi: real): (r: real)
    requires lo <= hi
    ensures lo <= r <= hi
    ensures lo <= x <= hi ==> r == x
    ensures x > hi ==> r == hi
    ensures x < lo ==> r == lo
  {
    if x > hi then hi else if x < lo then lo else x
  }

  /** Index of the first numeric candidate (`candidates.find(is.number)`), or
      |candidates| when there is none. */
  function FirstNumberIndex(candidates: seq<JsValue>): (i: nat)
    ensures i <= |candidates|
    ensures i < |candidates| ==> IsNumber(candidates[i])
    ensures forall j :: 0 <= j < i ==> !IsNumber(candidates[j])
  {
    if candidates == [] then 0
    else if IsNumber(candidates[0]) then 0
    else 1 + FirstNumberIndex(candidates[1..])
  }

  /** The first numeric candidate, if any. */
  function FirstNumber(candidates: seq<JsValue>): (r: Option<real>)
    ensures r.Some? <==> exists j :: 0 <= j < |candidates| && IsNumber(candidates[j])
    ensures r.Some? ==> Num(r.value) in candidates
    ensures |candidates| > 0 && IsNumber(candidates[|candidates| - 1]) ==> r.Some?
  {
    var i := FirstNumberIndex(candidates);
    if i < |candidates| then Some(candidates[i].n) else None
  }

  /** A three-link fallback chain takes the first number in order. */
  lemma FirstNumberOfThree(a: JsValue, b: JsValue, c: JsValue)
    ensures FirstNumber([a, b, c]) ==
      if IsNumber(a) then Some(a.n) else if IsNumber(b) then Some(b.n) else if IsNumber(c) then Some(c.n) else None
  {
    var s := [a, b, c];
    assert s[1..] == [b, c] && s[1..][1..] == [c] && s[1..][1..][1..] == [];
    assert FirstNumberIndex(s[1..][1..][1..]) == 0;
    assert FirstNumberIndex(s[1..][1..]) == if IsNumber(c) then 0 else 1;
    assert FirstNumberIndex(s[1..]) == if IsNumber(b) then 0 else if IsNumber(c) then 1 else 2;
    assert FirstNumberIndex(s) == if IsNumber(a) then 0 else if IsNumber(b) then 1 else if IsNumber(c) then 2 else 3;
  }

  /** A four-link fallback chain takes the first number in order. */
  lemma FirstNumberOfFour(a: JsValue, b: JsValue, c: JsValue, d: JsValue)
    ensures FirstNumber([a, b, c, d]) ==
      if IsNumber(a) then Some(a.n) else if IsNumber(b) then Some(b.n)
      else if IsNumber(c) then Some(c.n) else if IsNumber(d) then Some(d.n) else None
  {
    var s := [a, b, c, d];
    assert s[1..] == [b, c, d];
    FirstNumberOfThree(b, c, d);
  }

  function Dist(a: real, b: real): real {
    if a >= b then a - b else b - a
  }

  /** Index of the option nearest to q; the first such index on a tie. */
  function ClosestIndex(options: seq<real>, q: real): (i: nat)
    requires |options| > 0
    ensures i < |options|
    ensures forall j :: 0 <= j < |options| ==> Dist(options[i], q) <= Dist(options[j], q)
    ensures forall j :: 0 <= j < i ==> Dist(options[j], q) > Dist(options[i], q)
  {
    if |options| == 1 then 0
    else
      var p := ClosestIndex(options[..|options| - 1], q);
      assert forall j :: 0 <= j < |options| - 1 ==> options[..|options| - 1][j] == options[j];
      if Dist(options[|options| - 1], q) < Dist(options[p], q) then |options| - 1 else p
  }

  /** The option nearest to q (`closest(options, q)`). */
  function Closest(options: seq<real>, q: real): (r: real)
    requires |options| > 0
    ensures r in options
    ensures forall o :: o in options ==> Dist(r, q) <= Dist(o, q)
  {
    options[ClosestIndex(options, q)]
  }
}
