/** RGB triples and the two numpy operations the colour classes are built on:
    `np.all` over a vector of booleans and `np.clip` of a vector into
    per-channel bounds. Values are mathematical reals. */
module Boxes {

  /** A one-dimensional array of size 3: (r, g, b). */
  type Rgb = s: seq<real> | |s| == 3 witness [0.0, 0.0, 0.0]

  /** The `low`/`high` bounds of an axis-aligned box of RGB space. */
  datatype Box = Box(low: Rgb, high: Rgb)

  /** Every channel's interval is non-empty. */
  predicate WellFormed(b: Box) {
    forall i :: 0 <= i < 3 ==> b.low[i] <= b.high[i]
  }

  /** Half-open membership of one triple, written channel by channel. */
  predicate InHalfOpen(b: Box, rgb: Rgb) {
    forall i :: 0 <= i < 3 ==> b.low[i] <= rgb[i] < b.high[i]
  }

  /** Closed membership of one triple, written channel by channel. */
  predicate InClosed(b: Box, rgb: Rgb) {
    forall i :: 0 <= i < 3 ==> b.low[i] <= rgb[i] <= b.high[i]
  }

  /** `np.all`: the recursive conjunction of a boolean vector, true exactly
      when every element is. */
  function AllOf(flags: seq<bool>): (r: bool)
    ensures r <==> forall i :: 0 <= i < |flags| ==> flags[i]
  {
    if |flags| == 0 then true
    else
      assert forall i :: 1 <= i < |flags| ==> flags[i] == flags[1..][i - 1];
      flags[0] && AllOf(flags[1..])
  }

  function Min(x: real, y: real): real { if x <= y then x else y }

  function Max(x: real, y: real): real { if x >= y then x else y }

  /** `np.clip(rgb, low, high)`, i.e. `minimum(maximum(rgb, low), high)`
      applied channel by channel; every channel whose interval is non-empty
      ends up inside it, bounds included. */
  function Clip(rgb: Rgb, b: Box): (r: Rgb)
    ensures forall i :: 0 <= i < 3 && b.low[i] <= b.high[i] ==> b.low[i] <= r[i] <= b.high[i]
  {
    seq(3, i requires 0 <= i < 3 => Min(Max(rgb[i], b.low[i]), b.high[i]))
  }

  /** A triple already inside the closed box is left as it is. */
  lemma ClipKeepsClosed(rgb: Rgb, b: Box)
    requires InClosed(b, rgb)
    ensures Clip(rgb, b) == rgb
  {
    var r := Clip(rgb, b);
    assert forall i :: 0 <= i < 3 ==> r[i] == rgb[i];
  }

  /** Clipping twice is clipping once, for every box. */
  lemma ClipIdempotent(rgb: Rgb, b: Box)
    ensures Clip(Clip(rgb, b), b) == Clip(rgb, b)
  {
    var once := Clip(rgb, b);
    assert forall i :: 0 <= i < 3 ==> Clip(once, b)[i] == once[i];
  }

  /** With high inclusive in the clip and exclusive in the half-open test, the
      clipped triple is in the half-open box exactly when no channel of the
      input reaches `high`: a channel clipped up to `low` stays inside, only
      one clipped down to `high` falls out. */
  lemma ClipHalfOpen(rgb: Rgb, b: Box)
    requires forall i :: 0 <= i < 3 ==> b.low[i] < b.high[i]
    ensures InHalfOpen(b, Clip(rgb, b)) <==> forall i :: 0 <= i < 3 ==> rgb[i] < b.high[i]
  {
    var r := Clip(rgb, b);
    assert forall i :: 0 <= i < 3 ==> (r[i] < b.high[i] <==> rgb[i] < b.high[i]);
  }

  /** The clip is inclusive at `high`, so its result can sit on the upper
      bound: a triple at the corner `high` stays there and is then not in the
      half-open box. */
  lemma ClipReachesHigh(b: Box)
    ensures Clip(b.high, b) == b.high
    ensures !InHalfOpen(b, Clip(b.high, b))
  {
    assert forall i :: 0 <= i < 3 ==> Clip(b.high, b)[i] == b.high[i];
    assert !(b.low[0] <= Clip(b.high, b)[0] < b.high[0]);
  }
}
