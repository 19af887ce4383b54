/** The spreading rotation (exp_rotation): forward and reverse passes of pairwise plane
    rotations between samples `stride` apart, repeated `iter` times, in place on one band. */
module Rotation {
  import opened Modes

  /** The coefficients of the elementary step: `c = cos θ` and `s = dir·sin θ`. */
  datatype Turn = Turn(c: real, s: real)

  /** The elementary step on one pair: x1' = c·x1 − s·x2, x2' = c·x2 + s·x1. */
  function Apply(t: Turn, x1: real, x2: real): (real, real) {
    (t.c * x1 - t.s * x2, t.c * x2 + t.s * x1)
  }

  /** The same step with the opposite direction (`dir` negated). */
  function Opposite(t: Turn): Turn {
    Turn(t.c, -t.s)
  }

  /** c² + s² = 1, as holds when c and s are the cosine and sine of one angle. */
  predicate OnUnitCircle(t: Turn) {
    t.c * t.c + t.s * t.s == 1.0
  }

  /** The step at position i of a slice: X[i] and X[i+stride] are both read before either is
      written. A pair that does not lie inside the slice is left alone. */
  function RotatePair(x: seq<real>, i: int, stride: int, t: Turn): (r: seq<real>)
    ensures |r| == |x|
  {
    if 0 <= i && 0 <= stride && i + stride < |x| then
      var p := Apply(t, x[i], x[i + stride]);
      x[i := p.0][i + stride := p.1]
    else x
  }

  /** The steps at i, i+1, ..., hi-1, in that order. */
  function Up(x: seq<real>, i: int, hi: int, stride: int, t: Turn): (r: seq<real>)
    ensures |r| == |x|
    decreases hi - i
  {
    if i >= hi then x else Up(RotatePair(x, i, stride, t), i + 1, hi, stride, t)
  }

  /** The steps at i, i-1, ..., lo, in that order. */
  function Down(x: seq<real>, i: int, lo: int, stride: int, t: Turn): (r: seq<real>)
    ensures |r| == |x|
    decreases i - lo
  {
    if i < lo then x else Down(RotatePair(x, i, stride, t), i - 1, lo, stride, t)
  }

  /** The forward pass: i = 0 .. len-stride-1 ascending. */
  function ForwardPass(x: seq<real>, stride: int, t: Turn): (r: seq<real>)
    ensures |r| == |x|
  {
    Up(x, 0, |x| - stride, stride, t)
  }

  /** The reverse pass: i = len-2·stride-1 .. 0 descending. */
  function ReversePass(x: seq<real>, stride: int, t: Turn): (r: seq<real>)
    ensures |r| == |x|
  {
    Down(x, |x| - 2 * stride - 1, 0, stride, t)
  }

  /** One iteration of the outer loop: the forward pass followed by the reverse pass. */
  function Round(x: seq<real>, stride: int, t: Turn): (r: seq<real>)
    ensures |r| == |x|
  {
    ReversePass(ForwardPass(x, stride, t), stride, t)
  }

  /** `iter` rounds (none when `iter` is not positive). */
  function ExpRotated(x: seq<real>, stride: int, t: Turn, iter: int): (r: seq<real>)
    ensures |r| == |x|
    decreases iter
  {
    if iter <= 0 then x else Round(ExpRotated(x, stride, t, iter - 1), stride, t)
  }

  /** The body shared by both passes: X[i], X[i+stride] of the slice rotated together. */
  method RotateInPlace(X: array<real>, off: int, len: int, i: int, stride: int, c: real, s: real)
    requires 0 <= off && 0 <= len && off + len <= X.Length
    requires 0 <= i && 1 <= stride && i + stride < len
    modifies X
    ensures X[off..off + len] == RotatePair(old(X[off..off + len]), i, stride, Turn(c, s))
    ensures X[..off] == old(X[..off]) && X[off + len..] == old(X[off + len..])
  {
    ghost var before := X[off..off + len];
    var x1 := X[off + i];
    var x2 := X[off + i + stride];
    assert x1 == before[i] && x2 == before[i + stride];
    X[off + i] := c * x1 - s * x2;
    X[off + i + stride] := c * x2 + s * x1;
    ghost var after := before[i := c * x1 - s * x2][i + stride := c * x2 + s * x1];
    forall k | 0 <= k < len
      ensures X[off..off + len][k] == after[k]
    {
      assert X[off..off + len][k] == X[off + k];
    }
    assert X[off..off + len] == after;
    ghost var p := Apply(Turn(c, s), before[i], before[i + stride]);
    assert p.0 == c * x1 - s * x2 && p.1 == c * x2 + s * x1;
  }

  /** The forward pass of exp_rotation on the slice X[off .. off+len). */
  method ForwardPassInPlace(X: array<real>, off: int, len: int, stride: int, c: real, s: real)
    requires 0 <= off && 0 <= len && off + len <= X.Length && 1 <= stride
    modifies X
    ensures X[off..off + len] == ForwardPass(old(X[off..off + len]), stride, Turn(c, s))
    ensures X[..off] == old(X[..off]) && X[off + len..] == old(X[off + len..])
  {
    ghost var start := X[off..off + len];
    var i := 0;
    while i < len - stride
      invariant 0 <= i && (i <= len - stride || i == 0)
      invariant Up(X[off..off + len], i, len - stride, stride, Turn(c, s)) == ForwardPass(start, stride, Turn(c, s))
      invariant X[..off] == old(X[..off]) && X[off + len..] == old(X[off + len..])
    {
      RotateInPlace(X, off, len, i, stride, c, s);
      i := i + 1;
    }
  }

  /** The reverse pass of exp_rotation on the slice X[off .. off+len). */
  method ReversePassInPlace(X: array<real>, off: int, len: int, stride: int, c: real, s: real)
    requires 0 <= off && 0 <= len && off + len <= X.Length && 1 <= stride
    modifies X
    ensures X[off..off + len] == ReversePass(old(X[off..off + len]), stride, Turn(c, s))
    ensures X[..off] == old(X[..off]) && X[off + len..] == old(X[off + len..])
  {
    ghost var start := X[off..off + len];
    var i := len - 2 * stride - 1;
    while i >= 0
      invariant i <= len - 2 * stride - 1
      invariant Down(X[off..off + len], i, 0, stride, Turn(c, s)) == ReversePass(start, stride, Turn(c, s))
      invariant X[..off] == old(X[..off]) && X[off + len..] == old(X[off + len..])
    {
      RotateInPlace(X, off, len, i, stride, c, s);
      i := i - 1;
    }
  }

  /** The coefficients exp_rotation uses for angle `theta` and direction `dir`: `c = cos θ`,
      `s = dir·sin θ`. */
  function TurnOf(lib: Libm, theta: real, dir: int): Turn {
    Turn(lib.cos(theta), dir as real * lib.sin(theta))
  }

  /** exp_rotation on the slice X[off .. off+len): `c = cos θ`, `s = dir·sin θ`. Every access
      X[i], X[i+stride] of both passes stays inside the slice, and nothing outside it changes. */
  method ExpRotation(X: array<real>, off: int, len: int, theta: real, dir: int, stride: int,
                     iter: int, lib: Libm)
    requires 0 <= off && 0 <= len && off + len <= X.Length && 1 <= stride
    modifies X
    ensures X[off..off + len] == ExpRotated(old(X[off..off + len]), stride,
                                            TurnOf(lib, theta, dir), iter)
    ensures X[..off] == old(X[..off]) && X[off + len..] == old(X[off + len..])
  {
    var c := lib.cos(theta);
    var s := dir as real * lib.sin(theta);
    ghost var start := X[off..off + len];
    assert Turn(c, s) == TurnOf(lib, theta, dir);
    var k := 0;
    while k < iter
      invariant 0 <= k && (k <= iter || k == 0)
      invariant X[off..off + len] == ExpRotated(start, stride, Turn(c, s), k)
      invariant X[..off] == old(X[..off]) && X[off + len..] == old(X[off + len..])
    {
      ForwardPassInPlace(X, off, len, stride, c, s);
      ReversePassInPlace(X, off, len, stride, c, s);
      k := k + 1;
    }
  }

  /** c² + s²: the factor by which the elementary step scales x1² + x2². */
  function Gain(t: Turn): real {
    t.c * t.c + t.s * t.s
  }

  /** The elementary step scales x1² + x2² by c² + s². */
  lemma ApplyNorm(t: Turn, a: real, b: real)
    ensures Apply(t, a, b).0 * Apply(t, a, b).0 + Apply(t, a, b).1 * Apply(t, a, b).1
            == Gain(t) * (a * a) + Gain(t) * (b * b)
  {
  }

  /** The opposite step applied after the step scales each sample by c² + s². */
  lemma ApplyOpposite(t: Turn, a: real, b: real)
    ensures Apply(Opposite(t), Apply(t, a, b).0, Apply(t, a, b).1).0 == Gain(t) * a
    ensures Apply(Opposite(t), Apply(t, a, b).0, Apply(t, a, b).1).1 == Gain(t) * b
  {
  }

  lemma UnitScale(k: real, x: real, y: real)
    requires k == 1.0
    ensures k * x + k * y == x + y && k * x == x && k * y == y
  {
  }

  /** On the unit circle the elementary step keeps x1² + x2². */
  lemma ApplyKeepsNorm(t: Turn, a: real, b: real)
    requires OnUnitCircle(t)
    ensures Apply(t, a, b).0 * Apply(t, a, b).0 + Apply(t, a, b).1 * Apply(t, a, b).1 == a * a + b * b
  {
    ApplyNorm(t, a, b);
    UnitScale(Gain(t), a * a, b * b);
  }

  /** On the unit circle the opposite step undoes the step. */
  lemma ApplyUndo(t: Turn, a: real, b: real)
    requires OnUnitCircle(t)
    ensures Apply(Opposite(t), Apply(t, a, b).0, Apply(t, a, b).1) == (a, b)
  {
    ApplyOpposite(t, a, b);
    UnitScale(Gain(t), a, b);
  }

  /** Sum of squares of a slice: its energy. */
  function SumSq(x: seq<real>): real {
    if x == [] then 0.0 else SumSq(x[..|x| - 1]) + x[|x| - 1] * x[|x| - 1]
  }

  /** Overwriting one sample changes the energy by the difference of its squares. */
  lemma {:induction false} SumSqUpdate(x: seq<real>, i: int, v: real)
    requires 0 <= i < |x|
    ensures SumSq(x[i := v]) == SumSq(x) - x[i] * x[i] + v * v
  {
    var n := |x| - 1;
    if i < n {
      SumSqUpdate(x[..n], i, v);
      assert x[i := v][..n] == x[..n][i := v];
    } else {
      assert x[i := v][..n] == x[..n];
    }
  }

  /** Overwriting two distinct samples with values of the same total square keeps the energy. */
  lemma TwoUpdates(x: seq<real>, i: int, j: int, a: real, b: real)
    requires 0 <= i < |x| && 0 <= j < |x| && i != j
    requires a * a + b * b == x[i] * x[i] + x[j] * x[j]
    ensures SumSq(x[i := a][j := b]) == SumSq(x)
  {
    SumSqUpdate(x, i, a);
    SumSqUpdate(x[i := a], j, b);
  }

  /** On the unit circle one step keeps the energy of the slice. */
  lemma RotatePairEnergy(x: seq<real>, i: int, stride: int, t: Turn)
    requires 1 <= stride && OnUnitCircle(t)
    ensures SumSq(RotatePair(x, i, stride, t)) == SumSq(x)
  {
    if 0 <= i && i + stride < |x| {
      var p := Apply(t, x[i], x[i + stride]);
      ApplyKeepsNorm(t, x[i], x[i + stride]);
      TwoUpdates(x, i, i + stride, p.0, p.1);
    }
  }

  lemma {:induction false} UpEnergy(x: seq<real>, i: int, hi: int, stride: int, t: Turn)
    requires 1 <= stride && OnUnitCircle(t)
    ensures SumSq(Up(x, i, hi, stride, t)) == SumSq(x)
    decreases hi - i
  {
    if i < hi {
      RotatePairEnergy(x, i, stride, t);
      UpEnergy(RotatePair(x, i, stride, t), i + 1, hi, stride, t);
    }
  }

  lemma {:induction false} DownEnergy(x: seq<real>, i: int, lo: int, stride: int, t: Turn)
    requires 1 <= stride && OnUnitCircle(t)
    ensures SumSq(Down(x, i, lo, stride, t)) == SumSq(x)
    decreases i - lo
  {
    if i >= lo {
      RotatePairEnergy(x, i, stride, t);
      DownEnergy(RotatePair(x, i, stride, t), i - 1, lo, stride, t);
    }
  }

  /** With c² + s² = 1 the whole spreading rotation keeps the energy of the slice. */
  lemma {:induction false} ExpRotatedEnergy(x: seq<real>, stride: int, t: Turn, iter: int)
    requires 1 <= stride && OnUnitCircle(t)
    ensures SumSq(ExpRotated(x, stride, t, iter)) == SumSq(x)
    decreases iter
  {
    hide Up, Down, RotatePair, SumSq;
    if iter > 0 {
      var y := ExpRotated(x, stride, t, iter - 1);
      ExpRotatedEnergy(x, stride, t, iter - 1);
      UpEnergy(y, 0, |y| - stride, stride, t);
      var z := ForwardPass(y, stride, t);
      DownEnergy(z, |z| - 2 * stride - 1, 0, stride, t);
    }
  }

  /** On the unit circle the opposite step at the same position restores the slice. */
  lemma RotatePairInverse(x: seq<real>, i: int, stride: int, t: Turn)
    requires 1 <= stride && OnUnitCircle(t)
    ensures RotatePair(RotatePair(x, i, stride, t), i, stride, Opposite(t)) == x
  {
    if 0 <= i && i + stride < |x| {
      ApplyUndo(t, x[i], x[i + stride]);
      var y := RotatePair(RotatePair(x, i, stride, t), i, stride, Opposite(t));
      assert forall k :: 0 <= k < |x| ==> y[k] == x[k];
    }
  }

  /** The ascending steps end with the step at hi-1. */
  lemma {:induction false} UpLast(x: seq<real>, lo: int, hi: int, stride: int, t: Turn)
    requires lo < hi
    ensures Up(x, lo, hi, stride, t) == RotatePair(Up(x, lo, hi - 1, stride, t), hi - 1, stride, t)
    decreases hi - lo
  {
    if lo + 1 < hi {
      UpLast(RotatePair(x, lo, stride, t), lo + 1, hi, stride, t);
    }
  }

  /** The descending steps end with the step at lo. */
  lemma {:induction false} DownLast(x: seq<real>, top: int, lo: int, stride: int, t: Turn)
    requires lo <= top
    ensures Down(x, top, lo, stride, t) == RotatePair(Down(x, top, lo + 1, stride, t), lo, stride, t)
    decreases top - lo
  {
    if lo < top {
      DownLast(RotatePair(x, top, stride, t), top - 1, lo, stride, t);
    }
  }

  /** Ascending steps are undone by the same positions descending, in the opposite direction. */
  lemma {:induction false} UpInverse(x: seq<real>, lo: int, hi: int, stride: int, t: Turn)
    requires 1 <= stride && OnUnitCircle(t)
    ensures Down(Up(x, lo, hi, stride, t), hi - 1, lo, stride, Opposite(t)) == x
    decreases hi - lo
  {
    if lo < hi {
      var y := Up(x, lo, hi - 1, stride, t);
      UpLast(x, lo, hi, stride, t);
      RotatePairInverse(y, hi - 1, stride, t);
      UpInverse(x, lo, hi - 1, stride, t);
    }
  }

  /** Descending steps are undone by the same positions ascending, in the opposite direction. */
  lemma {:induction false} DownInverse(x: seq<real>, top: int, lo: int, stride: int, t: Turn)
    requires 1 <= stride && OnUnitCircle(t)
    ensures Up(Down(x, top, lo, stride, t), lo, top + 1, stride, Opposite(t)) == x
    decreases top - lo
  {
    if lo <= top {
      var y := Down(x, top, lo + 1, stride, t);
      DownLast(x, top, lo, stride, t);
      RotatePairInverse(y, lo, stride, t);
      DownInverse(x, top, lo + 1, stride, t);
    }
  }

  /** A round replayed backwards: the reverse pass's positions ascending, then the forward
      pass's positions descending, both in the opposite direction. */
  function Unround(x: seq<real>, stride: int, t: Turn): (r: seq<real>)
    ensures |r| == |x|
  {
    Down(Up(x, 0, |x| - 2 * stride, stride, Opposite(t)), |x| - stride - 1, 0, stride, Opposite(t))
  }

  /** `iter` rounds replayed backwards, the last round first. */
  function Unrotated(x: seq<real>, stride: int, t: Turn, iter: int): (r: seq<real>)
    ensures |r| == |x|
    decreases iter
  {
    if iter <= 0 then x else Unrotated(Unround(x, stride, t), stride, t, iter - 1)
  }

  /** One round is undone by replaying it backwards. */
  lemma RoundInverse(x: seq<real>, stride: int, t: Turn)
    requires 1 <= stride && OnUnitCircle(t)
    ensures Unround(Round(x, stride, t), stride, t) == x
  {
    var y := ForwardPass(x, stride, t);
    DownInverse(y, |x| - 2 * stride - 1, 0, stride, t);
    UpInverse(x, 0, |x| - stride, stride, t);
  }

  /** The whole spreading rotation, all `iter` rounds of it, is undone by replaying its rounds
      backwards. */
  lemma {:induction false} ExpRotatedInverse(x: seq<real>, stride: int, t: Turn, iter: int)
    requires 1 <= stride && OnUnitCircle(t)
    ensures Unrotated(ExpRotated(x, stride, t, iter), stride, t, iter) == x
    decreases iter
  {
    if iter > 0 {
      RoundInverse(ExpRotated(x, stride, t, iter - 1), stride, t);
      ExpRotatedInverse(x, stride, t, iter - 1);
    }
  }
}
