/** The per-token integer quantiser, over the reals, with its integer casts. */
module Quantizer {

  // ----- torch.round, torch.min, torch.max, torch.clamp

  /** Rounds to the nearest integer, halves to the even one. */
  function Round(x: real): (n: int)
    ensures -0.5 <= x - n as real <= 0.5
  {
    var f := x.Floor;
    var frac := x - f as real;
    if frac < 0.5 then f
    else if frac > 0.5 then f + 1
    else if f % 2 == 0 then f
    else f + 1
  }

  function Abs(x: real): real {
    if x < 0.0 then -x else x
  }

  function Max(x: real, y: real): real {
    if x < y then y else x
  }

  function RowMin(row: seq<real>): (m: real)
    requires |row| > 0
    ensures m in row && forall i :: 0 <= i < |row| ==> m <= row[i]
  {
    if |row| == 1 then row[0]
    else
      var m := RowMin(row[..|row| - 1]);
      if row[|row| - 1] < m then row[|row| - 1] else m
  }

  function RowMax(row: seq<real>): (m: real)
    requires |row| > 0
    ensures m in row && forall i :: 0 <= i < |row| ==> row[i] <= m
  {
    if |row| == 1 then row[0]
    else
      var m := RowMax(row[..|row| - 1]);
      if m < row[|row| - 1] then row[|row| - 1] else m
  }

  function Clamp(n: int, lo: int, hi: int): int {
    if n < lo then lo else if hi < n then hi else n
  }

  function Pow2(n: nat): (r: nat)
    ensures r >= 1
  {
    if n == 0 then 1 else 2 * Pow2(n - 1)
  }

  // ----- the quantiser

  function QMin(symmetric: bool, bits: nat): int
    requires bits >= 1
  {
    if symmetric then 0 - Pow2(bits - 1) as int else 0
  }

  function QMax(symmetric: bool, bits: nat): int
    requires bits >= 1
  {
    if symmetric then Pow2(bits - 1) - 1 else Pow2(bits) - 1
  }

  const SMALLEST_SCALE := 0.00001

  function Scale(row: seq<real>, symmetric: bool, bits: nat): (s: real)
    requires |row| > 0 && bits >= 2
    ensures s >= SMALLEST_SCALE
  {
    var lo, hi := RowMin(row), RowMax(row);
    var qmax := QMax(symmetric, bits) as real;
    var spread := if symmetric then Max(Abs(lo), Abs(hi)) else hi - lo;
    Max(spread / qmax, SMALLEST_SCALE)
  }

  /** The zero point before it is cast. */
  function ZeroPoint(row: seq<real>, symmetric: bool, bits: nat): int
    requires |row| > 0 && bits >= 2
  {
    if symmetric then 0 else -1 * Round(RowMin(row) / Scale(row, symmetric, bits))
  }

  /** What one row is quantised with. */
  datatype Grid = Grid(scale: real, zero: int, qmin: int, qmax: int)

  function GridOf(row: seq<real>, symmetric: bool, bits: nat): Grid
    requires |row| > 0 && bits >= 2
  {
    Grid(Scale(row, symmetric, bits), ZeroPoint(row, symmetric, bits), QMin(symmetric, bits), QMax(symmetric, bits))
  }

  /** Position of `x` on the integer grid, before rounding. */
  function Shifted(x: real, g: Grid): real
    requires g.scale > 0.0
  {
    x / g.scale + g.zero as real
  }

  function Quantize(x: real, g: Grid): int
    requires g.scale > 0.0
  {
    Clamp(Round(Shifted(x, g)), g.qmin, g.qmax)
  }

  function Dequantize(q: int, g: Grid): real {
    (q - g.zero) as real * g.scale
  }

  // ----- the casts

  const INT32_MIN := -0x8000_0000
  const INT32_MAX := 0x7fff_ffff

  /** What a cast gives for a number that its type does not have: torch leaves that undefined. */
  datatype Undefined = Undefined(wide: int, narrow: int)

  function Low8(symmetric: bool): int {
    if symmetric then -128 else 0
  }

  function High8(symmetric: bool): int {
    if symmetric then 127 else 255
  }

  predicate Possible(u: Undefined, symmetric: bool) {
    INT32_MIN <= u.wide <= INT32_MAX && Low8(symmetric) <= u.narrow <= High8(symmetric)
  }

  function CastInt32(n: int, u: Undefined): int {
    if INT32_MIN <= n <= INT32_MAX then n else u.wide
  }

  /** -1 * n on 32-bit numbers. */
  function Negate32(n: int): int {
    if n == INT32_MIN then n else -n
  }

  /** The cast of a quantised value to int8, or to uint8 in asymmetric mode. */
  function Cast8(n: int, symmetric: bool, u: Undefined): int {
    if Low8(symmetric) <= n <= High8(symmetric) then n else u.narrow
  }

  function StoredZero(row: seq<real>, symmetric: bool, bits: nat, u: Undefined): int
    requires |row| > 0 && bits >= 2
  {
    if symmetric then 0 else Negate32(CastInt32(Round(RowMin(row) / Scale(row, symmetric, bits)), u))
  }

  function StoredGrid(row: seq<real>, symmetric: bool, bits: nat, u: Undefined): Grid
    requires |row| > 0 && bits >= 2
  {
    GridOf(row, symmetric, bits).(zero := StoredZero(row, symmetric, bits, u))
  }

  /** What the quantiser returns for one row. */
  datatype Output = Output(quantized: seq<int>, scale: real, zero: int)

  function QuantizeRow(row: seq<real>, symmetric: bool, bits: nat, u: Undefined): Output
    requires |row| > 0 && bits >= 2
  {
    var g := StoredGrid(row, symmetric, bits, u);
    Output(seq(|row|, i requires 0 <= i < |row| => Cast8(Quantize(row[i], g), symmetric, u)), g.scale, g.zero)
  }

  // ----- arithmetic

  lemma RoundMonotone(x: real, y: real)
    requires x <= y
    ensures Round(x) <= Round(y)
  {
    assert x.Floor <= y.Floor;
  }

  lemma RoundInteger(n: int)
    ensures Round(n as real) == n
    ensures n % 2 == 0 ==> Round(n as real - 0.5) == n && Round(n as real + 0.5) == n
    ensures n % 2 != 0 ==> Round(n as real + 0.5) == n + 1
  {
    assert (n as real - 0.5).Floor == n - 1;
    assert (n as real + 0.5).Floor == n;
  }

  lemma Exceeds(a: real, s: real, b: real)
    requires s > 0.0 && a / s > b
    ensures a > b * s
  {
    assert (a / s - b) * s > 0.0;
  }

  lemma DivideBy(a: real, s: real, b: real)
    requires s > 0.0 && a <= b * s
    ensures a / s <= b
  {
    if a / s > b {
      Exceeds(a, s, b);
      assert false;
    }
  }

  lemma DivideDifference(a: real, b: real, s: real)
    requires s > 0.0
    ensures (a - b) / s == a / s - b / s
  {
  }

  lemma SpreadBound(spread: real, q: real, s: real)
    requires q > 0.0 && spread / q <= s
    ensures spread <= q * s
  {
    Nonnegative(s - spread / q, q);
    Regained(spread, q);
    assert (s - spread / q) * q == s * q - spread / q * q;
  }

  lemma Regained(a: real, b: real)
    requires b != 0.0
    ensures a / b * b == a
  {
  }

  lemma {:induction false} Pow2Odd(n: nat)
    requires n >= 1
    ensures (Pow2(n) - 1) % 2 == 1 && Pow2(n) >= 2
  {
    assert Pow2(n) - 1 == 2 * (Pow2(n - 1) - 1) + 1;
  }

  /** Before rounding, no value lies more than half a step outside the grid. */
  lemma ShiftedRange(x: real, row: seq<real>, symmetric: bool, bits: nat)
    requires bits >= 2 && x in row
    ensures var g := GridOf(row, symmetric, bits);
            if symmetric then -g.qmax as real <= Shifted(x, g) <= g.qmax as real
            else -0.5 <= Shifted(x, g) <= g.qmax as real + 0.5
  {
    var lo, hi, s := RowMin(row), RowMax(row), Scale(row, symmetric, bits);
    Pow2Odd(bits - 1);
    var qmax := QMax(symmetric, bits) as real;
    if symmetric {
      SpreadBound(Max(Abs(lo), Abs(hi)), qmax, s);
      DivideBy(x, s, qmax);
      DivideBy(0.0 - x, s, qmax);
      DivideDifference(0.0, x, s);
    } else {
      SpreadBound(hi - lo, qmax, s);
      DivideBy(lo - x, s, 0.0);
      DivideBy(x - lo, s, qmax);
      DivideDifference(lo, x, s);
      DivideDifference(x, lo, s);
    }
  }

  // ----- main results

  /** `q` is in range, and stands for a value within half a step of `x`. */
  predicate AccurateAt(x: real, q: int, g: Grid) {
    g.qmin <= q <= g.qmax && Abs(x - Dequantize(q, g)) <= g.scale / 2.0
  }

  /** `x` rounds into the range, or one step above it from exactly half a step above. */
  ghost predicate InReach(x: real, g: Grid) {
    && g.scale > 0.0 && g.qmin <= g.qmax
    && (|| g.qmin <= Round(Shifted(x, g)) <= g.qmax
        || (Round(Shifted(x, g)) == g.qmax + 1 && Shifted(x, g) == g.qmax as real + 0.5))
  }

  /** Before any cast, the final clamp never acts in symmetric mode; in asymmetric mode it acts only from above,
      and only by one step. */
  lemma ClampReach(x: real, row: seq<real>, symmetric: bool, bits: nat)
    requires bits >= 2 && x in row
    ensures InReach(x, GridOf(row, symmetric, bits))
    ensures symmetric ==> Round(Shifted(x, GridOf(row, symmetric, bits))) <= QMax(symmetric, bits)
  {
    var g := GridOf(row, symmetric, bits);
    var y := Shifted(x, g);
    ShiftedRange(x, row, symmetric, bits);
    Pow2Odd(bits - 1);
    Pow2Odd(bits);
    RoundInteger(g.qmax);
    if symmetric {
      RoundMonotone(-g.qmax as real, y);
      RoundMonotone(y, g.qmax as real);
      RoundInteger(-g.qmax);
    } else {
      RoundMonotone(-0.5, y);
      RoundMonotone(y, g.qmax as real + 0.5);
      RoundInteger(0);
    }
  }

  /** A value in reach is quantised into the range and dequantised to within half a step. */
  lemma ReachBound(x: real, g: Grid)
    requires InReach(x, g)
    ensures AccurateAt(x, Quantize(x, g), g)
  {
    var y, q := Shifted(x, g), Quantize(x, g);
    assert -0.5 <= y - q as real <= 0.5;
    HalfStep(x, g.scale, y - q as real, (q - g.zero) as real);
  }

  lemma HalfStep(x: real, s: real, e: real, n: real)
    requires s > 0.0 && x / s == e + n && -0.5 <= e <= 0.5
    ensures Abs(x - n * s) <= s / 2.0
  {
    assert x == (e + n) * s;
    Nonnegative(e + 0.5, s);
    Nonnegative(0.5 - e, s);
  }

  lemma Nonnegative(a: real, b: real)
    requires a >= 0.0 && b >= 0.0
    ensures a * b >= 0.0
  {
  }

  /** Quantised values fit the integer range, and dequantising is off by at most half a step,
      also where the clamp acts, before any cast. */
  lemma ErrorBound(row: seq<real>, symmetric: bool, bits: nat, i: nat)
    requires bits >= 2 && i < |row|
    ensures var g := GridOf(row, symmetric, bits);
            AccurateAt(row[i], Quantize(row[i], g), g)
  {
    ClampReach(row[i], row, symmetric, bits);
    ReachBound(row[i], GridOf(row, symmetric, bits));
  }

  // ----- with the casts

  /** Every value of the output is in range and within half a step of the input. */
  ghost predicate Accurate(row: seq<real>, symmetric: bool, bits: nat, out: Output)
    requires bits >= 2
  {
    && |out.quantized| == |row|
    && var g := Grid(out.scale, out.zero, QMin(symmetric, bits), QMax(symmetric, bits));
       forall i :: 0 <= i < |row| ==> AccurateAt(row[i], out.quantized[i], g)
  }

  /** The promise: accurate whatever the casts make of numbers they have no room for. */
  ghost predicate Promised(row: seq<real>, symmetric: bool, bits: nat)
    requires |row| > 0 && bits >= 2
  {
    forall u :: Possible(u, symmetric) ==> Accurate(row, symmetric, bits, QuantizeRow(row, symmetric, bits, u))
  }

  /** The zero point survives its cast and the negation. */
  predicate ZeroFits(row: seq<real>, symmetric: bool, bits: nat)
    requires |row| > 0 && bits >= 2
  {
    symmetric || INT32_MIN < Round(RowMin(row) / Scale(row, symmetric, bits)) <= INT32_MAX
  }

  /** The smallest and the largest value survive the cast to 8 bits. */
  predicate EndsFit(row: seq<real>, symmetric: bool, bits: nat)
    requires |row| > 0 && bits >= 2
  {
    var lo, hi, s := RowMin(row), RowMax(row), Scale(row, symmetric, bits);
    || bits <= 8
    || (if symmetric then -128 <= Round(lo / s) && Round(hi / s) <= 127
        else Round(hi / s + ZeroPoint(row, symmetric, bits) as real) <= 255)
  }

  lemma {:induction false} Pow2Grows(m: nat, n: nat)
    requires m <= n
    ensures Pow2(m) <= Pow2(n)
    decreases n
  {
    if m < n {
      Pow2Grows(m, n - 1);
    }
  }

  lemma WidthOf(bits: nat)
    requires bits >= 2
    ensures bits <= 8 ==> Pow2(bits) <= 256 && Pow2(bits - 1) <= 128
    ensures bits > 8 ==> Pow2(bits) >= 512 && Pow2(bits - 1) >= 256
  {
    assert Pow2(7) == 128 && Pow2(8) == 256 && Pow2(9) == 512;
    if bits <= 8 {
      Pow2Grows(bits, 8);
      Pow2Grows(bits - 1, 7);
    } else {
      Pow2Grows(9, bits);
      Pow2Grows(8, bits - 1);
    }
  }

  lemma DivideMonotone(x: real, y: real, s: real)
    requires s > 0.0 && x <= y
    ensures x / s <= y / s
  {
    DivideBy(x, s, y / s);
  }

  /** Where the ends fit, every value of the row does. */
  lemma FitsBetween(row: seq<real>, symmetric: bool, bits: nat, x: real)
    requires bits >= 2 && x in row && EndsFit(row, symmetric, bits)
    ensures Low8(symmetric) <= Quantize(x, GridOf(row, symmetric, bits)) <= High8(symmetric)
  {
    var g := GridOf(row, symmetric, bits);
    WidthOf(bits);
    if bits > 8 {
      ShiftedMonotone(RowMin(row), x, g);
      ShiftedMonotone(x, RowMax(row), g);
      ClampWithin(Round(Shifted(x, g)), g.qmin, g.qmax, symmetric);
    }
  }

  lemma ClampWithin(n: int, qmin: int, qmax: int, symmetric: bool)
    requires n <= High8(symmetric) <= qmax
    requires if symmetric then qmin <= -128 <= n else qmin == 0
    ensures Low8(symmetric) <= Clamp(n, qmin, qmax) <= High8(symmetric)
  {
  }

  lemma ShiftedMonotone(x: real, y: real, g: Grid)
    requires g.scale > 0.0 && x <= y
    ensures Round(Shifted(x, g)) <= Round(Shifted(y, g))
  {
    DivideMonotone(x, y, g.scale);
    RoundMonotone(Shifted(x, g), Shifted(y, g));
  }

  /** The casts are harmless when zero point and ends fit. */
  lemma FitsIsPromised(row: seq<real>, symmetric: bool, bits: nat)
    requires |row| > 0 && bits >= 2 && ZeroFits(row, symmetric, bits) && EndsFit(row, symmetric, bits)
    ensures Promised(row, symmetric, bits)
  {
    forall u | Possible(u, symmetric) ensures Accurate(row, symmetric, bits, QuantizeRow(row, symmetric, bits, u)) {
      var g, out := StoredGrid(row, symmetric, bits, u), QuantizeRow(row, symmetric, bits, u);
      forall i | 0 <= i < |row| ensures AccurateAt(row[i], out.quantized[i], g) {
        StoredAccurate(row, symmetric, bits, u, i);
      }
    }
  }

  /** Whatever the casts do: with a zero point that fits, every value of the row is in reach. */
  lemma StoredReach(row: seq<real>, symmetric: bool, bits: nat, u: Undefined, x: real)
    requires x in row && bits >= 2 && ZeroFits(row, symmetric, bits)
    ensures StoredZero(row, symmetric, bits, u) == ZeroPoint(row, symmetric, bits)
    ensures InReach(x, StoredGrid(row, symmetric, bits, u))
  {
    ClampReach(x, row, symmetric, bits);
    assert StoredGrid(row, symmetric, bits, u) == GridOf(row, symmetric, bits);
  }

  lemma StoredAccurate(row: seq<real>, symmetric: bool, bits: nat, u: Undefined, i: nat)
    requires i < |row| && bits >= 2 && ZeroFits(row, symmetric, bits) && EndsFit(row, symmetric, bits)
    ensures var g := StoredGrid(row, symmetric, bits, u);
            AccurateAt(row[i], Cast8(Quantize(row[i], g), symmetric, u), g)
  {
    assert StoredGrid(row, symmetric, bits, u) == GridOf(row, symmetric, bits);
    ErrorBound(row, symmetric, bits, i);
    FitsBetween(row, symmetric, bits, row[i]);
  }

  /** A value more than half a step away breaks the bound. */
  lemma FarOff(x: real, s: real, n: real)
    requires s > 0.0 && (x / s - n > 0.5 || x / s - n < -0.5)
    ensures Abs(x - n * s) > s / 2.0
  {
    var e := x / s - n;
    assert x == (e + n) * s;
    assert x - n * s == e * s;
    if e > 0.5 {
      assert (e - 0.5) * s > 0.0;
    } else {
      assert (-0.5 - e) * s > 0.0;
    }
  }

  /** One value that comes back far off refutes the promise. */
  lemma NotPromised(row: seq<real>, symmetric: bool, bits: nat, u: Undefined, x: real)
    requires bits >= 2 && x in row && Possible(u, symmetric)
    requires var g := StoredGrid(row, symmetric, bits, u);
             var steps := x / g.scale - (Cast8(Quantize(x, g), symmetric, u) - g.zero) as real;
             steps > 0.5 || steps < -0.5
    ensures !Promised(row, symmetric, bits)
  {
    var g, out := StoredGrid(row, symmetric, bits, u), QuantizeRow(row, symmetric, bits, u);
    var i :| 0 <= i < |row| && row[i] == x;
    NotAccurateAt(x, Cast8(Quantize(x, g), symmetric, u), g);
    assert !AccurateAt(row[i], out.quantized[i], g);
  }

  lemma NotAccurateAt(x: real, q: int, g: Grid)
    requires g.scale > 0.0
    requires x / g.scale - (q - g.zero) as real > 0.5 || x / g.scale - (q - g.zero) as real < -0.5
    ensures !AccurateAt(x, q, g)
  {
    FarOff(x, g.scale, (q - g.zero) as real);
  }

  const NOTHING := Undefined(0, 0)

  lemma LostZero(row: seq<real>, bits: nat)
    requires |row| > 0 && bits >= 2 && !ZeroFits(row, false, bits)
    ensures !Promised(row, false, bits)
  {
    NotPromised(row, false, bits, NOTHING, RowMin(row));
  }

  lemma LostEnd(row: seq<real>, symmetric: bool, bits: nat)
    requires |row| > 0 && bits >= 2 && ZeroFits(row, symmetric, bits) && !EndsFit(row, symmetric, bits)
    ensures !Promised(row, symmetric, bits)
  {
    WidthOf(bits);
    var s := Scale(row, symmetric, bits);
    assert StoredGrid(row, symmetric, bits, NOTHING) == GridOf(row, symmetric, bits);
    if symmetric && Round(RowMin(row) / s) < -128 {
      NotPromised(row, symmetric, bits, NOTHING, RowMin(row));
    } else {
      NotPromised(row, symmetric, bits, NOTHING, RowMax(row));
    }
  }

  /** The error bound, exactly: values in range and an error of at most half a step, whatever the casts
      do with numbers they have no room for, if and only if the zero point fits 32 bits and the ends of
      the row fit 8. */
  lemma ErrorBoundIff(row: seq<real>, symmetric: bool, bits: nat)
    requires |row| > 0 && bits >= 2
    ensures Promised(row, symmetric, bits) <==> ZeroFits(row, symmetric, bits) && EndsFit(row, symmetric, bits)
  {
    if !ZeroFits(row, symmetric, bits) {
      LostZero(row, bits);
    } else if !EndsFit(row, symmetric, bits) {
      LostEnd(row, symmetric, bits);
    } else {
      FitsIsPromised(row, symmetric, bits);
    }
  }

  /** In symmetric mode every row is served exactly when at most 8 bits are asked for. */
  lemma SymmetricIff(bits: nat)
    requires bits >= 2
    ensures (forall row: seq<real> :: |row| > 0 ==> Promised(row, true, bits)) <==> bits <= 8
  {
    if bits <= 8 {
      forall row: seq<real> | |row| > 0 ensures Promised(row, true, bits) {
        ErrorBoundIff(row, true, bits);
      }
    } else {
      WideRowFails(bits);
    }
  }

  lemma WideRowFails(bits: nat)
    requires bits > 8
    ensures !Promised([QMax(true, bits) as real], true, bits)
  {
    var q := QMax(true, bits);
    WidthOf(bits);
    WideScale(bits);
    RoundInteger(q);
    assert q as real / 1.0 == q as real;
    assert !EndsFit([q as real], true, bits);
    ErrorBoundIff([q as real], true, bits);
  }

  lemma WideScale(bits: nat)
    requires bits > 8
    ensures Scale([QMax(true, bits) as real], true, bits) == 1.0
  {
    WidthOf(bits);
    OverItself(QMax(true, bits) as real);
  }

  lemma OverItself(x: real)
    requires x > 0.0
    ensures x / x == 1.0
  {
  }

  /** A large constant row loses its zero point: it would be -3000000000. */
  lemma LargeRowFails()
    ensures ZeroPoint([30000.0], false, 8) == -3000000000 && !Promised([30000.0], false, 8)
  {
    var row := [30000.0];
    assert Scale(row, false, 8) == SMALLEST_SCALE;
    assert 30000.0 / SMALLEST_SCALE == 3000000000.0;
    RoundInteger(3000000000);
    ErrorBoundIff(row, false, 8);
  }

  /** Nine bits do not fit into uint8. */
  lemma NineBitsFail()
    ensures Quantize(511.0, GridOf([0.0, 511.0], false, 9)) == 511 && !Promised([0.0, 511.0], false, 9)
  {
    var row := [0.0, 511.0];
    assert row[..1] == [0.0] && row[0] == 0.0 && row[1] == 511.0;
    assert RowMin(row) == 0.0 && RowMax(row) == 511.0;
    assert Pow2(9) == 512;
    assert Scale(row, false, 9) == 1.0;
    RoundInteger(0);
    RoundInteger(511);
    ErrorBoundIff(row, false, 9);
  }

  /** The clamp does act: the upper end of this row rounds past the range. */
  lemma ClampActs()
    ensures var g := GridOf([0.5, 3.5], false, 2);
            Round(Shifted(3.5, g)) == g.qmax + 1
  {
    var row := [0.5, 3.5];
    assert row[..1] == [0.5];
    assert row[0] == 0.5 && row[1] == 3.5;
    assert RowMin(row) <= row[0] && RowMax(row) >= row[1];
    assert Pow2(2) == 4 && Pow2(1) == 2;
    RoundInteger(0);
    RoundInteger(3);
    assert GridOf(row, false, 2) == Grid(1.0, 0, 0, 3);
  }

  // ----- the scale is as small as it can be

  /** Rounding, without its branches: the nearest integer, and the even one of two. */
  lemma RoundIff(x: real, n: int)
    ensures n == Round(x) <==> Abs(x - n as real) <= 0.5 && (Abs(x - n as real) == 0.5 ==> n % 2 == 0)
  {
    var f := x.Floor;
    assert f as real <= x < f as real + 1.0;
    if Abs(x - n as real) <= 0.5 {
      assert n == f || n == f + 1;
    }
  }

  /** The ranges have 2^bits values, symmetric ones with one more below zero than above. */
  lemma {:induction false} Ranges(symmetric: bool, bits: nat)
    requires bits >= 1
    ensures QMax(symmetric, bits) - QMin(symmetric, bits) + 1 == Pow2(bits)
    ensures QMin(symmetric, bits) == if symmetric then -QMax(symmetric, bits) - 1 else 0
    ensures QMin(true, 4) == -8 && QMax(true, 4) == 7 && QMin(true, 8) == -128 && QMax(true, 8) == 127
    ensures QMin(false, 4) == 0 && QMax(false, 4) == 15 && QMin(false, 8) == 0 && QMax(false, 8) == 255
  {
    assert Pow2(3) == 8 && Pow2(4) == 16 && Pow2(7) == 128 && Pow2(8) == 256;
    assert Pow2(bits) == 2 * Pow2(bits - 1);
  }

  /** Two values that a range reaching `reach` on either side, or `reach` from end to end, can both tell. */
  predicate Spans(x: real, y: real, symmetric: bool, reach: real) {
    if symmetric then -reach <= x <= reach else x - y <= reach
  }

  /** A reach that covers the row. */
  ghost predicate Covered(row: seq<real>, symmetric: bool, reach: real) {
    forall i, j :: 0 <= i < |row| && 0 <= j < |row| ==> Spans(row[i], row[j], symmetric, reach)
  }

  /** Steps of size `s` cover the row: the largest number reaches every value from zero, or, in
      asymmetric mode, the largest value from the smallest. */
  ghost predicate Covers(row: seq<real>, symmetric: bool, qmax: real, s: real) {
    Covered(row, symmetric, qmax * s)
  }

  /** The least scale that is not below 1e-5 and covers the row. */
  ghost predicate Finest(row: seq<real>, symmetric: bool, qmax: real, scale: real) {
    && scale >= 0.00001 && Covers(row, symmetric, qmax, scale)
    && forall s :: s >= 0.00001 && Covers(row, symmetric, qmax, s) ==> scale <= s
  }

  /** A value that is exactly at the end of the reach, and the value it is measured from. */
  predicate Touches(x: real, y: real, symmetric: bool, reach: real) {
    if symmetric then x == reach || x == -reach else x - y == reach
  }

  /** What the range has to reach. */
  function Spread(row: seq<real>, symmetric: bool): real
    requires |row| > 0
  {
    if symmetric then Max(Abs(RowMin(row)), Abs(RowMax(row))) else RowMax(row) - RowMin(row)
  }

  lemma SpreadTouches(row: seq<real>, symmetric: bool) returns (i: nat, j: nat)
    requires |row| > 0
    ensures i < |row| && j < |row| && Touches(row[i], row[j], symmetric, Spread(row, symmetric))
  {
    var lo, hi := RowMin(row), RowMax(row);
    var end := if symmetric && Abs(hi) < Abs(lo) then lo else hi;
    i :| 0 <= i < |row| && row[i] == end;
    j :| 0 <= j < |row| && row[j] == lo;
  }

  lemma SpreadCovers(row: seq<real>, symmetric: bool, reach: real)
    requires |row| > 0
    ensures Covered(row, symmetric, reach) <==> Spread(row, symmetric) <= reach
  {
    if Covered(row, symmetric, reach) {
      var i, j := SpreadTouches(row, symmetric);
      assert Spans(row[i], row[j], symmetric, reach);
    }
  }

  /** `q` steps of size `s` reach far enough, and no farther unless `s` is 1e-5. */
  predicate Reaches(spread: real, q: real, s: real) {
    spread <= q * s && (s == 0.00001 || spread == q * s)
  }

  lemma ScaleReaches(row: seq<real>, symmetric: bool, bits: nat)
    requires |row| > 0 && bits >= 2
    ensures Reaches(Spread(row, symmetric), QMax(symmetric, bits) as real, Scale(row, symmetric, bits))
  {
    Pow2Odd(bits - 1);
    Divided(Spread(row, symmetric), QMax(symmetric, bits) as real, Scale(row, symmetric, bits));
  }

  lemma Divided(spread: real, q: real, s: real)
    requires q > 0.0 && s == Max(spread / q, 0.00001)
    ensures Reaches(spread, q, s)
  {
    SpreadBound(spread, q, s);
    Regained(spread, q);
  }

  /** The scale is the least one that is not below 1e-5 and covers the row. */
  lemma ScaleIsFinest(row: seq<real>, symmetric: bool, bits: nat, u: Undefined)
    requires |row| > 0 && bits >= 2
    ensures Finest(row, symmetric, QMax(symmetric, bits) as real, QuantizeRow(row, symmetric, bits, u).scale)
  {
    ScaleReaches(row, symmetric, bits);
    Pow2Odd(bits - 1);
    FinestReach(row, symmetric, QMax(symmetric, bits) as real, Scale(row, symmetric, bits));
  }

  lemma FinestReach(row: seq<real>, symmetric: bool, q: real, scale: real)
    requires |row| > 0 && q > 0.0 && scale >= 0.00001 && Reaches(Spread(row, symmetric), q, scale)
    ensures Finest(row, symmetric, q, scale)
  {
    SpreadCovers(row, symmetric, q * scale);
    forall s | s >= 0.00001 && Covers(row, symmetric, q, s) ensures scale <= s {
      SpreadCovers(row, symmetric, q * s);
      Least(Spread(row, symmetric), q, scale, s);
    }
  }

  lemma Least(spread: real, q: real, scale: real, s: real)
    requires q > 0.0 && Reaches(spread, q, scale) && spread <= q * s && s >= 0.00001
    ensures scale <= s
  {
    assert s < scale ==> q * (scale - s) > 0.0;
  }

  /** A symmetric row fills its range on one side: unless the scale is 1e-5, some value of the row is
      stored as the largest number or as its negation, and no value as a larger one. */
  lemma SymmetricFills(row: seq<real>, bits: nat, u: Undefined)
    requires |row| > 0 && 2 <= bits <= 8
    ensures var out, qmax := QuantizeRow(row, true, bits, u), QMax(true, bits);
            && |out.quantized| == |row|
            && (forall i :: 0 <= i < |row| ==> -qmax <= out.quantized[i] <= qmax)
            && (out.scale != 0.00001 ==>
                  exists i :: 0 <= i < |row| && (out.quantized[i] == qmax || out.quantized[i] == -qmax))
  {
    var out, qmax, g := QuantizeRow(row, true, bits, u), QMax(true, bits), StoredGrid(row, true, bits, u);
    WidthOf(bits);
    forall i | 0 <= i < |row| ensures -qmax <= out.quantized[i] <= qmax {
      SymmetricWithin(row, bits, i, g);
    }
    if out.scale != 0.00001 {
      var i := SymmetricEnd(row, bits, g);
      assert out.quantized[i] == Quantize(row[i], g);
    }
  }

  lemma SymmetricEnd(row: seq<real>, bits: nat, g: Grid) returns (i: nat)
    requires |row| > 0 && bits >= 2 && g == GridOf(row, true, bits) && g.scale != 0.00001
    ensures i < |row| && (Quantize(row[i], g) == g.qmax || Quantize(row[i], g) == -g.qmax)
  {
    ScaleReaches(row, true, bits);
    Pow2Odd(bits - 1);
    i := SymmetricEndOf(row, g);
  }

  lemma SymmetricEndOf(row: seq<real>, g: Grid) returns (i: nat)
    requires |row| > 0 && g.scale != 0.00001 && Reaches(Spread(row, true), g.qmax as real, g.scale)
    requires g.scale > 0.0 && g.zero == 0 && g.qmin < -g.qmax <= g.qmax
    ensures i < |row| && (Quantize(row[i], g) == g.qmax || Quantize(row[i], g) == -g.qmax)
  {
    var j;
    i, j := SpreadTouches(row, true);
    EndIsStored(row[i], g);
  }

  lemma SymmetricWithin(row: seq<real>, bits: nat, i: nat, g: Grid)
    requires i < |row| && bits >= 2 && g == GridOf(row, true, bits)
    ensures -g.qmax <= Quantize(row[i], g) <= g.qmax
  {
    ShiftedRange(row[i], row, true, bits);
    RoundInteger(g.qmax);
    RoundInteger(-g.qmax);
    RoundMonotone(-g.qmax as real, Shifted(row[i], g));
    RoundMonotone(Shifted(row[i], g), g.qmax as real);
  }

  lemma EndIsStored(x: real, g: Grid)
    requires g.scale > 0.0 && g.zero == 0 && g.qmin < -g.qmax <= g.qmax
    requires x == g.qmax as real * g.scale || x == -(g.qmax as real * g.scale)
    ensures Quantize(x, g) == g.qmax || Quantize(x, g) == -g.qmax
  {
    var n := if x == g.qmax as real * g.scale then g.qmax else -g.qmax;
    assert x == n as real * g.scale;
    WholeSteps(n as real, g.scale);
    RoundInteger(n);
    assert Shifted(x, g) == n as real;
  }

  lemma WholeSteps(n: real, s: real)
    requires s > 0.0
    ensures n * s / s == n
  {
  }

  /** An asymmetric row fills its range on both sides: its smallest value is stored as 0 and, unless the
      scale is 1e-5, its largest as one of the two largest numbers. */
  lemma AsymmetricFills(row: seq<real>, bits: nat, u: Undefined, i: nat)
    requires i < |row| && 2 <= bits <= 8 && ZeroFits(row, false, bits)
    ensures var out := QuantizeRow(row, false, bits, u);
            && |out.quantized| == |row|
            && ((forall j :: 0 <= j < |row| ==> row[i] <= row[j]) ==> out.quantized[i] == 0)
            && (out.scale != 0.00001 && (forall j :: 0 <= j < |row| ==> row[j] <= row[i]) ==>
                  QMax(false, bits) - 1 <= out.quantized[i] <= QMax(false, bits))
  {
    var out, g, lo := QuantizeRow(row, false, bits, u), StoredGrid(row, false, bits, u), RowMin(row);
    WidthOf(bits);
    Pow2Odd(bits - 1);
    var steps, qmax := lo / g.scale, g.qmax as real;
    assert g.zero == -Round(steps) && -0.5 <= steps + g.zero as real <= 0.5;
    var q := Quantize(row[i], g);
    assert 0 <= q <= g.qmax ==> out.quantized[i] == q;
    if row[i] == lo {
      RoundIff(Shifted(lo, g), 0);
    }
    if g.scale != 0.00001 && row[i] == RowMax(row) {
      ScaleReaches(row, false, bits);
      ApartBy(lo, row[i], qmax, g.scale);
      assert row[i] / g.scale == steps + qmax;
      var n := Round(Shifted(row[i], g));
      assert g.qmax - 1 <= n;
    }
  }

  lemma ApartBy(lo: real, hi: real, q: real, s: real)
    requires s > 0.0 && s != 0.00001 && Reaches(hi - lo, q, s)
    ensures hi / s == lo / s + q
  {
    WholeSteps(q, s);
    DivideDifference(hi, lo, s);
  }
}
