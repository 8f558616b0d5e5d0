/**
 * The PES abstraction's default derivatives: the shape check on a coordinate
 * array, central-difference gradients from energies, and the lower triangle of
 * the Hessian from those gradients.
 *
 * The caller's (N, 3) coordinate array is one flat `array<real>` of 3N entries
 * in row-major order, so atom i's component j is entry 3i + j. The reshape views
 * that `calc_force_constants` works through, (3N, 1) and back to (N, 3), share
 * that memory, so both are this same array: a write through either view is a
 * write to the caller's coordinates. `calc_energy` is the parameter `energy`,
 * applied to the current flattened coordinates.
 */
module BasePes {
  import opened PyText

  /** Bohr per Ångström. */
  const Ang2Bohr: real := 1.8897259886

  /** The default finite-difference step, in Ångström. */
  const DefaultDeltaX: real := 0.01

  // ------------------------------------------------------------------ _check_coords

  /** All rows have one length, so `np.array(rows)` is an ordinary 2-d array. */
  predicate Rectangular<T>(rows: seq<seq<T>>)
  {
    forall i, j :: 0 <= i < |rows| && 0 <= j < |rows| ==> |rows[i]| == |rows[j]|
  }

  /** The `shape` of `np.array(rows)`: (0,) for no rows, (n, k) for n rows of k. */
  function ArrayShape<T>(rows: seq<seq<T>>): seq<int>
    requires Rectangular(rows)
  {
    if rows == [] then [0] else [|rows|, |rows[0]|]
  }

  datatype Outcome = Pass | Fail(error: PyError)

  /** `BasePES._check_coords`: ValueError unless the shape is (num_atoms, 3). */
  function CheckCoords(numAtoms: int, shape: seq<int>): (r: Outcome)
    ensures r.Fail? ==> r.error == ValueError
  {
    if shape != [numAtoms, 3] then Fail(ValueError) else Pass
  }

  /** On an array built from rows, the check passes exactly when there are
      `numAtoms` rows, at least one, of three coordinates each. An empty array has
      shape (0,) and fails even for `numAtoms == 0`. */
  lemma CheckCoordsOfRows<T>(numAtoms: int, rows: seq<seq<T>>)
    requires Rectangular(rows)
    ensures CheckCoords(numAtoms, ArrayShape(rows)).Pass? <==> numAtoms >= 1 && |rows| == numAtoms && Width3(rows)
  {
    if rows != [] && |rows| == numAtoms && |rows[0]| == 3 {
      assert Width3(rows) by {
        forall i | 0 <= i < |rows| ensures |rows[i]| == 3 {
          assert |rows[i]| == |rows[0]|;
        }
      }
    }
  }

  // ------------------------------------------------------------------ calc_gradients

  /** `x` with coordinate `k` moved by `d`, every other coordinate as it was. */
  function Displace(x: seq<real>, k: nat, d: real): (y: seq<real>)
    requires k < |x|
    ensures |y| == |x| && y[k] == x[k] + d
    ensures forall m :: 0 <= m < |x| && m != k ==> y[m] == x[m]
  {
    x[k := x[k] + d]
  }

  /** The central difference of `energy` along coordinate `k`, per Bohr. */
  function FdComponent(energy: seq<real> -> real, x: seq<real>, k: nat, delta: real): real
    requires k < |x| && delta != 0.0
  {
    Central(energy(Displace(x, k, delta)), energy(Displace(x, k, -delta)), delta)
  }

  /** A central difference of two values `2 delta` apart, per Bohr. */
  function Central(plus: real, minus: real, delta: real): real
    requires delta != 0.0
  {
    (plus - minus) / (2.0 * delta * Ang2Bohr)
  }

  /** The finite-difference gradient: one central difference per coordinate. */
  function FdGradient(energy: seq<real> -> real, x: seq<real>, delta: real): (g: seq<real>)
    requires delta != 0.0
    ensures |g| == |x|
    ensures forall k :: 0 <= k < |x| ==> g[k] == FdComponent(energy, x, k, delta)
  {
    seq(|x|, k requires 0 <= k < |x| => FdComponent(energy, x, k, delta))
  }

  /** One `calc_energy` call of the differencing: on the coordinates with
      coordinate `coord` moved by `shift`. */
  datatype Step = Step(coord: nat, shift: real)

  /** The `calc_energy` calls made while differencing the first `k` coordinates, in
      call order: +delta, then -delta, coordinate by coordinate. */
  function GradientCalls(delta: real, k: nat): (calls: seq<Step>)
    ensures |calls| == 2 * k
  {
    if k == 0 then []
    else GradientCalls(delta, k - 1) + [Step(k - 1, delta), Step(k - 1, -delta)]
  }

  /** Call m displaces coordinate m / 2: by +delta when m is even, by -delta when m
      is odd; so the first 2k calls visit coordinates 0 .. k - 1 in order. */
  lemma {:induction false} GradientCallsAt(delta: real, k: nat, m: nat)
    requires m < 2 * k
    ensures GradientCalls(delta, k)[m] == Step(m / 2, if m % 2 == 0 then delta else -delta)
  {
    if m < 2 * (k - 1) {
      GradientCallsAt(delta, k - 1, m);
    }
  }

  /** A displacement by a nonzero step changes exactly one coordinate. */
  lemma OneCoordinateDisplaced(x: seq<real>, k: nat, d: real)
    requires k < |x| && d != 0.0
    ensures forall c :: 0 <= c < |x| ==> (Displace(x, k, d)[c] != x[c] <==> c == k)
  {
  }

  /** The coordinates `calc_energy` is handed while differencing the first `k`
      coordinates of `x`, call by call. */
  function GradientGeometries(x: seq<real>, delta: real, k: nat): (gs: seq<seq<real>>)
    requires k <= |x|
    ensures |gs| == 2 * k
  {
    if k == 0 then []
    else GradientGeometries(x, delta, k - 1) + [Displace(x, k - 1, delta), Displace(x, k - 1, -delta)]
  }

  /** Call m is handed `x` with the coordinate of step m of GradientCalls moved by
      that step's shift: the geometries follow the call order. */
  lemma {:induction false} GeometriesFollowCalls(x: seq<real>, delta: real, k: nat, m: nat)
    requires k <= |x| && m < 2 * k
    ensures GradientCalls(delta, k)[m].coord < |x|
    ensures GradientGeometries(x, delta, k)[m]
         == Displace(x, GradientCalls(delta, k)[m].coord, GradientCalls(delta, k)[m].shift)
  {
    if m < 2 * (k - 1) {
      GeometriesFollowCalls(x, delta, k - 1, m);
    }
  }

  /** Energy call m of `calc_gradients` sees exactly coordinate m / 2 away from
      its original value: moved by +delta when m is even, by -delta when m is odd. */
  lemma CallSeesOneDisplacement(x: seq<real>, delta: real, m: nat)
    requires delta != 0.0 && m < 2 * |x|
    ensures var g := GradientGeometries(x, delta, |x|)[m];
      && |g| == |x|
      && g[m / 2] == x[m / 2] + (if m % 2 == 0 then delta else -delta)
      && forall c :: 0 <= c < |x| ==> (g[c] != x[c] <==> c == m / 2)
  {
    GradientCallsAt(delta, |x|, m);
    GeometriesFollowCalls(x, delta, |x|, m);
    OneCoordinateDisplaced(x, m / 2, if m % 2 == 0 then delta else -delta);
  }

  /** The two energies of one central difference: coordinate k moved in place by
      +delta, then by -2 delta, then back by +delta.
      The ghost `seen` records, call by call, the coordinates each `calc_energy`
      call is handed. */
  method DisplacedEnergies(energy: seq<real> -> real, coords: array<real>, k: nat, delta: real)
    returns (energy1: real, energy2: real, ghost seen: seq<seq<real>>)
    requires k < coords.Length
    modifies coords
    ensures coords[..] == old(coords[..])
    ensures energy1 == energy(Displace(old(coords[..]), k, delta))
    ensures energy2 == energy(Displace(old(coords[..]), k, -delta))
    ensures seen == [Displace(old(coords[..]), k, delta), Displace(old(coords[..]), k, -delta)]
  {
    ghost var x := coords[..];
    coords[k] := coords[k] + delta;
    assert coords[..] == Displace(x, k, delta);
    energy1 := energy(coords[..]);
    seen := [coords[..]];
    coords[k] := coords[k] - 2.0 * delta;
    assert coords[..] == Displace(x, k, -delta);
    energy2 := energy(coords[..]);
    seen := seen + [coords[..]];
    coords[k] := coords[k] + delta;
    assert coords[..] == x;
  }

  /** `BasePES.calc_gradients`: displaces every coordinate in place by +delta,
      then -2 delta, then +delta, and returns a new array of central differences.
      Over exact arithmetic the caller's coordinates come back unchanged. The
      ghost `seen` records the coordinates of every `calc_energy` call, in call
      order. */
  method CalcGradients(energy: seq<real> -> real, coords: array<real>, delta: real := DefaultDeltaX)
    returns (gradients: array<real>, ghost seen: seq<seq<real>>)
    requires coords.Length % 3 == 0 && delta != 0.0
    modifies coords
    ensures fresh(gradients) && gradients.Length == coords.Length
    ensures coords[..] == old(coords[..])
    ensures gradients[..] == FdGradient(energy, old(coords[..]), delta)
    ensures seen == GradientGeometries(old(coords[..]), delta, coords.Length)
  {
    ghost var x := coords[..];
    var numAtoms := coords.Length / 3;
    assert 3 * numAtoms == coords.Length;
    gradients := new real[coords.Length](_ => 0.0);
    seen := [];
    for i := 0 to numAtoms
      invariant 3 * i <= coords.Length
      invariant coords[..] == x
      invariant forall k :: 0 <= k < 3 * i ==> gradients[k] == FdComponent(energy, x, k, delta)
      invariant seen == GradientGeometries(x, delta, 3 * i)
    {
      for j := 0 to 3
        invariant coords[..] == x
        invariant forall k :: 0 <= k < 3 * i + j ==> gradients[k] == FdComponent(energy, x, k, delta)
        invariant seen == GradientGeometries(x, delta, 3 * i + j)
      {
        var k := 3 * i + j;
        assert k < coords.Length;
        ghost var pair: seq<seq<real>>;
        var energy1, energy2;
        energy1, energy2, pair := DisplacedEnergies(energy, coords, k, delta);
        seen := seen + pair;
        gradients[k] := Central(energy1, energy2, delta);
      }
    }
  }

  // ------------------------------------------------------------------ calc_force_constants

  /** The number of pairs (i, j) with j <= i < n. */
  function Tri(n: nat): nat
  {
    if n == 0 then 0 else Tri(n - 1) + n
  }

  /** Tri(n) = n (n + 1) / 2, so 3N coordinates give 3N (3N + 1) / 2 force constants. */
  lemma {:induction false} TriClosedForm(n: nat)
    ensures 2 * Tri(n) == n * (n + 1)
  {
    if n > 0 {
      TriClosedForm(n - 1);
    }
  }

  lemma {:induction false} TriMonotone(i: nat, n: nat)
    requires i <= n
    ensures Tri(i) <= Tri(n)
  {
    if i < n {
      TriMonotone(i, n - 1);
    }
  }

  /** Distinct pairs (i, j <= i) sit at distinct positions Tri(i) + j. */
  lemma TriIndexInjective(i: nat, j: nat, i': nat, j': nat)
    requires j <= i && j' <= i' && Tri(i) + j == Tri(i') + j'
    ensures i == i' && j == j'
  {
    if i < i' {
      TriMonotone(i + 1, i');
      assert false;
    } else if i' < i {
      TriMonotone(i' + 1, i);
      assert false;
    }
  }

  /** Every position below Tri(n) belongs to a pair (i, j <= i < n). */
  lemma {:induction false} TriIndexOnto(n: nat, p: nat) returns (i: nat, j: nat)
    requires p < Tri(n)
    ensures j <= i < n && Tri(i) + j == p
  {
    if p < Tri(n - 1) {
      i, j := TriIndexOnto(n - 1, p);
    } else {
      i, j := n - 1, p - Tri(n - 1);
    }
  }

  /** Hessian entry (i, j): the central difference of gradient component j along
      coordinate i. */
  function FcEntry(energy: seq<real> -> real, x: seq<real>, delta: real, i: nat, j: nat): real
    requires i < |x| && j < |x| && delta != 0.0
  {
    Central(FdGradient(energy, Displace(x, i, delta), delta)[j], FdGradient(energy, Displace(x, i, -delta), delta)[j], delta)
  }

  /** Row i of the lower triangle: the entries (i, 0) .. (i, i). */
  function FcRow(energy: seq<real> -> real, x: seq<real>, delta: real, i: nat): (row: seq<real>)
    requires i < |x| && delta != 0.0
    ensures |row| == i + 1
  {
    seq(i + 1, j requires 0 <= j <= i => FcEntry(energy, x, delta, i, j))
  }

  /** The lower triangle of rows 0 .. n - 1, row after row. */
  function FcRows(energy: seq<real> -> real, x: seq<real>, delta: real, n: nat): (fc: seq<real>)
    requires n <= |x| && delta != 0.0
    ensures |fc| == Tri(n)
  {
    if n == 0 then [] else FcRows(energy, x, delta, n - 1) + FcRow(energy, x, delta, n - 1)
  }

  /** Entry (i, j <= i) of the lower triangle sits at position i (i + 1) / 2 + j. */
  lemma {:induction false} FcRowsAt(energy: seq<real> -> real, x: seq<real>, delta: real, n: nat, i: nat, j: nat)
    requires n <= |x| && delta != 0.0 && j <= i < n
    ensures Tri(i) + j < Tri(n)
    ensures FcRows(energy, x, delta, n)[Tri(i) + j] == FcEntry(energy, x, delta, i, j)
  {
    if i < n - 1 {
      FcRowsAt(energy, x, delta, n - 1, i, j);
    }
  }

  /** `_calc_gradient_component`: component k of the gradients computed through
      an (N, 3) view of the coordinates. */
  method CalcGradientComponent(energy: seq<real> -> real, coords: array<real>, k: nat, delta: real) returns (g: real)
    requires coords.Length % 3 == 0 && k < coords.Length && delta != 0.0
    modifies coords
    ensures coords[..] == old(coords[..])
    ensures g == FdComponent(energy, old(coords[..]), k, delta)
  {
    var gradients: array<real>;
    ghost var seen: seq<seq<real>>;
    gradients, seen := CalcGradients(energy, coords, delta);
    g := gradients[k];
  }

  /** `BasePES.calc_force_constants`: walks the flattened coordinates in
      lower-triangle order (i, j <= i), displacing coordinate i in place through
      the view by +delta, -delta, -delta, +delta around two gradient evaluations.
      Returns Tri(3N) values; over exact arithmetic the caller's coordinates come
      back unchanged. */
  method CalcForceConstants(energy: seq<real> -> real, coords: array<real>, delta: real := DefaultDeltaX)
    returns (forceConstants: seq<real>)
    requires coords.Length % 3 == 0 && delta != 0.0
    modifies coords
    ensures coords[..] == old(coords[..])
    ensures forceConstants == FcRows(energy, old(coords[..]), delta, coords.Length)
  {
    ghost var x := coords[..];
    forceConstants := [];
    for i := 0 to coords.Length
      invariant coords[..] == x
      invariant forceConstants == FcRows(energy, x, delta, i)
    {
      for j := 0 to i + 1
        invariant coords[..] == x
        invariant forceConstants == FcRows(energy, x, delta, i) + FcRow(energy, x, delta, i)[..j]
      {
        // forward
        coords[i] := coords[i] + delta;
        assert coords[..] == Displace(x, i, delta);
        var g1 := CalcGradientComponent(energy, coords, j, delta);
        coords[i] := coords[i] - delta;
        assert coords[..] == x;
        // backward
        coords[i] := coords[i] - delta;
        assert coords[..] == Displace(x, i, -delta);
        var g2 := CalcGradientComponent(energy, coords, j, delta);
        coords[i] := coords[i] + delta;
        assert coords[..] == x;
        var res := Central(g1, g2, delta);
        assert FcRow(energy, x, delta, i)[..j + 1] == FcRow(energy, x, delta, i)[..j] + [res];
        forceConstants := forceConstants + [res];
      }
      assert FcRow(energy, x, delta, i)[..i + 1] == FcRow(energy, x, delta, i);
    }
  }

  /** `calc_force_constants` returns 3N (3N + 1) / 2 values for 3N coordinates. */
  lemma {:induction false} ForceConstantsCount(energy: seq<real> -> real, x: seq<real>, delta: real)
    requires delta != 0.0
    ensures 2 * |FcRows(energy, x, delta, |x|)| == |x| * (|x| + 1)
  {
    TriClosedForm(|x|);
  }
}
