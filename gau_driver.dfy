/**
 * The Gaussian `External` adapter: reading the input file Gaussian hands to the
 * external program, and laying out the output file Gaussian reads back.
 *
 * Files are their text: `files` maps a path to the contents of that file, and
 * opening a path it does not hold raises FileNotFoundError. The periodic table
 * and the Bohr-per-Ångström constant of `gau_pes.data` are parameters
 * (`table`, `ang2Bohr`), float parsing is `parseFloat` (None for a ValueError),
 * and the `%20.12E` and `%23.17e` formats are `fmt` parameters.
 */
module Gaussian {
  import opened PyText
  import BasePes

  /** Python's `range(n)` has max(n, 0) steps. */
  function Steps(n: int): nat
  {
    if n < 0 then 0 else n
  }

  // ------------------------------------------------------------------ the input file

  /** One atom line read back: its atomic number and its coordinates in Ångström. */
  datatype Atom = Atom(nuc: int, coord: seq<real>)

  /** What `__init__` keeps from the input file. */
  datatype GauJob = GauJob(natom: int, derivs: int, charge: int, multiplicity: int,
                           atomsNuc: seq<int>, coords: seq<seq<real>>)

  /** Every value divided by `ang2Bohr`: Bohr to Ångström. */
  function ToAngstrom(xs: seq<real>, ang2Bohr: real): (ys: seq<real>)
    requires ang2Bohr != 0.0
    ensures |ys| == |xs|
    ensures forall i :: 0 <= i < |xs| ==> ys[i] * ang2Bohr == xs[i]
  {
    seq(|xs|, i requires 0 <= i < |xs| => xs[i] / ang2Bohr)
  }

  /** The first line, `[int(x) for x in line.split()]` unpacked into four names:
      ValueError for a token that is no integer and for any other token count. */
  function HeaderInts(line: string): (r: Result<seq<int>>)
    ensures r.Ok? ==> |r.value| == 4
    ensures r.Err? ==> r.error == ValueError
  {
    match ParseAll(Fields(line), ParseInt)
    case None => Err(ValueError)
    case Some(v) => if |v| != 4 then Err(ValueError) else Ok(v)
  }

  /** One pass of the atom loop on `line`: `arr[0]` (IndexError on a blank or
      missing line), `int(arr[0])`, `PERIODIC_TABLE[nuc - 1]` (Python indexing, so
      nuc = 0 reads the last entry), then the floats of `arr[1:4]` divided by the
      constant. */
  function ParseAtom(line: string, table: seq<string>, parseFloat: string -> Option<real>, ang2Bohr: real): Result<Atom>
    requires ang2Bohr != 0.0
  {
    AtomOfFields(Fields(line), table, parseFloat, ang2Bohr)
  }

  /** The part of one pass that follows `arr = f.readline().split()`. */
  function AtomOfFields(arr: seq<string>, table: seq<string>, parseFloat: string -> Option<real>, ang2Bohr: real): Result<Atom>
    requires ang2Bohr != 0.0
  {
    if arr == [] then Err(IndexError)
    else match ParseInt(arr[0])
      case None => Err(ValueError)
      case Some(nuc) =>
        if PyIndex(table, nuc - 1).None? then Err(IndexError)
        else match ParseAll(arr[1..Min(4, |arr|)], parseFloat)
          case None => Err(ValueError)
          case Some(xs) => Ok(Atom(nuc, ToAngstrom(xs, ang2Bohr)))
  }

  /** What `readAtom` makes of each of the lines 1..n. */
  function Parsed(lines: seq<string>, n: nat, readAtom: string --> Result<Atom>): (rs: seq<Result<Atom>>)
    requires forall line :: readAtom.requires(line)
    ensures |rs| == n && forall k :: 0 <= k < n ==> rs[k] == readAtom(Line(lines, k + 1))
  {
    seq(n, k requires 0 <= k < n => readAtom(Line(lines, k + 1)))
  }

  /** What each pass of `for _ in range(natom)` would give: atom k on line k + 1. */
  function AtomResults(lines: seq<string>, n: nat, table: seq<string>, parseFloat: string -> Option<real>, ang2Bohr: real): (rs: seq<Result<Atom>>)
    requires ang2Bohr != 0.0
    ensures |rs| == n
    ensures forall k :: 0 <= k < n ==> rs[k] == ParseAtom(Line(lines, k + 1), table, parseFloat, ang2Bohr)
  {
    Parsed(lines, n, line requires ang2Bohr != 0.0 => ParseAtom(line, table, parseFloat, ang2Bohr))
  }

  function Nucs(atoms: seq<Atom>): (r: seq<int>)
    ensures |r| == |atoms| && forall k :: 0 <= k < |atoms| ==> r[k] == atoms[k].nuc
  {
    seq(|atoms|, k requires 0 <= k < |atoms| => atoms[k].nuc)
  }

  function Coords(atoms: seq<Atom>): (r: seq<seq<real>>)
    ensures |r| == |atoms| && forall k :: 0 <= k < |atoms| ==> r[k] == atoms[k].coord
  {
    seq(|atoms|, k requires 0 <= k < |atoms| => atoms[k].coord)
  }

  /** After the header `h`: `natom` atom lines, then `np.array(coords)`, which
      raises ValueError on ragged rows. */
  function ReadJob(lines: seq<string>, h: seq<int>, table: seq<string>, parseFloat: string -> Option<real>, ang2Bohr: real): Result<GauJob>
    requires ang2Bohr != 0.0 && |h| == 4
  {
    match FirstErr(AtomResults(lines, Steps(h[0]), table, parseFloat, ang2Bohr))
    case Err(e) => Err(e)
    case Ok(atoms) =>
      if !BasePes.Rectangular(Coords(atoms)) then Err(ValueError)
      else Ok(GauJob(h[0], h[1], h[2], h[3], Nucs(atoms), Coords(atoms)))
  }

  /** `GauDriver.__init__` on the text of the input file: the header line, then
      the rest. */
  function ParseGauInput(text: string, table: seq<string>, parseFloat: string -> Option<real>, ang2Bohr: real): Result<GauJob>
    requires ang2Bohr != 0.0
  {
    var lines := ReadLines(text);
    match HeaderInts(Line(lines, 0))
    case Err(e) => Err(e)
    case Ok(h) => ReadJob(lines, h, table, parseFloat, ang2Bohr)
  }

  /** `open(input_file)` then the parse. */
  function GauInput(inputFile: string, files: map<string, string>, table: seq<string>, parseFloat: string -> Option<real>, ang2Bohr: real): Result<GauJob>
    requires ang2Bohr != 0.0
  {
    if inputFile !in files then Err(FileNotFoundError)
    else ParseGauInput(files[inputFile], table, parseFloat, ang2Bohr)
  }

  // ------------------------------------------------------------------ properties of the read

  /** The first line is exactly four integers, kept in the order natom, derivs,
      charge, multiplicity; any other token count or a non-integer token is a
      ValueError. */
  lemma HeaderFourInts(text: string, table: seq<string>, parseFloat: string -> Option<real>, ang2Bohr: real)
    requires ang2Bohr != 0.0
    ensures var toks := ParseAll(Fields(Line(ReadLines(text), 0)), ParseInt);
      (toks.None? || |toks.value| != 4) ==> ParseGauInput(text, table, parseFloat, ang2Bohr) == Err(ValueError)
    ensures var r := ParseGauInput(text, table, parseFloat, ang2Bohr);
      r.Ok? ==> ParseAll(Fields(Line(ReadLines(text), 0)), ParseInt) == Some([r.value.natom, r.value.derivs, r.value.charge, r.value.multiplicity])
  {
    var lines := ReadLines(text);
    var h := HeaderInts(Line(lines, 0));
    if h.Ok? {
      assert h.value == [h.value[0], h.value[1], h.value[2], h.value[3]];
    }
  }

  /** A successful read has max(natom, 0) atoms, in input order: atom k is what
      line k + 1 reads as (see AtomOfFieldsOk for what that is). */
  lemma AtomsInOrder(text: string, table: seq<string>, parseFloat: string -> Option<real>, ang2Bohr: real)
    requires ang2Bohr != 0.0
    ensures var r := ParseGauInput(text, table, parseFloat, ang2Bohr);
      r.Ok? ==>
        && |r.value.atomsNuc| == Steps(r.value.natom) && |r.value.coords| == Steps(r.value.natom)
        && BasePes.Rectangular(r.value.coords)
        && forall k :: 0 <= k < Steps(r.value.natom) ==>
             ParseAtom(Line(ReadLines(text), k + 1), table, parseFloat, ang2Bohr) == Ok(Atom(r.value.atomsNuc[k], r.value.coords[k]))
  {
    var lines := ReadLines(text);
    var h := HeaderInts(Line(lines, 0));
    if h.Ok? {
      assert ParseGauInput(text, table, parseFloat, ang2Bohr) == ReadJob(lines, h.value, table, parseFloat, ang2Bohr);
      AtomLines(lines, h.value, table, parseFloat, ang2Bohr);
    }
  }

  lemma AtomLines(lines: seq<string>, h: seq<int>, table: seq<string>, parseFloat: string -> Option<real>, ang2Bohr: real)
    requires ang2Bohr != 0.0 && |h| == 4
    ensures var r := ReadJob(lines, h, table, parseFloat, ang2Bohr);
      r.Ok? ==>
        && r.value.natom == h[0]
        && |r.value.atomsNuc| == Steps(h[0]) && |r.value.coords| == Steps(h[0])
        && BasePes.Rectangular(r.value.coords)
        && forall k :: 0 <= k < Steps(h[0]) ==>
             ParseAtom(Line(lines, k + 1), table, parseFloat, ang2Bohr) == Ok(Atom(r.value.atomsNuc[k], r.value.coords[k]))
  {
    var r := ReadJob(lines, h, table, parseFloat, ang2Bohr);
    if r.Ok? {
      var n := Steps(h[0]);
      var rs := AtomResults(lines, n, table, parseFloat, ang2Bohr);
      var atoms := FirstErr(rs).value;
      assert r.value.atomsNuc == Nucs(atoms) && r.value.coords == Coords(atoms);
      forall k | 0 <= k < n
        ensures ParseAtom(Line(lines, k + 1), table, parseFloat, ang2Bohr) == Ok(Atom(atoms[k].nuc, atoms[k].coord))
      {
        assert rs[k] == Ok(atoms[k]);
      }
    }
  }

  /** What a pass that does not raise has read from the fields of its line. */
  lemma AtomOfFieldsOk(arr: seq<string>, table: seq<string>, parseFloat: string -> Option<real>, ang2Bohr: real)
    requires ang2Bohr != 0.0
    requires AtomOfFields(arr, table, parseFloat, ang2Bohr).Ok?
    ensures var atom := AtomOfFields(arr, table, parseFloat, ang2Bohr).value;
      && |arr| >= 1 && ParseInt(arr[0]) == Some(atom.nuc)
      && PyIndex(table, atom.nuc - 1).Some?
      && ParseAll(arr[1..Min(4, |arr|)], parseFloat).Some?
      && atom.coord == ToAngstrom(ParseAll(arr[1..Min(4, |arr|)], parseFloat).value, ang2Bohr)
  {
  }

  /** When the file holds fewer atom lines than the header announces, the read
      reaches a missing line, whose `split()` is empty, and fails. */
  lemma MissingAtomLineFails(text: string, table: seq<string>, parseFloat: string -> Option<real>, ang2Bohr: real)
    requires ang2Bohr != 0.0
    requires HeaderInts(Line(ReadLines(text), 0)).Ok?
    requires |ReadLines(text)| <= Steps(HeaderInts(Line(ReadLines(text), 0)).value[0])
    ensures ParseGauInput(text, table, parseFloat, ang2Bohr).Err?
  {
    var lines := ReadLines(text);
    var n := Steps(HeaderInts(Line(lines, 0)).value[0]);
    var rs := AtomResults(lines, n, table, parseFloat, ang2Bohr);
    assert Line(lines, n) == "";
    assert Fields(Line(lines, n)) == [];
    assert rs[n - 1] == Err(IndexError);
  }

  /** An atom line written as its atomic number and blank-separated tokens, the
      first three of which are floats, reads back to that number and those floats
      divided by the constant; a fifth token is ignored. */
  lemma AtomLineOfTokens(nuc: int, toks: seq<string>, xs: seq<real>, table: seq<string>, parseFloat: string -> Option<real>, ang2Bohr: real)
    requires ang2Bohr != 0.0
    requires |toks| >= 3 && forall k :: 0 <= k < |toks| ==> toks[k] != [] && NoSpace(toks[k])
    requires |xs| == 3 && forall c :: 0 <= c < 3 ==> parseFloat(toks[c]) == Some(xs[c])
    requires -|table| <= nuc - 1 < |table|
    ensures ParseAtom(Join([IntToString(nuc)] + toks, ' '), table, parseFloat, ang2Bohr) == Ok(Atom(nuc, ToAngstrom(xs, ang2Bohr)))
  {
    var words := [IntToString(nuc)] + toks;
    FieldsOfJoin(words);
    AtomOfWords(nuc, toks, xs, table, parseFloat, ang2Bohr);
  }

  lemma AtomOfWords(nuc: int, toks: seq<string>, xs: seq<real>, table: seq<string>, parseFloat: string -> Option<real>, ang2Bohr: real)
    requires ang2Bohr != 0.0
    requires |toks| >= 3 && |xs| == 3 && forall c :: 0 <= c < 3 ==> parseFloat(toks[c]) == Some(xs[c])
    requires -|table| <= nuc - 1 < |table|
    ensures AtomOfFields([IntToString(nuc)] + toks, table, parseFloat, ang2Bohr) == Ok(Atom(nuc, ToAngstrom(xs, ang2Bohr)))
  {
    var arr := [IntToString(nuc)] + toks;
    ParseIntOfIntToString(nuc);
    assert arr[1..Min(4, |arr|)] == toks[..3];
    ParseAllOf(toks[..3], xs, parseFloat);
  }

  /** The read coordinates pass `_check_coords(natom, coords)` exactly when natom
      >= 1 and every atom line gave three coordinates; with natom <= 0 the array
      is empty, of shape (0,), and the check fails. */
  lemma ReadCoordsCheck(text: string, table: seq<string>, parseFloat: string -> Option<real>, ang2Bohr: real)
    requires ang2Bohr != 0.0
    requires ParseGauInput(text, table, parseFloat, ang2Bohr).Ok?
    ensures var job := ParseGauInput(text, table, parseFloat, ang2Bohr).value;
      BasePes.CheckCoords(job.natom, BasePes.ArrayShape(job.coords)).Pass? <==> job.natom >= 1 && Width3(job.coords)
  {
    var job := ParseGauInput(text, table, parseFloat, ang2Bohr).value;
    AtomsInOrder(text, table, parseFloat, ang2Bohr);
    BasePes.CheckCoordsOfRows(job.natom, job.coords);
  }

  /** A line that reads gives min(3, t - 1) coordinates for its t fields, so the
      row has three exactly when the line has at least four fields. */
  lemma AtomCoordCount(line: string, table: seq<string>, parseFloat: string -> Option<real>, ang2Bohr: real)
    requires ang2Bohr != 0.0
    requires ParseAtom(line, table, parseFloat, ang2Bohr).Ok?
    ensures |ParseAtom(line, table, parseFloat, ang2Bohr).value.coord| == Min(3, |Fields(line)| - 1)
  {
    AtomOfFieldsOk(Fields(line), table, parseFloat, ang2Bohr);
  }

  // ------------------------------------------------------------------ the output file

  /** A formatter whose every output has width `w`. */
  ghost predicate FixedWidth(fmt: real -> string, w: nat)
  {
    forall v :: |fmt(v)| == w
  }

  /** One output line: every value of the row formatted, the fields side by side with nothing between them. */
  function RenderRow(fmt: real -> string, row: seq<real>): string
  {
    if row == [] then "" else fmt(row[0]) + RenderRow(fmt, row[1..])
  }

  /** Every row rendered, one line each. */
  function Render(fmt: real -> string, rows: seq<seq<real>>): (lines: seq<string>)
    ensures |lines| == |rows|
    ensures forall p :: 0 <= p < |rows| ==> lines[p] == RenderRow(fmt, rows[p])
  {
    if rows == [] then [] else Render(fmt, rows[..|rows| - 1]) + [RenderRow(fmt, rows[|rows| - 1])]
  }

  lemma RenderSnoc(fmt: real -> string, rows: seq<seq<real>>, row: seq<real>)
    ensures Render(fmt, rows + [row]) == Render(fmt, rows) + [RenderRow(fmt, row)]
  {
    assert (rows + [row])[..|rows|] == rows;
  }

  lemma RenderStep(fmt: real -> string, rows: seq<seq<real>>, block: seq<seq<real>>, k: nat)
    requires k < |block|
    ensures Render(fmt, rows + block[..k + 1]) == Render(fmt, rows + block[..k]) + [RenderRow(fmt, block[k])]
  {
    assert rows + block[..k + 1] == rows + block[..k] + [block[k]];
    RenderSnoc(fmt, rows + block[..k], block[k]);
  }

  /** One `contents.append(line)` per row of `block`, in order, after the lines
      already rendered for `rows`. */
  method AppendRendered(contents: seq<string>, ghost rows: seq<seq<real>>, block: seq<seq<real>>, fmt: real -> string)
    returns (out: seq<string>)
    requires contents == Render(fmt, rows)
    ensures out == Render(fmt, rows + block)
  {
    out := contents;
    for k := 0 to |block|
      invariant out == Render(fmt, rows + block[..k])
    {
      RenderStep(fmt, rows, block, k);
      out := out + [RenderRow(fmt, block[k])];
    }
    assert block[..|block|] == block;
  }

  /** The second-derivative part of `write`: two zero lines for the polarizability,
      3 * natom for the dipole derivatives, then the force constants three to a
      line, which raise AttributeError when absent and ValueError when their
      number is no multiple of 3. */
  method AppendHessian(contents: seq<string>, ghost rows: seq<seq<real>>, natom: int,
                       forceConstants: Option<seq<real>>, fmt: real -> string)
    returns (r: Result<seq<string>>)
    requires contents == Render(fmt, rows)
    ensures forceConstants.None? ==> r == Err(AttributeError)
    ensures forceConstants.Some? && |forceConstants.value| % 3 != 0 ==> r == Err(ValueError)
    ensures forceConstants.Some? && |forceConstants.value| % 3 == 0 ==>
      r == Ok(Render(fmt, rows + Zeros(2 + Steps(3 * natom)) + Chunks3(forceConstants.value)))
  {
    var out := AppendRendered(contents, rows, Zeros(2), fmt);
    out := AppendRendered(out, rows + Zeros(2), Zeros(Steps(3 * natom)), fmt);
    assert rows + Zeros(2) + Zeros(Steps(3 * natom)) == rows + Zeros(2 + Steps(3 * natom));
    if forceConstants.None? {
      return Err(AttributeError);
    }
    if |forceConstants.value| % 3 != 0 {
      return Err(ValueError);
    }
    out := AppendRendered(out, rows + Zeros(2 + Steps(3 * natom)), Chunks3(forceConstants.value), fmt);
    return Ok(out);
  }

  /** `n` all-zero lines of three fields. */
  function Zeros(n: nat): (rows: seq<seq<real>>)
    ensures |rows| == n && forall p :: 0 <= p < n ==> rows[p] == [0.0, 0.0, 0.0]
  {
    seq(n, _ => [0.0, 0.0, 0.0])
  }

  /** `fc.reshape((-1, 3))`: consecutive triples. */
  function Chunks3(fc: seq<real>): (rows: seq<seq<real>>)
    requires |fc| % 3 == 0
    ensures |rows| == |fc| / 3 && forall m :: 0 <= m < |fc| / 3 ==> rows[m] == fc[3 * m..3 * m + 3]
  {
    seq(|fc| / 3, m requires 0 <= m < |fc| / 3 => fc[3 * m..3 * m + 3])
  }

  /** The rows of numbers `GauDriver.write` prints, or the exception it raises
      before writing: iterating a None `gradients` is a TypeError, `None.reshape`
      an AttributeError, and reshaping a size that is no multiple of 3 a ValueError. */
  function OutputRows(derivs: int, natom: int, energy: real, gradients: Option<seq<seq<real>>>,
                      forceConstants: Option<seq<real>>): Result<seq<seq<real>>>
  {
    var head := [[energy, 0.0, 0.0, 0.0]];
    if (derivs == 1 || derivs == 2) && gradients.None? then Err(TypeError)
    else
      var grads := if derivs == 1 || derivs == 2 then gradients.value else [];
      if derivs != 2 then Ok(head + grads)
      else if forceConstants.None? then Err(AttributeError)
      else if |forceConstants.value| % 3 != 0 then Err(ValueError)
      else Ok(head + grads + Zeros(2 + Steps(3 * natom)) + Chunks3(forceConstants.value))
  }

  /** The text `GauDriver.write` puts in the output file: the rendered rows joined by "\n". */
  function OutputText(derivs: int, natom: int, energy: real, gradients: Option<seq<seq<real>>>,
                      forceConstants: Option<seq<real>>, fmt: real -> string): Result<string>
  {
    match OutputRows(derivs, natom, energy, gradients, forceConstants)
    case Err(e) => Err(e)
    case Ok(rows) => Ok(Join(Render(fmt, rows), '\n'))
  }

  /** `write` fails exactly when: derivs is 1 or 2 and there are no gradients
      (TypeError); derivs is 2, gradients given, but no force constants
      (AttributeError) or a number of them that is no multiple of 3 (ValueError). */
  lemma OutputErrors(derivs: int, natom: int, energy: real, gradients: Option<seq<seq<real>>>, forceConstants: Option<seq<real>>)
    ensures var r := OutputRows(derivs, natom, energy, gradients, forceConstants);
      && (r == Err(TypeError) <==> (derivs == 1 || derivs == 2) && gradients.None?)
      && (r == Err(AttributeError) <==> derivs == 2 && gradients.Some? && forceConstants.None?)
      && (r == Err(ValueError) <==> derivs == 2 && gradients.Some? && forceConstants.Some? && |forceConstants.value| % 3 != 0)
      && (r.Ok? <==> !(derivs == 1 || derivs == 2) || (gradients.Some? && (derivs == 1 || (forceConstants.Some? && |forceConstants.value| % 3 == 0))))
  {
  }

  /** The line structure of the output: the energy line first; for derivs 1 and 2
      one line per gradient row, in order; for derivs 2 then 2 + 3 max(natom, 0) zero lines
      and the force constants three per line, in order. Any other derivs gives the
      energy line alone. */
  lemma OutputLayout(derivs: int, natom: int, energy: real, gradients: Option<seq<seq<real>>>, forceConstants: Option<seq<real>>)
    requires OutputRows(derivs, natom, energy, gradients, forceConstants).Ok?
    ensures var rows := OutputRows(derivs, natom, energy, gradients, forceConstants).value;
      && rows[0] == [energy, 0.0, 0.0, 0.0]
      && (derivs != 1 && derivs != 2 ==> |rows| == 1)
      && (derivs == 1 ==> |rows| == 1 + |gradients.value|)
      && (derivs == 1 || derivs == 2 ==> |rows| >= 1 + |gradients.value| && rows[1..1 + |gradients.value|] == gradients.value)
      && (derivs == 2 ==>
            var g := |gradients.value|;
            var z := 2 + 3 * Steps(natom);
            var fc := forceConstants.value;
            && |rows| == 1 + g + z + |fc| / 3
            && rows[1 + g..1 + g + z] == Zeros(z)
            && rows[1 + g + z..] == Chunks3(fc))
  {
    var rows := OutputRows(derivs, natom, energy, gradients, forceConstants).value;
    if derivs == 2 {
      var g := |gradients.value|;
      var z := 2 + 3 * Steps(natom);
      var fc := forceConstants.value;
      assert Steps(3 * natom) == 3 * Steps(natom);
      assert rows == [[energy, 0.0, 0.0, 0.0]] + gradients.value + Zeros(z) + Chunks3(fc);
    }
  }

  /** The force-constant lines keep every value, in order, three per line. */
  lemma {:induction false} ChunksKeepOrder(fc: seq<real>)
    requires |fc| % 3 == 0
    ensures Flatten(Chunks3(fc)) == fc
  {
    if fc != [] {
      ChunksKeepOrder(fc[3..]);
      forall m | 1 <= m < |fc| / 3 ensures Chunks3(fc)[m] == Chunks3(fc[3..])[m - 1] {
        assert fc[3..][3 * (m - 1)..3 * (m - 1) + 3] == fc[3 * m..3 * m + 3];
      }
      assert Chunks3(fc) == [fc[..3]] + Chunks3(fc[3..]);
      assert fc == fc[..3] + fc[3..];
    }
  }

  /** K(N) = N (3N + 1) / 2, the force-constant line count of N atoms. */
  function FcLineCount(n: nat): nat
  {
    if n == 0 then 0 else FcLineCount(n - 1) + 3 * n - 1
  }

  lemma {:induction false} TriOfTriple(n: nat)
    ensures BasePes.Tri(3 * n) == 3 * FcLineCount(n)
    ensures 2 * FcLineCount(n) == n * (3 * n + 1)
  {
    if n > 0 {
      TriOfTriple(n - 1);
      assert 3 * n == 3 * (n - 1) + 3;
      assert BasePes.Tri(3 * n) == BasePes.Tri(3 * n - 1) + 3 * n;
      assert BasePes.Tri(3 * n - 1) == BasePes.Tri(3 * n - 2) + 3 * n - 1;
      assert BasePes.Tri(3 * n - 2) == BasePes.Tri(3 * (n - 1)) + 3 * n - 2;
    }
  }

  /** A full lower triangle of N atoms, 3N (3N + 1) / 2 values, reshapes without
      error into N (3N + 1) / 2 lines. */
  lemma FullTriangleLines(n: nat, fc: seq<real>)
    requires |fc| == BasePes.Tri(3 * n)
    ensures |fc| % 3 == 0
    ensures 2 * (|fc| / 3) == n * (3 * n + 1)
  {
    TriOfTriple(n);
  }

  /** The fields of a line: with a formatter of width 20, line p is 20 times as
      long as its row, and field m of it is the formatted entry m. */
  lemma {:induction false} RenderRowFields(fmt: real -> string, row: seq<real>)
    requires FixedWidth(fmt, 20)
    ensures |RenderRow(fmt, row)| == 20 * |row|
    ensures forall m :: 0 <= m < |row| ==> RenderRow(fmt, row)[20 * m..20 * m + 20] == fmt(row[m])
  {
    if row != [] {
      var x := row[0];
      var head, tail := fmt(x), RenderRow(fmt, row[1..]);
      RenderRowFields(fmt, row[1..]);
      assert |head| == 20;
      assert 20 * |row| == 20 + 20 * |row[1..]|;
      forall m | 0 <= m < |row| ensures RenderRow(fmt, row)[20 * m..20 * m + 20] == fmt(row[m]) {
        if m > 0 {
          assert 20 * m == 20 + 20 * (m - 1);
          assert tail[20 * (m - 1)..20 * (m - 1) + 20] == fmt(row[1..][m - 1]);
          assert (head + tail)[20 * m..20 * m + 20] == tail[20 * (m - 1)..20 * (m - 1) + 20];
        }
      }
    }
  }

  /** No trailing newline: when no formatted value holds "\n", splitting the
      output text on "\n" gives back exactly the rendered lines. */
  lemma OutputLines(derivs: int, natom: int, energy: real, gradients: Option<seq<seq<real>>>,
                    forceConstants: Option<seq<real>>, fmt: real -> string)
    requires Avoids(fmt, '\n')
    requires OutputRows(derivs, natom, energy, gradients, forceConstants).Ok?
    ensures SplitOn(OutputText(derivs, natom, energy, gradients, forceConstants, fmt).value, '\n')
         == Render(fmt, OutputRows(derivs, natom, energy, gradients, forceConstants).value)
  {
    var rows := OutputRows(derivs, natom, energy, gradients, forceConstants).value;
    var lines := Render(fmt, rows);
    forall p | 0 <= p < |lines| ensures '\n' !in lines[p] {
      RowAvoids(fmt, rows[p], '\n');
    }
    SplitOnJoin(lines, '\n');
  }

  lemma {:induction false} RowAvoids(fmt: real -> string, row: seq<real>, c: char)
    requires Avoids(fmt, c)
    ensures c !in RenderRow(fmt, row)
  {
    if row != [] {
      RowAvoids(fmt, row[1..], c);
      var x := row[0];
      assert c !in fmt(x);
    }
  }

  // ------------------------------------------------------------------ pyscf_atom

  /** One atom for pyscf: the atomic number and the three formatted coordinates,
      separated by single blanks, without the closing ";". */
  function PyscfSegment(nuc: int, coord: seq<real>, fmt: real -> string): string
    requires |coord| >= 3
  {
    IntToString(nuc) + " " + fmt(coord[0]) + " " + fmt(coord[1]) + " " + fmt(coord[2])
  }

  /** One pass of the loop over `zip(atoms_nuc, coords)`: the segment of pair k, or
      the IndexError of `coord[0..2]` on a row with fewer than three entries. */
  function PyscfResults(nucs: seq<int>, coords: seq<seq<real>>, fmt: real -> string): (rs: seq<Result<string>>)
    ensures |rs| == Min(|nucs|, |coords|)
    ensures forall k :: 0 <= k < |rs| ==>
      rs[k] == if |coords[k]| < 3 then Err(IndexError) else Ok(PyscfSegment(nucs[k], coords[k], fmt))
  {
    seq(Min(|nucs|, |coords|), k requires 0 <= k < Min(|nucs|, |coords|) =>
      if |coords[k]| < 3 then Err(IndexError) else Ok(PyscfSegment(nucs[k], coords[k], fmt)))
  }

  /** What `pyscf_atom` returns: every segment followed by ";". */
  function PyscfText(nucs: seq<int>, coords: seq<seq<real>>, fmt: real -> string): Result<string>
  {
    match FirstErr(PyscfResults(nucs, coords, fmt))
    case Err(e) => Err(e)
    case Ok(segs) => Ok(Terminated(segs, ';'))
  }

  /** `pyscf_atom` fails exactly when one of the zipped rows has fewer than three
      coordinates, and then with an IndexError. */
  lemma PyscfAtomFails(nucs: seq<int>, coords: seq<seq<real>>, fmt: real -> string)
    ensures PyscfText(nucs, coords, fmt).Ok? <==> forall k :: 0 <= k < Min(|nucs|, |coords|) ==> |coords[k]| >= 3
    ensures PyscfText(nucs, coords, fmt).Err? ==> PyscfText(nucs, coords, fmt).error == IndexError
  {
    var rs := PyscfResults(nucs, coords, fmt);
    if FirstErr(rs).Err? {
      var k := FirstErrIsFirst(rs);
    }
  }

  /** The pyscf atom string is one ";"-terminated segment per atom, in order: split
      on ";" it gives the segments and a final empty piece. */
  lemma PyscfAtomSegments(nucs: seq<int>, coords: seq<seq<real>>, fmt: real -> string)
    requires Avoids(fmt, ';')
    requires PyscfText(nucs, coords, fmt).Ok?
    ensures var n := Min(|nucs|, |coords|);
      var pieces := SplitOn(PyscfText(nucs, coords, fmt).value, ';');
      && |pieces| == n + 1 && pieces[n] == []
      && forall k :: 0 <= k < n ==> |coords[k]| >= 3 && pieces[k] == PyscfSegment(nucs[k], coords[k], fmt)
  {
    var n := Min(|nucs|, |coords|);
    var rs := PyscfResults(nucs, coords, fmt);
    var segs := FirstErr(rs).value;
    forall k | 0 <= k < n
      ensures |coords[k]| >= 3 && segs[k] == PyscfSegment(nucs[k], coords[k], fmt) && ';' !in segs[k]
    {
      assert rs[k] == Ok(segs[k]);
      PyscfSegmentReads(nucs[k], coords[k], fmt);
    }
    assert forall p :: 0 <= p < |segs + [[]]| ==> ';' !in (segs + [[]])[p];
    TerminatedIsJoin(segs, ';');
    SplitOnJoin(segs + [[]], ';');
  }

  /** A segment holds no ";" and its first word reads back as the atomic number. */
  lemma PyscfSegmentReads(nuc: int, coord: seq<real>, fmt: real -> string)
    requires Avoids(fmt, ';')
    requires |coord| >= 3
    ensures ';' !in PyscfSegment(nuc, coord, fmt)
    ensures ParseInt(Fields(PyscfSegment(nuc, coord, fmt))[0]) == Some(nuc)
  {
    var x, y, z := coord[0], coord[1], coord[2];
    assert ';' !in fmt(x) && ';' !in fmt(y) && ';' !in fmt(z);
    IntToStringAvoids(nuc, ';');
    var rest := fmt(coord[0]) + " " + fmt(coord[1]) + " " + fmt(coord[2]);
    assert PyscfSegment(nuc, coord, fmt) == IntToString(nuc) + [' '] + rest;
    FieldsAfterBlank(IntToString(nuc), rest);
    ParseIntOfIntToString(nuc);
  }

  // ------------------------------------------------------------------ the driver

  /** A Gaussian `External` job: the six paths Gaussian passes and what the input
      file holds. The `sysmbols` list that the reader builds is never stored on
      the object, so it has no field here. */
  class GauDriver {
    const layer: string
    const inputFile: string
    const outputFile: string
    const msgFile: string
    const fchkFile: string
    const matElFile: string
    const natom: int
    const derivs: int
    const charge: int
    const multiplicity: int
    const doGradient: bool
    const doHessian: bool
    const atomsNuc: seq<int>
    const coords: seq<seq<real>>

    /** The fields `__init__` assigns, with the flags set from `derivs`. */
    constructor(layer: string, inputFile: string, outputFile: string, msgFile: string,
                fchkFile: string, matElFile: string, job: GauJob)
      ensures this.layer == layer && this.inputFile == inputFile && this.outputFile == outputFile
      ensures this.msgFile == msgFile && this.fchkFile == fchkFile && this.matElFile == matElFile
      ensures Job() == job
      ensures doGradient <==> job.derivs == 1 || job.derivs == 2
      ensures doHessian <==> job.derivs == 2
    {
      this.layer := layer;
      this.inputFile := inputFile;
      this.outputFile := outputFile;
      this.msgFile := msgFile;
      this.fchkFile := fchkFile;
      this.matElFile := matElFile;
      natom := job.natom;
      derivs := job.derivs;
      charge := job.charge;
      multiplicity := job.multiplicity;
      doGradient := job.derivs == 1 || job.derivs == 2;
      doHessian := job.derivs == 2;
      atomsNuc := job.atomsNuc;
      coords := job.coords;
    }

    function Job(): GauJob
    {
      GauJob(natom, derivs, charge, multiplicity, atomsNuc, coords)
    }

    /** `GauDriver.write`: the text of the output file, or the exception raised
        before the file is opened. */
    method Write(energy: real, gradients: Option<seq<seq<real>>>, forceConstants: Option<seq<real>>, fmt: real -> string)
      returns (r: Result<string>)
      ensures r == OutputText(derivs, natom, energy, gradients, forceConstants, fmt)
    {
      var contents: seq<string> := [];
      ghost var rows: seq<seq<real>> := [];
      // energy and dipole moment
      contents := contents + [RenderRow(fmt, [energy, 0.0, 0.0, 0.0])];
      rows := rows + [[energy, 0.0, 0.0, 0.0]];
      assert contents == Render(fmt, rows);
      // gradient on atom
      if derivs == 1 || derivs == 2 {
        if gradients.None? {
          return Err(TypeError);
        }
        contents := AppendRendered(contents, rows, gradients.value, fmt);
        rows := rows + gradients.value;
      }
      // polarizability, dipole derivatives and force constants
      if derivs == 2 {
        var rest := AppendHessian(contents, rows, natom, forceConstants, fmt);
        if rest.Err? {
          return Err(rest.error);
        }
        contents := rest.value;
        rows := rows + Zeros(2 + Steps(3 * natom)) + Chunks3(forceConstants.value);
        assert rows == [[energy, 0.0, 0.0, 0.0]] + gradients.value + Zeros(2 + Steps(3 * natom)) + Chunks3(forceConstants.value);
      } else if derivs == 1 {
        assert rows == [[energy, 0.0, 0.0, 0.0]] + gradients.value;
      } else {
        assert rows == [[energy, 0.0, 0.0, 0.0]] + [];
      }
      assert OutputRows(derivs, natom, energy, gradients, forceConstants) == Ok(rows);
      return Ok(Join(contents, '\n'));
    }

    /** `GauDriver.xyz`: reads `self.sysmbols`, which `__init__` never assigns,
        so every call raises AttributeError. */
    function Xyz(comment: string): (r: Result<string>)
      ensures r == Err(AttributeError)
    {
      Err(AttributeError)
    }

    /** `GauDriver.pyscf_atom`: one segment per atom, built up in a loop. */
    method PyscfAtom(fmt: real -> string) returns (r: Result<string>)
      ensures r == PyscfText(atomsNuc, coords, fmt)
    {
      var atomStr: string := "";
      var n := Min(|atomsNuc|, |coords|);
      ghost var rs := PyscfResults(atomsNuc, coords, fmt);
      for k := 0 to n
        invariant FirstErr(rs[..k]).Ok?
        invariant atomStr == Terminated(FirstErr(rs[..k]).value, ';')
      {
        var coord := coords[k];
        FirstErrStep(rs, k);
        if |coord| < 3 {
          FirstErrPrefix(rs, k + 1);
          return Err(IndexError);
        }
        TerminatedSnoc(FirstErr(rs[..k]).value, PyscfSegment(atomsNuc[k], coord, fmt), ';');
        var segment := IntToString(atomsNuc[k]) + " " + fmt(coord[0]) + " " + fmt(coord[1]) + " " + fmt(coord[2]);
        atomStr := atomStr + segment + ";";
      }
      assert rs[..n] == rs;
      return Ok(atomStr);
    }
  }

  lemma NucsCoordsSnoc(atoms: seq<Atom>, a: Atom)
    ensures Nucs(atoms + [a]) == Nucs(atoms) + [a.nuc]
    ensures Coords(atoms + [a]) == Coords(atoms) + [a.coord]
  {
  }

  /** The loop of `__init__` over the atom lines: each line is read in turn, with
      `readAtom` standing for the body of one pass, and its atomic number and
      coordinates appended, until a line raises. */
  method ReadAtomLines(lines: seq<string>, n: nat, readAtom: string --> Result<Atom>)
    returns (failure: Option<PyError>, atomsNuc: seq<int>, coords: seq<seq<real>>)
    requires forall line :: readAtom.requires(line)
    ensures failure.Some? ==> FirstErr(Parsed(lines, n, readAtom)) == Err(failure.value)
    ensures failure.None? ==> var r := FirstErr(Parsed(lines, n, readAtom));
      r.Ok? && atomsNuc == Nucs(r.value) && coords == Coords(r.value)
  {
    atomsNuc, coords := [], [];
    ghost var rs := Parsed(lines, n, readAtom);
    for k := 0 to n
      invariant FirstErr(rs[..k]).Ok?
      invariant atomsNuc == Nucs(FirstErr(rs[..k]).value)
      invariant coords == Coords(FirstErr(rs[..k]).value)
    {
      var atom := readAtom(Line(lines, k + 1));
      FirstErrStep(rs, k);
      if atom.Err? {
        FirstErrPrefix(rs, k + 1);
        return Some(atom.error), atomsNuc, coords;
      }
      NucsCoordsSnoc(FirstErr(rs[..k]).value, atom.value);
      atomsNuc := atomsNuc + [atom.value.nuc];
      coords := coords + [atom.value.coord];
    }
    assert rs[..n] == rs;
    failure := None;
  }

  /** `GauDriver.__init__`: opens the input file, reads the header and the atom
      lines one by one, and builds the driver, or raises. */
  method LoadGauDriver(layer: string, inputFile: string, outputFile: string, msgFile: string,
                       fchkFile: string, matElFile: string, files: map<string, string>,
                       table: seq<string>, parseFloat: string -> Option<real>, ang2Bohr: real)
    returns (r: Result<GauDriver>)
    requires ang2Bohr != 0.0
    ensures r.Err? <==> GauInput(inputFile, files, table, parseFloat, ang2Bohr).Err?
    ensures r.Err? ==> r.error == GauInput(inputFile, files, table, parseFloat, ang2Bohr).error
    ensures r.Ok? ==> r.value.Job() == GauInput(inputFile, files, table, parseFloat, ang2Bohr).value
    ensures r.Ok? ==> r.value.layer == layer && r.value.inputFile == inputFile && r.value.outputFile == outputFile
    ensures r.Ok? ==> r.value.msgFile == msgFile && r.value.fchkFile == fchkFile && r.value.matElFile == matElFile
    ensures r.Ok? ==> (r.value.doGradient <==> r.value.derivs == 1 || r.value.derivs == 2)
    ensures r.Ok? ==> (r.value.doHessian <==> r.value.derivs == 2)
  {
    if inputFile !in files {
      return Err(FileNotFoundError);
    }
    var lines := ReadLines(files[inputFile]);
    var header := HeaderInts(Line(lines, 0));
    if header.Err? {
      return Err(header.error);
    }
    var natom, derivs, charge, spin := header.value[0], header.value[1], header.value[2], header.value[3];
    var readAtom := line requires ang2Bohr != 0.0 => ParseAtom(line, table, parseFloat, ang2Bohr);
    var failure, atomsNuc, coords := ReadAtomLines(lines, Steps(natom), readAtom);
    assert Parsed(lines, Steps(natom), readAtom) == AtomResults(lines, Steps(natom), table, parseFloat, ang2Bohr);
    if failure.Some? {
      return Err(failure.value);
    }
    if !BasePes.Rectangular(coords) {
      return Err(ValueError);
    }
    var driver := new GauDriver(layer, inputFile, outputFile, msgFile, fchkFile, matElFile,
                                GauJob(natom, derivs, charge, spin, atomsNuc, coords));
    return Ok(driver);
  }
}
