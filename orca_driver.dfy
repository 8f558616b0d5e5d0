/**
 * The ORCA 6 external-method adapter: reading the small input file ORCA hands to
 * the external program, the XYZ geometry it names, and laying out the `.engrad`
 * file ORCA reads back.
 *
 * Files are their text: `files` maps a path to the contents of that file, and
 * opening a path it does not hold raises FileNotFoundError. The periodic table of
 * `gau_pes.data` is the parameter `table`, float parsing is `parseFloat` (None
 * for a ValueError), `repr(energy)` is `repr` and numpy's `%.18e` is `fmt`.
 */
module Orca {
  import opened PyText

  // ------------------------------------------------------------------ the ORCA input file

  /** `line.split("#")[0]`: the line up to its first "#". */
  function CutComment(line: string): string
  {
    SplitOn(line, '#')[0]
  }

  /** The cut line is the longest prefix of the line without "#": it holds no "#"
      and is either the whole line or stops just before a "#". */
  lemma CutCommentPrefix(line: string)
    ensures var c := CutComment(line);
      && '#' !in c && |c| <= |line| && c == line[..|c|]
      && (|c| < |line| ==> line[|c|] == '#')
      && ('#' !in line ==> c == line)
  {
    SplitOnFirst(line, '#');
    if '#' !in line {
      SplitOnNoSep(line, '#');
    }
  }

  /** Every line of the input file cut at its first "#", in order. */
  function CutLines(lines: seq<string>): (r: seq<string>)
    ensures |r| == |lines|
    ensures forall k :: 0 <= k < |lines| ==> r[k] == CutComment(lines[k])
  {
    seq(|lines|, k requires 0 <= k < |lines| => CutComment(lines[k]))
  }

  /** The gradient file name: every ".xyz" in the XYZ file name replaced by ".engrad". */
  function EngradName(xyzFile: string): string
  {
    ReplaceAll(xyzFile, ".xyz", ".engrad")
  }

  /** A name `stem.xyz` whose stem holds no "." becomes `stem.engrad`. */
  lemma EngradOfXyz(stem: string)
    requires '.' !in stem
    ensures EngradName(stem + ".xyz") == stem + ".engrad"
  {
    ReplaceAllSuffix(stem, ".xyz", ".engrad");
  }

  /** The name is left as it is exactly when ".xyz" does not occur in it. */
  lemma EngradUnchanged(xyzFile: string)
    ensures EngradName(xyzFile) == xyzFile <==> !Contains(xyzFile, ".xyz")
  {
    ReplaceAllUnchangedIff(xyzFile, ".xyz", ".engrad");
  }

  /** What the ORCA input file gives the driver. */
  datatype OrcaInput = OrcaInput(xyzFile: string, engradFile: string, charge: int,
                                 multiplicity: int, nCores: int, doGradient: bool)

  /** The charge, multiplicity and core count: every token must read as an int,
      and there must be exactly three of them to unpack. */
  function ThreeInts(toks: seq<string>): Result<seq<int>>
  {
    match ParseAll(toks, ParseInt)
    case None => Err(ValueError)
    case Some(v) => if |v| != 3 then Err(ValueError) else Ok(v)
  }

  /** `__init__` on the comment-cut lines of the input file, up to the XYZ file. */
  function InputOfLines(ext: seq<string>): Result<OrcaInput>
  {
    if |ext| == 0 then Err(IndexError)
    else
      var xyzFile := Strip(ext[0]);
      match ThreeInts(ext[1..Min(4, |ext|)])
      case Err(e) => Err(e)
      case Ok(v) =>
        if |ext| < 5 then Err(IndexError)
        else Ok(OrcaInput(xyzFile, EngradName(xyzFile), v[0], v[1], v[2], ext[4] != ""))
  }

  /** The input file's text read as `__init__` reads it. */
  function ParseOrcaInput(text: string): Result<OrcaInput>
  {
    InputOfLines(CutLines(ReadLines(text)))
  }

  /** The three ints read: cut lines 1, 2 and 3 in order. */
  lemma ThreeIntsAt(toks: seq<string>)
    ensures ThreeInts(toks).Ok? <==> |toks| == 3 && forall k :: 0 <= k < 3 ==> ParseInt(toks[k]).Some?
    ensures ThreeInts(toks).Ok? ==> forall k :: 0 <= k < 3 ==> ParseInt(toks[k]) == Some(ThreeInts(toks).value[k])
  {
    ParseAllAt(toks, ParseInt);
  }

  /** Reading the input file succeeds exactly when, after cutting comments, it has
      at least five lines and lines 1 to 3 read as ints; it then gives the
      stripped first line as the XYZ file with its `.engrad` name, the three ints
      in order, and `do_gradient` set exactly when the fifth cut line is not empty
      (a line holding only its newline is not empty). */
  lemma InputFields(ext: seq<string>)
    ensures InputOfLines(ext).Ok? <==> |ext| >= 5 && forall k :: 1 <= k <= 3 ==> ParseInt(ext[k]).Some?
    ensures InputOfLines(ext).Ok? ==>
      var inp := InputOfLines(ext).value;
      && inp.xyzFile == Strip(ext[0]) && inp.engradFile == EngradName(inp.xyzFile)
      && ParseInt(ext[1]) == Some(inp.charge) && ParseInt(ext[2]) == Some(inp.multiplicity)
      && ParseInt(ext[3]) == Some(inp.nCores)
      && (inp.doGradient <==> ext[4] != "")
  {
    if |ext| >= 1 {
      var toks := ext[1..Min(4, |ext|)];
      ThreeIntsAt(toks);
      assert forall k :: 1 <= k < Min(4, |ext|) ==> toks[k - 1] == ext[k];
    }
  }

  /** A missing first line raises IndexError; ints that do not read, or fewer
      than three of them, ValueError; a missing fifth line, IndexError. */
  lemma InputErrors(ext: seq<string>)
    ensures |ext| == 0 ==> InputOfLines(ext) == Err(IndexError)
    ensures |ext| >= 1 && ThreeInts(ext[1..Min(4, |ext|)]).Err? ==> InputOfLines(ext) == Err(ValueError)
    ensures |ext| == 4 && ThreeInts(ext[1..4]).Ok? ==> InputOfLines(ext) == Err(IndexError)
  {
  }

  /** What the cut makes of a fifth line, and so of `do_gradient`: a line holding
      only its newline stays non-empty, a line that starts with '#' becomes empty,
      and every other non-empty line stays non-empty, a flag "0" included. */
  lemma GradientFlagLines(line: string)
    ensures CutComment("\n") == "\n"
    ensures |line| >= 1 && line[0] == '#' ==> CutComment(line) == ""
    ensures |line| >= 1 && line[0] != '#' ==> CutComment(line) != ""
  {
    CutCommentPrefix("\n");
    CutCommentPrefix(line);
  }

  // ------------------------------------------------------------------ the XYZ file

  /** One atom line of the XYZ file, read back. */
  datatype XyzAtom = XyzAtom(symbol: string, nuc: nat, coord: seq<real>)

  /** The part of one pass after `split(" +", line_str.strip())`: exactly four
      tokens (ValueError otherwise), a symbol the table holds (ValueError
      otherwise), and three floats. */
  function AtomOfTokens(toks: seq<string>, table: seq<string>, parseFloat: string -> Option<real>): Result<XyzAtom>
  {
    if |toks| != 4 then Err(ValueError)
    else match IndexOf(table, toks[0])
      case None => Err(ValueError)
      case Some(nuc) =>
        match ParseAll(toks[1..], parseFloat)
        case None => Err(ValueError)
        case Some(xs) => Ok(XyzAtom(toks[0], nuc, xs))
  }

  /** One pass of the loop over the XYZ atom lines. */
  function ParseXyzAtom(line: string, table: seq<string>, parseFloat: string -> Option<real>): Result<XyzAtom>
  {
    AtomOfTokens(SplitBlanks(Strip(line)), table, parseFloat)
  }

  /** What a pass that does not raise gives: the first token as symbol, its first
      position in the table as atomic number, and the three floats in order. */
  lemma AtomOfTokensOk(toks: seq<string>, table: seq<string>, parseFloat: string -> Option<real>)
    requires AtomOfTokens(toks, table, parseFloat).Ok?
    ensures var a := AtomOfTokens(toks, table, parseFloat).value;
      && |toks| == 4 && a.symbol == toks[0]
      && a.nuc < |table| && table[a.nuc] == toks[0] && toks[0] !in table[..a.nuc]
      && |a.coord| == 3 && forall c :: 0 <= c < 3 ==> parseFloat(toks[c + 1]) == Some(a.coord[c])
  {
    ParseAllAt(toks[1..], parseFloat);
    assert forall c :: 0 <= c < 3 ==> toks[1..][c] == toks[c + 1];
  }

  /** A pass raises ValueError exactly when the line does not split into four
      tokens, its symbol is not in the table, or a coordinate is no float. */
  lemma AtomOfTokensFails(toks: seq<string>, table: seq<string>, parseFloat: string -> Option<real>)
    ensures AtomOfTokens(toks, table, parseFloat).Err? <==>
      || |toks| != 4 || toks[0] !in table
      || exists c :: 1 <= c < 4 && parseFloat(toks[c]).None?
    ensures AtomOfTokens(toks, table, parseFloat).Err? ==> AtomOfTokens(toks, table, parseFloat).error == ValueError
  {
    if |toks| == 4 {
      ParseAllAt(toks[1..], parseFloat);
      assert forall c :: 1 <= c < 4 ==> toks[1..][c - 1] == toks[c];
    }
  }

  /** A line `sym x y z` built from blank-free tokens, single blanks between
      them, reads back as the first table position of `sym` and the three floats. */
  lemma XyzAtomOfLine(sym: string, toks: seq<string>, xs: seq<real>, table: seq<string>, parseFloat: string -> Option<real>)
    requires sym != [] && NoSpace(sym) && sym in table
    requires |toks| == 3 && |xs| == 3
    requires forall c :: 0 <= c < 3 ==> toks[c] != [] && NoSpace(toks[c]) && parseFloat(toks[c]) == Some(xs[c])
    ensures ParseXyzAtom(Join([sym] + toks, ' '), table, parseFloat) == Ok(XyzAtom(sym, IndexOf(table, sym).value, xs))
  {
    var words := [sym] + toks;
    var line := Join(words, ' ');
    JoinNoSpaceEnds(words);
    assert Strip(line) == line;
    forall k | 0 <= k < 4 ensures words[k] != [] && ' ' !in words[k] {
      NoSpaceNoBlank(words[k]);
    }
    SplitBlanksOfJoin(words);
    assert words[1..] == toks;
    ParseAllOf(toks, xs, parseFloat);
  }

  lemma NoSpaceNoBlank(w: string)
    requires NoSpace(w)
    ensures ' ' !in w
  {
    forall i | 0 <= i < |w| ensures w[i] != ' ' {
      assert !IsSpace(w[i]);
    }
  }

  /** A join of non-empty whitespace-free words neither starts nor ends with whitespace. */
  lemma {:induction false} JoinNoSpaceEnds(words: seq<string>)
    requires |words| >= 1
    requires forall k :: 0 <= k < |words| ==> words[k] != [] && NoSpace(words[k])
    ensures var s := Join(words, ' '); s != [] && !IsSpace(s[0]) && !IsSpace(s[|s| - 1])
  {
    if |words| > 1 {
      JoinNoSpaceEnds(words[1..]);
      var rest := Join(words[1..], ' ');
      assert Join(words, ' ') == words[0] + ([' '] + rest);
    }
  }

  /** What the XYZ file gives the driver. */
  datatype XyzData = XyzData(natom: int, comment: string, symbols: seq<string>,
                             atomsNuc: seq<int>, coords: seq<seq<real>>)

  /** The element symbols of the atoms, in atom order. */
  function Symbols(atoms: seq<XyzAtom>): (r: seq<string>)
    ensures |r| == |atoms| && forall k :: 0 <= k < |atoms| ==> r[k] == atoms[k].symbol
  {
    seq(|atoms|, k requires 0 <= k < |atoms| => atoms[k].symbol)
  }

  function Nucs(atoms: seq<XyzAtom>): (r: seq<int>)
    ensures |r| == |atoms| && forall k :: 0 <= k < |atoms| ==> r[k] == atoms[k].nuc
  {
    seq(|atoms|, k requires 0 <= k < |atoms| => atoms[k].nuc)
  }

  function Coords(atoms: seq<XyzAtom>): (r: seq<seq<real>>)
    ensures |r| == |atoms| && forall k :: 0 <= k < |atoms| ==> r[k] == atoms[k].coord
  {
    seq(|atoms|, k requires 0 <= k < |atoms| => atoms[k].coord)
  }

  /** The atom lines `xyzfile[2:]`, each read, or the first one's ValueError. */
  function XyzAtoms(lines: seq<string>, table: seq<string>, parseFloat: string -> Option<real>): Result<seq<XyzAtom>>
    requires |lines| >= 2
  {
    FirstErr(Map(lines[2..], line => ParseXyzAtom(line, table, parseFloat)))
  }

  /** `__init__` on the lines of the XYZ file: the atom count of line 0 (IndexError
      when missing, ValueError when no int), the comment line 1 (IndexError when
      missing), then one atom per remaining line. */
  function XyzOfLines(lines: seq<string>, table: seq<string>, parseFloat: string -> Option<real>): Result<XyzData>
  {
    if |lines| == 0 then Err(IndexError)
    else match ParseInt(lines[0])
      case None => Err(ValueError)
      case Some(natom) =>
        if |lines| == 1 then Err(IndexError)
        else match XyzAtoms(lines, table, parseFloat)
          case Err(e) => Err(e)
          case Ok(atoms) => Ok(XyzData(natom, lines[1], Symbols(atoms), Nucs(atoms), Coords(atoms)))
  }

  /** A read XYZ file has one atom per line after the first two, in order, whatever
      its first line says: atom k is what line k + 2 reads as, with three
      coordinates, so the coordinates form an (n, 3) array. */
  lemma XyzAtomsInOrder(lines: seq<string>, table: seq<string>, parseFloat: string -> Option<real>)
    requires XyzOfLines(lines, table, parseFloat).Ok?
    ensures var x := XyzOfLines(lines, table, parseFloat).value;
      && |lines| >= 2 && ParseInt(lines[0]) == Some(x.natom) && x.comment == lines[1]
      && |x.symbols| == |x.atomsNuc| == |x.coords| == |lines| - 2
      && Width3(x.coords)
      && forall k :: 0 <= k < |lines| - 2 ==>
           ParseXyzAtom(lines[k + 2], table, parseFloat) == Ok(XyzAtom(x.symbols[k], x.atomsNuc[k], x.coords[k]))
  {
    var rs := Map(lines[2..], line => ParseXyzAtom(line, table, parseFloat));
    var atoms := FirstErr(rs).value;
    forall k | 0 <= k < |lines| - 2
      ensures ParseXyzAtom(lines[k + 2], table, parseFloat) == Ok(atoms[k]) && |atoms[k].coord| == 3
    {
      assert rs[k] == Ok(atoms[k]);
      AtomOfTokensOk(SplitBlanks(Strip(lines[k + 2])), table, parseFloat);
    }
  }

  /** The symbol that Gaussian's reader gives atomic number `nuc`
      (`PERIODIC_TABLE[nuc - 1]`) is read back here as `nuc - 1`
      (`PERIODIC_TABLE.index(sym)`) when the table holds no symbol twice: the two
      adapters number the table one apart. */
  lemma TableOffsets(table: seq<string>, nuc: int)
    requires forall i, j :: 0 <= i < j < |table| ==> table[i] != table[j]
    requires 1 <= nuc <= |table|
    ensures IndexOf(table, PyIndex(table, nuc - 1).value) == Some(nuc - 1)
  {
    var sym := table[nuc - 1];
    var r := IndexOf(table, sym);
    assert table[r.value] == sym;
  }

  // ------------------------------------------------------------------ the .engrad file

  /** The first two lines of the .engrad file: the atom count and the energy, with no
      newline after the energy. */
  function EngradHeader(natom: int, energy: real, repr: real -> string): string
  {
    IntToString(natom) + "\n" + repr(energy)
  }

  /** What `write` puts in the `.engrad` file: the header alone without gradients;
      with them, `np.savetxt` of the flattened gradients with the header on top,
      every value on a line of its own and every line ended by "\n". */
  function EngradText(natom: int, energy: real, gradients: Option<seq<seq<real>>>,
                      repr: real -> string, fmt: real -> string): string
  {
    var header := EngradHeader(natom, energy, repr);
    if gradients.None? then header
    else header + "\n" + Terminated(Map(Flatten(gradients.value), fmt), '\n')
  }

  /** Without gradients the file is exactly two lines, `natom` and the energy, with
      no final newline. */
  lemma EngradWithoutGradients(natom: int, energy: real, repr: real -> string, fmt: real -> string)
    requires Avoids(repr, '\n')
    ensures SplitOn(EngradText(natom, energy, None, repr, fmt), '\n') == [IntToString(natom), repr(energy)]
  {
    var e := energy;
    assert '\n' !in repr(e);
    IntToStringAvoids(natom, '\n');
    SplitOnJoin([IntToString(natom), repr(e)], '\n');
    assert Join([IntToString(natom), repr(e)], '\n') == EngradHeader(natom, e, repr);
  }

  /** With gradients of shape (n, 3), the file split on "\n" is the two header
      lines, the 3n values row by row (entry (i, j) on line 3i + j + 2), and the
      empty piece after the final newline. */
  lemma EngradWithGradients(natom: int, energy: real, gradients: seq<seq<real>>, repr: real -> string, fmt: real -> string)
    requires Avoids(repr, '\n') && Avoids(fmt, '\n')
    requires Width3(gradients)
    ensures var lines := SplitOn(EngradText(natom, energy, Some(gradients), repr, fmt), '\n');
      && |lines| == 3 * |gradients| + 3
      && lines[0] == IntToString(natom) && lines[1] == repr(energy) && lines[3 * |gradients| + 2] == []
      && forall i, j :: 0 <= i < |gradients| && 0 <= j < 3 ==> lines[3 * i + j + 2] == fmt(gradients[i][j])
  {
    var values := Flatten(gradients);
    FlattenRowMajor(gradients);
    var vs := Map(values, fmt);
    forall k | 0 <= k < |vs| ensures '\n' !in vs[k] {
      var v := values[k];
      assert '\n' !in fmt(v);
    }
    var e := energy;
    assert '\n' !in repr(e);
    IntToStringAvoids(natom, '\n');
    var parts := [IntToString(natom), repr(e)] + vs + [[]];
    assert forall k :: 0 <= k < |parts| ==> '\n' !in parts[k];
    TerminatedIsJoin(vs, '\n');
    JoinAppend([IntToString(natom), repr(e)], vs + [[]]);
    assert Join([IntToString(natom), repr(e)], '\n') == EngradHeader(natom, e, repr);
    assert parts == [IntToString(natom), repr(e)] + (vs + [[]]);
    SplitOnJoin(parts, '\n');
  }

  /** Joining two non-empty lists of parts puts one separator between their joins. */
  lemma {:induction false} JoinAppend(a: seq<string>, b: seq<string>)
    requires |a| >= 1 && |b| >= 1
    ensures Join(a + b, '\n') == Join(a, '\n') + "\n" + Join(b, '\n')
  {
    if |a| == 1 {
      assert (a + b)[1..] == b;
    } else {
      JoinAppend(a[1..], b);
      assert (a + b)[1..] == a[1..] + b;
    }
  }

  // ------------------------------------------------------------------ the driver

  /** An ORCA external job: the input file, what it names and holds, and what the
      XYZ file holds. `do_hessian` is always False. */
  class Orca6Driver {
    const inpFile: string
    const xyzFile: string
    const engradFile: string
    const charge: int
    const multiplicity: int
    const nCores: int
    const doGradient: bool
    const doHessian: bool
    const natom: int
    const xyzComment: string
    const symbols: seq<string>
    const atomsNuc: seq<int>
    const coords: seq<seq<real>>

    /** The fields `__init__` assigns. */
    constructor(inpFile: string, inp: OrcaInput, xyz: XyzData)
      ensures this.inpFile == inpFile && Input() == inp && XyzFields() == xyz && !doHessian
    {
      this.inpFile := inpFile;
      xyzFile := inp.xyzFile;
      engradFile := inp.engradFile;
      charge := inp.charge;
      multiplicity := inp.multiplicity;
      nCores := inp.nCores;
      doGradient := inp.doGradient;
      doHessian := false;
      natom := xyz.natom;
      xyzComment := xyz.comment;
      symbols := xyz.symbols;
      atomsNuc := xyz.atomsNuc;
      coords := xyz.coords;
    }

    /** The fields read from the ORCA input file. */
    function Input(): OrcaInput
    {
      OrcaInput(xyzFile, engradFile, charge, multiplicity, nCores, doGradient)
    }

    /** The fields read from the XYZ file. */
    function XyzFields(): XyzData
    {
      XyzData(natom, xyzComment, symbols, atomsNuc, coords)
    }

    /** `Orca6Driver.write`: the text written to `engrad_file`. Which layout is
        chosen depends on whether gradients are given, not on `do_gradient`. */
    method Write(energy: real, gradients: Option<seq<seq<real>>>, repr: real -> string, fmt: real -> string)
      returns (text: string)
      ensures text == EngradText(natom, energy, gradients, repr, fmt)
    {
      var header := EngradHeader(natom, energy, repr);
      if gradients.None? {
        return header;
      }
      // np.savetxt: the header line, then one formatted value per line
      var body := ValueLines(Flatten(gradients.value), fmt);
      return header + "\n" + body;
    }

    /** `Orca6Driver.pyscf_atom`: the XYZ file name, which pyscf reads itself. */
    function PyscfAtom(): (r: string)
      ensures r == Input().xyzFile
    {
      xyzFile
    }
  }

  /** The loop of `np.savetxt` over the flattened gradients: one line per value. */
  method ValueLines(values: seq<real>, fmt: real -> string) returns (body: string)
    ensures body == Terminated(Map(values, fmt), '\n')
  {
    body := "";
    for k := 0 to |values|
      invariant body == Terminated(Map(values[..k], fmt), '\n')
    {
      ValueLinesStep(values, k, fmt);
      body := body + fmt(values[k]) + "\n";
    }
    assert values[..|values|] == values;
  }

  /** One pass of `np.savetxt`'s loop adds one value line. */
  lemma ValueLinesStep(values: seq<real>, k: nat, fmt: real -> string)
    requires k < |values|
    ensures Terminated(Map(values[..k + 1], fmt), '\n') == Terminated(Map(values[..k], fmt), '\n') + fmt(values[k]) + "\n"
  {
    assert Map(values[..k + 1], fmt) == Map(values[..k], fmt) + [fmt(values[k])];
    TerminatedSnoc(Map(values[..k], fmt), fmt(values[k]), '\n');
  }

  /** The two files `__init__` reads: the input file, then the XYZ file it names. */
  function OrcaFiles(inpFile: string, files: map<string, string>, table: seq<string>,
                     parseFloat: string -> Option<real>): Result<(OrcaInput, XyzData)>
  {
    if inpFile !in files then Err(FileNotFoundError)
    else match ParseOrcaInput(files[inpFile])
      case Err(e) => Err(e)
      case Ok(inp) =>
        if inp.xyzFile !in files then Err(FileNotFoundError)
        else match XyzOfLines(ReadLines(files[inp.xyzFile]), table, parseFloat)
          case Err(e) => Err(e)
          case Ok(xyz) => Ok((inp, xyz))
  }

  /** The loop of `__init__` over `xyzfile[2:]`: each line is read in turn, with
      `readAtom` standing for the body of one pass, and its symbol, atomic number
      and coordinates appended, until a line raises. */
  method ReadXyzAtoms(body: seq<string>, readAtom: string -> Result<XyzAtom>)
    returns (failure: Option<PyError>, symbols: seq<string>, atomsNuc: seq<int>, coords: seq<seq<real>>)
    ensures failure.Some? ==> FirstErr(Map(body, readAtom)) == Err(failure.value)
    ensures failure.None? ==> var r := FirstErr(Map(body, readAtom));
      r.Ok? && symbols == Symbols(r.value) && atomsNuc == Nucs(r.value) && coords == Coords(r.value)
  {
    symbols, atomsNuc, coords := [], [], [];
    ghost var rs := Map(body, readAtom);
    for k := 0 to |body|
      invariant FirstErr(rs[..k]).Ok?
      invariant symbols == Symbols(FirstErr(rs[..k]).value)
      invariant atomsNuc == Nucs(FirstErr(rs[..k]).value)
      invariant coords == Coords(FirstErr(rs[..k]).value)
    {
      var atom := readAtom(body[k]);
      FirstErrStep(rs, k);
      if atom.Err? {
        FirstErrPrefix(rs, k + 1);
        return Some(atom.error), symbols, atomsNuc, coords;
      }
      XyzAtomsSnoc(FirstErr(rs[..k]).value, atom.value);
      symbols := symbols + [atom.value.symbol];
      atomsNuc := atomsNuc + [atom.value.nuc];
      coords := coords + [atom.value.coord];
    }
    assert rs[..|body|] == rs;
    failure := None;
  }

  lemma XyzAtomsSnoc(atoms: seq<XyzAtom>, a: XyzAtom)
    ensures Symbols(atoms + [a]) == Symbols(atoms) + [a.symbol]
    ensures Nucs(atoms + [a]) == Nucs(atoms) + [a.nuc]
    ensures Coords(atoms + [a]) == Coords(atoms) + [a.coord]
  {
  }

  /** `Orca6Driver.__init__`: reads the input file, then the XYZ file it names,
      and builds the driver, or raises. */
  method LoadOrca6Driver(inpFile: string, files: map<string, string>, table: seq<string>,
                         parseFloat: string -> Option<real>)
    returns (r: Result<Orca6Driver>)
    ensures r.Err? <==> OrcaFiles(inpFile, files, table, parseFloat).Err?
    ensures r.Err? ==> r.error == OrcaFiles(inpFile, files, table, parseFloat).error
    ensures r.Ok? ==> (r.value.Input(), r.value.XyzFields()) == OrcaFiles(inpFile, files, table, parseFloat).value
    ensures r.Ok? ==> r.value.inpFile == inpFile && !r.value.doHessian
  {
    if inpFile !in files {
      return Err(FileNotFoundError);
    }
    var inp := ParseOrcaInput(files[inpFile]);
    if inp.Err? {
      return Err(inp.error);
    }
    if inp.value.xyzFile !in files {
      return Err(FileNotFoundError);
    }
    var lines := ReadLines(files[inp.value.xyzFile]);
    if |lines| == 0 {
      return Err(IndexError);
    }
    var natom := ParseInt(lines[0]);
    if natom.None? {
      return Err(ValueError);
    }
    if |lines| == 1 {
      return Err(IndexError);
    }
    var readAtom := line => ParseXyzAtom(line, table, parseFloat);
    var failure, symbols, atomsNuc, coords := ReadXyzAtoms(lines[2..], readAtom);
    assert Map(lines[2..], readAtom) == Map(lines[2..], line => ParseXyzAtom(line, table, parseFloat));
    if failure.Some? {
      return Err(failure.value);
    }
    var driver := new Orca6Driver(inpFile, inp.value, XyzData(natom.value, lines[1], symbols, atomsNuc, coords));
    return Ok(driver);
  }
}
