# Gaussian-PES in Dafny

This project models the core of Gaussian-PES, a small Python package that lets a
user-written potential energy surface (PES) act as the energy engine of a quantum
chemistry program. It has three parts:

- **The finite-difference engine** (`BasePes`, base_pes.dfy). This is the default
  derivative code of the abstract `BasePES` class:
  - `_check_coords`, the (N, 3) shape check;
  - `calc_gradients`, the central-difference gradient, which moves each coordinate
    of the caller's array by +δ, then −2δ, then +δ;
  - `calc_force_constants`, the lower triangle of the Hessian, built from central
    differences of gradient components and worked through a reshape view of the
    same array.

  The coordinates are one flat `array<real>` of 3N entries in row-major order. The
  (3N, 1) and (N, 3) views share that memory, so both are this one array.
  `calc_energy` is a function parameter `energy`, applied to the current
  coordinates.
- **The Gaussian `External` adapter** (`Gaussian`, gau_driver.dfy). This covers:
  - reading the input file Gaussian writes: a header of four integers, then one
    `atomic_number x y z` line per atom, each coordinate divided by the
    Bohr-per-Ångström constant;
  - setting the derivative flags;
  - laying out the output file Gaussian reads back: the energy line, the gradient
    lines, the polarizability and dipole-derivative placeholder lines, and the
    force constants three per line;
  - `xyz` and `pyscf_atom`.
- **The ORCA 6 external-method adapter** (`Orca`, orca_driver.dfy). This covers:
  - reading the ORCA input file, with every line cut at `#`: the `.xyz` file name,
    the `.engrad` name derived from it, three integer lines, and the gradient flag;
  - reading the XYZ file;
  - laying out the `.engrad` file;
  - `pyscf_atom`.

`PyText` (py_text.dfy) models the Python builtins these three parts use:
- `str.split()`, `str.split(c)`, `re.split(" +", …)`, `strip`, `str.replace` and
  `str.join`;
- `readlines`, which keeps each line's newline;
- `int()`, `list.index`, negative list indexing and `str(int)`.

Python exceptions are values: `Result<T>` is `Ok(value)` or `Err(error)`, where the
error is `ValueError`, `IndexError`, `TypeError`, `AttributeError` or
`FileNotFoundError`. Some pieces are parameters of the model rather than
definitions:
- float parsing, `parseFloat`, gives `None` where `float()` raises;
- the number formats are `fmt` and `repr`. The layout lemmas assume a
  format has width 20 or never produces a newline;
- `calc_energy` is `energy`;
- `PERIODIC_TABLE` is `table`;
- the Gaussian adapter's Bohr-per-Ångström constant is `ang2Bohr`. base_pes.py's
  own constant is `BasePes.Ang2Bohr` (1.8897259886).

Files are text. `files: map<string, string>` maps a path to its contents, and
opening a path that is not in the map raises `FileNotFoundError`. Both adapters
are immutable after construction, so each is a class with `const` fields. A
`Load…` method holds the parsing loop and returns the object or the exception.
It is proved equal to a specification function of the file contents, and the
lemmas describe that function.

Where the code and its description differ, this model follows the code:
- The Gaussian adapter builds its atom symbols but never stores them, so its `xyz`
  always raises `AttributeError`.
- The ORCA adapter's `pyscf_atom` returns the XYZ file name, not an atom list.
- The ORCA gradient flag is the truth value of the fifth cut line as a string. So a flag "0" also sets `do_gradient`; only an empty cut line clears it (`Orca.GradientFlagLines`).
- The ORCA `write` chooses its layout by whether `gradients` is `None`, not by
  `do_gradient`.
- The two adapters use different table offsets. The Gaussian adapter looks up
  `PERIODIC_TABLE[nuc-1]`, a Python index that may be negative. The ORCA adapter
  uses `PERIODIC_TABLE.index(sym)`. `Orca.TableOffsets` shows how the two relate.

## Model

| member | source | states |
|---|---|---|
| BasePes.CheckCoords | gau_pes/base_pes.py:17-25 | The shape check can only fail with a ValueError. |
| BasePes.CheckCoordsOfRows | gau_pes/base_pes.py:21-25 | For a rectangular array of rows, the check passes exactly when there are num_atoms ≥ 1 rows and each row has 3 entries. Otherwise the shape differs from (num_atoms, 3). |
| BasePes.Displace | gau_pes/base_pes.py:64-66 | A displacement moves coordinate k by d and leaves every other coordinate as it was. |
| BasePes.FdGradient | gau_pes/base_pes.py:59-70 | The gradient has one entry per coordinate. Entry k is (E(x+δe_k) − E(x−δe_k)) / (2·δ·Ang2Bohr). |
| BasePes.GradientCalls | gau_pes/base_pes.py:62-67 | Differencing k coordinates makes exactly 2k energy calls. |
| BasePes.GradientCallsAt | gau_pes/base_pes.py:62-67 | Energy call m displaces coordinate m/2: by +δ when m is even and by −δ when m is odd. Coordinates are visited in order, atom-major and then component, with +δ before −δ. |
| BasePes.OneCoordinateDisplaced | gau_pes/base_pes.py:64-68 | A displacement by a nonzero step changes exactly one coordinate. |
| BasePes.GradientGeometries | gau_pes/base_pes.py:62-67 | Differencing k coordinates hands `calc_energy` 2k coordinate arrays. |
| BasePes.GeometriesFollowCalls | gau_pes/base_pes.py:62-67 | The array handed to energy call m is the original array with the coordinate of step m of GradientCalls moved by that step's shift. |
| BasePes.CallSeesOneDisplacement | gau_pes/base_pes.py:62-68 | The array handed to energy call m has coordinate m/2 moved by +δ when m is even and by −δ when m is odd. Every other coordinate holds its original value. |
| BasePes.DisplacedEnergies | gau_pes/base_pes.py:64-68 | The in-place moves +δ, −2δ, +δ restore the coordinates. The method makes exactly two energy calls, recorded beside the calls. The first is handed x+δe_k and the second x−δe_k, and their energies are returned. |
| BasePes.CalcGradients | gau_pes/base_pes.py:43-72 | The result is a new array of the same length. It equals the finite-difference gradient of the original coordinates. The coordinates are unchanged on return. The arrays handed to `calc_energy`, recorded call by call, are exactly GradientGeometries of the original coordinates. So there are 2·3N calls, in the order of GradientCalls. |
| BasePes.TriClosedForm | gau_pes/base_pes.py:100-113 | The lower triangle of n rows has n(n+1)/2 entries. |
| BasePes.TriMonotone | gau_pes/base_pes.py:100-101 | A triangle of more rows has at least as many entries. |
| BasePes.TriIndexInjective | gau_pes/base_pes.py:100-113 | Distinct pairs (i, j ≤ i) get distinct positions i(i+1)/2 + j. |
| BasePes.TriIndexOnto | gau_pes/base_pes.py:100-113 | Every position below n(n+1)/2 belongs to some pair (i, j ≤ i) with i < n. |
| BasePes.FcRow | gau_pes/base_pes.py:101-113 | Row i of the triangle holds i + 1 entries. |
| BasePes.FcRows | gau_pes/base_pes.py:100-113 | The first n rows hold Tri(n) entries. |
| BasePes.FcRowsAt | gau_pes/base_pes.py:100-113 | The value for pair (i, j ≤ i) sits at position i(i+1)/2 + j. It is FcEntry(i, j), the central difference along coordinate i of gradient component j. |
| BasePes.CalcGradientComponent | gau_pes/base_pes.py:91-95 | The helper returns component k of the full gradient at the current coordinates, and leaves the coordinates unchanged. |
| BasePes.CalcForceConstants | gau_pes/base_pes.py:74-115 | The helper works through the aliased view of the caller's array. It returns the lower triangle, row by row, of the finite-difference Hessian of the original coordinates. The coordinates are unchanged on return. |
| BasePes.ForceConstantsCount | gau_pes/base_pes.py:100-113 | For 3N coordinates the helper returns 3N(3N+1)/2 values. |
| Gaussian.AtomOfFields | gau_pes/gau_driver.py:61-65 | The definition of one atom pass after the split. A missing `arr[0]` is an IndexError and a non-integer first field a ValueError. A `PERIODIC_TABLE[nuc-1]` out of range is an IndexError and a bad float a ValueError. Otherwise the atom is nuc and the floats of `arr[1:4]` divided by the constant. AtomOfFieldsOk and AtomOfWords state what it gives. |
| Gaussian.ParseAtom | gau_pes/gau_driver.py:61-65 | The definition of one atom pass: `split()` of the line, then AtomOfFields. |
| Gaussian.ReadJob | gau_pes/gau_driver.py:56-74 | The definition of the read after the header. The first raising atom line ends it with its error, and rows of unequal length make `np.array` raise ValueError. AtomLines states what it gives. |
| Gaussian.ParseGauInput | gau_pes/gau_driver.py:52-74 | The definition of `__init__` on the file text: the header, then ReadJob. HeaderFourInts, AtomsInOrder, MissingAtomLineFails and ReadCoordsCheck state what it gives. |
| Gaussian.GauInput | gau_pes/gau_driver.py:52 | The definition of opening the input file: a path that is not in the file map is a FileNotFoundError. |
| Gaussian.ToAngstrom | gau_pes/gau_driver.py:65 | Each coordinate is its input value divided by the constant. Multiplying by the constant recovers the input. |
| Gaussian.HeaderInts | gau_pes/gau_driver.py:53-54 | A header that reads gives four integers. A header that does not read gives a ValueError. |
| Gaussian.HeaderFourInts | gau_pes/gau_driver.py:53-59 | The first line must split into exactly four integers, or the read is a ValueError. A successful read takes them in the order natom, derivs, charge, multiplicity. |
| Gaussian.AtomResults | gau_pes/gau_driver.py:60-62 | `range(natom)` reads lines 1 .. natom one after another, and each line is read as one atom. |
| Gaussian.Nucs | gau_pes/gau_driver.py:62-63 | The atomic numbers are taken in atom order. |
| Gaussian.Coords | gau_pes/gau_driver.py:65-66 | The coordinate rows are taken in atom order. |
| Gaussian.AtomsInOrder | gau_pes/gau_driver.py:60-66 | A successful read has max(natom, 0) atomic numbers and coordinate rows. Atom k is exactly what input line k + 1 reads as. |
| Gaussian.AtomLines | gau_pes/gau_driver.py:56-66 | On the line list, natom is the header's first integer and the atoms follow in input order. |
| Gaussian.AtomOfFieldsOk | gau_pes/gau_driver.py:61-65 | An atom line that reads has an integer first field. Its table lookup PERIODIC_TABLE[nuc-1] is in range, allowing negative indices. Its coordinates are at most fields 1–3 divided by the constant, and fields after the fourth are ignored. |
| Gaussian.AtomCoordCount | gau_pes/gau_driver.py:61-65 | A line with t fields gives min(3, t − 1) coordinates. |
| Gaussian.MissingAtomLineFails | gau_pes/gau_driver.py:60-62 | If the file has fewer than natom + 1 lines, the read fails: a missing line splits to nothing and `arr[0]` raises. |
| Gaussian.AtomLineOfTokens | gau_pes/gau_driver.py:61-65 | A line made of `str(nuc)` and at least three float tokens, joined with one blank between fields, reads back as that atomic number and those coordinates divided by the constant. AtomOfWords states the same for any spacing, on the fields `split()` gives. |
| Gaussian.AtomOfWords | gau_pes/gau_driver.py:61-65 | The same statement on the split fields. |
| Gaussian.ReadCoordsCheck | gau_pes/gau_driver.py:73-74 | The coordinates read pass the (natom, 3) shape check exactly when natom ≥ 1 and every row has three coordinates. |
| Gaussian.ReadAtomLines | gau_pes/gau_driver.py:60-66 | The appending loop stops at the first atom line that raises and reports that error. Otherwise it returns the atomic numbers and coordinates of all natom lines, in order. |
| Gaussian.NucsCoordsSnoc | gau_pes/gau_driver.py:63-66 | Appending one atom extends both lists by that atom's entries. |
| Gaussian.LoadGauDriver | gau_pes/gau_driver.py:41-74 | The constructor fails exactly when reading the input file fails, with the same exception. Otherwise it stores the file names and exactly the job read from the file. do_gradient holds iff derivs ∈ {1, 2} and do_hessian holds iff derivs = 2. |
| Gaussian.GauDriver.constructor | gau_pes/gau_driver.py:68-71 | The flags follow derivs: do_gradient iff derivs is 1 or 2, and do_hessian iff derivs is 2. So do_hessian implies do_gradient. |
| Gaussian.OutputRows | gau_pes/gau_driver.py:84-109 | The definition of the rows `write` prints, by derivs, or the exception it raises first. OutputErrors and OutputLayout state what it gives. |
| Gaussian.OutputText | gau_pes/gau_driver.py:84-111 | The definition of the output text: the rendered rows joined by "\n". OutputLines and RenderRowFields state its line and field structure. |
| Gaussian.Render | gau_pes/gau_driver.py:85-91 | There is one output line per row, in row order. |
| Gaussian.RenderSnoc | gau_pes/gau_driver.py:86-92 | Appending a row appends its line. |
| Gaussian.RenderStep | gau_pes/gau_driver.py:90-92 | Each loop step appends the line of the next row. |
| Gaussian.AppendRendered | gau_pes/gau_driver.py:90-92 | The appending loop adds the lines of all rows of a block, in order. |
| Gaussian.AppendHessian | gau_pes/gau_driver.py:95-109 | A missing force-constant array is an AttributeError, and a length that is not a multiple of 3 is a ValueError. Otherwise the result is 2 polarizability lines and max(3·natom, 0) zero lines, then the force constants three per line. |
| Gaussian.Zeros | gau_pes/gau_driver.py:96-104 | Every placeholder row is three zeros. |
| Gaussian.Chunks3 | gau_pes/gau_driver.py:107 | The reshape to (−1, 3) gives \|fc\|/3 rows, and row m is fc[3m..3m+3]. |
| Gaussian.ChunksKeepOrder | gau_pes/gau_driver.py:107-109 | Flattening the rows gives back the force constants in their original order. |
| Gaussian.OutputErrors | gau_pes/gau_driver.py:84-111 | The exceptions of `write` are exhaustive and exclusive: a missing gradient array with derivs in {1, 2} is a TypeError; with derivs 2, missing force constants are an AttributeError and a length that is not a multiple of 3 is a ValueError. Every other input succeeds. |
| Gaussian.OutputLayout | gau_pes/gau_driver.py:84-109 | The first row is the energy and three zeros. derivs ∉ {1, 2} gives 1 row. derivs = 1 gives 1 + \|g\| rows, one per element of the gradient array g in order; that count is never compared with natom. derivs = 2 gives 1 + \|g\| + (2 + 3·max(natom, 0)) + \|fc\|/3 rows: the gradient rows, then 2 + 3·max(natom, 0) zero rows, then the force constants three per row. |
| Gaussian.FullTriangleLines | gau_pes/gau_driver.py:107-109 | For a full lower triangle of 3N coordinates, \|fc\| is a multiple of 3 and there are N(3N+1)/2 force-constant lines. |
| Gaussian.TriOfTriple | gau_pes/gau_driver.py:107-109 | The triangle of 3n rows is three times FcLineCount(n), and 2·FcLineCount(n) = n(3n+1). |
| Gaussian.RenderRowFields | gau_pes/gau_driver.py:85-108 | With a width-20 format, a line of k values is 20·k characters. Field m, at characters 20m .. 20m+20, is the format of value m. |
| Gaussian.OutputLines | gau_pes/gau_driver.py:111 | With a format that never writes a newline, splitting the text at "\n" gives back exactly the rendered lines. So the lines are joined by "\n" with no trailing newline. |
| Gaussian.RowAvoids | gau_pes/gau_driver.py:91 | A character the format never writes does not appear in a rendered line. |
| Gaussian.GauDriver.Write | gau_pes/gau_driver.py:76-114 | The method builds the output exactly as OutputText specifies: the layout of OutputLayout, or the exception of OutputErrors. |
| Gaussian.GauDriver.Xyz | gau_pes/gau_driver.py:116-120 | The method always raises AttributeError, because the symbols were never stored on the object. |
| Gaussian.PyscfResults | gau_pes/gau_driver.py:124-125 | There is one segment per atom, zipped to the shorter list. A row with fewer than 3 coordinates raises IndexError. |
| Gaussian.PyscfText | gau_pes/gau_driver.py:122-126 | The definition of `pyscf_atom`: every segment followed by ';', or the first IndexError. PyscfAtomFails, PyscfAtomSegments and PyscfSegmentReads state what it gives. |
| Gaussian.PyscfAtomFails | gau_pes/gau_driver.py:122-126 | The atom string is built exactly when every zipped row has at least 3 coordinates. Otherwise it is an IndexError. |
| Gaussian.PyscfAtomSegments | gau_pes/gau_driver.py:122-126 | With a format that never writes ';', splitting the string at ';' gives one segment per atom, in order, each terminated by ';'. |
| Gaussian.PyscfSegmentReads | gau_pes/gau_driver.py:125 | Each segment contains no ';', and its first field reads back as the atomic number. |
| Gaussian.GauDriver.PyscfAtom | gau_pes/gau_driver.py:122-126 | The accumulating loop gives the string PyscfText specifies. |
| Orca.CutComment | gau_pes/orca_driver.py:42 | The definition of `line.split("#")[0]`. CutCommentPrefix and GradientFlagLines state what it gives. |
| Orca.CutCommentPrefix | gau_pes/orca_driver.py:42 | A cut line is the prefix of the line before its first '#'. It contains no '#'. A line without '#' is unchanged. |
| Orca.CutLines | gau_pes/orca_driver.py:42 | Every line is cut, and the lines keep their order. |
| Orca.GradientFlagLines | gau_pes/orca_driver.py:42-51 | A line that is only a newline stays non-empty after the cut. A line that starts with '#' becomes empty. Every other non-empty line stays non-empty, so with InputFields a flag line such as "0 # do gradient" sets do_gradient. |
| Orca.EngradName | gau_pes/orca_driver.py:47 | The definition of `xyz_file.replace(".xyz", ".engrad")`. EngradOfXyz and EngradUnchanged state what it gives. |
| Orca.EngradOfXyz | gau_pes/orca_driver.py:47 | For a stem without '.', "stem.xyz" becomes "stem.engrad". |
| Orca.EngradUnchanged | gau_pes/orca_driver.py:47 | A name is left unchanged exactly when it does not contain ".xyz". |
| Orca.ThreeIntsAt | gau_pes/orca_driver.py:49-50 | The unpacking succeeds exactly when there are three lines and each reads as an integer, and the integers are taken in order. |
| Orca.InputOfLines | gau_pes/orca_driver.py:45-51 | The definition of `__init__` on the cut lines of the input file, up to the XYZ file. InputFields and InputErrors state what it gives. |
| Orca.ParseOrcaInput | gau_pes/orca_driver.py:41-51 | The definition of the input file read from its text: `readlines`, the cut, then InputOfLines. |
| Orca.InputFields | gau_pes/orca_driver.py:41-51 | The input reads exactly when it has at least five lines and lines 2–4 are integers. Then xyz_file is the stripped first line, engrad_file is derived from it, charge, multiplicity and NCores come from lines 2, 3 and 4, and do_gradient holds iff the fifth cut line is non-empty. |
| Orca.InputErrors | gau_pes/orca_driver.py:45-51 | An empty file is an IndexError. A bad integer or a count other than three is a ValueError. Four good lines with no fifth are an IndexError. |
| Orca.AtomOfTokens | gau_pes/orca_driver.py:62-65 | The definition of one atom pass after the split. There must be exactly four tokens, the symbol is looked up with `PERIODIC_TABLE.index`, and the three floats are read. Each failure is a ValueError. AtomOfTokensOk and AtomOfTokensFails state what it gives. |
| Orca.ParseXyzAtom | gau_pes/orca_driver.py:62-65 | The definition of one atom pass: `split(" +", line.strip())`, then AtomOfTokens. XyzAtomOfLine states its round trip. |
| Orca.AtomOfTokensOk | gau_pes/orca_driver.py:62-65 | An atom line that reads has exactly four tokens. Its number is the first index of the symbol in the table. Its three coordinates are the three floats. |
| Orca.AtomOfTokensFails | gau_pes/orca_driver.py:62-65 | An atom line fails exactly when its token count is not 4, its symbol is not in the table, or a coordinate is not a float. Every such failure is a ValueError. |
| Orca.XyzAtomOfLine | gau_pes/orca_driver.py:62-65 | A symbol in the table and three float tokens, joined by spaces, read back as that symbol, its table index and those floats. |
| Orca.NoSpaceNoBlank | gau_pes/orca_driver.py:62 | A token without whitespace has no blank. |
| Orca.JoinNoSpaceEnds | gau_pes/orca_driver.py:62 | Tokens joined by single spaces need no stripping. |
| Orca.Symbols | gau_pes/orca_driver.py:63 | The symbols are taken in atom order. |
| Orca.Nucs | gau_pes/orca_driver.py:64 | The table indices are taken in atom order. |
| Orca.Coords | gau_pes/orca_driver.py:65 | The coordinate rows are taken in atom order. |
| Orca.XyzOfLines | gau_pes/orca_driver.py:54-69 | The definition of the XYZ read. A missing line 0 is an IndexError and a non-integer line 0 a ValueError. A missing line 1 is an IndexError. Then one atom per remaining line, up to the first that raises. XyzAtomsInOrder states what it gives. |
| Orca.XyzAtomsInOrder | gau_pes/orca_driver.py:54-69 | A successful XYZ read takes natom from line 1 and the comment from line 2. It has one atom per remaining line, in order, never checked against natom. Every coordinate row has 3 entries. |
| Orca.TableOffsets | gau_pes/orca_driver.py:64 | For a table without repeats, the ORCA lookup of the symbol at the Gaussian offset nuc − 1 gives nuc − 1. So the same table used both ways numbers atoms one apart. |
| Orca.ReadXyzAtoms | gau_pes/orca_driver.py:61-65 | The appending loop stops at the first atom line that raises and reports that error. Otherwise it returns the symbols, indices and coordinates of every line, in order. |
| Orca.XyzAtomsSnoc | gau_pes/orca_driver.py:63-65 | Appending one atom extends all three lists by that atom's entries. |
| Orca.LoadOrca6Driver | gau_pes/orca_driver.py:38-69 | The constructor fails exactly when reading the input file or the XYZ file it names fails, with the same exception. Otherwise it holds exactly what the two files read as, and do_hessian is false. |
| Orca.Orca6Driver.constructor | gau_pes/orca_driver.py:38-69 | The object holds the input file's fields and the XYZ data given, and do_hessian stays false. |
| Orca.EngradText | gau_pes/orca_driver.py:76-81 | The definition of the `.engrad` text: the header alone when gradients is None, otherwise the header then `savetxt` of the flattened gradients. EngradWithoutGradients and EngradWithGradients state its lines. |
| Orca.EngradWithoutGradients | gau_pes/orca_driver.py:76-78 | With no gradients, the file is exactly the two lines natom and energy, with no trailing newline. |
| Orca.EngradWithGradients | gau_pes/orca_driver.py:76-81 | With gradients, the file is 3N + 2 newline-terminated lines: natom, energy, then the flattened gradients in row-major order, one value per line. |
| Orca.JoinAppend | gau_pes/orca_driver.py:79-81 | Joining two non-empty line lists puts one "\n" between them. |
| Orca.ValueLines | gau_pes/orca_driver.py:79-81 | The loop writes each value on its own newline-terminated line, in order. |
| Orca.ValueLinesStep | gau_pes/orca_driver.py:79-81 | Each loop step appends the next value's line. |
| Orca.Orca6Driver.Write | gau_pes/orca_driver.py:71-81 | The method writes EngradText: the header alone when gradients is None, and the header followed by the value lines otherwise. |
| Orca.Orca6Driver.PyscfAtom | gau_pes/orca_driver.py:86-87 | The method returns xyz_file unchanged. |
| PyText.ReadLines | gau_pes/orca_driver.py:41 | The definition of `readlines`: lines that keep their "\n". ReadLinesFlatten and ReadLinesNewlines state what it gives. |
| PyText.Strip | gau_pes/orca_driver.py:45 | `str.strip()` leaves no whitespace at either end, and leaves a string that has none unchanged. |
| PyText.Fields | gau_pes/gau_driver.py:54 | Every field of `str.split()` is non-empty and holds no whitespace. FieldsOfJoin states its round trip. |
| PyText.SplitOn | gau_pes/orca_driver.py:42 | `s.split(sep)` gives at least one piece, none of which holds the separator. SplitOnJoin states its round trip. |
| PyText.SplitBlanks | gau_pes/orca_driver.py:62 | `re.split(" +", s)` gives at least one piece, none of which holds a blank. SplitBlanksOfJoin states its round trip. |
| PyText.ReplaceAll | gau_pes/orca_driver.py:47 | The definition of `str.replace`: every non-overlapping occurrence, left to right. ReplaceAllUnchangedIff and ReplaceAllSuffix state what it gives. |
| PyText.ReplaceAllSuffix | gau_pes/orca_driver.py:47 | On a stem that does not hold the pattern's first character, only the trailing pattern is replaced. |
| PyText.ParseInt | gau_pes/gau_driver.py:54 | The definition of `int()` on a str: surrounding whitespace, an optional sign, then a decimal literal. Anything else is the ValueError. ParseIntOfIntToString states its round trip. |
| PyText.IntToString | gau_pes/orca_driver.py:76 | `str(n)` is non-empty and holds no whitespace. ParseIntOfIntToString states that it reads back as n. |
| PyText.FlattenRowMajor | gau_pes/orca_driver.py:80 | `reshape(-1)` of rows of 3 puts atom i's component j at position 3i + j. |
| PyText.ReadLinesFlatten | gau_pes/orca_driver.py:41 | `readlines` loses nothing: concatenating the lines gives back the text. |
| PyText.ReadLinesNewlines | gau_pes/orca_driver.py:41 | Every line but the last ends in "\n", and no line has a newline before its end. |
| PyText.ParseIntOfIntToString | gau_pes/orca_driver.py:55 | `int(str(n)) == n` for every integer n. |
| PyText.SplitOnJoin | gau_pes/gau_driver.py:111 | Splitting a "\n"-join of newline-free lines gives back the lines. |
| PyText.SplitBlanksOfJoin | gau_pes/orca_driver.py:62 | `re.split(" +")` of space-free tokens joined by spaces gives back the tokens. |
| PyText.FieldsOfJoin | gau_pes/gau_driver.py:61 | `str.split()` of whitespace-free tokens joined by single spaces gives back the tokens. |
| PyText.ReplaceAllUnchangedIff | gau_pes/orca_driver.py:47 | With a replacement longer than the pattern, as ".engrad" is longer than ".xyz", `str.replace` changes a string exactly when the pattern occurs in it. |
| PyText.IndexOf | gau_pes/orca_driver.py:64 | `list.index` gives the first position of the value, and fails exactly when the value is absent. |
| PyText.PyIndex | gau_pes/gau_driver.py:64 | Python indexing succeeds exactly for −\|s\| ≤ i < \|s\|. Any other index is an IndexError. |
| PyText.PyIndexFromEnd | gau_pes/gau_driver.py:64 | A negative index counts from the end: `s[i]` is `s[len(s) + i]`. |
| PyText.Map | gau_pes/orca_driver.py:61-65 | A list comprehension gives one result per element, in order. The model uses it for the atom lines of the XYZ file and for the value lines of `savetxt`. |
| PyText.FirstErrIsFirst | gau_pes/gau_driver.py:60-66 | A loop of steps that may raise reports the error of the first failing step, and every earlier step succeeded. |

## Left out

- File and argument plumbing are not modelled: `from_stdio`, `argv`, `open`, `readline` and `f.write`. File contents are a path-to-text map, and each operation returns the text it would write.
- Newline translation when reading (`\r\n` to `\n`) is not modelled; each file is its already-translated text.
- Float parsing and formatting are parameters: `float()`, `%20.12E`, `%23.17e`, `np.savetxt`'s `%.18e` and `repr(float)`. The model therefore does not fix any digits.
- Coordinates are exact reals. The rounding drift of the +δ, −2δ, +δ revert, and any accuracy or error-order claim about the differences, are outside the model.
- BasePes.CalcGradients: a zero step is excluded by `delta != 0.0`. What Python does with a zero step depends on the type `calc_energy` returns and on N, and is not modelled.
- BasePes.CalcGradients: coordinates are an (N, 3) array, so the flat length is required to be a multiple of 3. Other NumPy shapes are not modelled.
- BasePes.CalcGradients: `calc_energy` is the total function `energy`, so it never raises. In the source a `calc_energy` that raises leaves the coordinate it was differencing displaced by +δ or −δ, since nothing restores it on the way out. The model's "coordinates unchanged on return" covers only energies that return.
- BasePes.CalcForceConstants: the same applies. An exception from a gradient evaluation leaves `X[i]` displaced by +δ or −δ, and the model does not capture that state.
- BasePes.CalcForceConstants: the flat length is required to be a multiple of 3, as for CalcGradients. In the source another length reaches `reshape(-1, 3)` and raises ValueError there; the model does not include that error path.
- BasePes.CalcForceConstants: `_calc_gradient_component` calls `self.calc_gradients`, which a subclass may override. The model always uses the finite-difference CalcGradients of this class, so FcRows describes the Hessian only for a PES that keeps the default `calc_gradients`.
- BasePes.CalcForceConstants: returns a `seq<real>` for `np.array(force_constants)`. The NumPy dtype and the array object are not modelled.
- The `gau_pes.data` module is not part of this model. `PERIODIC_TABLE` and `_ANG2BOHR` are the parameters `table` and `ang2Bohr`.
- Gaussian.LoadGauDriver: `ang2Bohr` must be nonzero, because division by that constant is well defined in the source.
- Gaussian.LoadGauDriver: the local symbol list is not kept. The source never stores it on the object, so only its lookup failures (IndexError from PERIODIC_TABLE[nuc-1]) take part in the model.
- Gaussian.LoadGauDriver: `np.array` on rows of unequal length is modelled as a ValueError, which is NumPy 1.24 and later.
- PyText.ParseInt: `int()` is modelled on ASCII digits, with an optional sign, single underscores between digits and surrounding whitespace (`str.isspace`). Python also accepts non-ASCII Unicode decimal digits, and the model rejects them.
- Orca.EngradOfXyz: the lemma is stated only for stems without '.'. Other names are described through EngradUnchanged and ReplaceAll.
- The ORCA `xyz()` method only re-reads a file, so it is not modelled.
- The ORCA `pointcharges_file` attribute is declared but is never set or read, so it is not modelled.
- np.savetxt is modelled only as the header line followed by one newline-terminated value per line. Its other options are not used by the source.
