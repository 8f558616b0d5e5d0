/**
 * The Python built-ins on `str`, `int` and `list` that the two adapters rely on,
 * stated on Dafny strings (`seq<char>`): `strip`, `split()`, `split(sep)`,
 * `re.split(" +", ...)`, `sep.join`, `replace`, `readlines`, `int(...)`, `str(int)`,
 * `list.index` and Python's signed list indexing.
 */
module PyText {

  datatype Option<+T> = None | Some(value: T)

  /** The Python exception class that a failing step raises. */
  datatype PyError = ValueError | IndexError | TypeError | AttributeError | FileNotFoundError

  /** The outcome of a Python computation that may raise. */
  datatype Result<+T> = Ok(value: T) | Err(error: PyError)

  function Min(a: int, b: int): int
  {
    if a <= b then a else b
  }

  // ------------------------------------------------------------------ characters

  /** Python's `str.isspace()` for one character. */
  predicate IsSpace(c: char)
  {
    || c == ' ' || '\t' <= c <= '\r' || '\U{1C}' <= c <= '\U{1F}'
    || c == '\U{85}' || c == '\U{A0}' || c == '\U{1680}' || '\U{2000}' <= c <= '\U{200A}'
    || c == '\U{2028}' || c == '\U{2029}' || c == '\U{202F}' || c == '\U{205F}' || c == '\U{3000}'
  }

  predicate IsDigit(c: char)
  {
    48 <= c as int <= 57
  }

  predicate NoSpace(s: string)
  {
    forall i :: 0 <= i < |s| ==> !IsSpace(s[i])
  }

  /** The concatenation of a sequence of sequences (`"".join` on strings). */
  function Flatten<T>(rows: seq<seq<T>>): seq<T>
  {
    if rows == [] then [] else rows[0] + Flatten(rows[1..])
  }

  /** Every row has three entries: the rows are an array of shape (n, 3). */
  predicate Width3<T>(rows: seq<seq<T>>)
  {
    forall i :: 0 <= i < |rows| ==> |rows[i]| == 3
  }

  /** `reshape(-1)` of an (n, 3) array is row-major: entry (i, j) lands at 3i + j. */
  lemma {:induction false} FlattenRowMajor<T>(rows: seq<seq<T>>)
    requires Width3(rows)
    ensures |Flatten(rows)| == 3 * |rows|
    ensures forall i, j :: 0 <= i < |rows| && 0 <= j < 3 ==> Flatten(rows)[3 * i + j] == rows[i][j]
  {
    if rows != [] {
      FlattenRowMajor(rows[1..]);
      forall i, j | 0 <= i < |rows| && 0 <= j < 3
        ensures Flatten(rows)[3 * i + j] == rows[i][j]
      {
        if i > 0 {
          assert Flatten(rows)[3 * i + j] == Flatten(rows[1..])[3 * (i - 1) + j];
        }
      }
    }
  }

  // ------------------------------------------------------------------ strip

  /** Python's `str.lstrip()`. */
  function LStrip(s: string): (r: string)
    ensures |r| <= |s|
    ensures r == [] || !IsSpace(r[0])
    decreases |s|
  {
    if s != [] && IsSpace(s[0]) then LStrip(s[1..]) else s
  }

  /** Python's `str.rstrip()`. */
  function RStrip(s: string): (r: string)
    ensures |r| <= |s|
    ensures r == [] || !IsSpace(r[|r| - 1])
    decreases |s|
  {
    if s != [] && IsSpace(s[|s| - 1]) then RStrip(s[..|s| - 1]) else s
  }

  /** Python's `str.strip()`: the result has no space at either end, and a string
      that has none is left unchanged. */
  function Strip(s: string): (r: string)
    ensures |r| <= |s|
    ensures r == [] || (!IsSpace(r[0]) && !IsSpace(r[|r| - 1]))
    ensures (s == [] || (!IsSpace(s[0]) && !IsSpace(s[|s| - 1]))) ==> r == s
  {
    RStripPrefix(LStrip(s));
    RStrip(LStrip(s))
  }

  /** `lstrip` removes exactly the leading run of spaces. */
  lemma {:induction false} LStripSuffix(s: string)
    ensures var r := LStrip(s); r == s[|s| - |r|..] && forall i :: 0 <= i < |s| - |r| ==> IsSpace(s[i])
    decreases |s|
  {
    if s != [] && IsSpace(s[0]) {
      LStripSuffix(s[1..]);
      forall i | 1 <= i < |s| - |LStrip(s)| ensures IsSpace(s[i]) {
        assert s[i] == s[1..][i - 1];
      }
    }
  }

  /** `rstrip` removes exactly the trailing run of spaces. */
  lemma {:induction false} RStripPrefix(s: string)
    ensures var r := RStrip(s); r == s[..|r|] && forall i :: |r| <= i < |s| ==> IsSpace(s[i])
    decreases |s|
  {
    if s != [] && IsSpace(s[|s| - 1]) {
      RStripPrefix(s[..|s| - 1]);
      forall i | |RStrip(s)| <= i < |s| - 1 ensures IsSpace(s[i]) {
        assert s[i] == s[..|s| - 1][i];
      }
    }
  }

  // ------------------------------------------------------------------ split()

  /** The longest prefix of `s` that holds no space. */
  function Word(s: string): (w: string)
    ensures |w| <= |s|
    ensures NoSpace(w)
  {
    if s == [] || IsSpace(s[0]) then [] else [s[0]] + Word(s[1..])
  }

  /** The word is a prefix of `s`, ended by the end of `s` or by a space. */
  lemma {:induction false} WordPrefix(s: string)
    ensures var w := Word(s); w == s[..|w|] && (|w| == |s| || IsSpace(s[|w|]))
    decreases |s|
  {
    if s != [] && !IsSpace(s[0]) {
      WordPrefix(s[1..]);
    }
  }

  /** Python's `str.split()` with no argument: the maximal runs of non-space characters. */
  function Fields(s: string): (r: seq<string>)
    ensures forall k :: 0 <= k < |r| ==> r[k] != [] && NoSpace(r[k])
    decreases |s|
  {
    var t := LStrip(s);
    if t == [] then []
    else
      var w := Word(t);
      assert w != [] by { assert !IsSpace(t[0]); }
      var rest := Fields(t[|w|..]);
      [w] + rest
  }

  lemma {:induction false} WordOfNoSpace(w: string, rest: string)
    requires NoSpace(w)
    requires rest == [] || IsSpace(rest[0])
    ensures Word(w + rest) == w
    decreases |w|
  {
    if w != [] {
      assert (w + rest)[1..] == w[1..] + rest;
      WordOfNoSpace(w[1..], rest);
    } else {
      assert w + rest == rest;
    }
  }

  lemma FieldsOfWord(w: string)
    requires w != [] && NoSpace(w)
    ensures Fields(w) == [w]
  {
    WordOfNoSpace(w, []);
    assert w + [] == w;
    assert w[|w|..] == [];
  }

  lemma FieldsAfterBlank(w: string, rest: string)
    requires w != [] && NoSpace(w)
    ensures Fields(w + [' '] + rest) == [w] + Fields(rest)
  {
    var s := w + [' '] + rest;
    assert s == w + ([' '] + rest);
    WordOfNoSpace(w, [' '] + rest);
    assert LStrip(s) == s;
    assert s[|w|..] == [' '] + rest;
    assert ([' '] + rest)[1..] == rest;
    assert LStrip([' '] + rest) == LStrip(rest);
  }

  /** `split()` undoes a join with single blanks of non-empty blank-free words. */
  lemma {:induction false} FieldsOfJoin(words: seq<string>)
    requires forall k :: 0 <= k < |words| ==> words[k] != [] && NoSpace(words[k])
    ensures Fields(Join(words, ' ')) == words
  {
    if |words| == 1 {
      FieldsOfWord(words[0]);
    } else if |words| > 1 {
      FieldsOfJoin(words[1..]);
      FieldsAfterBlank(words[0], Join(words[1..], ' '));
    }
  }

  // ------------------------------------------------------------------ lines

  /** Python's `file.readline()` after `k` earlier calls: "" once the file is exhausted. */
  function Line(lines: seq<string>, k: nat): string
  {
    if k < |lines| then lines[k] else ""
  }

  /** The first line of `s`, with its "\n" when it has one. */
  function FirstLine(s: string): (l: string)
    ensures |l| <= |s|
    ensures s != [] ==> l != []
  {
    if s == [] then []
    else if s[0] == '\n' then [s[0]]
    else [s[0]] + FirstLine(s[1..])
  }

  /** The first line is a prefix of `s` with no "\n" before its last character,
      which is "\n" unless the line runs to the end of `s`. */
  lemma {:induction false} FirstLinePrefix(s: string)
    ensures var l := FirstLine(s);
      && l == s[..|l|]
      && (forall i :: 0 <= i < |l| - 1 ==> l[i] != '\n')
      && (|l| < |s| ==> l[|l| - 1] == '\n')
  {
    if s != [] && s[0] != '\n' {
      FirstLinePrefix(s[1..]);
      var l := FirstLine(s);
      forall i | 1 <= i < |l| - 1 ensures l[i] != '\n' {
        assert l[i] == FirstLine(s[1..])[i - 1];
      }
    }
  }

  /** Python's `readlines()` on newline-translated text: the lines, each keeping
      its "\n", read back to the whole text. */
  function ReadLines(text: string): (lines: seq<string>)
    decreases |text|
  {
    if text == [] then []
    else
      var l := FirstLine(text);
      [l] + ReadLines(text[|l|..])
  }

  /** The lines read back to the whole text. */
  lemma {:induction false} ReadLinesFlatten(text: string)
    ensures Flatten(ReadLines(text)) == text
    decreases |text|
  {
    if text != [] {
      var l := FirstLine(text);
      FirstLinePrefix(text);
      ReadLinesFlatten(text[|l|..]);
      assert l + text[|l|..] == text;
    }
  }

  /** No line is empty; "\n" ends every line but the last and occurs nowhere else. */
  lemma {:induction false} ReadLinesNewlines(text: string)
    ensures forall k :: 0 <= k < |ReadLines(text)| ==> ReadLines(text)[k] != []
    ensures forall k :: 0 <= k < |ReadLines(text)| ==> '\n' !in ReadLines(text)[k][..|ReadLines(text)[k]| - 1]
    ensures forall k :: 0 <= k < |ReadLines(text)| - 1 ==> ReadLines(text)[k][|ReadLines(text)[k]| - 1] == '\n'
    decreases |text|
  {
    if text != [] {
      var l := FirstLine(text);
      var rest := ReadLines(text[|l|..]);
      FirstLinePrefix(text);
      ReadLinesNewlines(text[|l|..]);
      var lines := ReadLines(text);
      assert lines == [l] + rest;
      assert rest != [] ==> l[|l| - 1] == '\n' by {
        if rest != [] {
          assert text[|l|..] != [];
        }
      }
      forall k | 1 <= k < |lines|
        ensures lines[k] != []
        ensures '\n' !in lines[k][..|lines[k]| - 1]
        ensures k < |lines| - 1 ==> lines[k][|lines[k]| - 1] == '\n'
      {
        assert lines[k] == rest[k - 1];
      }
    }
  }

  // ------------------------------------------------------------------ join and split(sep)

  /** Python's `sep.join(parts)` for a one-character separator. */
  function Join(parts: seq<string>, sep: char): string
  {
    if parts == [] then []
    else if |parts| == 1 then parts[0]
    else parts[0] + [sep] + Join(parts[1..], sep)
  }

  /** Every part followed by `sep` (what `savetxt` writes, one row per line). */
  function Terminated(parts: seq<string>, sep: char): string
  {
    if parts == [] then [] else parts[0] + [sep] + Terminated(parts[1..], sep)
  }

  /** Python's `s.split(sep)` for a one-character separator. The first piece is the
      prefix of `s` before the first `sep`. */
  function SplitOn(s: string, sep: char): (r: seq<string>)
    ensures |r| >= 1
    ensures forall k :: 0 <= k < |r| ==> sep !in r[k]
    decreases |s|
  {
    if s == [] then [[]]
    else if s[0] == sep then [[]] + SplitOn(s[1..], sep)
    else
      var t := SplitOn(s[1..], sep);
      [[s[0]] + t[0]] + t[1..]
  }

  /** The first piece is the prefix of `s` before the first `sep`. */
  lemma {:induction false} SplitOnFirst(s: string, sep: char)
    ensures var p := SplitOn(s, sep)[0];
      |p| <= |s| && p == s[..|p|] && (|p| < |s| ==> s[|p|] == sep)
    decreases |s|
  {
    if s != [] && s[0] != sep {
      SplitOnFirst(s[1..], sep);
    }
  }

  lemma {:induction false} SplitOnNoSep(s: string, sep: char)
    requires sep !in s
    ensures SplitOn(s, sep) == [s]
  {
    if s != [] {
      SplitOnNoSep(s[1..], sep);
      assert [s[0]] + s[1..] == s;
    }
  }

  lemma {:induction false} SplitOnSepAfter(a: string, b: string, sep: char)
    requires sep !in a
    ensures SplitOn(a + [sep] + b, sep) == [a] + SplitOn(b, sep)
  {
    var s := a + [sep] + b;
    if a == [] {
      assert s[1..] == b;
    } else {
      assert s[1..] == a[1..] + [sep] + b;
      SplitOnSepAfter(a[1..], b, sep);
      assert [a[0]] + a[1..] == a;
    }
  }

  /** `split(sep)` undoes `sep.join` for parts free of `sep`. */
  lemma {:induction false} SplitOnJoin(parts: seq<string>, sep: char)
    requires |parts| >= 1
    requires forall k :: 0 <= k < |parts| ==> sep !in parts[k]
    ensures SplitOn(Join(parts, sep), sep) == parts
  {
    if |parts| == 1 {
      SplitOnNoSep(parts[0], sep);
    } else {
      SplitOnJoin(parts[1..], sep);
      SplitOnSepAfter(parts[0], Join(parts[1..], sep), sep);
    }
  }

  /** Terminating every part is joining the parts and one empty part. */
  lemma {:induction false} TerminatedIsJoin(parts: seq<string>, sep: char)
    ensures Terminated(parts, sep) == Join(parts + [[]], sep)
  {
    if parts != [] {
      TerminatedIsJoin(parts[1..], sep);
      assert (parts + [[]])[1..] == parts[1..] + [[]];
    }
  }

  lemma {:induction false} TerminatedSnoc(parts: seq<string>, last: string, sep: char)
    ensures Terminated(parts + [last], sep) == Terminated(parts, sep) + last + [sep]
  {
    if parts != [] {
      TerminatedSnoc(parts[1..], last, sep);
      assert (parts + [last])[1..] == parts[1..] + [last];
    }
  }

  /** A formatter none of whose results holds `c`. */
  ghost predicate Avoids(fmt: real -> string, c: char)
  {
    forall v :: c !in fmt(v)
  }

  // ------------------------------------------------------------------ re.split(" +", s)

  /** `s` without its leading blanks. */
  function DropBlanks(s: string): (r: string)
    ensures |r| <= |s|
    ensures r == [] || r[0] != ' '
  {
    if s != [] && s[0] == ' ' then DropBlanks(s[1..]) else s
  }

  /** Python's `re.split(" +", s)`: the pieces between maximal runs of blanks,
      with an empty piece before a leading and after a trailing run. */
  function SplitBlanks(s: string): (r: seq<string>)
    ensures |r| >= 1
    ensures forall k :: 0 <= k < |r| ==> ' ' !in r[k]
    decreases |s|
  {
    if s == [] then [[]]
    else if s[0] == ' ' then [[]] + SplitBlanks(DropBlanks(s))
    else
      var t := SplitBlanks(s[1..]);
      [[s[0]] + t[0]] + t[1..]
  }

  lemma {:induction false} SplitBlanksNoBlank(s: string)
    requires ' ' !in s
    ensures SplitBlanks(s) == [s]
  {
    if s != [] {
      SplitBlanksNoBlank(s[1..]);
      assert [s[0]] + s[1..] == s;
    }
  }

  lemma {:induction false} SplitBlanksAfter(a: string, b: string)
    requires ' ' !in a
    requires b == [] || b[0] != ' '
    ensures SplitBlanks(a + [' '] + b) == [a] + SplitBlanks(b)
  {
    var s := a + [' '] + b;
    if a == [] {
      assert s[1..] == b;
      assert DropBlanks(s) == DropBlanks(b) == b;
    } else {
      assert s[1..] == a[1..] + [' '] + b;
      SplitBlanksAfter(a[1..], b);
      assert [a[0]] + a[1..] == a;
    }
  }

  /** `re.split(" +", ...)` undoes a join with single blanks of non-empty blank-free words. */
  lemma {:induction false} SplitBlanksOfJoin(words: seq<string>)
    requires |words| >= 1
    requires forall k :: 0 <= k < |words| ==> words[k] != [] && ' ' !in words[k]
    ensures SplitBlanks(Join(words, ' ')) == words
  {
    if |words| == 1 {
      SplitBlanksNoBlank(words[0]);
    } else {
      var rest := Join(words[1..], ' ');
      assert rest[0] == words[1][0] by {
        if |words| > 2 {
          assert rest == words[1] + ([' '] + Join(words[2..], ' '));
        }
      }
      SplitBlanksOfJoin(words[1..]);
      SplitBlanksAfter(words[0], rest);
    }
  }

  // ------------------------------------------------------------------ int() and str()

  function DigitChar(d: nat): (c: char)
    requires d < 10
    ensures IsDigit(c)
  {
    (48 + d) as char
  }

  function DigitValue(c: char): nat
    requires IsDigit(c)
  {
    c as int - 48
  }

  /** Decimal digits of `n`, most significant first, without leading zeros. */
  function NatToString(n: nat): (s: string)
    ensures |s| >= 1 && forall i :: 0 <= i < |s| ==> IsDigit(s[i])
  {
    if n < 10 then [DigitChar(n)] else NatToString(n / 10) + [DigitChar(n % 10)]
  }

  /** Python's `str(n)` (and `f"{n}"`) for an int. */
  function IntToString(n: int): (s: string)
    ensures |s| >= 1 && NoSpace(s)
  {
    if n < 0 then "-" + NatToString(-n) else NatToString(n)
  }

  /** The base-10 value of a digit string, ignoring underscores. */
  function DecimalValue(t: string): nat
  {
    if t == [] then 0
    else if IsDigit(t[|t| - 1]) then DecimalValue(t[..|t| - 1]) * 10 + DigitValue(t[|t| - 1])
    else DecimalValue(t[..|t| - 1])
  }

  /** Python's base-10 integer literal inside `int()`: digits, single underscores
      only between two digits. */
  predicate IsDecimalLiteral(t: string)
    decreases |t|
  {
    && |t| >= 1 && IsDigit(t[|t| - 1])
    && (|t| == 1 || IsDecimalLiteral(t[..|t| - 1]) || (t[|t| - 2] == '_' && IsDecimalLiteral(t[..|t| - 2])))
  }

  /** Python's `int(s)` on a str: surrounding whitespace, an optional sign, then a
      decimal literal; None stands for the ValueError it raises otherwise. */
  function ParseInt(s: string): Option<int>
  {
    var t := Strip(s);
    if |t| >= 1 && (t[0] == '+' || t[0] == '-') then
      if IsDecimalLiteral(t[1..]) then
        var v: int := DecimalValue(t[1..]);
        Some(if t[0] == '-' then -v else v)
      else None
    else if IsDecimalLiteral(t) then Some(DecimalValue(t))
    else None
  }

  lemma {:induction false} DecimalValueOfNatToString(n: nat)
    ensures DecimalValue(NatToString(n)) == n
  {
    var s := NatToString(n);
    if n >= 10 {
      DecimalValueOfNatToString(n / 10);
      assert s[..|s| - 1] == NatToString(n / 10);
    } else {
      assert s[..|s| - 1] == [];
    }
  }

  lemma {:induction false} NatToStringIsLiteral(n: nat)
    ensures IsDecimalLiteral(NatToString(n))
    ensures !IsSpace(NatToString(n)[0]) && !IsSpace(NatToString(n)[|NatToString(n)| - 1])
  {
    var s := NatToString(n);
    assert IsDigit(s[0]) && IsDigit(s[|s| - 1]);
    if n >= 10 {
      NatToStringIsLiteral(n / 10);
      assert s[..|s| - 1] == NatToString(n / 10);
    }
  }

  /** Reading back the decimal text of an integer gives that integer. */
  lemma ParseIntOfIntToString(n: int)
    ensures ParseInt(IntToString(n)) == Some(n)
  {
    var s := IntToString(n);
    var m: nat := if n < 0 then -n else n;
    NatToStringIsLiteral(m);
    DecimalValueOfNatToString(m);
    if n < 0 {
      assert s[1..] == NatToString(m);
      assert !IsSpace(s[0]) && !IsSpace(s[|s| - 1]);
      assert Strip(s) == s;
    } else {
      assert s == NatToString(m);
      assert Strip(s) == s;
      assert !IsSpace(s[0]);
      assert s[0] != '+' && s[0] != '-' by { assert IsDigit(s[0]); }
    }
  }

  /** `str(n)` holds nothing but digits and a leading "-". */
  lemma IntToStringAvoids(n: int, c: char)
    requires c != '-' && !IsDigit(c)
    ensures c !in IntToString(n)
  {
  }

  /** `[parse(x) for x in toks]`: Some exactly when every token parses. */
  function ParseAll<T>(toks: seq<string>, parse: string -> Option<T>): (r: Option<seq<T>>)
    ensures r.Some? ==> |r.value| == |toks|
    decreases |toks|
  {
    if toks == [] then Some([])
    else match parse(toks[0])
      case None => None
      case Some(v) =>
        match ParseAll(toks[1..], parse)
        case None => None
        case Some(vs) => Some([v] + vs)
  }

  /** `ParseAll` succeeds exactly when every token parses, and then token k
      gives value k. */
  lemma {:induction false} ParseAllAt<T>(toks: seq<string>, parse: string -> Option<T>)
    ensures ParseAll(toks, parse).Some? <==> forall k :: 0 <= k < |toks| ==> parse(toks[k]).Some?
    ensures ParseAll(toks, parse).Some? ==> forall k :: 0 <= k < |toks| ==> parse(toks[k]) == Some(ParseAll(toks, parse).value[k])
    decreases |toks|
  {
    if toks != [] {
      ParseAllAt(toks[1..], parse);
      assert forall k :: 1 <= k < |toks| ==> toks[1..][k - 1] == toks[k];
    }
  }

  /** Tokens that parse one by one to `vs` parse together to `vs`. */
  lemma ParseAllOf<T>(toks: seq<string>, vs: seq<T>, parse: string -> Option<T>)
    requires |vs| == |toks| && forall k :: 0 <= k < |toks| ==> parse(toks[k]) == Some(vs[k])
    ensures ParseAll(toks, parse) == Some(vs)
  {
    ParseAllAt(toks, parse);
    var r := ParseAll(toks, parse);
    assert r.value == vs;
  }

  /** A loop whose steps may raise, with step k's outcome `rs[k]`: the values of all
      steps, or the exception of the first step that raises, after which no step runs. */
  function FirstErr<T>(rs: seq<Result<T>>): (r: Result<seq<T>>)
    ensures r.Ok? <==> forall k :: 0 <= k < |rs| ==> rs[k].Ok?
    ensures r.Ok? ==> |r.value| == |rs| && forall k :: 0 <= k < |rs| ==> rs[k] == Ok(r.value[k])
  {
    if rs == [] then Ok([])
    else match FirstErr(rs[..|rs| - 1])
      case Err(e) => Err(e)
      case Ok(vs) =>
        match rs[|rs| - 1]
        case Err(e) => Err(e)
        case Ok(v) => Ok(vs + [v])
  }

  /** One more step of the loop. */
  lemma FirstErrStep<T>(rs: seq<Result<T>>, k: nat)
    requires k < |rs|
    ensures FirstErr(rs[..k + 1]) ==
      if FirstErr(rs[..k]).Err? then FirstErr(rs[..k])
      else if rs[k].Err? then Err(rs[k].error)
      else Ok(FirstErr(rs[..k]).value + [rs[k].value])
  {
    assert rs[..k + 1][..k] == rs[..k];
  }

  /** Once a step has raised, later steps change nothing. */
  lemma {:induction false} FirstErrPrefix<T>(rs: seq<Result<T>>, k: nat)
    requires k <= |rs| && FirstErr(rs[..k]).Err?
    ensures FirstErr(rs) == FirstErr(rs[..k])
  {
    if k < |rs| {
      FirstErrPrefix(rs[..|rs| - 1], k);
      assert rs[..|rs| - 1][..k] == rs[..k];
    } else {
      assert rs[..k] == rs;
    }
  }

  /** The exception raised is that of a step every earlier step of which succeeded. */
  lemma {:induction false} FirstErrIsFirst<T>(rs: seq<Result<T>>) returns (k: nat)
    requires FirstErr(rs).Err?
    ensures k < |rs| && rs[k] == Err(FirstErr(rs).error)
    ensures forall j :: 0 <= j < k ==> rs[j].Ok?
  {
    var init := rs[..|rs| - 1];
    if FirstErr(init).Err? {
      k := FirstErrIsFirst(init);
      assert rs[k] == init[k];
    } else {
      k := |rs| - 1;
      assert forall j :: 0 <= j < k ==> rs[j] == init[j];
    }
  }

  // ------------------------------------------------------------------ list comprehension

  /** Python's `[f(x) for x in xs]`. */
  function Map<A, B>(xs: seq<A>, f: A -> B): (ys: seq<B>)
    ensures |ys| == |xs| && forall k :: 0 <= k < |xs| ==> ys[k] == f(xs[k])
  {
    seq(|xs|, k requires 0 <= k < |xs| => f(xs[k]))
  }

  // ------------------------------------------------------------------ replace

  /** `pat` occurs in `s` at position `i`. */
  predicate OccursAt(s: string, pat: string, i: int)
  {
    0 <= i && i + |pat| <= |s| && s[i..i + |pat|] == pat
  }

  /** `pat` occurs somewhere in `s`. */
  predicate Contains(s: string, pat: string)
  {
    exists i :: 0 <= i <= |s| && OccursAt(s, pat, i)
  }

  /** Python's `s.replace(pat, rep)` for a non-empty `pat`: every non-overlapping
      occurrence, from left to right. */
  function ReplaceAll(s: string, pat: string, rep: string): string
    requires pat != []
    decreases |s|
  {
    if |s| < |pat| then s
    else if s[..|pat|] == pat then rep + ReplaceAll(s[|pat|..], pat, rep)
    else [s[0]] + ReplaceAll(s[1..], pat, rep)
  }

  lemma {:induction false} ReplaceAllAbsent(s: string, pat: string, rep: string)
    requires pat != [] && !Contains(s, pat)
    ensures ReplaceAll(s, pat, rep) == s
    decreases |s|
  {
    if |s| >= |pat| {
      assert !OccursAt(s, pat, 0);
      if Contains(s[1..], pat) {
        var i :| 0 <= i <= |s[1..]| && OccursAt(s[1..], pat, i);
        assert s[1..][i..i + |pat|] == s[i + 1..i + 1 + |pat|];
        assert OccursAt(s, pat, i + 1);
        assert false;
      }
      ReplaceAllAbsent(s[1..], pat, rep);
      assert s == [s[0]] + s[1..];
    }
  }

  lemma {:induction false} ReplaceAllGrows(s: string, pat: string, rep: string)
    requires pat != [] && |rep| > |pat|
    ensures |ReplaceAll(s, pat, rep)| >= |s|
    ensures Contains(s, pat) ==> |ReplaceAll(s, pat, rep)| > |s|
    decreases |s|
  {
    if |s| >= |pat| {
      if s[..|pat|] == pat {
        ReplaceAllGrows(s[|pat|..], pat, rep);
      } else {
        ReplaceAllGrows(s[1..], pat, rep);
        if Contains(s, pat) {
          var i :| 0 <= i <= |s| && OccursAt(s, pat, i);
          assert i != 0;
          assert s[1..][i - 1..i - 1 + |pat|] == s[i..i + |pat|];
          assert OccursAt(s[1..], pat, i - 1);
        }
      }
    }
  }

  /** With a longer replacement, `replace` leaves `s` unchanged exactly when `pat`
      does not occur in it. */
  lemma ReplaceAllUnchangedIff(s: string, pat: string, rep: string)
    requires pat != [] && |rep| > |pat|
    ensures ReplaceAll(s, pat, rep) == s <==> !Contains(s, pat)
  {
    ReplaceAllGrows(s, pat, rep);
    if !Contains(s, pat) {
      ReplaceAllAbsent(s, pat, rep);
    }
  }

  /** A stem that never holds the first character of `pat`, followed by `pat`:
      exactly the trailing `pat` is replaced. */
  lemma {:induction false} ReplaceAllSuffix(stem: string, pat: string, rep: string)
    requires pat != [] && pat[0] !in stem
    ensures ReplaceAll(stem + pat, pat, rep) == stem + rep
  {
    var s := stem + pat;
    if stem == [] {
      assert s == pat && s[|pat|..] == [];
    } else {
      assert s[0] == stem[0] && stem[0] in stem;
      assert s[..|pat|][0] == s[0];
      assert s[1..] == stem[1..] + pat;
      ReplaceAllSuffix(stem[1..], pat, rep);
      assert ReplaceAll(s, pat, rep) == [s[0]] + ReplaceAll(s[1..], pat, rep);
      assert stem == [stem[0]] + stem[1..];
    }
  }

  // ------------------------------------------------------------------ list lookups

  /** Python's `xs.index(x)`: the first position of `x`; None is the ValueError
      raised when `x` is absent. */
  function IndexOf<T(==)>(xs: seq<T>, x: T): (r: Option<nat>)
    ensures r.None? <==> x !in xs
    ensures r.Some? ==> r.value < |xs| && xs[r.value] == x && x !in xs[..r.value]
  {
    if xs == [] then None
    else if xs[0] == x then Some(0)
    else match IndexOf(xs[1..], x)
      case None => None
      case Some(k) =>
        assert xs[..k + 1] == [xs[0]] + xs[1..][..k];
        Some(k + 1)
  }

  /** Python's `xs[k]` for an int `k`, a negative `k` counting from the end;
      None is the IndexError raised out of range. */
  function PyIndex<T>(xs: seq<T>, k: int): (r: Option<T>)
    ensures r.Some? <==> -|xs| <= k < |xs|
  {
    if 0 <= k < |xs| then Some(xs[k])
    else if -|xs| <= k < 0 then Some(xs[|xs| + k])
    else None
  }

  /** A negative index counts from the end: `xs[k]` is `xs[len(xs) + k]`. */
  lemma PyIndexFromEnd<T>(xs: seq<T>, k: int)
    requires -|xs| <= k < 0
    ensures PyIndex(xs, k) == PyIndex(xs, |xs| + k) == Some(xs[|xs| + k])
  {
  }
}
