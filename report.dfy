/**
 * Turning the text of one page of the monthly product report into table
 * rows: cleaning the extracted text, repairing product names that the
 * extraction split with spaces, cutting the lines into fixed-width rows,
 * finding the page's product type and converting rate columns to numbers.
 * Regular expressions are written out as the matches they find; pandas'
 * `to_numeric` is a parameter.
 */
module ReportReader {
  import opened Common
  import opened PyMath
  import opened Strings

  // ------------------------------------------------------------ rm_space

  /** The lookahead `(?=\s\d{8})` holds at `q`: a whitespace character, then eight digits. */
  predicate DateAhead(x: string, q: int)
  {
    && 0 <= q && q + 9 <= |x| && IsSpace(x[q])
    && forall k :: q + 1 <= k < q + 9 ==> IsDigit(x[k])
  }

  /** Where `.` stops from `p` on: the first newline at or after `p`, or the end. */
  function LineEnd(x: string, p: nat): (e: nat)
    requires p <= |x|
    ensures p <= e <= |x| && (e < |x| ==> x[e] == '\n')
    ensures forall k :: p <= k < e ==> x[k] != '\n'
    decreases |x| - p
  {
    if p == |x| || x[p] == '\n' then p else LineEnd(x, p + 1)
  }

  /** The last `q` in `p + 1 .. upTo` at which the lookahead holds. */
  function LastAhead(x: string, p: nat, upTo: nat): (r: Option<nat>)
    ensures r.None? ==> forall q :: p < q <= upTo ==> !DateAhead(x, q)
    ensures r.Some? ==> p < r.value <= upTo && DateAhead(x, r.value)
                        && forall q :: r.value < q <= upTo ==> !DateAhead(x, q)
  {
    if upTo <= p then None
    else if DateAhead(x, upTo) then Some(upTo)
    else LastAhead(x, p, upTo - 1)
  }

  /**
   * The end of the match of `(.+)(?=\s\d{8})` starting at `p`: `.+` is
   * greedy and matches no newline, so it is the furthest `q > p` with the
   * lookahead holding and no newline in `x[p..q]`.
   */
  function MatchEnd(x: string, p: nat): (r: Option<nat>)
    requires p <= |x|
    ensures r.None? ==> forall q :: p < q <= |x| && (forall k :: p <= k < q ==> x[k] != '\n') ==> !DateAhead(x, q)
    ensures r.Some? ==> && p < r.value <= |x| && DateAhead(x, r.value)
                        && (forall k :: p <= k < r.value ==> x[k] != '\n')
                        && forall q :: r.value < q <= |x| && (forall k :: p <= k < q ==> x[k] != '\n') ==>
                             !DateAhead(x, q)
  {
    var e := LineEnd(x, p);
    LastAhead(x, p, e)
  }

  /** The leftmost position from `p` on where the pattern matches: what `re.search` tries first. */
  function FirstMatch(x: string, p: nat): (r: Option<nat>)
    requires p <= |x|
    ensures r.None? ==> forall s :: p <= s <= |x| ==> MatchEnd(x, s).None?
    ensures r.Some? ==> p <= r.value < |x| && MatchEnd(x, r.value).Some?
                        && forall s :: p <= s < r.value ==> MatchEnd(x, s).None?
    decreases |x| - p
  {
    if p == |x| then None
    else if MatchEnd(x, p).Some? then Some(p)
    else FirstMatch(x, p + 1)
  }

  /**
   * A piece of a parsed `re.sub` replacement template: a literal character,
   * or a reference to group 0 or group 1. The pattern's only group spans the
   * whole match (the lookahead is empty), so both refer to the matched text.
   */
  datatype Piece = Lit(c: char) | MatchText

  /** The one-character escapes of a template: `\a \b \f \n \r \t \v \\`. */
  function Escape(c: char): Option<char>
  {
    if c == 'a' then Some('\U{0007}')
    else if c == 'b' then Some('\U{0008}')
    else if c == 'f' then Some('\U{000C}')
    else if c == 'n' then Some('\n')
    else if c == 'r' then Some('\r')
    else if c == 't' then Some('\t')
    else if c == 'v' then Some('\U{000B}')
    else if c == '\\' then Some('\\')
    else None
  }

  predicate IsAsciiLetter(c: char)
  {
    ('a' <= c <= 'z') || ('A' <= c <= 'Z')
  }

  predicate IsOctal(c: char)
  {
    '0' <= c <= '7'
  }

  /** The value of a digit character. */
  function Digit(c: char): nat
    requires IsDigit(c)
  {
    c as int - '0' as int
  }

  /** `name` is a run of ASCII digits whose value is at most 1: a group the pattern has. */
  predicate IsGroupIndex(name: string)
  {
    && name != []
    && (forall k :: 0 <= k < |name| ==> IsDigit(name[k]))
    && (forall k :: 0 <= k < |name| - 1 ==> name[k] == '0')
    && name[|name| - 1] <= '1'
  }

  /** The first `>` at or after `i`, which closes a `\g<...>` group name. */
  function CloseAngle(t: string, i: nat): (r: Option<nat>)
    requires i <= |t|
    ensures r.None? ==> forall k :: i <= k < |t| ==> t[k] != '>'
    ensures r.Some? ==> i <= r.value < |t| && t[r.value] == '>' && forall k :: i <= k < r.value ==> t[k] != '>'
    decreases |t| - i
  {
    if i == |t| then None else if t[i] == '>' then Some(i) else CloseAngle(t, i + 1)
  }

  /** A piece in front of a parsed rest, or the rest's failure. */
  function Cons(p: Piece, rest: Option<seq<Piece>>): Option<seq<Piece>>
  {
    if rest.Some? then Some([p] + rest.value) else None
  }

  /**
   * How `re.sub` parses a string replacement for this one-group pattern;
   * `None` is the `re.error` it raises. A backslash at the end, an escaped
   * ASCII letter other than `a b f n r t v`, a reference to a group other
   * than 0 or 1 and a malformed `\g<...>` are errors. `\0` takes up to two
   * more octal digits and three octal digits after a backslash are a
   * character code up to 0o377. A backslash before any other character
   * stays as it is.
   */
  function ParseTemplate(t: string): (r: Option<seq<Piece>>)
    ensures r.Some? ==> |r.value| <= |t|
    decreases |t|
  {
    if t == [] then Some([])
    else if t[0] != '\\' then Cons(Lit(t[0]), ParseTemplate(t[1..]))
    else if |t| == 1 then None
    else
      var c := t[1];
      if c == 'g' then
        if |t| < 3 || t[2] != '<' then None
        else
          match CloseAngle(t, 3)
          case None => None
          case Some(e) => if IsGroupIndex(t[3..e]) then Cons(MatchText, ParseTemplate(t[e + 1..])) else None
      else if c == '0' then
        var k := if |t| > 2 && IsOctal(t[2]) then (if |t| > 3 && IsOctal(t[3]) then 2 else 1) else 0;
        var v := if k == 0 then 0 else if k == 1 then Digit(t[2]) else 8 * Digit(t[2]) + Digit(t[3]);
        Cons(Lit(v as char), ParseTemplate(t[2 + k..]))
      else if IsDigit(c) then
        if |t| > 2 && IsDigit(t[2]) then
          if IsOctal(c) && IsOctal(t[2]) && |t| > 3 && IsOctal(t[3]) then
            var v := 64 * Digit(c) + 8 * Digit(t[2]) + Digit(t[3]);
            if v > 255 then None else Cons(Lit(v as char), ParseTemplate(t[4..]))
          else None
        else if c == '1' then Cons(MatchText, ParseTemplate(t[2..]))
        else None
      else if Escape(c).Some? then Cons(Lit(Escape(c).value), ParseTemplate(t[2..]))
      else if IsAsciiLetter(c) then None
      else Cons(Lit('\\'), Cons(Lit(c), ParseTemplate(t[2..])))
  }

  /** The text a parsed template produces for one match. */
  function Fill(ps: seq<Piece>, m: string): string
  {
    if ps == [] then ""
    else (if ps[0].Lit? then [ps[0].c] else m) + Fill(ps[1..], m)
  }

  /** A template without a backslash is its own text, whatever the match. */
  lemma {:induction false} TemplateWithoutEscapes(t: string, m: string)
    requires '\\' !in t
    ensures ParseTemplate(t).Some? && Fill(ParseTemplate(t).value, m) == t
  {
    if t != [] {
      assert t[0] != '\\' && '\\' !in t[1..];
      TemplateWithoutEscapes(t[1..], m);
      var rest := ParseTemplate(t[1..]).value;
      assert ([Lit(t[0])] + rest)[1..] == rest;
      assert [t[0]] + t[1..] == t;
    }
  }

  /** `\n` in a template is a newline, and `\1` or `\g<0>` the matched text. */
  lemma TemplateEscapes()
    ensures ParseTemplate("A\\n") == Some([Lit('A'), Lit('\n')])
    ensures ParseTemplate("\\1") == Some([MatchText])
    ensures ParseTemplate("\\g<0>") == Some([MatchText])
  {
    assert "A\\n"[1..] == "\\n" && "\\n"[2..] == [];
    assert ParseTemplate("\\n") == Cons(Lit('\n'), ParseTemplate([]));
    assert [Lit('\n')] + [] == [Lit('\n')] && [Lit('A')] + [Lit('\n')] == [Lit('A'), Lit('\n')];
    assert ParseTemplate("A\\n") == Cons(Lit('A'), ParseTemplate("\\n"));
    assert "\\1"[2..] == [];
    assert ParseTemplate("\\1") == Cons(MatchText, ParseTemplate([]));
    assert [MatchText] + [] == [MatchText];
    assert CloseAngle("\\g<0>", 3) == Some(4) && "\\g<0>"[3..4] == "0" && "\\g<0>"[5..] == [];
  }

  /** An escaped ASCII letter outside the table, or a missing group, raises. */
  lemma TemplateErrors()
    ensures ParseTemplate("A\\d").None?
    ensures ParseTemplate("\\2").None?
    ensures ParseTemplate("A\\").None?
  {
    assert "A\\d"[1..] == "\\d";
    assert "A\\"[1..] == "\\";
  }

  /**
   * `re.sub(pattern, template, x[p..])`: every match, left to right and
   * without overlap, replaced by the template filled with its text.
   */
  function Substitute(x: string, p: nat, ps: seq<Piece>): string
    requires p <= |x|
    decreases |x| - p
  {
    match FirstMatch(x, p)
    case None => x[p..]
    case Some(s) => x[p..s] + Fill(ps, x[s..MatchEnd(x, s).value]) + Substitute(x, MatchEnd(x, s).value, ps)
  }

  /**
   * `rm_space`: when the line starts with a name followed by whitespace and
   * an eight-digit date, every match of the name pattern is replaced by the
   * first match with its ASCII spaces removed, read as a `re.sub` template;
   * a template `re` cannot parse raises `re.error`.
   */
  function RmSpace(x: string): (r: Result<string, PyError>)
    ensures MatchEnd(x, 0).None? ==> r == Ok(x)
    ensures MatchEnd(x, 0).Some? ==>
      (r.Err? <==> ParseTemplate(RemoveAll(x[..MatchEnd(x, 0).value], " ")).None?)
    ensures r.Err? ==> r.error == ReError
  {
    match MatchEnd(x, 0)
    case None => Ok(x)
    case Some(j) =>
      match ParseTemplate(RemoveAll(x[..j], " "))
      case None => Err(ReError)
      case Some(ps) => Ok(Substitute(x, 0, ps))
  }

  /** A line whose name is `A`, a backslash and `c`, followed by a date. */
  function EscapedLine(c: char): string
  {
    ['A', '\\', c] + " 20150508"
  }

  /** The match of such a line is its three-character name, which has no space. */
  lemma EscapedLineMatch(c: char)
    requires !IsSpace(c) && c != '\n'
    ensures MatchEnd(EscapedLine(c), 0) == Some(3) && EscapedLine(c)[..3] == ['A', '\\', c]
    ensures '\n' !in EscapedLine(c) && EscapedLine(c)[3..] == " 20150508"
  {
    var x := EscapedLine(c);
    assert LineEnd(x, 0) == 12 by {
      forall k | 0 <= k < 12 ensures x[k] != '\n' { }
      assert LineEnd(x, 0) == LineEnd(x, 12);
    }
    assert DateAhead(x, 3);
    forall q | 3 < q <= 12 ensures !DateAhead(x, q) {
      if q <= 11 { assert !IsSpace(x[q]); }
    }
  }

  /**
   * A line whose matched name is `A\n` (a backslash, then `n`), such as
   * `EscapedLine('n')`, comes out with a line break in the name.
   */
  lemma RmSpaceEscapedNewline(x: string, j: nat)
    requires '\n' !in x && MatchEnd(x, 0) == Some(j) && x[..j] == ['A', '\\', 'n']
    ensures RmSpace(x) == Ok(['A', '\n'] + x[j..])
  {
    var ps := [Lit('A'), Lit('\n')];
    assert ParseTemplate(RemoveAll(x[..j], " ")) == Some(ps) by {
      FirstCharAbsent(x[..j], " ");
      RemoveAllAbsent(x[..j], " ");
      assert ['A', '\\', 'n'] == "A\\n";
      TemplateEscapes();
    }
    RmSpaceLineExpands(x, j, ps);
    assert Fill(ps, x[..j]) == ['A', '\n'] by {
      assert ps[1..] == [Lit('\n')] && ps[1..][1..] == [];
      assert Fill(ps[1..], x[..j]) == ['\n'] + Fill([], x[..j]);
    }
  }

  /** A line whose matched name is `A\d`, such as `EscapedLine('d')`, makes `re.sub` raise. */
  lemma RmSpaceBadEscape(x: string, j: nat)
    requires MatchEnd(x, 0) == Some(j) && x[..j] == ['A', '\\', 'd']
    ensures RmSpace(x) == Err(ReError)
  {
    FirstCharAbsent(x[..j], " ");
    RemoveAllAbsent(x[..j], " ");
    assert ['A', '\\', 'd'] == "A\\d";
    TemplateErrors();
  }

  /** Past the greedy first match of a line without newlines, the pattern matches nowhere. */
  lemma NoLaterMatch(x: string, j: nat)
    requires '\n' !in x && MatchEnd(x, 0) == Some(j)
    ensures FirstMatch(x, j).None?
  {
    forall s | j <= s <= |x| ensures MatchEnd(x, s).None? {
      assert forall k :: 0 <= k < |x| ==> x[k] != '\n';
    }
  }

  /** On one line, a name that parses as a template is replaced by its expansion once. */
  lemma RmSpaceLineExpands(x: string, j: nat, ps: seq<Piece>)
    requires '\n' !in x && MatchEnd(x, 0) == Some(j) && ParseTemplate(RemoveAll(x[..j], " ")) == Some(ps)
    ensures RmSpace(x) == Ok(Fill(ps, x[..j]) + x[j..])
  {
    assert FirstMatch(x, 0) == Some(0);
    NoLaterMatch(x, j);
    assert Substitute(x, j, ps) == x[j..];
    assert Substitute(x, 0, ps) == x[0..0] + Fill(ps, x[0..j]) + Substitute(x, j, ps);
    assert x[0..0] == [] && x[0..j] == x[..j];
    assert RmSpace(x) == Ok(Substitute(x, 0, ps));
    assert x[0..0] + Fill(ps, x[..j]) + x[j..] == Fill(ps, x[..j]) + x[j..];
  }

  /**
   * On one line (no newline), `rm_space` replaces the longest name before a
   * whitespace-and-date by its template expansion and leaves everything from
   * that whitespace on as it was. The name's ASCII spaces are gone and its
   * other characters kept, so a name without a backslash is simply put back
   * without its spaces.
   */
  lemma RmSpaceLine(x: string)
    requires '\n' !in x && MatchEnd(x, 0).Some?
    ensures var j := MatchEnd(x, 0).value;
      var name := RemoveAll(x[..j], " ");
      && (ParseTemplate(name).Some? ==> RmSpace(x) == Ok(Fill(ParseTemplate(name).value, x[..j]) + x[j..]))
      && ('\\' !in x[..j] ==> RmSpace(x) == Ok(name + x[j..]))
      && ' ' !in name
      && forall c :: c != ' ' ==> multiset(name)[c] == multiset(x[..j])[c]
  {
    var j := MatchEnd(x, 0).value;
    var name := RemoveAll(x[..j], " ");
    RemoveAllChar(x[..j], ' ');
    if ParseTemplate(name).Some? {
      RmSpaceLineExpands(x, j, ParseTemplate(name).value);
    }
    if '\\' !in x[..j] {
      assert multiset(name)['\\'] == 0;
      TemplateWithoutEscapes(name, x[..j]);
    }
  }

  // ---------------------------------------------------------- rm_garbage

  /** The two byte runs the extraction leaves in every page, as Python decodes them. */
  const Garbage: seq<string> := [
    "\U{00BD}\U{00F6}\U{00B9}\U{00A9}\U{00B0}\U{00B2}\U{00C1}\U{00AA}\U{00D7}\U{00CA}\U{00B2}\U{00FA}\U{00B2}\U{00CE}\U{00BF}\U{00BC}",
    "N\U{00C5}O\U{009B}[\U{0089}\U{0080}T\U{008D}DN\U{00A7}O\U{007F}u("
  ]

  /** Each pattern removed in turn, the first of `pats` first. */
  function RemoveEach(x: string, pats: seq<string>): (r: string)
    requires forall k :: 0 <= k < |pats| ==> pats[k] != ""
    ensures |r| <= |x|
  {
    if pats == [] then x
    else RemoveAll(RemoveEach(x, pats[..|pats| - 1]), pats[|pats| - 1])
  }

  /** A page with none of the patterns is left as it is. */
  lemma {:induction false} RemoveEachAbsent(x: string, pats: seq<string>)
    requires forall k :: 0 <= k < |pats| ==> pats[k] != "" && !Contains(x, pats[k])
    ensures RemoveEach(x, pats) == x
  {
    if pats != [] {
      RemoveEachAbsent(x, pats[..|pats| - 1]);
      RemoveAllAbsent(x, pats[|pats| - 1]);
    }
  }

  /**
   * `rm_garbage`: the page with both garbage runs removed and surrounding
   * whitespace stripped, cut into its lines.
   */
  method RmGarbage(page: string) returns (lines: seq<string>)
    ensures |lines| >= 1
    ensures forall k :: 0 <= k < |lines| ==> '\n' !in lines[k]
    ensures Join(lines, "\n") == Strip(RemoveEach(page, Garbage))
  {
    var x := page;
    for i := 0 to |Garbage|
      invariant x == RemoveEach(page, Garbage[..i])
    {
      assert Garbage[..i + 1][..i] == Garbage[..i];
      x := RemoveAll(x, Garbage[i]);
    }
    assert Garbage[..|Garbage|] == Garbage;
    x := Strip(x);
    lines := Split(x, '\n');
    JoinSplit(x, '\n');
  }

  // -------------------------------------------------- conv_normal, conv_mmp

  /**
   * One product of the table. The money-market layout has no cumulative
   * unit value and no monthly growth: those two cells are NA (`None`).
   */
  datatype ProductRow = ProductRow(name: string, inception: string, navAcc: Option<string>,
                                   monthGrowth: Option<string>, ytdGrowth: string, netAssets: string,
                                   manager: string)

  /** The lines with exactly `n` ASCII spaces, in order. */
  function WithSpaces(lines: seq<string>, n: nat): (r: seq<string>)
    ensures forall k :: 0 <= k < |r| ==> Count(r[k], ' ') == n
    ensures forall k :: 0 <= k < |lines| && Count(lines[k], ' ') == n ==> lines[k] in r
    ensures forall l :: l in r ==> l in lines
  {
    if lines == [] then []
    else (if Count(lines[0], ' ') == n then [lines[0]] else []) + WithSpaces(lines[1..], n)
  }

  /**
   * The filter works line by line, in order: a concatenation is filtered
   * part by part, and a single line is kept exactly when it has `n` spaces.
   * So the kept lines are the input's own, in their order and as often as
   * they occur.
   */
  lemma {:induction false} WithSpacesInOrder(a: seq<string>, b: seq<string>, line: string, n: nat)
    ensures WithSpaces(a + b, n) == WithSpaces(a, n) + WithSpaces(b, n)
    ensures WithSpaces([line], n) == if Count(line, ' ') == n then [line] else []
  {
    if a == [] {
      assert a + b == b;
    } else {
      assert (a + b)[0] == a[0] && (a + b)[1..] == a[1..] + b;
      WithSpacesInOrder(a[1..], b, line, n);
    }
    assert [line][1..] == [];
  }

  /** A product row of the normal layout: the seven fields of a line with six spaces. */
  function NormalRow(line: string): (r: ProductRow)
    requires Count(line, ' ') == 6
    ensures r.navAcc.Some? && r.monthGrowth.Some?
    ensures Join([r.name, r.inception, r.navAcc.value, r.monthGrowth.value, r.ytdGrowth, r.netAssets, r.manager], " ")
         == line
  {
    var f := Split(line, ' ');
    JoinSplit(line, ' ');
    assert |f| == 7 && " " == [' '];
    var r := ProductRow(f[0], f[1], Some(f[2]), Some(f[3]), f[4], f[5], f[6]);
    assert [r.name, r.inception, r.navAcc.value, r.monthGrowth.value, r.ytdGrowth, r.netAssets, r.manager] == f;
    r
  }

  /** A product row of the money-market layout: the five fields of a line with four spaces. */
  function MmpRow(line: string): (r: ProductRow)
    requires Count(line, ' ') == 4
    ensures r.navAcc.None? && r.monthGrowth.None?
    ensures Join([r.name, r.inception, r.ytdGrowth, r.netAssets, r.manager], " ") == line
  {
    var f := Split(line, ' ');
    JoinSplit(line, ' ');
    assert |f| == 5 && " " == [' '];
    var r := ProductRow(f[0], f[1], None, None, f[2], f[3], f[4]);
    assert [r.name, r.inception, r.ytdGrowth, r.netAssets, r.manager] == f;
    r
  }

  /** `conv_normal`: one row per line with six spaces, in order, cut at the spaces. */
  function ConvNormal(lines: seq<string>): (rows: seq<ProductRow>)
    ensures |rows| == |WithSpaces(lines, 6)|
    ensures forall k :: 0 <= k < |rows| ==> rows[k] == NormalRow(WithSpaces(lines, 6)[k])
  {
    var kept := WithSpaces(lines, 6);
    seq(|kept|, k requires 0 <= k < |kept| => NormalRow(kept[k]))
  }

  /** `conv_mmp`: one row per line with four spaces, in order, cut at the spaces, two cells NA. */
  function ConvMmp(lines: seq<string>): (rows: seq<ProductRow>)
    ensures |rows| == |WithSpaces(lines, 4)|
    ensures forall k :: 0 <= k < |rows| ==> rows[k] == MmpRow(WithSpaces(lines, 4)[k])
  {
    var kept := WithSpaces(lines, 4);
    seq(|kept|, k requires 0 <= k < |kept| => MmpRow(kept[k]))
  }

  /**
   * `conv_normal` row by row: the rows of a concatenation are those of its
   * parts in order, and one line gives one row exactly when it has six spaces.
   */
  lemma ConvNormalInOrder(a: seq<string>, b: seq<string>, line: string)
    ensures ConvNormal(a + b) == ConvNormal(a) + ConvNormal(b)
    ensures ConvNormal([line]) == if Count(line, ' ') == 6 then [NormalRow(line)] else []
  {
    WithSpacesInOrder(a, b, line, 6);
    var ka, kb := WithSpaces(a, 6), WithSpaces(b, 6);
    var whole, parts := ConvNormal(a + b), ConvNormal(a) + ConvNormal(b);
    forall k | 0 <= k < |whole| ensures whole[k] == parts[k] {
      if k < |ka| {
        assert (ka + kb)[k] == ka[k];
      } else {
        assert (ka + kb)[k] == kb[k - |ka|];
      }
    }
    assert whole == parts;
  }

  /**
   * `conv_mmp` row by row: the rows of a concatenation are those of its
   * parts in order, and one line gives one row exactly when it has four spaces.
   */
  lemma ConvMmpInOrder(a: seq<string>, b: seq<string>, line: string)
    ensures ConvMmp(a + b) == ConvMmp(a) + ConvMmp(b)
    ensures ConvMmp([line]) == if Count(line, ' ') == 4 then [MmpRow(line)] else []
  {
    WithSpacesInOrder(a, b, line, 4);
    var ka, kb := WithSpaces(a, 4), WithSpaces(b, 4);
    var whole, parts := ConvMmp(a + b), ConvMmp(a) + ConvMmp(b);
    forall k | 0 <= k < |whole| ensures whole[k] == parts[k] {
      if k < |ka| {
        assert (ka + kb)[k] == ka[k];
      } else {
        assert (ka + kb)[k] == kb[k - |ka|];
      }
    }
    assert whole == parts;
  }

  // ------------------------------------------------------ find_prod_type

  /** The product types, in the order the page's text is searched for them. */
  const ProdTypes: seq<string> := ["固定收益类", "混合类", "权益类", "货币类"]

  /** The first of `opts` that occurs in `txt`, else "N/A". */
  function FirstOccurring(opts: seq<string>, txt: string): (r: string)
    requires "N/A" !in opts
    ensures r == "N/A" <==> forall k :: 0 <= k < |opts| ==> !Contains(txt, opts[k])
    ensures r != "N/A" ==>
      exists i :: && 0 <= i < |opts| && r == opts[i] && Contains(txt, r)
                  && forall k :: 0 <= k < i ==> !Contains(txt, opts[k])
  {
    if opts == [] then "N/A"
    else if Contains(txt, opts[0]) then opts[0]
    else
      var r := FirstOccurring(opts[1..], txt);
      assert r != "N/A" ==> exists i :: && 0 <= i < |opts| && r == opts[i] && Contains(txt, r)
                                        && forall k :: 0 <= k < i ==> !Contains(txt, opts[k]) by {
        if r != "N/A" {
          var i :| && 0 <= i < |opts[1..]| && r == opts[1..][i] && Contains(txt, r)
                   && forall k :: 0 <= k < i ==> !Contains(txt, opts[1..][k]);
          assert opts[i + 1] == r;
          assert forall k :: 0 <= k < i + 1 ==> !Contains(txt, opts[k]) by {
            forall k | 0 <= k < i + 1 ensures !Contains(txt, opts[k]) {
              if k > 0 {
                assert opts[k] == opts[1..][k - 1];
              }
            }
          }
        }
      }
      r
  }

  /** The concatenation of lines, as `"".join` forms it. */
  function Concat(lines: seq<string>): string
  {
    if lines == [] then "" else lines[0] + Concat(lines[1..])
  }

  /** The lines that are not table rows: neither six nor four spaces. */
  function NonRows(lines: seq<string>): (r: seq<string>)
    ensures forall k :: 0 <= k < |r| ==> Count(r[k], ' ') != 6 && Count(r[k], ' ') != 4
    ensures forall k :: 0 <= k < |lines| && Count(lines[k], ' ') != 6 && Count(lines[k], ' ') != 4 ==>
      lines[k] in r
    ensures forall l :: l in r ==> l in lines
  {
    if lines == [] then []
    else
      var n := Count(lines[0], ' ');
      (if n != 6 && n != 4 then [lines[0]] else []) + NonRows(lines[1..])
  }

  /**
   * Like `WithSpaces`, the filter works line by line, in order: the
   * non-row lines of a concatenation are those of its parts, and a single
   * line is kept exactly when it has neither six nor four spaces.
   */
  lemma {:induction false} NonRowsInOrder(a: seq<string>, b: seq<string>, line: string)
    ensures NonRows(a + b) == NonRows(a) + NonRows(b)
    ensures NonRows([line]) == if Count(line, ' ') != 6 && Count(line, ' ') != 4 then [line] else []
  {
    if a == [] {
      assert a + b == b;
    } else {
      assert (a + b)[0] == a[0] && (a + b)[1..] == a[1..] + b;
      NonRowsInOrder(a[1..], b, line);
    }
    assert [line][1..] == [];
  }

  /**
   * `find_prod_type` as written: its filter keeps a tuple, which is always
   * true, so every line, table rows included, is searched.
   */
  function FindProdTypeAsWritten(lines: seq<string>): (r: string)
    ensures r == "N/A" || r in ProdTypes
    ensures r == "N/A" <==> forall k :: 0 <= k < |ProdTypes| ==> !Contains(Concat(lines), ProdTypes[k])
    ensures r != "N/A" ==>
      exists i :: && 0 <= i < |ProdTypes| && r == ProdTypes[i] && Contains(Concat(lines), r)
                  && forall k :: 0 <= k < i ==> !Contains(Concat(lines), ProdTypes[k])
  {
    FirstOccurring(ProdTypes, Concat(lines))
  }

  /**
   * `find_prod_type` as its filter means it: the first product type, by
   * priority, that the page's non-row lines mention, else "N/A".
   */
  function FindProdType(lines: seq<string>): (r: string)
    ensures r == "N/A" || r in ProdTypes
    ensures r == "N/A" <==> forall k :: 0 <= k < |ProdTypes| ==> !Contains(Concat(NonRows(lines)), ProdTypes[k])
    ensures r != "N/A" ==>
      exists i :: && 0 <= i < |ProdTypes| && r == ProdTypes[i] && Contains(Concat(NonRows(lines)), r)
                  && forall k :: 0 <= k < i ==> !Contains(Concat(NonRows(lines)), ProdTypes[k])
  {
    FirstOccurring(ProdTypes, Concat(NonRows(lines)))
  }

  /** Skipping a type the text does not mention. */
  lemma FirstOccurringSkip(opts: seq<string>, txt: string)
    requires "N/A" !in opts && opts != [] && !Contains(txt, opts[0])
    ensures FirstOccurring(opts, txt) == FirstOccurring(opts[1..], txt)
  {
  }

  /** A table row of the money-market layout that names a product type. */
  const TypedRow := "权益类" + "    "

  lemma TypedRowFacts()
    ensures Count(TypedRow, ' ') == 4
    ensures Contains(TypedRow, "权益类") && !Contains(TypedRow, "固定收益类") && !Contains(TypedRow, "混合类")
  {
    CountConcat("权益类", "    ", ' ');
    assert Count("权益类", ' ') == 0;
    assert OccursAt(TypedRow, "权益类", 0);
    FirstCharAbsent(TypedRow, "固定收益类");
    FirstCharAbsent(TypedRow, "混合类");
  }

  /** As written, a table row naming a product type decides the page's type. */
  lemma ProdTypeFromTableRow()
    ensures FindProdTypeAsWritten([TypedRow]) == "权益类"
  {
    TypedRowFacts();
    assert [TypedRow][1..] == [];
    assert Concat([TypedRow]) == TypedRow + Concat([]);
    assert TypedRow + [] == TypedRow;
    var rest := ProdTypes[1..];
    assert rest == ["混合类", "权益类", "货币类"];
    assert rest[1..] == ["权益类", "货币类"];
    FirstOccurringSkip(ProdTypes, TypedRow);
    FirstOccurringSkip(rest, TypedRow);
    var last := rest[1..];
    assert last[0] == "权益类";
    assert FirstOccurring(last, TypedRow) == "权益类";
    assert FindProdTypeAsWritten([TypedRow]) == FirstOccurring(ProdTypes, TypedRow);
  }

  /** As meant, table rows are not searched, so that page has no type. */
  lemma ProdTypeIgnoresTableRow()
    ensures FindProdType([TypedRow]) == "N/A"
  {
    TypedRowFacts();
    assert [TypedRow][1..] == [];
    assert NonRows([TypedRow]) == [];
  }

  // ------------------------------------------------------------ rate2num

  /** A cell of a pandas column: missing, a string, or a number. */
  datatype Cell = NA | Str(s: string) | Num(v: real)

  /** `is_string_dtype`: every cell present is a string. */
  predicate IsStringColumn(x: seq<Cell>)
  {
    forall k :: 0 <= k < |x| ==> !x[k].Num?
  }

  /** One cell of `rate2num`: NA and "-" are missing, a percentage is divided by 100. */
  function RateCell(c: Cell, toNumeric: string -> Option<real>): (r: Result<Cell, PyError>)
    requires !c.Num?
    ensures c == NA || c == Str("-") ==> r == Ok(NA)
    ensures c.Str? && c.s != "-" && '%' in c.s ==>
      r == if toNumeric(RemoveAll(c.s, "%")).Some? then Ok(Num(toNumeric(RemoveAll(c.s, "%")).value / 100.0))
           else Err(ValueError(RemoveAll(c.s, "%")))
    ensures c.Str? && c.s != "-" && '%' !in c.s ==>
      r == if toNumeric(c.s).Some? then Ok(Num(toNumeric(c.s).value)) else Err(ValueError(c.s))
  {
    match c
    case NA => Ok(NA)
    case Str(s) =>
      if s == "-" then Ok(NA)
      else
        var t := if '%' in s then RemoveAll(s, "%") else s;
        var n := toNumeric(t);
        if n.None? then Err(ValueError(t))
        else if '%' in s then Ok(Num(n.value / 100.0))
        else Ok(Num(n.value))
  }

  /** The cells of a string column converted in order; the first failing conversion raises. */
  function Rates(x: seq<Cell>, toNumeric: string -> Option<real>): (r: Result<seq<Cell>, PyError>)
    requires IsStringColumn(x)
    ensures r.Ok? ==> |r.value| == |x|
  {
    if x == [] then Ok([])
    else
      var first :- RateCell(x[0], toNumeric);
      var rest :- Rates(x[1..], toNumeric);
      Ok([first] + rest)
  }

  /**
   * A converted column holds, cell by cell, each cell's conversion; a
   * column that fails holds a first cell whose conversion fails with that
   * error, all cells before it converting.
   */
  lemma {:induction false} RatesCells(x: seq<Cell>, toNumeric: string -> Option<real>)
    requires IsStringColumn(x)
    ensures var r := Rates(x, toNumeric);
      && (r.Ok? <==> forall k :: 0 <= k < |x| ==> RateCell(x[k], toNumeric).Ok?)
      && (r.Ok? ==> forall k :: 0 <= k < |x| ==> RateCell(x[k], toNumeric) == Ok(r.value[k]))
      && (r.Err? ==> exists j :: && 0 <= j < |x| && RateCell(x[j], toNumeric) == Err(r.error)
                                && forall k :: 0 <= k < j ==> RateCell(x[k], toNumeric).Ok?)
  {
    if x != [] {
      var tail := x[1..];
      assert forall k :: 0 <= k < |tail| ==> tail[k] == x[k + 1];
      RatesCells(tail, toNumeric);
      var r := Rates(x, toNumeric);
      var rest := Rates(tail, toNumeric);
      if RateCell(x[0], toNumeric).Ok? && rest.Ok? {
        assert r.value == [RateCell(x[0], toNumeric).value] + rest.value;
        forall k | 0 <= k < |x| ensures RateCell(x[k], toNumeric) == Ok(r.value[k]) {
          if k > 0 {
            assert r.value[k] == rest.value[k - 1];
          }
        }
      } else if RateCell(x[0], toNumeric).Ok? {
        var j :| && 0 <= j < |tail| && RateCell(tail[j], toNumeric) == Err(rest.error)
                 && forall k :: 0 <= k < j ==> RateCell(tail[k], toNumeric).Ok?;
        assert RateCell(x[j + 1], toNumeric) == Err(r.error);
        forall k | 0 <= k < j + 1 ensures RateCell(x[k], toNumeric).Ok? {
          if k > 0 {
            assert x[k] == tail[k - 1];
          }
        }
      }
    }
  }

  /** `rate2num`: a column that is not of strings comes back as it is; a string column is converted. */
  method Rate2Num(x: seq<Cell>, toNumeric: string -> Option<real>) returns (r: Result<seq<Cell>, PyError>)
    ensures !IsStringColumn(x) ==> r == Ok(x)
    ensures IsStringColumn(x) ==> r == Rates(x, toNumeric)
  {
    if !IsStringColumn(x) {
      return Ok(x);
    }
    var out: seq<Cell> := [];
    assert x[0..] == x;
    PrependNothing(Rates(x, toNumeric));
    for i := 0 to |x|
      invariant Rates(x, toNumeric) == Prepend(out, Rates(x[i..], toNumeric))
    {
      var c := RateCell(x[i], toNumeric);
      assert x[i..][1..] == x[i + 1..];
      if c.Err? {
        return Err(c.error);
      }
      PrependTwice(out, c.value, Rates(x[i + 1..], toNumeric));
      out := out + [c.value];
    }
    assert out + [] == out;
    return Ok(out);
  }

  /** The cells already converted, put before an outcome; an error discards them. */
  function Prepend(out: seq<Cell>, r: Result<seq<Cell>, PyError>): Result<seq<Cell>, PyError>
  {
    match r
    case Ok(rest) => Ok(out + rest)
    case Err(e) => Err(e)
  }

  lemma PrependNothing(r: Result<seq<Cell>, PyError>)
    ensures Prepend([], r) == r
  {
    if r.Ok? {
      assert [] + r.value == r.value;
    }
  }

  lemma PrependTwice(out: seq<Cell>, c: Cell, r: Result<seq<Cell>, PyError>)
    ensures Prepend(out, Prepend([c], r)) == Prepend(out + [c], r)
  {
    if r.Ok? {
      assert out + ([c] + r.value) == (out + [c]) + r.value;
    }
  }
}
