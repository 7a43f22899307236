// What a migration file's text means, one character at a time: the automaton that
// tools/upgrade/sql.ts is held against, and the statements it defines.
module SqlLexer {
  import opened Lists
  import opened Text

  /** `Code(tag)` remembers the characters since a `$` that may still open a dollar quote. */
  datatype Mode =
    | Code(tag: string)
    | LineComment
    | BlockComment(depth: nat, previous: char)
    | Quoted(quote: char)
    | Dollar(tag: string, body: string)

  datatype Statement = Statement(text: string, normalized: string, line: nat)

  /** A character of the file with what the automaton says about it. */
  datatype Cell = Cell(symbol: char, comment: bool, cut: bool)

  predicate TagStart(c: char) {
    || 'A' <= c <= 'Z' || 'a' <= c <= 'z' || c == '_'
    || '\U{0080}' <= c <= '\U{FFFF}'
  }

  predicate TagChar(c: char) {
    TagStart(c) || '0' <= c <= '9'
  }

  /** The one place the automaton looks a character ahead. */
  predicate OpensComment(s: string, i: nat)
    requires i < |s|
  {
    && i + 1 < |s|
    && ((s[i] == '-' && s[i + 1] == '-') || (s[i] == '/' && s[i + 1] == '*'))
  }

  predicate EndsWith(s: string, tail: string) {
    |tail| <= |s| && s[|s| - |tail|..] == tail
  }

  function Step(m: Mode, s: string, i: nat): Mode
    requires i < |s|
  {
    var c := s[i];
    match m
    case Code(tag) =>
      if OpensComment(s, i) then (if c == '-' then LineComment else BlockComment(0, '/'))
      else if tag != "" && c == '$' then Dollar(tag + "$", "")
      else if tag != "" && (if tag == "$" then TagStart(c) else TagChar(c)) then Code(tag + [c])
      else if c == '\'' || c == '"' then Quoted(c)
      else if c == '$' then Code("$")
      else Code("")
    case LineComment =>
      if c == '\n' then Code("") else LineComment
    case BlockComment(depth, previous) =>
      if previous == '/' && c == '*' then BlockComment(depth + 1, ' ')
      else if previous == '*' && c == '/' then (if depth <= 1 then Code("") else BlockComment(depth - 1, ' '))
      else BlockComment(depth, c)
    case Quoted(quote) =>
      if c == quote then Code("") else m
    case Dollar(tag, body) =>
      if EndsWith(body + [c], tag) then Code("") else Dollar(tag, body + [c])
  }

  /** The modes before each of the first `n` characters, and after the last of them. */
  function Run(s: string, n: nat): (modes: seq<Mode>)
    requires n <= |s|
    ensures |modes| == n + 1
  {
    if n == 0 then [Code("")]
    else
      var modes := Run(s, n - 1);
      modes + [Step(modes[n - 1], s, n - 1)]
  }

  function ModeAt(s: string, i: nat): Mode
    requires i <= |s|
  {
    Run(s, |s|)[i]
  }

  lemma {:induction false} RunSteps(s: string, n: nat)
    requires n <= |s|
    ensures Run(s, n)[0] == Code("")
    ensures forall i :: 0 <= i < n ==> Run(s, n)[i + 1] == Step(Run(s, n)[i], s, i)
  {
    if n > 0 {
      RunSteps(s, n - 1);
    }
  }

  lemma ModeStarts(s: string)
    ensures ModeAt(s, 0) == Code("")
  {
    RunSteps(s, |s|);
  }

  lemma ModeSteps(s: string, i: nat)
    requires i < |s|
    ensures ModeAt(s, i + 1) == Step(ModeAt(s, i), s, i)
  {
    RunSteps(s, |s|);
  }

  /** Position `i` holds a semicolon outside every comment, quote and dollar quote. */
  predicate IsCut(s: string, i: nat)
    requires i < |s|
  {
    s[i] == ';' && ModeAt(s, i).Code?
  }

  predicate InComment(s: string, i: nat)
    requires i < |s|
  {
    var m := ModeAt(s, i);
    || (m.LineComment? && s[i] != '\n')
    || m.BlockComment?
    || (m.Code? && OpensComment(s, i))
  }

  function CellsTo(s: string, n: nat): (cells: seq<Cell>)
    requires n <= |s|
    ensures |cells| == n
  {
    if n == 0 then [] else CellsTo(s, n - 1) + [Cell(s[n - 1], InComment(s, n - 1), IsCut(s, n - 1))]
  }

  function Cells(s: string): (cells: seq<Cell>)
    ensures |cells| == |s|
  {
    CellsTo(s, |s|)
  }

  lemma {:induction false} CellIs(s: string, n: nat, i: nat)
    requires i < n <= |s|
    ensures CellsTo(s, n)[i] == Cell(s[i], InComment(s, i), IsCut(s, i))
  {
    if i < n - 1 {
      CellIs(s, n - 1, i);
    }
  }

  lemma CellAt(s: string, i: nat)
    requires i < |s|
    ensures Cells(s)[i] == Cell(s[i], InComment(s, i), IsCut(s, i))
  {
    CellIs(s, |s|, i);
  }

  lemma SymbolsOfCells(s: string)
    ensures forall i :: 0 <= i < |s| ==> Cells(s)[i].symbol == s[i]
  {
    forall i | 0 <= i < |s|
      ensures Cells(s)[i].symbol == s[i]
    {
      CellAt(s, i);
    }
  }

  // ------------------------------------------------------------ reading cells

  /** A character that is neither white space nor part of a comment. */
  predicate Solid(cell: Cell) {
    !cell.comment && !IsSpace(cell.symbol)
  }

  function TextOf(cells: seq<Cell>): string {
    if cells == [] then "" else [cells[0].symbol] + TextOf(cells[1..])
  }

  function CodeOf(cells: seq<Cell>): string {
    if cells == [] then ""
    else (if cells[0].comment then "" else [cells[0].symbol]) + CodeOf(cells[1..])
  }

  function Newlines(cells: seq<Cell>): nat {
    if cells == [] then 0 else (if cells[0].symbol == '\n' then 1 else 0) + Newlines(cells[1..])
  }

  /** Everything before the first solid character. */
  function LeadIn(cells: seq<Cell>): seq<Cell> {
    if cells == [] || Solid(cells[0]) then [] else [cells[0]] + LeadIn(cells[1..])
  }

  /** The stretches between cuts. The last one runs to the end of the text and may be empty. */
  function Pieces(pending: seq<Cell>, cells: seq<Cell>): (pieces: seq<seq<Cell>>)
    ensures pieces != []
    decreases |cells|
  {
    if cells == [] then [pending]
    else if cells[0].cut then [pending + [cells[0]]] + Pieces([], cells[1..])
    else Pieces(pending + [cells[0]], cells[1..])
  }

  /** The statement a stretch holds, if any. `line` is the line its first character stands on. */
  function Emit(line: nat, piece: seq<Cell>): seq<Statement> {
    if LeadIn(piece) == piece then []
    else [Statement(Trim(TextOf(piece)), Normalize(CodeOf(piece)), line + Newlines(LeadIn(piece)))]
  }

  /** `emit` on each stretch, given the line the stretch begins on. */
  function EmitAll(emit: (nat, seq<Cell>) -> seq<Statement>, line: nat, pieces: seq<seq<Cell>>): seq<Statement>
    decreases |pieces|
  {
    if pieces == [] then []
    else emit(line, pieces[0]) + EmitAll(emit, line + Newlines(pieces[0]), pieces[1..])
  }

  /** The statements a migration file executes, in order. */
  function Statements(s: string): seq<Statement> {
    EmitAll(Emit, 1, Pieces([], Cells(s)))
  }

  lemma {:induction false} TextOfCells(cells: seq<Cell>, s: string)
    requires |cells| == |s| && forall i :: 0 <= i < |s| ==> cells[i].symbol == s[i]
    ensures TextOf(cells) == s
  {
    if s != "" {
      TextOfCells(cells[1..], s[1..]);
    }
  }

  lemma {:induction false} LeadInSplits(cells: seq<Cell>, at: nat)
    requires at <= |cells| && (forall i :: 0 <= i < at ==> !Solid(cells[i])) && (at < |cells| ==> Solid(cells[at]))
    ensures LeadIn(cells) == cells[..at]
  {
    if at > 0 {
      LeadInSplits(cells[1..], at - 1);
      assert cells[..at] == [cells[0]] + cells[1..][..at - 1];
    }
  }

  // ------------------------------------------------------------ concatenation

  lemma {:induction false} TextOfSum(x: seq<Cell>, y: seq<Cell>)
    ensures TextOf(x + y) == TextOf(x) + TextOf(y)
  {
    if x == [] {
      assert x + y == y;
    } else {
      assert (x + y)[1..] == x[1..] + y;
      TextOfSum(x[1..], y);
    }
  }

  lemma {:induction false} CodeOfSum(x: seq<Cell>, y: seq<Cell>)
    ensures CodeOf(x + y) == CodeOf(x) + CodeOf(y)
  {
    if x == [] {
      assert x + y == y;
    } else {
      assert (x + y)[1..] == x[1..] + y;
      CodeOfSum(x[1..], y);
    }
  }

  lemma {:induction false} NewlinesOfSum(x: seq<Cell>, y: seq<Cell>)
    ensures Newlines(x + y) == Newlines(x) + Newlines(y)
  {
    if x == [] {
      assert x + y == y;
    } else {
      assert (x + y)[1..] == x[1..] + y;
      NewlinesOfSum(x[1..], y);
    }
  }

  function Join(pieces: seq<seq<Cell>>): seq<Cell> {
    if pieces == [] then [] else pieces[0] + Join(pieces[1..])
  }

  predicate NoCut(cells: seq<Cell>) {
    forall i :: 0 <= i < |cells| ==> !cells[i].cut
  }

  /** Cut at the end and nowhere else. */
  predicate CutAtEnd(cells: seq<Cell>) {
    cells != [] && cells[|cells| - 1].cut && NoCut(cells[..|cells| - 1])
  }

  /** Joined back, the stretches are all there was, and each but the last ends at its only cut. */
  ghost predicate CutApart(pieces: seq<seq<Cell>>, whole: seq<Cell>) {
    && pieces != []
    && Join(pieces) == whole
    && NoCut(pieces[|pieces| - 1])
    && forall k :: 0 <= k < |pieces| - 1 ==> CutAtEnd(pieces[k])
  }

  lemma CutApartMore(first: seq<Cell>, rest: seq<seq<Cell>>, whole: seq<Cell>)
    requires CutAtEnd(first) && CutApart(rest, whole)
    ensures CutApart([first] + rest, first + whole)
  {
    var pieces := [first] + rest;
    assert pieces[1..] == rest;
    assert pieces[|pieces| - 1] == rest[|rest| - 1];
    forall k | 0 <= k < |pieces| - 1
      ensures CutAtEnd(pieces[k])
    {
      if k > 0 {
        assert pieces[k] == rest[k - 1];
      }
    }
  }

  lemma {:induction false} PiecesCutAtCuts(pending: seq<Cell>, cells: seq<Cell>)
    requires NoCut(pending)
    ensures CutApart(Pieces(pending, cells), pending + cells)
    decreases |cells|
  {
    if cells == [] {
      JoinOfOne(pending);
      assert pending + cells == pending;
    } else {
      var next := pending + [cells[0]];
      Around(cells, 0);
      assert cells[..0] + ([cells[0]] + cells[1..]) == [cells[0]] + cells[1..];
      Regrouped(pending, cells[0], cells[1..]);
      if cells[0].cut {
        PiecesCutAtCuts([], cells[1..]);
        assert [] + cells[1..] == cells[1..];
        assert next[..|next| - 1] == pending;
        CutApartMore(next, Pieces([], cells[1..]), cells[1..]);
      } else {
        PiecesCutAtCuts(next, cells[1..]);
      }
    }
  }

  /**
   * The file is cut after exactly its top-level semicolons, and the raw stretches, dropped
   * ones included, join back into the whole file.
   */
  lemma CutsAtTopLevelSemicolons(s: string)
    ensures var pieces := Pieces([], Cells(s));
      && TextOf(Join(pieces)) == s
      && |Join(pieces)| == |s|
      && (forall i :: 0 <= i < |s| ==>
            (Join(pieces)[i].cut <==> s[i] == ';' && ModeAt(s, i).Code?))
      && NoCut(pieces[|pieces| - 1])
      && (forall k :: 0 <= k < |pieces| - 1 ==> CutAtEnd(pieces[k]))
  {
    PiecesCutAtCuts([], Cells(s));
    assert [] + Cells(s) == Cells(s);
    SymbolsOfCells(s);
    TextOfCells(Cells(s), s);
    forall i | 0 <= i < |s|
      ensures Cells(s)[i].cut <==> s[i] == ';' && ModeAt(s, i).Code?
    {
      CellAt(s, i);
    }
  }

  // --------------------------------------------------------- kept and dropped

  lemma {:induction false} CodeBlankIffNothingSolid(cells: seq<Cell>)
    ensures Blank(CodeOf(cells)) <==> forall i :: 0 <= i < |cells| ==> !Solid(cells[i])
  {
    if cells != [] {
      var rest := cells[1..];
      CodeBlankIffNothingSolid(rest);
      if !cells[0].comment {
        BlankHead(cells[0].symbol, CodeOf(rest));
      }
      assert "" + CodeOf(rest) == CodeOf(rest);
      NothingSolidHead(cells[0], rest);
      assert cells == [cells[0]] + rest;
    }
  }

  lemma NothingSolidHead(cell: Cell, rest: seq<Cell>)
    ensures (forall i :: 0 <= i < |[cell] + rest| ==> !Solid(([cell] + rest)[i]))
        <==> !Solid(cell) && forall i :: 0 <= i < |rest| ==> !Solid(rest[i])
  {
    assert ([cell] + rest)[0] == cell;
    assert forall i :: 0 <= i < |rest| ==> ([cell] + rest)[i + 1] == rest[i];
    assert forall i :: 1 <= i < |[cell] + rest| ==> ([cell] + rest)[i] == rest[i - 1];
  }

  lemma BlankHead(c: char, s: string)
    ensures Blank([c] + s) <==> IsSpace(c) && Blank(s)
  {
    assert ([c] + s)[0] == c;
    assert forall i :: 0 <= i < |s| ==> ([c] + s)[i + 1] == s[i];
    assert forall i :: 1 <= i < |[c] + s| ==> ([c] + s)[i] == s[i - 1];
  }

  function FirstSolid(cells: seq<Cell>): (at: nat)
    ensures at <= |cells|
    ensures forall i :: 0 <= i < at ==> !Solid(cells[i])
    ensures at < |cells| ==> Solid(cells[at])
  {
    if cells == [] || Solid(cells[0]) then 0 else 1 + FirstSolid(cells[1..])
  }

  lemma LeadInIsAll(piece: seq<Cell>)
    ensures LeadIn(piece) == piece <==> forall i :: 0 <= i < |piece| ==> !Solid(piece[i])
  {
    var at := FirstSolid(piece);
    LeadInSplits(piece, at);
    assert |LeadIn(piece)| == at;
    assert piece[..|piece|] == piece;
  }

  /** A stretch is dropped exactly when it holds nothing but white space and comments. */
  lemma DroppedIffNothingSolid(line: nat, piece: seq<Cell>)
    ensures Emit(line, piece) == [] <==> Trim(CodeOf(piece)) == ""
    ensures Emit(line, piece) == [] <==> forall i :: 0 <= i < |piece| ==> !Solid(piece[i])
  {
    LeadInIsAll(piece);
    CodeBlankIffNothingSolid(piece);
    var b, a := TrimSplit(CodeOf(piece));
  }

  lemma {:induction false} CutIsSolid(s: string, pieces: seq<seq<Cell>>, k: nat, i: nat)
    requires k < |pieces| && i < |pieces[k]| && pieces[k][i].cut && Join(pieces) == Cells(s)
    ensures Solid(pieces[k][i])
  {
    JoinAround(pieces, k);
    var at := |Join(pieces[..k])| + i;
    assert Cells(s)[at] == pieces[k][i];
    CellAt(s, at);
  }

  /** A stretch that ends at a semicolon is always kept: only what follows the last one can be dropped. */
  lemma OnlyTheLastIsDropped(s: string, line: nat, k: nat)
    requires k < |Pieces([], Cells(s))| - 1
    ensures Emit(line, Pieces([], Cells(s))[k]) != []
  {
    var pieces := Pieces([], Cells(s));
    PiecesCutAtCuts([], Cells(s));
    assert [] + Cells(s) == Cells(s);
    assert CutAtEnd(pieces[k]);
    CutIsSolid(s, pieces, k, |pieces[k]| - 1);
    DroppedIffNothingSolid(line, pieces[k]);
  }

  /**
   * The statement of the `k`-th stretch stands on the line of its first character that is
   * neither blank nor comment: one more than the newlines anywhere before it.
   */
  lemma LineOfFirstSolid(s: string, k: nat, at: nat)
    requires var pieces := Pieces([], Cells(s));
      k < |pieces| && at < |pieces[k]| && Solid(pieces[k][at]) && forall i :: 0 <= i < at ==> !Solid(pieces[k][i])
    ensures var pieces := Pieces([], Cells(s));
      Statement(Trim(TextOf(pieces[k])), Normalize(CodeOf(pieces[k])),
                1 + Newlines(Join(pieces[..k]) + pieces[k][..at]))
        in Statements(s)
  {
    var pieces := Pieces([], Cells(s));
    LeadInSplits(pieces[k], at);
    NewlinesOfSum(Join(pieces[..k]), pieces[k][..at]);
    var line := 1 + Newlines(Join(pieces[..k]));
    EmittedInPlace(Emit, 1, pieces, k);
    assert |pieces[k][..at]| < |pieces[k]|;
    assert Emit(line, pieces[k])[0] in Emit(line, pieces[k]);
  }

  lemma {:induction false} EmittedInPlace(emit: (nat, seq<Cell>) -> seq<Statement>, line: nat, pieces: seq<seq<Cell>>,
                                          k: nat)
    requires k < |pieces|
    ensures forall x :: x in emit(line + Newlines(Join(pieces[..k])), pieces[k]) ==> x in EmitAll(emit, line, pieces)
    decreases k
  {
    if k == 0 {
      assert Join(pieces[..0]) == [];
    } else {
      EmittedInPlace(emit, line + Newlines(pieces[0]), pieces[1..], k - 1);
      assert pieces[..k][1..] == pieces[1..][..k - 1];
      NewlinesOfSum(pieces[0], Join(pieces[1..][..k - 1]));
    }
  }

  // ----------------------------------------------------------------- locality

  /** Where the automaton is in plain code, what follows is read as if it stood alone. */
  lemma {:induction false} ModeOfSuffix(x: string, y: string, j: nat)
    requires j <= |y| && ModeAt(x + y, |x|) == Code("")
    ensures ModeAt(x + y, |x| + j) == ModeAt(y, j)
  {
    if j == 0 {
      ModeStarts(y);
    } else {
      ModeOfSuffix(x, y, j - 1);
      var i := |x| + j - 1;
      ModeSteps(x + y, i);
      ModeSteps(y, j - 1);
      assert (x + y)[i] == y[j - 1];
      assert i + 1 < |x + y| ==> (x + y)[i + 1] == y[j];
      assert OpensComment(x + y, i) == OpensComment(y, j - 1);
    }
  }

  /** Text after a prefix changes nothing inside it, unless a comment opener straddles the seam. */
  lemma {:induction false} ModeOfPrefix(x: string, y: string, j: nat)
    requires j <= |x|
    requires x != "" ==> !OpensComment(x + y, |x| - 1)
    ensures ModeAt(x + y, j) == ModeAt(x, j)
  {
    if j == 0 {
      ModeStarts(x + y);
      ModeStarts(x);
    } else {
      ModeOfPrefix(x, y, j - 1);
      ModeSteps(x + y, j - 1);
      ModeSteps(x, j - 1);
      assert (x + y)[j - 1] == x[j - 1];
      assert j < |x| ==> (x + y)[j] == x[j];
      assert OpensComment(x + y, j - 1) == OpensComment(x, j - 1);
    }
  }

  lemma SameCell(s: string, i: nat, t: string, j: nat)
    requires i < |s| && j < |t| && s[i] == t[j] && ModeAt(s, i) == ModeAt(t, j)
    requires OpensComment(s, i) == OpensComment(t, j)
    ensures Cells(s)[i] == Cells(t)[j]
  {
    CellAt(s, i);
    CellAt(t, j);
  }

  /** Text after a prefix changes no cell of it, unless a comment opener straddles the seam. */
  lemma CellsOfPrefix(x: string, y: string)
    requires x != "" ==> !OpensComment(x + y, |x| - 1)
    ensures Cells(x + y)[..|x|] == Cells(x)
  {
    forall i | 0 <= i < |x|
      ensures Cells(x + y)[i] == Cells(x)[i]
    {
      ModeOfPrefix(x, y, i);
      SameCell(x + y, i, x, i);
    }
  }

  lemma CellsOfSuffix(x: string, y: string)
    requires ModeAt(x + y, |x|) == Code("")
    ensures Cells(x + y)[|x|..] == Cells(y)
  {
    forall j | 0 <= j < |y|
      ensures Cells(x + y)[|x| + j] == Cells(y)[j]
    {
      ModeOfSuffix(x, y, j);
      SameCell(x + y, |x| + j, y, j);
    }
  }

  /** A seam in plain code: the two sides are read separately. */
  lemma CellsOfSum(x: string, y: string)
    requires x != "" ==> !OpensComment(x + y, |x| - 1)
    requires ModeAt(x, |x|) == Code("")
    ensures Cells(x + y) == Cells(x) + Cells(y)
  {
    ModeOfPrefix(x, y, |x|);
    CellsOfPrefix(x, y);
    CellsOfSuffix(x, y);
    var cells := Cells(x + y);
    assert cells == cells[..|x|] + cells[|x|..];
  }

  lemma {:induction false} PiecesOfSum(pending: seq<Cell>, x: seq<Cell>, y: seq<Cell>)
    requires x != [] && x[|x| - 1].cut
    ensures Pieces(pending, x)[|Pieces(pending, x)| - 1] == []
    ensures Pieces(pending, x + y) == Pieces(pending, x)[..|Pieces(pending, x)| - 1] + Pieces([], y)
    decreases |x|
  {
    assert (x + y)[1..] == x[1..] + y;
    var p := if x[0].cut then [] else pending + [x[0]];
    if |x| > 1 {
      PiecesOfSum(p, x[1..], y);
    } else {
      assert x[1..] == [];
      assert x[1..] + y == y;
    }
  }

  lemma EmitAllUnfolds(emit: (nat, seq<Cell>) -> seq<Statement>, line: nat, pieces: seq<seq<Cell>>, next: nat)
    requires pieces != [] && next == line + Newlines(pieces[0])
    ensures EmitAll(emit, line, pieces) == emit(line, pieces[0]) + EmitAll(emit, next, pieces[1..])
  {
  }

  lemma {:induction false} EmitAllOfSum(emit: (nat, seq<Cell>) -> seq<Statement>, line: nat, x: seq<seq<Cell>>,
                                        y: seq<seq<Cell>>)
    ensures EmitAll(emit, line, x + y) == EmitAll(emit, line, x) + EmitAll(emit, line + Newlines(Join(x)), y)
    decreases |x|
  {
    if x == [] {
      assert x + y == y;
    } else {
      var next := line + Newlines(x[0]);
      assert (x + y)[1..] == x[1..] + y;
      EmitAllUnfolds(emit, line, x + y, next);
      EmitAllUnfolds(emit, line, x, next);
      EmitAllOfSum(emit, next, x[1..], y);
      NewlinesOfSum(x[0], Join(x[1..]));
      Associates(emit(line, x[0]), EmitAll(emit, next, x[1..]), EmitAll(emit, line + Newlines(Join(x)), y));
    }
  }

  function Shift(statements: seq<Statement>, lines: nat): seq<Statement> {
    if statements == [] then []
    else [statements[0].(line := statements[0].line + lines)] + Shift(statements[1..], lines)
  }

  lemma {:induction false} ShiftOfSum(x: seq<Statement>, y: seq<Statement>, lines: nat)
    ensures Shift(x + y, lines) == Shift(x, lines) + Shift(y, lines)
  {
    if x == [] {
      assert x + y == y;
    } else {
      assert (x + y)[1..] == x[1..] + y;
      ShiftOfSum(x[1..], y, lines);
    }
  }

  lemma EmitShifts(line: nat, lines: nat, piece: seq<Cell>)
    ensures Emit(line + lines, piece) == Shift(Emit(line, piece), lines)
  {
  }

  lemma ShiftsTogether(first: seq<Statement>, later: seq<Statement>, first': seq<Statement>, later': seq<Statement>,
                       lines: nat)
    requires first' == Shift(first, lines) && later' == Shift(later, lines)
    ensures first' + later' == Shift(first + later, lines)
  {
    ShiftOfSum(first, later, lines);
  }

  lemma {:induction false} EmitAllShifts(line: nat, lines: nat, pieces: seq<seq<Cell>>)
    ensures EmitAll(Emit, line + lines, pieces) == Shift(EmitAll(Emit, line, pieces), lines)
    decreases |pieces|
  {
    if pieces == [] {
    } else {
      var next := line + Newlines(pieces[0]);
      EmitAllShifts(next, lines, pieces[1..]);
      EmitShifts(line, lines, pieces[0]);
      EmitAllUnfolds(Emit, line, pieces, next);
      EmitAllUnfolds(Emit, line + lines, pieces, next + lines);
      ShiftsTogether(Emit(line, pieces[0]), EmitAll(Emit, next, pieces[1..]),
                     Emit(line + lines, pieces[0]), EmitAll(Emit, next + lines, pieces[1..]), lines);
    }
  }

  lemma {:induction false} JoinOfSum(x: seq<seq<Cell>>, y: seq<seq<Cell>>)
    ensures Join(x + y) == Join(x) + Join(y)
  {
    if x == [] {
      assert x + y == y;
    } else {
      assert (x + y)[1..] == x[1..] + y;
      JoinOfSum(x[1..], y);
    }
  }

  lemma PiecesAfterCut(x: seq<Cell>, y: seq<Cell>) returns (front: seq<seq<Cell>>)
    requires x != [] && x[|x| - 1].cut
    ensures Pieces([], x) == front + [[]] && Join(front) == x
    ensures Pieces([], x + y) == front + Pieces([], y)
  {
    PiecesOfSum([], x, y);
    PiecesCutAtCuts([], x);
    var p := Pieces([], x);
    front := p[..|p| - 1];
    var last: seq<seq<Cell>> := [[]];
    assert p == front + last;
    JoinOfSum(front, last);
    assert last[1..] == [];
    assert Join(last) == last[0] + Join(last[1..]) == [];
    calc {
      Join(front);
      Join(front) + Join(last);
      Join(p);
      [] + x;
      x;
    }
  }

  lemma EmitAroundCut(emit: (nat, seq<Cell>) -> seq<Statement>, front: seq<seq<Cell>>, back: seq<seq<Cell>>, line: nat)
    requires line == 1 + Newlines(Join(front)) && emit(line, []) == []
    ensures EmitAll(emit, 1, front + back) == EmitAll(emit, 1, front + [[]]) + EmitAll(emit, line, back)
  {
    var last: seq<seq<Cell>> := [[]];
    EmitAllOfSum(emit, 1, front, last);
    EmitAllOfSum(emit, 1, front, back);
    EmitAllUnfolds(emit, line, last, line);
    assert last[1..] == [];
  }

  lemma EmitAfterCut(lines: nat, front: seq<seq<Cell>>, back: seq<seq<Cell>>)
    requires lines == Newlines(Join(front))
    ensures EmitAll(Emit, 1, front + back) == EmitAll(Emit, 1, front + [[]]) + Shift(EmitAll(Emit, 1, back), lines)
  {
    EmitNothing(1 + lines);
    EmitAroundCut(Emit, front, back, 1 + lines);
    EmitAllShifts(1, lines, back);
  }

  /** A file cut at a top-level semicolon splits into the statements of its two halves. */
  lemma SplittingIsLocal(a: string, b: string)
    requires a != "" && IsCut(a, |a| - 1)
    ensures Statements(a + b) == Statements(a) + Shift(Statements(b), Newlines(Cells(a)))
  {
    assert (a + b)[|a| - 1] == ';';
    ModeSteps(a, |a| - 1);
    CellAt(a, |a| - 1);
    CellsOfSum(a, b);
    var front := PiecesAfterCut(Cells(a), Cells(b));
    var lines := Newlines(Cells(a));
    EmitAfterCut(lines, front, Pieces([], Cells(b)));
  }

  // ---------------------------------------------------------------- rescanning

  lemma {:induction false} EmittedByOne(emit: (nat, seq<Cell>) -> seq<Statement>, line: nat, pieces: seq<seq<Cell>>,
                                        statement: Statement) returns (k: nat, l: nat)
    requires statement in EmitAll(emit, line, pieces)
    ensures k < |pieces| && statement in emit(l, pieces[k])
    decreases |pieces|
  {
    if statement in emit(line, pieces[0]) {
      k, l := 0, line;
    } else {
      var j, m := EmittedByOne(emit, line + Newlines(pieces[0]), pieces[1..], statement);
      k, l := j + 1, m;
    }
  }

  lemma JoinOfOne(piece: seq<Cell>)
    ensures Join([piece]) == piece
  {
    assert [piece] == [piece] + [];
    assert Join([piece]) == piece + Join([]);
  }

  lemma JoinAround(pieces: seq<seq<Cell>>, k: nat)
    requires k < |pieces|
    ensures Join(pieces) == Join(pieces[..k]) + (pieces[k] + Join(pieces[k + 1..]))
  {
    Around(pieces, k);
    var rest := [pieces[k]] + pieces[k + 1..];
    JoinOfSum(pieces[..k], rest);
    JoinOfSum([pieces[k]], pieces[k + 1..]);
    JoinOfOne(pieces[k]);
  }

  lemma JoinGrows(pieces: seq<seq<Cell>>, k: nat)
    requires 0 < k <= |pieces|
    ensures Join(pieces[..k]) == Join(pieces[..k - 1]) + pieces[k - 1]
  {
    Grown(pieces, k - 1);
    JoinOfSum(pieces[..k - 1], [pieces[k - 1]]);
    JoinOfOne(pieces[k - 1]);
  }

  lemma CodeAfterCut(s: string, i: nat)
    requires i < |s| && Cells(s)[i].cut
    ensures ModeAt(s, i + 1) == Code("")
  {
    CellAt(s, i);
    ModeSteps(s, i);
  }

  lemma PieceInFile(s: string, pieces: seq<seq<Cell>>, k: nat)
    requires k < |pieces| && Join(pieces) == Cells(s)
    requires forall i :: 0 <= i < |pieces| - 1 ==> CutAtEnd(pieces[i])
    ensures Cells(s) == Join(pieces[..k]) + (pieces[k] + Join(pieces[k + 1..]))
    ensures ModeAt(s, |Join(pieces[..k])|) == Code("")
  {
    JoinAround(pieces, k);
    var front := Join(pieces[..k]);
    if k > 0 {
      JoinGrows(pieces, k);
      assert CutAtEnd(pieces[k - 1]);
      assert Cells(s)[|front| - 1] == front[|front| - 1];
      CodeAfterCut(s, |front| - 1);
    } else {
      ModeStarts(s);
    }
  }

  lemma TailStandsAlone(x: string, y: string, front: seq<Cell>, tail: seq<Cell>)
    requires Cells(x + y) == front + tail && |front| == |x| && ModeAt(x + y, |x|) == Code("")
    ensures Cells(y) == tail
  {
    CellsOfSuffix(x, y);
    assert (front + tail)[|x|..] == tail;
  }

  lemma HeadStandsAlone(r: string, rest: string, piece: seq<Cell>, back: seq<Cell>)
    requires Cells(r + rest) == piece + back && |piece| == |r|
    requires back == [] || (piece != [] && piece[|piece| - 1].cut)
    ensures Cells(r) == piece && TextOf(piece) == r
  {
    assert |rest| == |back|;
    if back != [] {
      CellAt(r + rest, |r| - 1);
    }
    CellsOfPrefix(r, rest);
    assert (piece + back)[..|r|] == piece;
    SymbolsOfCells(r);
    TextOfCells(piece, r);
  }

  lemma StandsAlone(s: string, front: seq<Cell>, piece: seq<Cell>, back: seq<Cell>)
    requires Cells(s) == front + (piece + back) && ModeAt(s, |front|) == Code("")
    requires back == [] || (piece != [] && piece[|piece| - 1].cut)
    ensures Cells(TextOf(piece)) == piece
  {
    var x, y := s[..|front|], s[|front|..];
    Halves(s, |front|);
    TailStandsAlone(x, y, front, piece + back);
    var r, rest := y[..|piece|], y[|piece|..];
    Halves(y, |piece|);
    HeadStandsAlone(r, rest, piece, back);
  }

  /** A stretch is read the same on its own as inside the file. */
  lemma PieceStandsAlone(s: string, k: nat)
    requires k < |Pieces([], Cells(s))|
    ensures Cells(TextOf(Pieces([], Cells(s))[k])) == Pieces([], Cells(s))[k]
  {
    var pieces := Pieces([], Cells(s));
    PiecesCutAtCuts([], Cells(s));
    assert Join(pieces) == [] + Cells(s) == Cells(s);
    PieceInFile(s, pieces, k);
    if k + 1 < |pieces| {
      assert CutAtEnd(pieces[k]);
    } else {
      assert pieces[k + 1..] == [];
    }
    StandsAlone(s, Join(pieces[..k]), pieces[k], Join(pieces[k + 1..]));
  }

  lemma {:induction false} BlankStaysInCode(w: string, i: nat)
    requires Blank(w) && i <= |w|
    ensures ModeAt(w, i) == Code("")
  {
    ModeStarts(w);
    if i > 0 {
      BlankStaysInCode(w, i - 1);
      ModeSteps(w, i - 1);
    }
  }

  lemma BlankCells(cells: seq<Cell>)
    requires forall i :: 0 <= i < |cells| ==> IsSpace(cells[i].symbol)
    ensures Blank(CodeOf(cells)) && forall i :: 0 <= i < |cells| ==> !Solid(cells[i])
  {
    CodeBlankIffNothingSolid(cells);
  }

  lemma CellsAroundBlanks(b: string, t: string, a: string)
    requires Blank(b) && Blank(a)
    ensures Cells(b + (t + a)) == Cells(b) + Cells(t + a)
    ensures Cells(t + a)[..|t|] == Cells(t)
  {
    BlankStaysInCode(b, |b|);
    assert b != "" ==> (b + (t + a))[|b| - 1] == b[|b| - 1];
    CellsOfSum(b, t + a);
    assert t != "" && a != "" ==> (t + a)[|t|] == a[0];
    CellsOfPrefix(t, a);
  }

  lemma CellsOfPadded(b: string, t: string, a: string) returns (before: seq<Cell>, after: seq<Cell>)
    requires Blank(b) && Blank(a)
    ensures Cells(b + (t + a)) == before + Cells(t) + after
    ensures forall i :: 0 <= i < |before| ==> IsSpace(before[i].symbol)
    ensures forall i :: 0 <= i < |after| ==> IsSpace(after[i].symbol)
  {
    CellsAroundBlanks(b, t, a);
    var inner := Cells(t + a);
    before, after := Cells(b), inner[|t|..];
    assert inner == inner[..|t|] + after;
    SymbolsOfCells(b);
    SymbolsOfCells(t + a);
    forall i | 0 <= i < |after|
      ensures IsSpace(after[i].symbol)
    {
      assert after[i].symbol == (t + a)[|t| + i] == a[i];
    }
  }

  /** Trimming a text takes blank cells off both ends and changes no other. */
  lemma CellsOfTrimmed(r: string) returns (before: seq<Cell>, after: seq<Cell>)
    ensures Cells(r) == before + Cells(Trim(r)) + after
    ensures forall i :: 0 <= i < |before| ==> IsSpace(before[i].symbol)
    ensures forall i :: 0 <= i < |after| ==> IsSpace(after[i].symbol)
  {
    var b, a := TrimSplit(r);
    assert r == b + (Trim(r) + a);
    before, after := CellsOfPadded(b, Trim(r), a);
  }

  lemma PiecesOfOne(cells: seq<Cell>, pending: seq<Cell>)
    requires NoCut(cells) || CutAtEnd(cells)
    ensures Pieces(pending, cells) == if NoCut(cells) then [pending + cells] else [pending + cells, []]
    decreases |cells|
  {
    if cells == [] {
      assert pending + cells == pending;
    } else {
      var rest := cells[1..];
      assert pending + [cells[0]] + rest == pending + cells;
      if |cells| == 1 {
        assert rest == [];
      } else {
        assert cells[0] == cells[..|cells| - 1][0];
        assert rest[..|rest| - 1] == cells[..|cells| - 1][1..];
        PiecesOfOne(rest, pending + [cells[0]]);
      }
    }
  }

  lemma EmitsOne(line: nat, piece: seq<Cell>, statement: Statement)
    requires statement in Emit(line, piece)
    ensures Emit(line, piece) == [statement]
  {
  }

  /** Scanning a statement's own text again yields that one statement, normalized alike. */
  lemma RescanIsStable(s: string, statement: Statement)
    requires statement in Statements(s)
    ensures exists line :: Statements(statement.text) == [statement.(line := line)]
  {
    var k, l := EmittedByOne(Emit, 1, Pieces([], Cells(s)), statement);
    StretchEnds(s, k);
    PieceStandsAlone(s, k);
    EmitsOne(l, Pieces([], Cells(s))[k], statement);
    RescanOfPiece(l, Pieces([], Cells(s))[k], statement);
  }

  lemma StretchEnds(s: string, k: nat)
    requires k < |Pieces([], Cells(s))|
    ensures var piece := Pieces([], Cells(s))[k]; NoCut(piece) || CutAtEnd(piece)
  {
    PiecesCutAtCuts([], Cells(s));
  }

  lemma CoreCuts(piece: seq<Cell>, before: seq<Cell>, core: seq<Cell>, after: seq<Cell>)
    requires piece == before + core + after
    requires forall i :: 0 <= i < |before| ==> IsSpace(before[i].symbol)
    requires forall i :: 0 <= i < |after| ==> IsSpace(after[i].symbol)
    requires forall i :: 0 <= i < |piece| && piece[i].cut ==> piece[i].symbol == ';'
    requires NoCut(piece) || CutAtEnd(piece)
    ensures NoCut(core) || CutAtEnd(core)
  {
    forall i | 0 <= i < |core| - 1
      ensures !core[i].cut
    {
      assert core[i] == piece[|before| + i];
      if CutAtEnd(piece) {
        assert piece[|before| + i] == piece[..|piece| - 1][|before| + i];
      }
    }
  }

  lemma RescanOfPiece(l: nat, piece: seq<Cell>, statement: Statement)
    requires Emit(l, piece) == [statement] && Cells(TextOf(piece)) == piece
    requires NoCut(piece) || CutAtEnd(piece)
    ensures exists line :: Statements(statement.text) == [statement.(line := line)]
  {
    var t := Trim(TextOf(piece));
    var before, after := CellsOfTrimmed(TextOf(piece));
    var core := Cells(t);
    CutsAreSemicolons(TextOf(piece));
    CoreCuts(piece, before, core, after);
    PiecesOfOne(core, []);
    assert [] + core == core;
    EmitOneOrTwo(core);
    assert Statements(t) == Emit(1, core);
    SymbolsOfCells(t);
    TextOfCells(core, t);
    TrimTwice(TextOf(piece));
    TrimmedCode(l, before, core, after);
    SameWhenTrimmed(l, piece, core, statement);
  }

  lemma CutsAreSemicolons(s: string)
    ensures forall i :: 0 <= i < |s| && Cells(s)[i].cut ==> Cells(s)[i].symbol == ';'
  {
    forall i | 0 <= i < |s| && Cells(s)[i].cut
      ensures Cells(s)[i].symbol == ';'
    {
      CellAt(s, i);
    }
  }

  lemma EmitNothing(line: nat)
    ensures Emit(line, []) == []
  {
  }

  lemma TrimTwice(s: string)
    ensures Trim(Trim(s)) == Trim(s)
  {
    var b, a := TrimSplit(s);
    TrimFixed(Trim(s));
  }

  lemma SameWhenTrimmed(l: nat, piece: seq<Cell>, core: seq<Cell>, statement: Statement)
    requires Emit(l, piece) == [statement] && Emit(1, core) != []
    requires TextOf(core) == Trim(TextOf(piece)) && Trim(Trim(TextOf(piece))) == Trim(TextOf(piece))
    requires Normalize(CodeOf(core)) == Normalize(CodeOf(piece))
    ensures Emit(1, core) == [statement.(line := 1 + Newlines(LeadIn(core)))]
  {
  }

  lemma EmitOneOrTwo(core: seq<Cell>)
    ensures EmitAll(Emit, 1, [core]) == Emit(1, core) == EmitAll(Emit, 1, [core, []])
  {
    var last: seq<seq<Cell>> := [[]];
    assert [core] == [core] + [];
    assert [core, []][1..] == last;
    assert last[1..] == [];
    EmitNothing(1 + Newlines(core));
    assert EmitAll(Emit, 1 + Newlines(core), last) == Emit(1 + Newlines(core), []) + [];
  }

  lemma EmittedIffCode(line: nat, piece: seq<Cell>)
    ensures Emit(line, piece) == [] <==> Blank(CodeOf(piece))
  {
    DroppedIffNothingSolid(line, piece);
    CodeBlankIffNothingSolid(piece);
  }

  lemma BlankAround(before: string, core: string, after: string)
    requires Blank(before) && Blank(after)
    ensures Blank(before + core + after) <==> Blank(core)
  {
    var all := before + core + after;
    if Blank(all) {
      forall i | 0 <= i < |core|
        ensures IsSpace(core[i])
      {
        assert core[i] == all[|before| + i];
      }
    }
  }

  lemma TrimmedCode(l: nat, before: seq<Cell>, core: seq<Cell>, after: seq<Cell>)
    requires forall i :: 0 <= i < |before| ==> IsSpace(before[i].symbol)
    requires forall i :: 0 <= i < |after| ==> IsSpace(after[i].symbol)
    ensures Normalize(CodeOf(before + core + after)) == Normalize(CodeOf(core))
    ensures Emit(1, core) == [] <==> Emit(l, before + core + after) == []
  {
    BlankCells(before);
    BlankCells(after);
    CodeOfSum(before + core, after);
    CodeOfSum(before, core);
    NormalizeIgnoresBlankEnds(CodeOf(before), CodeOf(core), CodeOf(after));
    BlankAround(CodeOf(before), CodeOf(core), CodeOf(after));
    EmittedIffCode(l, before + core + after);
    EmittedIffCode(1, core);
  }
}
