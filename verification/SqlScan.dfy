// tools/upgrade/sql.ts: the index-driven splitter, proved to compute what the automaton says.
module SqlScan {
  import opened Lists
  import opened Text
  import opened SqlLexer

  // ------------------------------------------------------------------ dollar tags

  /** Past the last tag character from `at` on. */
  function TagEnd(s: string, at: nat): (end: nat)
    requires at <= |s|
    ensures at <= end <= |s|
    ensures forall i :: at <= i < end ==> TagChar(s[i])
    ensures end < |s| ==> !TagChar(s[end])
    decreases |s| - at
  {
    if at == |s| || !TagChar(s[at]) then at else TagEnd(s, at + 1)
  }

  /** The dollar-quote tag that begins at `at`, or nothing. */
  function TagAt(s: string, at: nat): string
    requires at < |s|
  {
    if s[at] != '$' || at + 1 == |s| then ""
    else if s[at + 1] == '$' then "$$"
    else if !TagStart(s[at + 1]) then ""
    else
      var end := TagEnd(s, at + 1);
      if end < |s| && s[end] == '$' then s[at..end + 1] else ""
  }

  // ------------------------------------------------------------ between tokens

  /** The scanner stands at `i` outside every token, and no tag it passed can still open. */
  ghost predicate AtCode(s: string, i: nat)
    requires i <= |s|
  {
    ModeAt(s, i).Code? && (ModeAt(s, i).tag != "" ==> HopelessTag(s, i, ModeAt(s, i).tag))
  }

  ghost predicate HopelessTag(s: string, i: nat, tag: string)
    requires i <= |s| && tag != ""
  {
    && |tag| <= i
    && s[i - |tag|..i] == tag
    && tag[0] == '$'
    && (|tag| > 1 ==> TagStart(tag[1]))
    && (forall k :: 1 <= k < |tag| ==> TagChar(tag[k]))
    && TagAt(s, i - |tag|) == ""
  }

  lemma {:induction false} TagEndFound(s: string, at: nat, end: nat)
    requires at <= end < |s| && (forall k :: at <= k < end ==> TagChar(s[k])) && !TagChar(s[end])
    ensures TagEnd(s, at) == end
    decreases end - at
  {
    if at < end {
      TagEndFound(s, at + 1, end);
    }
  }

  /** A tag that cannot open is not completed by the next `$`. */
  lemma HopelessStaysShut(s: string, i: nat, tag: string)
    requires i < |s| && tag != "" && HopelessTag(s, i, tag)
    ensures s[i] != '$'
  {
    var at := i - |tag|;
    assert forall k :: 0 <= k < |tag| ==> s[at + k] == tag[k];
    if s[i] == '$' {
      assert !TagChar('$');
      if |tag| > 1 {
        forall k | at + 1 <= k < i
          ensures TagChar(s[k])
        {
          assert s[k] == tag[k - at];
        }
        TagEndFound(s, at + 1, i);
      }
      assert false;
    }
  }

  /** One ordinary character: neither a comment, a quote, nor a tag begins here. */
  lemma OrdinaryCharacter(s: string, i: nat)
    requires i < |s| && AtCode(s, i) && !OpensComment(s, i)
    requires s[i] != '\'' && s[i] != '"' && TagAt(s, i) == ""
    ensures AtCode(s, i + 1) && !InComment(s, i)
  {
    ModeSteps(s, i);
    var tag, c := ModeAt(s, i).tag, s[i];
    if tag != "" {
      HopelessStaysShut(s, i, tag);
      if if tag == "$" then TagStart(c) else TagChar(c) {
        assert ModeAt(s, i + 1) == Code(tag + [c]);
        assert s[i - |tag|..i + 1] == tag + [c];
      }
    }
    if c == '$' {
      assert ModeAt(s, i + 1) == Code("$");
      assert s[i..i + 1] == "$";
    }
  }

  lemma QuoteOpens(s: string, i: nat)
    requires i < |s| && AtCode(s, i) && (s[i] == '\'' || s[i] == '"')
    ensures ModeAt(s, i + 1) == Quoted(s[i]) && !InComment(s, i) && !IsCut(s, i)
  {
    ModeSteps(s, i);
    if ModeAt(s, i).tag != "" {
      HopelessStaysShut(s, i, ModeAt(s, i).tag);
    }
  }

  // ------------------------------------------------------------- dollar quotes

  /** While the tag is read, the automaton gathers it; nothing in it is a comment or a cut. */
  lemma {:induction false} TagIsGathered(s: string, at: nat, k: nat)
    requires at < |s| && AtCode(s, at) && TagAt(s, at) != ""
    requires 1 <= k < |TagAt(s, at)|
    ensures at + |TagAt(s, at)| <= |s| && TagAt(s, at) == s[at..at + |TagAt(s, at)|]
    ensures ModeAt(s, at + k) == Code(s[at..at + k])
    decreases k
  {
    var tag := TagAt(s, at);
    assert tag == s[at..at + |tag|];
    ModeSteps(s, at + k - 1);
    if k == 1 {
      if ModeAt(s, at).tag != "" {
        HopelessStaysShut(s, at, ModeAt(s, at).tag);
      }
      assert s[at..at + 1] == "$";
    } else {
      TagIsGathered(s, at, k - 1);
      assert TagChar(s[at + k - 1]);
      assert k == 2 ==> TagStart(s[at + 1]);
      assert k > 2 ==> s[at..at + k - 1] != "$";
      assert s[at..at + k] == s[at..at + k - 1] + [s[at + k - 1]];
    }
  }

  lemma TagOpens(s: string, at: nat)
    requires at < |s| && AtCode(s, at) && TagAt(s, at) != ""
    ensures at + |TagAt(s, at)| <= |s|
    ensures ModeAt(s, at + |TagAt(s, at)|) == Dollar(TagAt(s, at), "")
    ensures forall k :: at <= k < at + |TagAt(s, at)| ==> !InComment(s, k) && !IsCut(s, k)
  {
    var tag := TagAt(s, at);
    var n := |tag|;
    TagIsGathered(s, at, n - 1);
    ModeSteps(s, at + n - 1);
    assert s[at..at + n] == s[at..at + n - 1] + [s[at + n - 1]];
    forall k | at <= k < at + n
      ensures !InComment(s, k) && !IsCut(s, k)
    {
      if k > at {
        TagIsGathered(s, at, k - at);
        assert s[k] == '$' || TagChar(s[k]);
      }
    }
  }

  lemma {:induction false} DollarBody(s: string, from: nat, tag: string, i: nat)
    requires from <= i <= |s| && ModeAt(s, from) == Dollar(tag, "") && tag != ""
    requires forall k :: from <= k && k + |tag| <= i ==> !StartsWithAt(s, tag, k)
    ensures ModeAt(s, i) == Dollar(tag, s[from..i])
    decreases i
  {
    if i > from {
      DollarBody(s, from, tag, i - 1);
      ModeSteps(s, i - 1);
      var body := s[from..i - 1] + [s[i - 1]];
      assert body == s[from..i];
      if EndsWith(body, tag) {
        assert StartsWithAt(s, tag, i - |tag|);
        assert false;
      }
    } else {
      assert s[from..i] == "";
    }
  }

  lemma DollarCloses(s: string, from: nat, tag: string, close: nat)
    requires from <= close && StartsWithAt(s, tag, close) && tag != ""
    requires ModeAt(s, from) == Dollar(tag, "")
    requires forall k :: from <= k < close ==> !StartsWithAt(s, tag, k)
    ensures ModeAt(s, close + |tag|) == Code("")
    ensures forall k :: from <= k < close + |tag| ==> !InComment(s, k) && !IsCut(s, k)
  {
    var end := close + |tag|;
    forall k | from <= k < end
      ensures !InComment(s, k) && !IsCut(s, k)
    {
      DollarBody(s, from, tag, k);
    }
    DollarBody(s, from, tag, end - 1);
    ModeSteps(s, end - 1);
    var body := s[from..end - 1] + [s[end - 1]];
    assert body == s[from..end];
    assert s[from..end][close - from..] == s[close..end];
    assert body[|body| - |tag|..] == s[close..end];
  }

  lemma DollarNeverCloses(s: string, from: nat, tag: string)
    requires from <= |s| && ModeAt(s, from) == Dollar(tag, "") && tag != ""
    requires forall k :: from <= k < |s| ==> !StartsWithAt(s, tag, k)
    ensures forall k :: from <= k < |s| ==> !InComment(s, k) && !IsCut(s, k)
  {
    forall k | from <= k < |s|
      ensures ModeAt(s, k).Dollar?
    {
      DollarBody(s, from, tag, k);
    }
  }

  // --------------------------------------------------------- what is collected

  /** A stretch of cells without a cut, all of it comment or none of it. */
  ghost predicate Token(cells: seq<Cell>, i: nat, j: nat, comment: bool)
    requires i <= j <= |cells|
  {
    forall k :: i <= k < j ==> cells[k].comment == comment && !cells[k].cut
  }

  lemma {:induction false} PiecesSkip(pending: seq<Cell>, cells: seq<Cell>, i: nat, j: nat)
    requires i <= j <= |cells| && NoCut(cells[i..j])
    ensures Pieces(pending, cells[i..]) == Pieces(pending + cells[i..j], cells[j..])
    decreases j - i
  {
    if i < j {
      assert cells[i..j][0] == cells[i];
      assert cells[i..][1..] == cells[i + 1..];
      assert cells[i + 1..j] == cells[i..j][1..];
      PiecesSkip(pending + [cells[i]], cells, i + 1, j);
      assert pending + [cells[i]] + cells[i + 1..j] == pending + cells[i..j];
    } else {
      assert pending + cells[i..j] == pending;
    }
  }

  lemma {:induction false} CodeOfToken(cells: seq<Cell>, text: string, comment: bool)
    requires |cells| == |text| && forall k :: 0 <= k < |cells| ==> cells[k].symbol == text[k]
    requires Token(cells, 0, |cells|, comment)
    ensures CodeOf(cells) == if comment then "" else text
  {
    if cells != [] {
      assert Token(cells[1..], 0, |cells| - 1, comment);
      CodeOfToken(cells[1..], text[1..], comment);
    }
  }

  /** Collecting `sql[i..j]` into the pending stretch. */
  lemma Collect(sql: string, pending: seq<Cell>, i: nat, j: nat, comment: bool)
    requires i <= j <= |sql| && Token(Cells(sql), i, j, comment)
    ensures TextOf(pending + Cells(sql)[i..j]) == TextOf(pending) + sql[i..j]
    ensures CodeOf(pending + Cells(sql)[i..j]) == CodeOf(pending) + (if comment then "" else sql[i..j])
    ensures Pieces(pending, Cells(sql)[i..]) == Pieces(pending + Cells(sql)[i..j], Cells(sql)[j..])
    ensures Newlines(pending + Cells(sql)[i..j]) == Newlines(pending) + Newlines(Cells(sql)[i..j])
  {
    var cells := Cells(sql);
    var token := cells[i..j];
    SymbolsOfCells(sql);
    TextOfSum(pending, token);
    TextOfCells(token, sql[i..j]);
    CodeOfSum(pending, token);
    CodeOfToken(token, sql[i..j], comment);
    NewlinesOfSum(pending, token);
    PiecesSkip(pending, cells, i, j);
  }

  /** What the scanner's variables say about the stretch it has not pushed yet. */
  ghost predicate Gathered(line0: nat, pending: seq<Cell>, text: string, code: string, line: nat,
                           started: bool, startLine: nat)
  {
    && text == TextOf(pending)
    && code == CodeOf(pending)
    && line == line0 + Newlines(pending)
    && (started <==> LeadIn(pending) != pending)
    && (started ==> startLine == line0 + Newlines(LeadIn(pending)))
  }

  lemma {:induction false} LeadInOfBlank(x: seq<Cell>, y: seq<Cell>)
    requires LeadIn(x) == x
    ensures LeadIn(x + y) == x + LeadIn(y)
  {
    if x == [] {
      assert x + y == y;
    } else {
      assert (x + y)[1..] == x[1..] + y;
      assert LeadIn(x)[1..] == x[1..];
      LeadInOfBlank(x[1..], y);
    }
  }

  lemma {:induction false} LeadInOfStarted(x: seq<Cell>, y: seq<Cell>)
    requires LeadIn(x) != x
    ensures LeadIn(x + y) == LeadIn(x)
  {
    assert (x + y)[1..] == x[1..] + y;
    assert x == [x[0]] + x[1..];
    if !Solid(x[0]) {
      LeadInOfStarted(x[1..], y);
    }
  }

  lemma LeadInOfSum(x: seq<Cell>, y: seq<Cell>)
    ensures LeadIn(x + y) == if LeadIn(x) == x then x + LeadIn(y) else LeadIn(x)
  {
    if LeadIn(x) == x {
      LeadInOfBlank(x, y);
    } else {
      LeadInOfStarted(x, y);
    }
  }

  lemma {:induction false} LeadInLength(x: seq<Cell>)
    ensures |LeadIn(x)| <= |x|
  {
    if x != [] {
      LeadInLength(x[1..]);
    }
  }

  /** A token that begins with a solid character starts the statement if nothing has yet. */
  lemma GatherSolid(sql: string, line0: nat, pending: seq<Cell>, text: string, code: string, line: nat,
                    started: bool, startLine: nat, i: nat, j: nat)
    requires i < j <= |sql| && Token(Cells(sql), i, j, false) && !IsSpace(sql[i])
    requires Gathered(line0, pending, text, code, line, started, startLine)
    ensures Gathered(line0, pending + Cells(sql)[i..j], text + sql[i..j], code + sql[i..j],
                     line + Newlines(Cells(sql)[i..j]), true, if started then startLine else line)
  {
    var token := Cells(sql)[i..j];
    SymbolsOfCells(sql);
    Collect(sql, pending, i, j, false);
    LeadInOfSum(pending, token);
    LeadInLength(pending);
    assert LeadIn(token) == [];
    assert pending + [] == pending;
  }

  lemma LeadInOfBlankToken(token: seq<Cell>, comment: bool)
    requires Token(token, 0, |token|, comment)
    requires !comment ==> forall k :: 0 <= k < |token| ==> IsSpace(token[k].symbol)
    ensures LeadIn(token) == token
  {
    LeadInSplits(token, |token|);
    assert token[..|token|] == token;
  }

  /** White space and comments start nothing. */
  lemma GatherBlank(sql: string, line0: nat, pending: seq<Cell>, text: string, code: string, line: nat,
                    started: bool, startLine: nat, i: nat, j: nat, comment: bool)
    requires i < j <= |sql| && Token(Cells(sql), i, j, comment) && (!comment ==> j == i + 1 && IsSpace(sql[i]))
    requires Gathered(line0, pending, text, code, line, started, startLine)
    ensures Gathered(line0, pending + Cells(sql)[i..j], text + sql[i..j], code + (if comment then "" else sql[i..j]),
                     line + Newlines(Cells(sql)[i..j]), started, startLine)
  {
    var token := Cells(sql)[i..j];
    SymbolsOfCells(sql);
    Collect(sql, pending, i, j, comment);
    LeadInOfBlankToken(token, comment);
    LeadInOfSum(pending, token);
    LeadInLength(pending);
  }

  lemma NextNewline(cells: seq<Cell>, from: nat, i: nat)
    requires from <= i < |cells|
    ensures Newlines(cells[from..i + 1]) == Newlines(cells[from..i]) + (if cells[i].symbol == '\n' then 1 else 0)
  {
    assert cells[from..i + 1] == cells[from..i] + [cells[i]];
    NewlinesOfSum(cells[from..i], [cells[i]]);
    assert [cells[i]][1..] == [];
  }

  function NewlinesIn(text: string): nat {
    if text == "" then 0 else (if text[0] == '\n' then 1 else 0) + NewlinesIn(text[1..])
  }

  lemma {:induction false} NewlinesOfText(cells: seq<Cell>, text: string)
    requires |cells| == |text| && forall k :: 0 <= k < |cells| ==> cells[k].symbol == text[k]
    ensures Newlines(cells) == NewlinesIn(text)
  {
    if text != "" {
      NewlinesOfText(cells[1..], text[1..]);
    }
  }

  /** What pushing the pending stretch appends to the result. */
  function Pushed(text: string, code: string, startLine: nat): seq<Statement> {
    if Trim(code) != "" then [Statement(Trim(text), Normalize(code), startLine)] else []
  }

  lemma PushIsEmit(line0: nat, pending: seq<Cell>, text: string, code: string, line: nat,
                   started: bool, startLine: nat)
    requires Gathered(line0, pending, text, code, line, started, startLine)
    ensures Emit(line0, pending) == Pushed(text, code, startLine)
  {
    DroppedIffNothingSolid(line0, pending);
  }

  // ------------------------------------------------------------------- the scan

  /** `s[from..i]` is one token so far, and `line` counts its newlines on top of `line0`. */
  ghost predicate Taken(s: string, from: nat, i: nat, comment: bool, line0: nat, line: nat)
    requires from <= i <= |s|
  {
    Token(Cells(s), from, i, comment) && line == line0 + Newlines(Cells(s)[from..i])
  }

  lemma TakeNext(s: string, from: nat, i: nat, comment: bool, line0: nat, line: nat)
    requires from <= i < |s| && Taken(s, from, i, comment, line0, line)
    requires InComment(s, i) == comment && !IsCut(s, i)
    ensures Taken(s, from, i + 1, comment, line0, if s[i] == '\n' then line + 1 else line)
  {
    CellAt(s, i);
    NextNewline(Cells(s), from, i);
  }

  method SkipLineComment(sql: string, from: nat, ghost line0: nat) returns (stop: nat)
    requires StartsWithAt(sql, "--", from) && ModeAt(sql, from).Code?
    ensures from < stop <= |sql| && Taken(sql, from, stop, true, line0, line0)
    ensures stop < |sql| ==> ModeAt(sql, stop) == LineComment && sql[stop] == '\n'
  {
    assert sql[from] == '-' && sql[from + 1] == '-';
    stop := IndexOf(sql, "\n", from);
    forall k | from <= k < stop
      ensures sql[k] != '\n'
    {
      assert !StartsWithAt(sql, "\n", k);
    }
    ghost var i := from + 1;
    ModeSteps(sql, from);
    TakeNext(sql, from, from, true, line0, line0);
    while i < stop
      invariant from < i <= stop && ModeAt(sql, i) == LineComment
      invariant Taken(sql, from, i, true, line0, line0)
    {
      ModeSteps(sql, i);
      TakeNext(sql, from, i, true, line0, line0);
      i := i + 1;
    }
  }

  /** Inside a block comment, with no half-read comment sign before `i`. */
  ghost predicate InBlock(s: string, i: nat, depth: nat)
    requires i <= |s|
  {
    var m := ModeAt(s, i);
    && m.BlockComment?
    && m.depth == depth
    && (i < |s| && m.previous == '/' ==> s[i] != '*')
    && (i < |s| && m.previous == '*' ==> s[i] != '/')
  }

  /** `s[from..i]` is all comment and leaves `depth` block comments open. */
  ghost predicate Swallowed(s: string, from: nat, i: nat, depth: nat, line0: nat, line: nat)
    requires from <= i <= |s|
  {
    && (i == from <==> depth == 0)
    && (if depth == 0 then ModeAt(s, i).Code? else InBlock(s, i, depth))
    && Taken(s, from, i, true, line0, line)
  }

  lemma BlockOpens(s: string, from: nat, i: nat, depth: nat, line0: nat, line: nat)
    requires from <= i && StartsWithAt(s, "/*", i) && Swallowed(s, from, i, depth, line0, line)
    ensures Swallowed(s, from, i + 2, depth + 1, line0, line)
  {
    assert s[i] == '/' && s[i + 1] == '*';
    ModeSteps(s, i);
    ModeSteps(s, i + 1);
    TakeNext(s, from, i, true, line0, line);
    TakeNext(s, from, i + 1, true, line0, line);
  }

  lemma BlockCloses(s: string, from: nat, i: nat, depth: nat, line0: nat, line: nat)
    requires from <= i && StartsWithAt(s, "*/", i) && depth > 0 && Swallowed(s, from, i, depth, line0, line)
    ensures Taken(s, from, i + 2, true, line0, line)
    ensures if depth == 1 then ModeAt(s, i + 2) == Code("") else InBlock(s, i + 2, depth - 1)
  {
    assert s[i] == '*' && s[i + 1] == '/';
    ModeSteps(s, i);
    ModeSteps(s, i + 1);
    TakeNext(s, from, i, true, line0, line);
    TakeNext(s, from, i + 1, true, line0, line);
  }

  lemma BlockGoesOn(s: string, from: nat, i: nat, depth: nat, line0: nat, line: nat)
    requires from < i < |s| && Swallowed(s, from, i, depth, line0, line)
    requires !StartsWithAt(s, "/*", i) && !StartsWithAt(s, "*/", i)
    ensures Swallowed(s, from, i + 1, depth, line0, if s[i] == '\n' then line + 1 else line)
  {
    assert i + 1 < |s| ==> s[i..i + 2] == [s[i], s[i + 1]];
    ModeSteps(s, i);
    TakeNext(s, from, i, true, line0, line);
  }

  method SkipBlockComment(sql: string, from: nat, line0: nat) returns (index: nat, line: nat)
    requires StartsWithAt(sql, "/*", from) && ModeAt(sql, from).Code?
    ensures from < index <= |sql| && Taken(sql, from, index, true, line0, line)
    ensures index < |sql| ==> ModeAt(sql, index) == Code("")
  {
    var depth: nat := 0;
    index, line := from, line0;
    while index < |sql|
      invariant from <= index <= |sql| && Swallowed(sql, from, index, depth, line0, line)
    {
      if StartsWithAt(sql, "/*", index) {
        BlockOpens(sql, from, index, depth, line0, line);
        depth := depth + 1;
        index := index + 2;
        continue;
      }
      if StartsWithAt(sql, "*/", index) {
        BlockCloses(sql, from, index, depth, line0, line);
        depth := depth - 1;
        index := index + 2;
        if depth == 0 {
          break;
        }
        continue;
      }
      BlockGoesOn(sql, from, index, depth, line0, line);
      if sql[index] == '\n' {
        line := line + 1;
      }
      index := index + 1;
    }
  }

  method SkipQuoted(sql: string, from: nat, line0: nat) returns (index: nat, line: nat)
    requires from < |sql| && AtCode(sql, from) && (sql[from] == '\'' || sql[from] == '"')
    ensures from < index <= |sql| && Taken(sql, from, index, false, line0, line)
    ensures index < |sql| ==> ModeAt(sql, index) == Code("")
  {
    var quote := sql[from];
    QuoteOpens(sql, from);
    TakeNext(sql, from, from, false, line0, line0);
    index, line := from + 1, line0;
    while index < |sql|
      invariant from < index <= |sql| && ModeAt(sql, index) == Quoted(quote)
      invariant Taken(sql, from, index, false, line0, line)
    {
      ModeSteps(sql, index);
      TakeNext(sql, from, index, false, line0, line);
      if sql[index] == quote {
        if index + 1 < |sql| && sql[index + 1] == quote {
          ModeSteps(sql, index + 1);
          TakeNext(sql, from, index + 1, false, line0, line);
          index := index + 2;
          continue;
        }
        index := index + 1;
        break;
      }
      if sql[index] == '\n' {
        line := line + 1;
      }
      index := index + 1;
    }
  }

  lemma {:induction false} TakeAll(s: string, from: nat, i: nat)
    requires from <= i <= |s| && forall k :: from <= k < i ==> !InComment(s, k) && !IsCut(s, k)
    ensures Token(Cells(s), from, i, false)
  {
    forall k | from <= k < i
      ensures !Cells(s)[k].comment && !Cells(s)[k].cut
    {
      CellAt(s, k);
    }
  }

  method SkipDollarQuoted(sql: string, from: nat, tag: string, line0: nat) returns (index: nat, line: nat)
    requires from < |sql| && AtCode(sql, from) && tag != "" && tag == TagAt(sql, from)
    ensures from < index <= |sql| && Taken(sql, from, index, false, line0, line)
    ensures index < |sql| ==> ModeAt(sql, index) == Code("")
  {
    TagOpens(sql, from);
    index := from + |tag|;
    var close := IndexOf(sql, tag, index);
    if close == |sql| {
      DollarNeverCloses(sql, index, tag);
      index := |sql|;
    } else {
      DollarCloses(sql, index, tag, close);
      index := close + |tag|;
    }
    TakeAll(sql, from, index);
    SymbolsOfCells(sql);
    NewlinesOfText(Cells(sql)[from..index], sql[from..index]);
    line := line0 + NewlinesIn(sql[from..index]);
  }

  /** Taking `sql[i..j]` into the pending stretch leaves the statements still to come as they were. */
  lemma TakeToken(emit: (nat, seq<Cell>) -> seq<Statement>, sql: string, line0: nat, pending: seq<Cell>,
                  i: nat, j: nat, comment: bool)
    requires i <= j <= |sql| && Token(Cells(sql), i, j, comment)
    ensures EmitAll(emit, line0, Pieces(pending, Cells(sql)[i..]))
         == EmitAll(emit, line0, Pieces(pending + Cells(sql)[i..j], Cells(sql)[j..]))
  {
    Collect(sql, pending, i, j, comment);
  }

  /** A cut closes the pending stretch. */
  lemma TakeCut(emit: (nat, seq<Cell>) -> seq<Statement>, sql: string, line0: nat, pending: seq<Cell>, i: nat)
    requires i < |sql| && IsCut(sql, i)
    ensures EmitAll(emit, line0, Pieces(pending, Cells(sql)[i..]))
         == emit(line0, pending + [Cells(sql)[i]])
            + EmitAll(emit, line0 + Newlines(pending + [Cells(sql)[i]]), Pieces([], Cells(sql)[i + 1..]))
  {
    var cells := Cells(sql);
    CellAt(sql, i);
    assert cells[i..][1..] == cells[i + 1..];
    var closed := pending + [cells[i]];
    var pieces := Pieces(pending, cells[i..]);
    assert pieces == [closed] + Pieces([], cells[i + 1..]);
    assert pieces[1..] == Pieces([], cells[i + 1..]);
  }

  lemma GatherCut(sql: string, line0: nat, pending: seq<Cell>, text: string, code: string, line: nat,
                  started: bool, startLine: nat, i: nat)
    requires i < |sql| && IsCut(sql, i)
    requires Gathered(line0, pending, text, code, line, started, startLine)
    ensures Gathered(line0, pending + [Cells(sql)[i]], text + ";", code + ";", line, true,
                     if started then startLine else line)
  {
    CellAt(sql, i);
    var cut := [Cells(sql)[i]];
    assert !OpensComment(sql, i) && !IsSpace(';');
    assert cut[1..] == [];
    TextOfSum(pending, cut);
    CodeOfSum(pending, cut);
    NewlinesOfSum(pending, cut);
    LeadInOfSum(pending, cut);
    LeadInLength(pending);
    assert pending + [] == pending;
    assert TextOf(cut) == ";" && CodeOf(cut) == ";";
  }

  lemma TakeRest(emit: (nat, seq<Cell>) -> seq<Statement>, line0: nat, pending: seq<Cell>)
    ensures EmitAll(emit, line0, Pieces(pending, [])) == emit(line0, pending)
  {
    assert Pieces(pending, [])[1..] == [];
  }

  lemma CutInCode(s: string, i: nat)
    requires i < |s| && AtCode(s, i) && s[i] == ';'
    ensures IsCut(s, i) && AtCode(s, i + 1)
  {
    assert TagAt(s, i) == "";
    OrdinaryCharacter(s, i);
  }

  /** Outside every token, or at the newline that ends a line comment. */
  ghost predicate BetweenTokens(s: string, i: nat)
    requires i <= |s|
  {
    i == |s| || AtCode(s, i) || (ModeAt(s, i) == LineComment && s[i] == '\n')
  }

  lemma PlainCharacter(s: string, i: nat, line0: nat)
    requires i < |s| && BetweenTokens(s, i)
    requires !StartsWithAt(s, "--", i) && !StartsWithAt(s, "/*", i)
    requires s[i] != '\'' && s[i] != '"' && TagAt(s, i) == "" && s[i] != ';'
    ensures AtCode(s, i + 1) && Taken(s, i, i + 1, false, line0, if s[i] == '\n' then line0 + 1 else line0)
  {
    assert i + 1 < |s| ==> s[i..i + 2] == [s[i], s[i + 1]];
    if AtCode(s, i) {
      OrdinaryCharacter(s, i);
    } else {
      ModeSteps(s, i);
    }
    TakeNext(s, i, i, false, line0, line0);
  }

  /** The token that begins at `from`: a comment, a quoted or dollar-quoted string, or one character. */
  method TakeOne(sql: string, from: nat, line0: nat) returns (index: nat, line: nat)
    requires from < |sql| && BetweenTokens(sql, from) && sql[from] != ';'
    ensures from < index <= |sql| && BetweenTokens(sql, index)
    ensures Taken(sql, from, index, StartsWithAt(sql, "--", from) || StartsWithAt(sql, "/*", from), line0, line)
    ensures IsSpace(sql[from]) ==> index == from + 1
  {
    var character := sql[from];
    assert StartsWithAt(sql, "--", from) ==> character == '-';
    assert StartsWithAt(sql, "/*", from) ==> character == '/';
    if StartsWithAt(sql, "--", from) {
      index := SkipLineComment(sql, from, line0);
      line := line0;
    } else if StartsWithAt(sql, "/*", from) {
      index, line := SkipBlockComment(sql, from, line0);
    } else if character == '\'' || character == '"' {
      index, line := SkipQuoted(sql, from, line0);
    } else {
      var tag := TagAt(sql, from);
      if tag != "" {
        index, line := SkipDollarQuoted(sql, from, tag, line0);
      } else {
        PlainCharacter(sql, from, line0);
        index := from + 1;
        line := if character == '\n' then line0 + 1 else line0;
      }
    }
  }

  /** The scanner stands at `index`, with everything before it pushed to `out` or pending. */
  ghost predicate Reached(emit: (nat, seq<Cell>) -> seq<Statement>, sql: string, index: nat, out: seq<Statement>,
                          line0: nat, pending: seq<Cell>, text: string, code: string, line: nat,
                          started: bool, startLine: nat)
    requires index <= |sql|
  {
    && BetweenTokens(sql, index)
    && Gathered(line0, pending, text, code, line, started, startLine)
    && out + EmitAll(emit, line0, Pieces(pending, Cells(sql)[index..])) == EmitAll(emit, 1, Pieces([], Cells(sql)))
  }

  lemma ReachedStart(emit: (nat, seq<Cell>) -> seq<Statement>, sql: string)
    ensures Reached(emit, sql, 0, [], 1, [], "", "", 1, false, 0)
  {
    ModeStarts(sql);
    assert Cells(sql)[0..] == Cells(sql);
  }

  lemma ReachedAfterToken(emit: (nat, seq<Cell>) -> seq<Statement>, sql: string, i: nat, out: seq<Statement>,
                          line0: nat, pending: seq<Cell>, text: string, code: string, line: nat,
                          started: bool, startLine: nat, j: nat, line': nat, comment: bool)
    requires i < j <= |sql| && Reached(emit, sql, i, out, line0, pending, text, code, line, started, startLine)
    requires BetweenTokens(sql, j) && Taken(sql, i, j, comment, line, line')
    requires IsSpace(sql[i]) ==> j == i + 1
    ensures var solid := !comment && !IsSpace(sql[i]);
      Reached(emit, sql, j, out, line0, pending + Cells(sql)[i..j], text + sql[i..j],
              if comment then code else code + sql[i..j], line', started || solid,
              if solid && !started then line else startLine)
  {
    if !comment && !IsSpace(sql[i]) {
      GatherSolid(sql, line0, pending, text, code, line, started, startLine, i, j);
    } else {
      GatherBlank(sql, line0, pending, text, code, line, started, startLine, i, j, comment);
    }
    assert code + "" == code;
    TakeToken(emit, sql, line0, pending, i, j, comment);
  }

  lemma ReachedAfterCut(emit: (nat, seq<Cell>) -> seq<Statement>, sql: string, i: nat, out: seq<Statement>,
                        line0: nat, pending: seq<Cell>, text: string, code: string, line: nat,
                        started: bool, startLine: nat)
    requires i < |sql| && sql[i] == ';'
    requires Reached(emit, sql, i, out, line0, pending, text, code, line, started, startLine)
    requires emit(line0, pending + [Cells(sql)[i]])
          == Pushed(text + ";", code + ";", if started then startLine else line)
    ensures Reached(emit, sql, i + 1, out + Pushed(text + ";", code + ";", if started then startLine else line),
                    line, [], "", "", line, false, startLine)
  {
    CutInCode(sql, i);
    GatherCut(sql, line0, pending, text, code, line, started, startLine, i);
    TakeCut(emit, sql, line0, pending, i);
    var rest := EmitAll(emit, line, Pieces([], Cells(sql)[i + 1..]));
    var pushed := Pushed(text + ";", code + ";", if started then startLine else line);
    Associates(out, pushed, rest);
  }

  lemma CutIsPushed(sql: string, i: nat, line0: nat, pending: seq<Cell>, text: string, code: string, line: nat,
                    started: bool, startLine: nat)
    requires i < |sql| && AtCode(sql, i) && sql[i] == ';'
    requires Gathered(line0, pending, text, code, line, started, startLine)
    ensures Emit(line0, pending + [Cells(sql)[i]])
         == Pushed(text + ";", code + ";", if started then startLine else line)
  {
    CutInCode(sql, i);
    GatherCut(sql, line0, pending, text, code, line, started, startLine, i);
    PushIsEmit(line0, pending + [Cells(sql)[i]], text + ";", code + ";", line, true,
               if started then startLine else line);
  }

  lemma ReachedEnd(emit: (nat, seq<Cell>) -> seq<Statement>, sql: string, out: seq<Statement>,
                   line0: nat, pending: seq<Cell>, text: string, code: string, line: nat,
                   started: bool, startLine: nat)
    requires Reached(emit, sql, |sql|, out, line0, pending, text, code, line, started, startLine)
    requires emit(line0, pending) == Pushed(text, code, startLine)
    ensures out + Pushed(text, code, startLine) == EmitAll(emit, 1, Pieces([], Cells(sql)))
  {
    assert Cells(sql)[|sql|..] == [];
    TakeRest(emit, line0, pending);
  }

  /** The index-driven loop: its result is what the automaton defines, in order. */
  method Scan(sql: string) returns (out: seq<Statement>)
    ensures out == Statements(sql)
  {
    out := [];
    var text, code, started := "", "", false;
    var line: nat, startLine: nat, index: nat := 1, 0, 0;
    ghost var line0: nat, pending: seq<Cell> := 1, [];
    ReachedStart(Emit, sql);
    while index < |sql|
      invariant index <= |sql|
      invariant Reached(Emit, sql, index, out, line0, pending, text, code, line, started, startLine)
    {
      var character, from := sql[index], index;
      var isComment := StartsWithAt(sql, "--", index) || StartsWithAt(sql, "/*", index);
      if character == ';' {
        CutIsPushed(sql, index, line0, pending, text, code, line, started, startLine);
        ReachedAfterCut(Emit, sql, index, out, line0, pending, text, code, line, started, startLine);
        if !started {
          startLine := line;
        }
        out := out + Pushed(text + ";", code + ";", startLine);
        text, code, started := "", "", false;
        line0, pending := line, [];
        index := index + 1;
        continue;
      }
      ghost var i, before, oldStart, oldLine := index, started, startLine, line;
      if !isComment && !IsSpace(character) && !started {
        started := true;
        startLine := line;
      }
      index, line := TakeOne(sql, index, line);
      ReachedAfterToken(Emit, sql, i, out, line0, pending, text, code, oldLine, before, oldStart, index, line,
                        isComment);
      text := text + sql[from..index];
      if !isComment {
        code := code + sql[from..index];
      }
      pending := pending + Cells(sql)[from..index];
    }
    PushIsEmit(line0, pending, text, code, line, started, startLine);
    ReachedEnd(Emit, sql, out, line0, pending, text, code, line, started, startLine);
    out := out + Pushed(text, code, startLine);
  }
}
