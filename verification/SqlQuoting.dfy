// The characters SQL quotes and comments with, written out: what a dollar quote, a quoted literal and a
// comment keep from being a top-level semicolon, and what does not open one.
module SqlQuoting {
  import opened Text
  import opened SqlLexer

  /** A letter, an underscore, or any character from U+0080 to U+FFFF. */
  predicate NameStart(c: char) {
    'A' <= c <= 'Z' || 'a' <= c <= 'z' || c == '_' || '\U{0080}' <= c <= '\U{FFFF}'
  }

  /** What may stand between the dollars: nothing, or a name. */
  predicate DollarName(tag: string) {
    forall k :: 0 <= k < |tag| ==> NameStart(tag[k]) || (k > 0 && '0' <= tag[k] <= '9')
  }

  /** Nothing from `from` up to `to` is a top-level semicolon or in a comment. */
  ghost predicate Unbroken(s: string, from: nat, to: nat) {
    to <= |s| && forall i :: from <= i < to ==> !IsCut(s, i) && !InComment(s, i)
  }

  // --------------------------------------------------------------- dollar quotes

  /** A dollar and the characters of a name after it may still open a dollar quote. */
  lemma {:induction false} TagIsRemembered(s: string, p: nat, tag: string, k: nat)
    requires DollarName(tag) && k <= |tag| && p + 1 + k <= |s|
    requires s[p] == '$' && (forall i :: 0 <= i < k ==> s[p + 1 + i] == tag[i]) && ModeAt(s, p) == Code("")
    ensures ModeAt(s, p + 1 + k) == Code("$" + tag[..k]) && Unbroken(s, p, p + 1 + k)
  {
    if k == 0 {
      ModeSteps(s, p);
    } else {
      var i := p + k;
      TagIsRemembered(s, p, tag, k - 1);
      assert s[i] == tag[k - 1];
      ModeSteps(s, i);
      assert ("$" + tag[..k - 1]) + [tag[k - 1]] == "$" + tag[..k];
    }
  }

  lemma DollarOpens(s: string, p: nat, tag: string)
    requires DollarName(tag) && StartsWithAt(s, "$" + tag + "$", p) && ModeAt(s, p) == Code("")
    ensures ModeAt(s, p + |tag| + 2) == Dollar("$" + tag + "$", "") && Unbroken(s, p, p + |tag| + 2)
  {
    var delimiter, q := "$" + tag + "$", p + 1 + |tag|;
    var here := s[p..p + |delimiter|];
    assert here[0] == '$' && here[1 + |tag|] == '$';
    forall i | 0 <= i < |tag|
      ensures s[p + 1 + i] == tag[i]
    {
      assert here[1 + i] == delimiter[1 + i];
    }
    assert tag[..|tag|] == tag;
    TagIsRemembered(s, p, tag, |tag|);
    assert s[q] == '$';
    ModeSteps(s, q);
  }

  /** The text from `b` to `j` cannot end with the delimiter before it first occurs. */
  lemma NotYetClosed(s: string, b: nat, delimiter: string, j: nat)
    requires b <= j <= |s| && delimiter != "" && EndsWith(s[b..j], delimiter)
    ensures IndexOf(s, delimiter, b) + |delimiter| <= j
  {
    var at, body := j - |delimiter|, s[b..j];
    assert s[at..j] == body[|body| - |delimiter|..];
    assert StartsWithAt(s, delimiter, at);
  }

  lemma {:induction false} BodyIsKept(s: string, b: nat, delimiter: string, j: nat)
    requires b <= j <= |s| && ModeAt(s, b) == Dollar(delimiter, "") && delimiter != ""
    requires j < IndexOf(s, delimiter, b) + |delimiter|
    ensures ModeAt(s, j) == Dollar(delimiter, s[b..j])
    decreases j
  {
    if j > b {
      BodyIsKept(s, b, delimiter, j - 1);
      ModeSteps(s, j - 1);
      assert s[b..j - 1] + [s[j - 1]] == s[b..j];
      if EndsWith(s[b..j], delimiter) {
        NotYetClosed(s, b, delimiter, j);
      }
    } else {
      assert s[b..b] == "";
    }
  }

  lemma BodyIsUnbroken(s: string, b: nat, delimiter: string, to: nat)
    requires b <= to <= |s| && ModeAt(s, b) == Dollar(delimiter, "") && delimiter != ""
    requires to <= IndexOf(s, delimiter, b) + |delimiter|
    ensures Unbroken(s, b, to)
  {
    forall i | b <= i < to
      ensures !IsCut(s, i) && !InComment(s, i)
    {
      BodyIsKept(s, b, delimiter, i);
    }
  }

  lemma BodyCloses(s: string, b: nat, delimiter: string, e: nat)
    requires b <= e && delimiter != "" && StartsWithAt(s, delimiter, e)
    requires ModeAt(s, e + |delimiter| - 1) == Dollar(delimiter, s[b..e + |delimiter| - 1])
    ensures ModeAt(s, e + |delimiter|) == Code("")
  {
    var last := e + |delimiter| - 1;
    ModeSteps(s, last);
    var body := s[b..last] + [s[last]];
    assert body == s[b..last + 1];
    assert body[|body| - |delimiter|..] == s[e..e + |delimiter|];
  }

  lemma UnbrokenSum(s: string, from: nat, middle: nat, to: nat)
    requires from <= middle <= to && Unbroken(s, from, middle) && Unbroken(s, middle, to)
    ensures Unbroken(s, from, to)
  {
  }

  /**
   * In plain code `$tag$` takes everything up to the first repetition of itself, whatever stands there;
   * without one it takes the rest of the file.
   */
  lemma DollarQuoteIsOneToken(s: string, p: nat, tag: string, delimiter: string)
    requires DollarName(tag) && delimiter == "$" + tag + "$"
    requires StartsWithAt(s, delimiter, p) && ModeAt(s, p) == Code("")
    ensures var e := IndexOf(s, delimiter, p + |delimiter|);
      if e == |s| then Unbroken(s, p, |s|)
      else Unbroken(s, p, e + |delimiter|) && ModeAt(s, e + |delimiter|) == Code("")
  {
    DollarOpens(s, p, tag);
    BodyIsOneToken(s, p, p + |delimiter|, delimiter);
  }

  lemma BodyIsOneToken(s: string, p: nat, b: nat, delimiter: string)
    requires p <= b <= |s| && Unbroken(s, p, b) && ModeAt(s, b) == Dollar(delimiter, "") && delimiter != ""
    ensures var e := IndexOf(s, delimiter, b);
      if e == |s| then Unbroken(s, p, |s|)
      else Unbroken(s, p, e + |delimiter|) && ModeAt(s, e + |delimiter|) == Code("")
  {
    var e := IndexOf(s, delimiter, b);
    var to := if e == |s| then |s| else e + |delimiter|;
    BodyIsUnbroken(s, b, delimiter, to);
    UnbrokenSum(s, p, b, to);
    if e < |s| {
      BodyIsKept(s, b, delimiter, e + |delimiter| - 1);
      BodyCloses(s, b, delimiter, e);
    }
  }

  /**
   * A dollar that no name and second dollar follow opens nothing: the character that shows it is read as
   * if it stood in plain code.
   */
  lemma DollarOpensNothing(s: string, p: nat, tag: string)
    requires DollarName(tag) && StartsWithAt(s, "$" + tag, p) && ModeAt(s, p) == Code("")
    requires p + |tag| + 1 < |s| && s[p + |tag| + 1] != '$' && !DollarName(tag + [s[p + |tag| + 1]])
    ensures var q := p + |tag| + 1;
      Unbroken(s, p, q) && ModeAt(s, q + 1) == Step(Code(""), s, q) && (IsCut(s, q) <==> s[q] == ';')
  {
    var q := p + |tag| + 1;
    var here := s[p..q];
    assert here[0] == '$';
    forall i | 0 <= i < |tag|
      ensures s[p + 1 + i] == tag[i]
    {
      assert here[1 + i] == ("$" + tag)[1 + i];
    }
    assert tag[..|tag|] == tag;
    TagIsRemembered(s, p, tag, |tag|);
    ModeSteps(s, q);
    var longer := tag + [s[q]];
    assert forall k :: 0 <= k < |tag| ==> longer[k] == tag[k];
    assert longer[|tag|] == s[q];
  }

  /** So `$1` and the like are plain code. */
  lemma ParameterIsPlain(s: string, p: nat)
    requires p + 1 < |s| && s[p] == '$' && '0' <= s[p + 1] <= '9' && ModeAt(s, p) == Code("")
    ensures ModeAt(s, p + 2) == Code("") && Unbroken(s, p, p + 2)
  {
    assert s[p..p + 1] == "$" + "";
    assert ("" + [s[p + 1]])[0] == s[p + 1];
    DollarOpensNothing(s, p, "");
    ModeSteps(s, p + 1);
  }

  // ---------------------------------------------------------- quotes and comments

  /** A single or double quote takes everything up to the next one of its kind. */
  lemma {:induction false} QuoteHoldsNoCut(s: string, p: nat, j: nat)
    requires p < j <= |s| && ModeAt(s, p).Code? && (s[p] == '\'' || s[p] == '"')
    requires forall i :: p < i < j ==> s[i] != s[p]
    ensures Unbroken(s, p, j) && ModeAt(s, j) == Quoted(s[p])
    ensures j < |s| && s[j] == s[p] ==> Unbroken(s, p, j + 1) && ModeAt(s, j + 1) == Code("")
    decreases j
  {
    if j > p + 1 {
      QuoteHoldsNoCut(s, p, j - 1);
    }
    ModeSteps(s, j - 1);
    if j < |s| {
      ModeSteps(s, j);
    }
  }

  /** Everything from `from` up to `to` is in a comment, and so no cut. */
  ghost predicate Commented(s: string, from: nat, to: nat) {
    to <= |s| && forall i :: from <= i < to ==> InComment(s, i) && !IsCut(s, i)
  }

  /** Two dashes make a comment of everything before the next newline. */
  lemma {:induction false} DashesComment(s: string, p: nat, j: nat)
    requires p + 1 < j <= |s| && ModeAt(s, p).Code? && s[p] == '-' && s[p + 1] == '-'
    requires forall i :: p < i < j ==> s[i] != '\n'
    ensures Commented(s, p, j) && ModeAt(s, j) == LineComment
    ensures j < |s| && s[j] == '\n' ==> ModeAt(s, j + 1) == Code("")
    decreases j
  {
    ModeSteps(s, p);
    if j > p + 2 {
      DashesComment(s, p, j - 1);
    }
    ModeSteps(s, j - 1);
    if j < |s| {
      ModeSteps(s, j);
    }
  }

  /** The two characters `a` and `b` stand at `i`. */
  predicate Pair(s: string, i: nat, a: char, b: char) {
    i + 1 < |s| && s[i] == a && s[i + 1] == b
  }

  /** A slash and a star make a comment of everything before the next star and slash, if none opens within. */
  lemma {:induction false} StarComment(s: string, p: nat, j: nat)
    requires p + 2 <= j <= |s| && ModeAt(s, p).Code? && Pair(s, p, '/', '*')
    requires forall i :: p + 2 <= i < j - 1 ==> !Pair(s, i, '*', '/') && !Pair(s, i, '/', '*')
    ensures Commented(s, p, j)
    ensures j == p + 2 ==> ModeAt(s, j) == BlockComment(1, ' ')
    ensures j > p + 2 ==> ModeAt(s, j) == BlockComment(1, s[j - 1])
    ensures p + 2 < j < |s| && Pair(s, j - 1, '*', '/') ==> Commented(s, p, j + 1) && ModeAt(s, j + 1) == Code("")
    decreases j
  {
    ModeSteps(s, p);
    ModeSteps(s, p + 1);
    if j > p + 2 {
      StarComment(s, p, j - 1);
      assert j > p + 3 ==> !Pair(s, j - 2, '*', '/') && !Pair(s, j - 2, '/', '*');
      ModeSteps(s, j - 1);
    }
    if j < |s| {
      ModeSteps(s, j);
    }
  }

  // ------------------------------------------------------------------ a statement

  lemma {:induction false} WordsArePlain(s: string, n: nat)
    requires n <= |s| && forall i :: 0 <= i < n ==> 'A' <= s[i] <= 'Z' || s[i] == ' '
    ensures ModeAt(s, n) == Code("") && Unbroken(s, 0, n)
  {
    ModeStarts(s);
    if n > 0 {
      WordsArePlain(s, n - 1);
      ModeSteps(s, n - 1);
    }
  }

  /** Text whose one top-level semicolon ends it is one statement. */
  lemma OneStatement(s: string)
    requires |s| > 1 && 'A' <= s[0] <= 'Z' && s[|s| - 1] == ';'
    requires Unbroken(s, 0, |s| - 1) && ModeAt(s, |s| - 1) == Code("")
    ensures |Statements(s)| == 1 && Statements(s)[0].text == s && Statements(s)[0].line == 1
  {
    var cells := Cells(s);
    OnlyCutEnds(s);
    PiecesOfOne(cells, []);
    assert [] + cells == cells;
    EmitOneOrTwo(cells);
    SymbolsOfCells(s);
    LeadInSplits(cells, 0);
    TextOfCells(cells, s);
    TrimFixed(s);
  }

  lemma OnlyCutEnds(s: string)
    requires |s| > 1 && 'A' <= s[0] <= 'Z' && s[|s| - 1] == ';'
    requires Unbroken(s, 0, |s| - 1) && ModeAt(s, |s| - 1) == Code("")
    ensures CutAtEnd(Cells(s)) && Solid(Cells(s)[0])
  {
    forall i | 0 <= i < |s|
      ensures Cells(s)[i].cut <==> i == |s| - 1
    {
      CellAt(s, i);
    }
    CellAt(s, 0);
  }

  /** The body ends where the delimiter first repeats. */
  predicate EndsFirst(body: string, delimiter: string) {
    IndexOf(body + delimiter, delimiter, 0) == |body|
  }

  lemma FirstEnd(front: string, body: string, delimiter: string, back: string)
    requires EndsFirst(body, delimiter) && delimiter != ""
    ensures IndexOf(front + body + delimiter + back, delimiter, |front|) == |front| + |body|
  {
    var s, short := front + body + delimiter + back, body + delimiter;
    var at := IndexOf(s, delimiter, |front|);
    var n := |front| + |body|;
    assert s[n..n + |delimiter|] == delimiter;
    assert StartsWithAt(s, delimiter, n);
    if at < n {
      var k := at - |front|;
      assert s[at..at + |delimiter|] == short[k..k + |delimiter|];
      assert StartsWithAt(short, delimiter, k);
      assert false;
    }
  }

  /** A statement around a dollar-quoted body is one statement, whatever the body holds. */
  lemma DollarBodyIsOneStatement(tag: string, body: string)
    requires DollarName(tag) && EndsFirst(body, "$" + tag + "$")
    ensures var delimiter := "$" + tag + "$";
      var s := "SELECT " + delimiter + body + delimiter + ";";
      |Statements(s)| == 1 && Statements(s)[0].text == s
  {
    var delimiter := "$" + tag + "$";
    FirstEnd("SELECT " + delimiter, body, delimiter, ";");
    QuotedSelect("SELECT " + delimiter + body + delimiter + ";", tag, delimiter);
  }

  lemma QuotedSelect(s: string, tag: string, delimiter: string)
    requires DollarName(tag) && delimiter == "$" + tag + "$"
    requires |s| > 8 + 2 * |delimiter| - 1 && "SELECT " + delimiter <= s && s[|s| - 1] == ';'
    requires IndexOf(s, delimiter, 7 + |delimiter|) == |s| - 1 - |delimiter|
    ensures |Statements(s)| == 1 && Statements(s)[0].text == s
  {
    SelectIsPlain(s, delimiter);
    DollarQuoteIsOneToken(s, 7, tag, delimiter);
    UnbrokenSum(s, 0, 7, |s| - 1);
    OneStatement(s);
  }

  lemma SelectIsPlain(s: string, delimiter: string)
    requires "SELECT " + delimiter <= s
    ensures ModeAt(s, 7) == Code("") && Unbroken(s, 0, 7) && StartsWithAt(s, delimiter, 7)
    ensures s[0] == 'S'
  {
    var front := "SELECT " + delimiter;
    assert front[7..] == delimiter && s[..|front|] == front;
    assert s[7..7 + |delimiter|] == s[..|front|][7..];
    forall i | 0 <= i < 7
      ensures s[i] == "SELECT "[i]
    {
      assert s[i] == front[i];
    }
    WordsArePlain(s, 7);
  }

  // ----------------------------------------------------------------- white space

  /** White space and line terminators of ECMAScript, sections 12.2 and 12.3, by code point. */
  predicate White(c: char) {
    var code := c as int;
    || code in {0x9, 0xA, 0xB, 0xC, 0xD, 0x20, 0xA0, 0x1680, 0x2028, 0x2029, 0x202F, 0x205F, 0x3000, 0xFEFF}
    || 0x2000 <= code <= 0x200A
  }

  lemma OneCell(c: char)
    ensures Cells([c]) == [Cell(c, false, c == ';')]
  {
    ModeStarts([c]);
    CellAt([c], 0);
  }

  /** A file of one character holds a statement exactly when that character is not white space. */
  lemma OneCharacter(c: char)
    ensures Statements([c]) == [] <==> White(c)
  {
    var cells := Cells([c]);
    OneCell(c);
    assert cells[..0] == [];
    PiecesOfOne(cells, []);
    assert [] + cells == cells;
    EmitOneOrTwo(cells);
    DroppedIffNothingSolid(1, cells);
    assert Solid(cells[0]) <==> !White(c);
  }
}
