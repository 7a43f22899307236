// JavaScript's string helpers, as far as the modelled tools use them.
module Text {

  datatype Option<+T> = None | Some(value: T)

  datatype Result<+T> = Ok(value: T) | Err(message: string)

  /** The characters `String.prototype.trim` and the regular expression `\s` both call white space. */
  predicate IsSpace(c: char) {
    || '\t' <= c <= '\r'
    || c == ' '
    || c == '\U{00A0}' || c == '\U{1680}'
    || '\U{2000}' <= c <= '\U{200A}'
    || c == '\U{2028}' || c == '\U{2029}' || c == '\U{202F}'
    || c == '\U{205F}' || c == '\U{3000}' || c == '\U{FEFF}'
  }

  predicate Blank(s: string) {
    forall i :: 0 <= i < |s| ==> IsSpace(s[i])
  }

  function TrimStart(s: string): string {
    if s != "" && IsSpace(s[0]) then TrimStart(s[1..]) else s
  }

  function TrimEnd(s: string): string {
    if s != "" && IsSpace(s[|s| - 1]) then TrimEnd(s[..|s| - 1]) else s
  }

  function Trim(s: string): string {
    TrimEnd(TrimStart(s))
  }

  /** `replace(/\s+/gu, ' ')`: every maximal run of white space becomes one space. */
  function Collapse(s: string): string {
    if s == "" then ""
    else if IsSpace(s[0]) then
      if |s| > 1 && IsSpace(s[1]) then Collapse(s[1..]) else " " + Collapse(s[1..])
    else [s[0]] + Collapse(s[1..])
  }

  function Normalize(s: string): string {
    Trim(Collapse(s))
  }

  predicate StartsWithAt(s: string, pattern: string, at: nat) {
    at + |pattern| <= |s| && s[at..at + |pattern|] == pattern
  }

  /** `s.indexOf(pattern, from)`, with the length of `s` for "not found". */
  function IndexOf(s: string, pattern: string, from: nat): (at: nat)
    requires from <= |s|
    ensures from <= at <= |s|
    ensures forall i :: from <= i < at ==> !StartsWithAt(s, pattern, i)
    ensures at < |s| ==> StartsWithAt(s, pattern, at)
    decreases |s| - from
  {
    if from == |s| || StartsWithAt(s, pattern, from) then from else IndexOf(s, pattern, from + 1)
  }

  /** What trimming takes away is blank, and what it leaves neither starts nor ends with a blank. */
  lemma {:induction false} TrimStartSplit(s: string) returns (w: string)
    ensures s == w + TrimStart(s) && Blank(w)
    ensures TrimStart(s) != "" ==> !IsSpace(TrimStart(s)[0])
  {
    if s != "" && IsSpace(s[0]) {
      var v := TrimStartSplit(s[1..]);
      w := [s[0]] + v;
    } else {
      w := "";
    }
  }

  lemma {:induction false} TrimEndSplit(s: string) returns (w: string)
    ensures s == TrimEnd(s) + w && Blank(w)
    ensures TrimEnd(s) != "" ==> !IsSpace(TrimEnd(s)[|TrimEnd(s)| - 1])
  {
    if s != "" && IsSpace(s[|s| - 1]) {
      var v := TrimEndSplit(s[..|s| - 1]);
      w := v + [s[|s| - 1]];
      assert s == s[..|s| - 1] + [s[|s| - 1]];
    } else {
      w := "";
    }
  }

  lemma TrimSplit(s: string) returns (before: string, after: string)
    ensures s == before + Trim(s) + after && Blank(before) && Blank(after)
    ensures Trim(s) != "" ==> !IsSpace(Trim(s)[0]) && !IsSpace(Trim(s)[|Trim(s)| - 1])
    ensures Trim(s) == "" <==> Blank(s)
  {
    before := TrimStartSplit(s);
    after := TrimEndSplit(TrimStart(s));
    if Trim(s) != "" {
      assert Trim(s)[0] == TrimStart(s)[0];
      assert s[|before|] == Trim(s)[0];
    } else {
      assert s == before + after;
    }
  }

  lemma TrimFixed(s: string)
    requires s != "" ==> !IsSpace(s[0]) && !IsSpace(s[|s| - 1])
    ensures Trim(s) == s
  {
  }

  lemma {:induction false} TrimStartBlank(w: string, s: string)
    requires Blank(w)
    ensures TrimStart(w + s) == TrimStart(s)
  {
    if w == "" {
      assert w + s == s;
    } else {
      assert (w + s)[1..] == w[1..] + s;
      TrimStartBlank(w[1..], s);
    }
  }

  lemma {:induction false} TrimEndBlank(s: string, w: string)
    requires Blank(w)
    ensures TrimEnd(s + w) == TrimEnd(s)
  {
    if w == "" {
      assert s + w == s;
    } else {
      assert (s + w)[..|s + w| - 1] == s + w[..|w| - 1];
      TrimEndBlank(s, w[..|w| - 1]);
    }
  }

  lemma {:induction false} CollapseBlankFront(w: string, s: string)
    requires Blank(w)
    ensures TrimStart(Collapse(w + s)) == TrimStart(Collapse(s))
  {
    if w == "" {
      assert w + s == s;
    } else {
      assert (w + s)[1..] == w[1..] + s;
      CollapseBlankFront(w[1..], s);
    }
  }

  /** Appending blanks adds at most one trailing space to the collapsed form. */
  lemma {:induction false} CollapseBlankBack(s: string, w: string)
    requires Blank(w)
    ensures Collapse(s + w) == Collapse(s) || Collapse(s + w) == Collapse(s) + " "
  {
    if s == "" {
      assert s + w == w;
      if w != "" {
        CollapseBlankBack("", w[1..]);
        assert "" + w[1..] == w[1..];
        CollapseHead(w);
      }
    } else {
      assert (s + w)[1..] == s[1..] + w;
      CollapseBlankBack(s[1..], w);
      if |s| == 1 && w != "" && IsSpace(s[0]) {
        assert s[1..] + w == w;
        CollapseHead(w);
        assert Collapse(s) == " " + Collapse("");
      }
    }
  }

  lemma {:induction false} CollapseHead(w: string)
    requires Blank(w) && w != ""
    ensures Collapse(w) == " "
  {
    if |w| > 1 {
      CollapseHead(w[1..]);
    } else {
      assert w[1..] == "";
    }
  }

  /** Blanks around a text do not change its normalized form. */
  lemma NormalizeIgnoresBlankEnds(before: string, s: string, after: string)
    requires Blank(before) && Blank(after)
    ensures Normalize(before + s + after) == Normalize(s)
  {
    assert before + s + after == before + (s + after);
    CollapseBlankFront(before, s + after);
    CollapseBlankBack(s, after);
    var c := Collapse(s);
    TrimMiddle(c);
  }

  lemma TrimMiddle(c: string)
    ensures TrimEnd(TrimStart(c + " ")) == TrimEnd(TrimStart(c))
  {
    var w := TrimStartSplit(c);
    assert c + " " == w + (TrimStart(c) + " ");
    TrimStartBlank(w, TrimStart(c) + " ");
    if TrimStart(c) == "" {
      assert TrimStart(c) + " " == " ";
      assert " "[1..] == "";
    } else {
      assert (TrimStart(c) + " ")[0] == TrimStart(c)[0];
      TrimEndBlank(TrimStart(c), " ");
    }
  }
}
