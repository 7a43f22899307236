// The normalized form of a text: its words, with one space between them.
module Words {
  import opened Text

  /** The stretches between white space, from left to right. */
  function WordsOf(s: string): (words: seq<string>)
    ensures s != "" && !IsSpace(s[0]) ==> words != []
  {
    if s == "" then []
    else if IsSpace(s[0]) then WordsOf(s[1..])
    else if |s| == 1 || IsSpace(s[1]) then [[s[0]]] + WordsOf(s[1..])
    else
      var words := WordsOf(s[1..]);
      [[s[0]] + words[0]] + words[1..]
  }

  function Spaced(words: seq<string>): string {
    if words == [] then ""
    else if |words| == 1 then words[0]
    else words[0] + " " + Spaced(words[1..])
  }

  /** What `Collapse` leaves behind the last word. */
  function Trailing(s: string): string {
    if s != "" && IsSpace(s[|s| - 1]) && WordsOf(s) != [] then " " else ""
  }

  lemma {:induction false} CollapsedStart(s: string)
    requires s != "" && IsSpace(s[0])
    ensures Collapse(s) == " " + TrimStart(Collapse(s))
  {
    if |s| > 1 && IsSpace(s[1]) {
      CollapsedStart(s[1..]);
    } else {
      assert Collapse(s)[1..] == Collapse(s[1..]);
    }
  }

  /** A first character that is not white space goes before the first word, or stands alone. */
  lemma SpacedFront(c: char, words: seq<string>)
    requires words != []
    ensures Spaced([[c] + words[0]] + words[1..]) == [c] + Spaced(words)
    ensures Spaced([[c]] + words) == [c] + " " + Spaced(words)
  {
    var longer := [[c] + words[0]] + words[1..];
    assert longer[1..] == words[1..];
    assert ([[c]] + words)[1..] == words;
  }

  /** What the collapsed form is, up to the white space in front. */
  predicate CollapsesToWords(s: string) {
    TrimStart(Collapse(s)) == Spaced(WordsOf(s)) + Trailing(s)
  }

  lemma {:induction false} CollapsedIsSpaced(s: string)
    ensures CollapsesToWords(s)
  {
    if s != "" {
      CollapsedIsSpaced(s[1..]);
      if IsSpace(s[0]) {
        SpaceInFront(s);
      } else if |s| == 1 {
        assert WordsOf(s) == [[s[0]]] + WordsOf(s[1..]) == [[s[0]]];
        assert Collapse(s) == [s[0]] + "";
      } else if IsSpace(s[1]) {
        WordEnds(s);
      } else {
        WordGoesOn(s);
      }
    }
  }

  lemma WordEnds(s: string)
    requires |s| > 1 && !IsSpace(s[0]) && IsSpace(s[1]) && CollapsesToWords(s[1..])
    ensures CollapsesToWords(s)
  {
    var rest := s[1..];
    CollapsedStart(rest);
    assert Collapse(s) == [s[0]] + (" " + TrimStart(Collapse(rest)));
    if WordsOf(rest) == [] {
      NoWords(rest);
      assert WordsOf(s) == [[s[0]]] + [];
      assert Spaced([[s[0]]]) == [s[0]];
    } else {
      SpacedFront(s[0], WordsOf(rest));
    }
  }

  lemma WordGoesOn(s: string)
    requires |s| > 1 && !IsSpace(s[0]) && !IsSpace(s[1]) && CollapsesToWords(s[1..])
    ensures CollapsesToWords(s)
  {
    var rest := s[1..];
    assert TrimStart(Collapse(rest)) == Collapse(rest);
    SpacedFront(s[0], WordsOf(rest));
    assert Collapse(s) == [s[0]] + Collapse(rest);
  }

  lemma SpaceInFront(s: string)
    requires s != "" && IsSpace(s[0])
    ensures TrimStart(Collapse(s)) == TrimStart(Collapse(s[1..]))
    ensures WordsOf(s) == WordsOf(s[1..]) && Trailing(s) == Trailing(s[1..])
  {
    if !(|s| > 1 && IsSpace(s[1])) {
      assert Collapse(s)[1..] == Collapse(s[1..]);
    }
  }

  lemma {:induction false} NoWords(s: string)
    requires s != "" && WordsOf(s) == []
    ensures IsSpace(s[|s| - 1])
  {
    if |s| > 1 {
      NoWords(s[1..]);
    }
  }

  predicate Solid(word: string) {
    word != "" && forall i :: 0 <= i < |word| ==> !IsSpace(word[i])
  }

  lemma {:induction false} WordsAreSolid(s: string)
    ensures forall k :: 0 <= k < |WordsOf(s)| ==> Solid(WordsOf(s)[k])
  {
    if s != "" {
      WordsAreSolid(s[1..]);
    }
  }

  lemma {:induction false} SpacedEnds(words: seq<string>)
    requires words != [] && forall k :: 0 <= k < |words| ==> Solid(words[k])
    ensures Spaced(words) != "" && !IsSpace(Spaced(words)[|Spaced(words)| - 1])
  {
    if |words| > 1 {
      SpacedEnds(words[1..]);
    }
  }

  /** The normalized form is the words of the text, in order, with one space between them. */
  lemma NormalizedIsWords(s: string)
    ensures Normalize(s) == Spaced(WordsOf(s))
  {
    CollapsedIsSpaced(s);
    WordsAreSolid(s);
    var words := WordsOf(s);
    TrimEndBlank(Spaced(words), Trailing(s));
    if words != [] {
      SpacedEnds(words);
    }
  }
}
