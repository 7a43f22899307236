// `grantee | object | privilege`, the one-line form privileges are committed and compared in.
module AclLines {
  import opened Text

  const SEPARATOR := " | "

  function Line(grantee: string, object': string, privilege: string): string {
    grantee + SEPARATOR + object' + SEPARATOR + privilege
  }

  /** `line.split(' | ')` */
  function Split(line: string): (parts: seq<string>)
    ensures parts != []
    decreases |line|
  {
    var at := IndexOf(line, SEPARATOR, 0);
    if at == |line| then [line] else [line[..at]] + Split(line[at + |SEPARATOR|..])
  }

  datatype Parsed = Parsed(grantee: string, object': string, privilege: string)

  /** The first three parts of a line; more are ignored, fewer are refused. */
  function Parse(line: string): Option<Parsed> {
    var parts := Split(line);
    if |parts| < 3 then None else Some(Parsed(parts[0], parts[1], parts[2]))
  }

  /** Followed by a separator, `s` is read back whole. */
  predicate Plain(s: string) {
    IndexOf(s + SEPARATOR, SEPARATOR, 0) == |s|
  }

  lemma IndexOfIs(s: string, pattern: string, at: nat)
    requires pattern != ""
    requires StartsWithAt(s, pattern, at) && forall i :: 0 <= i < at ==> !StartsWithAt(s, pattern, i)
    ensures IndexOf(s, pattern, 0) == at
  {
  }

  /** What comes after the first separator does not change where it is found. */
  lemma FirstSeparator(s: string, rest: string)
    ensures IndexOf(s + SEPARATOR + rest, SEPARATOR, 0) == IndexOf(s + SEPARATOR, SEPARATOR, 0) <= |s|
  {
    var head := s + SEPARATOR;
    assert head[|s|..|s| + 3] == SEPARATOR;
    assert StartsWithAt(head, SEPARATOR, |s|);
    var at := IndexOf(head, SEPARATOR, 0);
    assert at <= |s|;
    forall i | 0 <= i <= at
      ensures StartsWithAt(head + rest, SEPARATOR, i) == StartsWithAt(head, SEPARATOR, i)
    {
      assert (head + rest)[i..i + 3] == head[i..i + 3];
    }
    IndexOfIs(head + rest, SEPARATOR, at);
  }

  lemma SplitHead(s: string, rest: string)
    ensures Split(s + SEPARATOR + rest)[0] == s <==> Plain(s)
    ensures Plain(s) ==> Split(s + SEPARATOR + rest) == [s] + Split(rest)
  {
    var line := s + SEPARATOR + rest;
    FirstSeparator(s, rest);
    var at := IndexOf(line, SEPARATOR, 0);
    assert Split(line)[0] == line[..at] && |line[..at]| == at;
    if Plain(s) {
      assert line[..at] == s && line[at + 3..] == rest;
    }
  }

  lemma SplitLast(s: string)
    ensures Split(s)[0] == s <==> IndexOf(s, SEPARATOR, 0) == |s|
    ensures IndexOf(s, SEPARATOR, 0) == |s| ==> Split(s) == [s]
  {
    var at := IndexOf(s, SEPARATOR, 0);
    if at < |s| {
      assert |Split(s)[0]| == at;
    }
  }

  /**
   * A line reads back as the three names it was made of exactly when the grantee and the
   * object are plain and the privilege holds no separator.
   */
  lemma LineReadsBack(grantee: string, object': string, privilege: string)
    ensures Parse(Line(grantee, object', privilege)) == Some(Parsed(grantee, object', privilege))
        <==> PlainTriple(Parsed(grantee, object', privilege))
  {
    var rest := object' + SEPARATOR + privilege;
    var line := Line(grantee, object', privilege);
    LineIs(grantee, object', privilege);
    SplitHead(grantee, rest);
    SplitHead(object', privilege);
    SplitLast(privilege);
    ThreeParts(Split(line), Split(rest), Split(privilege), grantee, object', privilege);
  }

  lemma LineIs(grantee: string, object': string, privilege: string)
    ensures Line(grantee, object', privilege) == grantee + SEPARATOR + (object' + SEPARATOR + privilege)
  {
  }

  lemma ThreeParts(parts: seq<string>, rest: seq<string>, last: seq<string>, a: string, b: string, c: string)
    requires parts != [] && rest != [] && last != []
    requires parts[0] == a ==> parts == [a] + rest
    requires rest[0] == b ==> rest == [b] + last
    ensures |parts| >= 3 && parts[0] == a && parts[1] == b && parts[2] == c
        <==> parts[0] == a && rest[0] == b && last[0] == c
  {
  }

  lemma SplitsAt(s: string, k: nat)
    requires StartsWithAt(s, SEPARATOR, k)
    ensures |Split(s)| >= 2 && IndexOf(s, SEPARATOR, 0) <= k
  {
  }

  /** Whatever the three names, the line has at least three parts. */
  lemma LinesParse(grantee: string, object': string, privilege: string)
    ensures Parse(Line(grantee, object', privilege)).Some?
  {
    var line := Line(grantee, object', privilege);
    var first, second := |grantee|, |grantee| + 3 + |object'|;
    assert line[first..first + 3] == SEPARATOR && line[second..second + 3] == SEPARATOR;
    SplitsAt(line, first);
    var at := IndexOf(line, SEPARATOR, 0);
    var rest := line[at + 3..];
    assert rest[second - at - 3..second - at] == line[second..second + 3];
    SplitsAt(rest, second - at - 3);
  }

  /** Every part before the last is plain, and the last holds no separator. */
  lemma {:induction false} PartsArePlain(line: string, k: nat)
    requires k < |Split(line)|
    ensures IndexOf(Split(line)[k], SEPARATOR, 0) == |Split(line)[k]|
    ensures k + 1 < |Split(line)| ==> Plain(Split(line)[k])
    decreases |line|
  {
    var at := IndexOf(line, SEPARATOR, 0);
    if at < |line| {
      if k > 0 {
        PartsArePlain(line[at + 3..], k - 1);
      } else {
        HeadIsPlain(line, at);
      }
    }
  }

  lemma StartsInPrefix(s: string, pattern: string, n: nat, i: nat)
    requires n <= |s| && StartsWithAt(s[..n], pattern, i)
    ensures StartsWithAt(s, pattern, i)
  {
    assert s[..n][i..i + |pattern|] == s[i..i + |pattern|];
  }

  lemma NotBefore(s: string, pattern: string, i: nat)
    requires i < IndexOf(s, pattern, 0)
    ensures !StartsWithAt(s, pattern, i)
  {
  }

  lemma HeadHasNone(line: string, at: nat, n: nat)
    requires at == IndexOf(line, SEPARATOR, 0) < |line| && at <= n <= |line|
    ensures forall i :: 0 <= i < at ==> !StartsWithAt(line[..n], SEPARATOR, i)
  {
    forall i | 0 <= i < at
      ensures !StartsWithAt(line[..n], SEPARATOR, i)
    {
      NotBefore(line, SEPARATOR, i);
      if StartsWithAt(line[..n], SEPARATOR, i) {
        StartsInPrefix(line, SEPARATOR, n, i);
      }
    }
  }

  lemma HeadJoins(s: string, pattern: string, at: nat)
    requires StartsWithAt(s, pattern, at)
    ensures s[..at] + pattern == s[..at + |pattern|] && StartsWithAt(s[..at + |pattern|], pattern, at)
  {
    assert s[..at + |pattern|][at..] == s[at..at + |pattern|];
  }

  lemma HeadFound(line: string, at: nat)
    requires at == IndexOf(line, SEPARATOR, 0) < |line|
    ensures IndexOf(line[..at + |SEPARATOR|], SEPARATOR, 0) == at
  {
    HeadJoins(line, SEPARATOR, at);
    HeadHasNone(line, at, at + |SEPARATOR|);
    IndexOfIs(line[..at + |SEPARATOR|], SEPARATOR, at);
  }

  lemma NoneFound(s: string, pattern: string)
    requires forall i :: 0 <= i < |s| ==> !StartsWithAt(s, pattern, i)
    ensures IndexOf(s, pattern, 0) == |s|
  {
  }

  lemma HeadIsPlain(line: string, at: nat)
    requires at == IndexOf(line, SEPARATOR, 0) < |line|
    ensures Plain(line[..at]) && IndexOf(line[..at], SEPARATOR, 0) == at
  {
    HeadJoins(line, SEPARATOR, at);
    HeadFound(line, at);
    HeadHasNone(line, at, at);
    NoneFound(line[..at], SEPARATOR);
  }

  predicate PlainTriple(parsed: Parsed) {
    && Plain(parsed.grantee) && Plain(parsed.object')
    && IndexOf(parsed.privilege, SEPARATOR, 0) == |parsed.privilege|
  }

  /** What a line parses to is always plain. */
  lemma ParsedIsPlain(line: string)
    requires Parse(line).Some?
    ensures PlainTriple(Parse(line).value)
  {
    PartsArePlain(line, 0);
    PartsArePlain(line, 1);
    PartsArePlain(line, 2);
  }

  predicate NameChar(c: char) {
    'a' <= c <= 'z' || '0' <= c <= '9' || c == '_'
  }

  /** A lower-case identifier is plain. */
  lemma NamesArePlain(name: string)
    requires forall i :: 0 <= i < |name| ==> NameChar(name[i])
    ensures Plain(name)
  {
    var line := name + SEPARATOR;
    forall i | 0 <= i < |name|
      ensures !StartsWithAt(line, SEPARATOR, i)
    {
      assert line[i] == name[i];
      assert SEPARATOR[0] == ' ' && line[i..i + 3][0] == line[i];
    }
    assert line[|name|..|name| + 3] == SEPARATOR;
    IndexOfIs(line, SEPARATOR, |name|);
  }

  /** The object of a line, as the two comparisons read it. */
  function ObjectOr(line: string, otherwise: string): string {
    var parts := Split(line);
    if |parts| < 2 then otherwise else parts[1]
  }

  lemma ObjectOfLine(grantee: string, name: string, privilege: string)
    requires Plain(grantee) && Plain(name)
    ensures ObjectOr(Line(grantee, name, privilege), "") == name
  {
    var rest := name + SEPARATOR + privilege;
    LineIs(grantee, name, privilege);
    SplitHead(grantee, rest);
    SplitHead(name, privilege);
  }
}
