// What the replay of sequence grants means: which statement decides a right on a sequence.
module SequenceMeaning {
  import opened AclLines
  import opened LastEvent
  import opened Replay
  import opened RevokeMeaning
  import opened SequenceGrants
  import opened PrivilegeGate
  import opened PrivilegeGateFields

  /** A right as it is written in the statement: by its name, or with the three others under ALL. */
  predicate Written(rights: seq<Right>, right: string) {
    One(right) in rights || (ALL in rights && (right == "SELECT" || right == "UPDATE" || right == "USAGE"))
  }

  /** What a statement says about one role's right on one sequence. */
  function SequenceEffect(sql: Sql, role: string, name: string, right: string): Effect {
    match sql
    case OnSequences(verb, rights, names, roles) =>
      if name in names && role in roles && Written(rights, right) then
        match verb
        case GRANT => Sets
        case REVOKE => Clears
      else Leaves
    case _ => Leaves
  }

  function SequenceEffects(range: seq<Dated>, role: string, name: string, right: string): seq<Effect> {
    if range == [] then []
    else [SequenceEffect(range[0].sql, role, name, right)] + SequenceEffects(range[1..], role, name, right)
  }

  lemma {:induction false} ExpandHas(rights: seq<Right>, right: string)
    ensures right in Expand(rights) <==> Written(rights, right)
  {
    if rights != [] {
      ExpandHas(rights[1..], right);
      assert RIGHTS[0] == "SELECT" && RIGHTS[1] == "UPDATE" && RIGHTS[2] == "USAGE";
      assert forall r :: r in rights <==> r == rights[0] || r in rights[1..];
    }
  }

  /** A range is refused exactly when a sequence statement of it names a right that is none of the three. */
  lemma SupportedIff(range: seq<Dated>)
    ensures !Supported(range) <==> exists d, right :: d in range && d.sql.OnSequences? && One(right) in d.sql.rights
                                     && right != "SELECT" && right != "UPDATE" && right != "USAGE"
  {
    assert RIGHTS[0] == "SELECT" && RIGHTS[1] == "UPDATE" && RIGHTS[2] == "USAGE";
    if !Supported(range) {
      var k :| 0 <= k < |range| && range[k].sql.OnSequences? && !RightsSupported(range[k].sql.rights);
      var i :| 0 <= i < |range[k].sql.rights| && range[k].sql.rights[i].One?
               && range[k].sql.rights[i].name !in RIGHTS;
      assert range[k] in range && One(range[k].sql.rights[i].name) in range[k].sql.rights;
    }
    if d, right :| d in range && d.sql.OnSequences? && One(right) in d.sql.rights
                   && right != "SELECT" && right != "UPDATE" && right != "USAGE" {
      var i :| 0 <= i < |d.sql.rights| && d.sql.rights[i] == One(right);
      assert right !in RIGHTS;
    }
  }

  lemma {:induction false} ComparedHas(roles: seq<string>, role: string)
    requires role == "app_runtime" || role == "migration"
    ensures role in Compared(roles) <==> role in roles
  {
    if roles != [] {
      ComparedHas(roles[1..], role);
      Roles(roles[0]);
    }
  }

  lemma {:induction false} ComparedAreRoles(roles: seq<string>, role: string)
    requires role in Compared(roles)
    ensures role == "app_runtime" || role == "migration"
  {
    Roles(roles[0]);
    if role in Compared(roles[1..]) {
      ComparedAreRoles(roles[1..], role);
    }
  }

  /** With one separator in it a text falls apart in one way. */
  lemma PairIsUnique(a: string, b: string, x: string, y: string)
    requires NoBar(a) && NoBar(b) && a + " | " + b == x + " | " + y
    ensures a == x && b == y
  {
    var s := a + " | " + b;
    assert s[|a| + 1] == '|' && (x + " | " + y)[|x| + 1] == '|';
    assert forall i :: 0 <= i < |s| && i != |a| + 1 ==> s[i] != '|';
    assert s[..|a|] == a && (x + " | " + y)[..|x|] == x;
    assert s[|a| + 3..] == b && (x + " | " + y)[|x| + 3..] == y;
  }

  /** No other grantee, name and right is written as this line. */
  lemma LineIsUnique(role: string, name: string, right: string, r: string, n: string, q: string)
    requires NoBar(role) && NoBar(name) && NoBar(right) && NoBar(r)
    requires Line(role, name, right) == Line(r, n, q)
    ensures role == r && name == n && right == q
  {
    var line := Line(role, name, right);
    LineIs(role, name, right);
    LineIs(r, n, q);
    NoBarIsPlain(role);
    NoBarIsPlain(r);
    SplitHead(role, name + SEPARATOR + right);
    SplitHead(r, n + SEPARATOR + q);
    assert line[|role| + 3..] == name + SEPARATOR + right;
    assert line[|r| + 3..] == n + SEPARATOR + q;
    PairIsUnique(name, right, n, q);
  }

  lemma LinesOfHas(names: seq<string>, roles: seq<string>, rights: seq<Right>, role: string, name: string,
                   right: string)
    requires ReadableNames(role, name, right)
    ensures Line(role, name, right) in LinesOf(names, Compared(roles), Expand(rights))
       <==> name in names && role in roles && Written(rights, right)
  {
    var line := Line(role, name, right);
    ComparedHas(roles, role);
    ExpandHas(rights, right);
    if line in LinesOf(names, Compared(roles), Expand(rights)) {
      var n, r, q :| n in names && r in Compared(roles) && q in Expand(rights) && line == Line(r, n, q);
      ComparedAreRoles(roles, r);
      NoBarRole(role);
      NoBarRole(r);
      LineIsUnique(role, name, right, r, n, q);
    }
  }

  lemma {:induction false} LineDecides(range: seq<Dated>, lines: set<string>, role: string, name: string, right: string)
    requires ReadableNames(role, name, right)
    ensures Line(role, name, right) in ExpectedLines(range, lines)
       <==> Outcome(SequenceEffects(range, role, name, right), Line(role, name, right) in lines)
    decreases |range|
  {
    if range != [] {
      match range[0].sql {
        case OnSequences(_, rights, names, roles) => LinesOfHas(names, roles, rights, role, name, right);
        case _ =>
      }
      var effects := SequenceEffects(range, role, name, right);
      assert effects[0] == SequenceEffect(range[0].sql, role, name, right);
      assert effects[1..] == SequenceEffects(range[1..], role, name, right);
      LineDecides(range[1..], LinesAfter(range[0].sql, lines), role, name, right);
    }
  }

  /**
   * A right on a sequence is expected exactly when the last statement about it grants it, or there is
   * none and the baseline has its line.
   */
  lemma LastSequenceEventDecides(range: seq<Dated>, baseline: seq<string>, role: string, name: string, right: string)
    requires ReadableNames(role, name, right)
    ensures var line := role + " | " + name + " | " + right;
      line in ExpectedLines(range, set l | l in baseline)
      <==> LastSets(SequenceEffects(range, role, name, right), line in baseline)
  {
    var lines := set l | l in baseline;
    LineDecides(range, lines, role, name, right);
    LastEventWins(SequenceEffects(range, role, name, right), Line(role, name, right) in lines);
  }

  lemma {:induction false} NamedSequenceIs(range: seq<Dated>, name: string)
    ensures name in NamedSequences(range)
       <==> exists d :: d in range && d.sql.OnSequences? && name in d.sql.names
  {
    if range != [] {
      NamedSequenceIs(range[1..], name);
      assert forall d :: d in range <==> d == range[0] || d in range[1..];
    }
  }

  /** After a clean check the live rights on every sequence the range names are those last granted. */
  lemma LiveSequenceIsLastEvent(c: Case, role: string, name: string, right: string)
    requires c.WellFormed() && c.Clean() && ReadableNames(role, name, right)
    requires right == "SELECT" || right == "UPDATE" || right == "USAGE"
    requires exists d :: d in c.Range() && d.sql.OnSequences? && name in d.sql.names
    ensures var line := role + " | " + name + " | " + right;
      line in c.live.sequenceGrants
      <==> LastSets(SequenceEffects(c.Range(), role, name, right), line in c.baseline.sequenceGrants)
  {
    Roles(role);
    assert RIGHTS[0] == "SELECT" && RIGHTS[1] == "UPDATE" && RIGHTS[2] == "USAGE";
    NamedSequenceIs(c.Range(), name);
    SequenceChecksAgree(c, role, name, right);
    LastSequenceEventDecides(c.Range(), c.baseline.sequenceGrants, role, name, right);
  }
}
