// tools/upgrade/sequenceGrants.ts: explicit sequence grants of a range of migrations, held
// against the live sequence privileges.
module SequenceGrants {
  import opened Text
  import opened AclLines
  import opened Replay

  const RIGHTS: seq<string> := ["SELECT", "UPDATE", "USAGE"]

  datatype SequenceDifference = SequenceDifference(role: string, name: string, missing: set<string>, extra: set<string>)

  predicate RightsSupported(raw: seq<Right>) {
    forall i :: 0 <= i < |raw| && raw[i].One? ==> raw[i].name in RIGHTS
  }

  function Expand(raw: seq<Right>): seq<string> {
    if raw == [] then [] else (if raw[0].ALL? then RIGHTS else [raw[0].name]) + Expand(raw[1..])
  }

  predicate Supported(range: seq<Dated>) {
    forall k :: 0 <= k < |range| && range[k].sql.OnSequences? ==> RightsSupported(range[k].sql.rights)
  }

  /** The lines a sequence grant or revoke is about. */
  function LinesOf(names: seq<string>, roles: seq<string>, rights: seq<string>): set<string> {
    set name, role, right | name in names && role in roles && right in rights :: Line(role, name, right)
  }

  function LinesAfter(sql: Sql, lines: set<string>): set<string> {
    match sql
    case OnSequences(verb, rights, names, roles) =>
      Changed(verb, lines, LinesOf(names, Compared(roles), Expand(rights)))
    case _ => lines
  }

  /** The sequence lines a range of migrations leaves, starting from `lines`. */
  function ExpectedLines(range: seq<Dated>, lines: set<string>): set<string>
    decreases |range|
  {
    if range == [] then lines else ExpectedLines(range[1..], LinesAfter(range[0].sql, lines))
  }

  function NamesIn(sql: Sql): set<string> {
    match sql
    case OnSequences(_, _, names, _) => set name | name in names
    case _ => {}
  }

  function NamedSequences(range: seq<Dated>): set<string> {
    if range == [] then {} else NamesIn(range[0].sql) + NamedSequences(range[1..])
  }

  // ------------------------------------------------------------------ the loops

  lemma ExpandStep(raw: seq<Right>, i: nat, rights: seq<string>)
    requires i < |raw|
    ensures rights + Expand(raw[i..]) == rights + (if raw[i].ALL? then RIGHTS else [raw[i].name]) + Expand(raw[i + 1..])
  {
    assert raw[i..][1..] == raw[i + 1..];
  }

  method ExpandRights(raw: seq<Right>) returns (r: Result<seq<string>>)
    ensures r.Ok? <==> RightsSupported(raw)
    ensures r.Ok? ==> r.value == Expand(raw)
  {
    var rights: seq<string> := [];
    for i := 0 to |raw|
      invariant rights + Expand(raw[i..]) == Expand(raw)
      invariant RightsSupported(raw[..i])
    {
      ExpandStep(raw, i, rights);
      assert raw[..i + 1] == raw[..i] + [raw[i]];
      if raw[i].ALL? {
        rights := rights + RIGHTS;
      } else if raw[i].name in RIGHTS {
        rights := rights + [raw[i].name];
      } else {
        return Err("UNSUPPORTED_SEQUENCE_GRANT_PRIVILEGE");
      }
    }
    assert raw[..|raw|] == raw;
    assert rights + [] == rights;
    r := Ok(rights);
  }

  function Changed(verb: Verb, lines: set<string>, touched: set<string>): set<string> {
    if verb.GRANT? then lines + touched else lines - touched
  }

  method ApplyName(lines: set<string>, verb: Verb, name: string, roles: seq<string>, rights: seq<string>)
    returns (expected: set<string>)
    ensures expected == Changed(verb, lines, LinesOf([name], roles, rights))
  {
    expected := lines;
    for j := 0 to |roles|
      invariant expected == Changed(verb, lines, LinesOf([name], roles[..j], rights))
    {
      ghost var before := expected;
      for k := 0 to |rights|
        invariant expected == Changed(verb, before, LinesOf([name], [roles[j]], rights[..k]))
      {
        var key := Line(roles[j], name, rights[k]);
        assert rights[..k + 1] == rights[..k] + [rights[k]];
        OneMoreRight(name, roles[j], rights[..k], rights[k]);
        if verb.GRANT? {
          expected := expected + {key};
        } else {
          expected := expected - {key};
        }
      }
      assert rights[..|rights|] == rights;
      assert roles[..j + 1] == roles[..j] + [roles[j]];
      OneMoreRole(name, roles[..j], roles[j], rights);
    }
    assert roles[..|roles|] == roles;
  }

  method ApplyLines(lines: set<string>, verb: Verb, names: seq<string>, roles: seq<string>, rights: seq<string>)
    returns (expected: set<string>)
    ensures expected == Changed(verb, lines, LinesOf(names, roles, rights))
  {
    expected := lines;
    for i := 0 to |names|
      invariant expected == Changed(verb, lines, LinesOf(names[..i], roles, rights))
    {
      assert names[..i + 1] == names[..i] + [names[i]];
      OneMoreName(names[..i], names[i], roles, rights);
      expected := ApplyName(expected, verb, names[i], roles, rights);
    }
    assert names[..|names|] == names;
  }

  lemma OneMoreRight(name: string, role: string, rights: seq<string>, right: string)
    ensures LinesOf([name], [role], rights + [right]) == LinesOf([name], [role], rights) + {Line(role, name, right)}
  {
    assert Line(role, name, right) in LinesOf([name], [role], rights + [right]);
  }

  lemma OneMoreRole(name: string, roles: seq<string>, role: string, rights: seq<string>)
    ensures LinesOf([name], roles + [role], rights) == LinesOf([name], roles, rights) + LinesOf([name], [role], rights)
  {
  }

  lemma OneMoreName(names: seq<string>, name: string, roles: seq<string>, rights: seq<string>)
    ensures LinesOf(names + [name], roles, rights) == LinesOf(names, roles, rights) + LinesOf([name], roles, rights)
  {
  }

  /** What the range expects of the sequences it names, or the grant it cannot read. */
  method ExpectedSequences(range: seq<Dated>, baseline: seq<string>)
    returns (r: Result<(set<string>, set<string>)>)
    ensures r.Ok? <==> Supported(range)
    ensures r.Ok? ==> r.value.0 == ExpectedLines(range, set line | line in baseline)
    ensures r.Ok? ==> r.value.1 == NamedSequences(range)
  {
    var expected, named := set line | line in baseline, {};
    for i := 0 to |range|
      invariant ExpectedLines(range[i..], expected) == ExpectedLines(range, set line | line in baseline)
      invariant named + NamedSequences(range[i..]) == NamedSequences(range)
      invariant Supported(range[..i])
    {
      assert range[i..][1..] == range[i + 1..];
      assert range[..i + 1] == range[..i] + [range[i]];
      if range[i].sql.OnSequences? {
        var sql := range[i].sql;
        var rights := ExpandRights(sql.rights);
        if rights.Err? {
          return Err(rights.message);
        }
        var roles := FilterCompared(sql.roles);
        expected := ApplyLines(expected, sql.verb, sql.names, roles, rights.value);
        named := named + set name | name in sql.names;
      }
    }
    assert range[..|range|] == range;
    r := Ok((expected, named));
  }

  /** The rights of `lines` on one sequence for one role. */
  function RightsIn(lines: set<string>, role: string, name: string): set<string> {
    set right | right in RIGHTS && Line(role, name, right) in lines
  }

  ghost predicate DifferenceFound(d: SequenceDifference, named: set<string>, expected: set<string>, live: set<string>) {
    && d.role in COMPARED_ROLES && d.name in named
    && d.missing == RightsIn(expected, d.role, d.name) - RightsIn(live, d.role, d.name)
    && d.extra == RightsIn(live, d.role, d.name) - RightsIn(expected, d.role, d.name)
    && (d.missing != {} || d.extra != {})
  }

  /** Every sequence the range names, for both roles and all three rights, expected against live. */
  method DeclaredSequenceGrantDifferences(range: seq<Dated>, baseline: seq<string>, live: seq<string>)
    returns (r: Result<seq<SequenceDifference>>)
    ensures r.Ok? <==> Supported(range)
    ensures r.Ok? ==> forall d :: d in r.value <==>
      DifferenceFound(d, NamedSequences(range), ExpectedLines(range, set line | line in baseline),
                      set line | line in live)
  {
    var expectation := ExpectedSequences(range, baseline);
    if expectation.Err? {
      return Err(expectation.message);
    }
    var (expected, named) := expectation.value;
    var actual := set line | line in live;
    var differences := [];
    var todo := named;
    while todo != {}
      invariant todo <= named
      invariant forall d :: d in differences <==> DifferenceFound(d, named - todo, expected, actual)
    {
      var name :| name in todo;
      ghost var before := differences;
      for i := 0 to |COMPARED_ROLES|
        invariant forall d :: d in differences <==>
          d in before || (DifferenceFound(d, {name}, expected, actual) && d.role in COMPARED_ROLES[..i])
      {
        var role := COMPARED_ROLES[i];
        var missing := RightsIn(expected, role, name) - RightsIn(actual, role, name);
        var extra := RightsIn(actual, role, name) - RightsIn(expected, role, name);
        if missing != {} || extra != {} {
          differences := differences + [SequenceDifference(role, name, missing, extra)];
        }
      }
      todo := todo - {name};
    }
    r := Ok(differences);
  }
}
