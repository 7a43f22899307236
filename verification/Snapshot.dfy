// tools/upgrade/snapshot.ts: what an upgrade changed, as a list of differences between two snapshots.
module Snapshot {
  import opened Text

  function Get<V>(m: map<string, V>, name: string): Option<V> {
    if name in m then Some(m[name]) else None
  }

  /** One name, what it stood for before and what it stands for after. */
  datatype Edit<V> = Edit(name: string, before: Option<V>, after: Option<V>)

  function EditAt<V>(before: map<string, V>, after: map<string, V>, name: string): Edit<V> {
    Edit(name, Get(before, name), Get(after, name))
  }

  /** The list holds the edit of every one of those names that needs one, and nothing else. */
  ghost predicate ExactEdits<V(!new)>(found: seq<Edit<V>>, before: map<string, V>, after: map<string, V>,
                                      names: set<string>)
  {
    forall e :: e in found <==> e.name in names && e == EditAt(before, after, e.name) && e.before != e.after
  }

  function Patched<V>(m: map<string, V>, found: seq<Edit<V>>): map<string, V> {
    if found == [] then m
    else
      var e := found[|found| - 1];
      var p := Patched(m, found[..|found| - 1]);
      if e.after.Some? then p[e.name := e.after.value] else p - {e.name}
  }

  /** Each name is as before, or as the edits that name it leave it. */
  lemma {:induction false} PatchedAt<V(!new)>(before: map<string, V>, after: map<string, V>, found: seq<Edit<V>>,
                                              name: string)
    requires forall e :: e in found ==> e == EditAt(before, after, e.name)
    ensures Get(Patched(before, found), name)
         == if exists e :: e in found && e.name == name then Get(after, name) else Get(before, name)
  {
    if found != [] {
      var rest, last := found[..|found| - 1], found[|found| - 1];
      assert found == rest + [last];
      PatchedAt(before, after, rest, name);
    }
  }

  /** Applied to the state before, the edits give the state after, on exactly the names compared. */
  lemma EditsAreExact<V(!new)>(found: seq<Edit<V>>, before: map<string, V>, after: map<string, V>, names: set<string>)
    requires ExactEdits(found, before, after, names)
    ensures forall name ::
      Get(Patched(before, found), name) == if name in names then Get(after, name) else Get(before, name)
    ensures found == [] <==> forall name :: name in names ==> Get(before, name) == Get(after, name)
  {
    forall name
      ensures Get(Patched(before, found), name) == if name in names then Get(after, name) else Get(before, name)
    {
      PatchedAt(before, after, found, name);
      assert EditAt(before, after, name).name == name;
      if name in names && Get(before, name) != Get(after, name) {
        assert EditAt(before, after, name) in found;
      }
    }
    if found != [] {
      assert found[0] in found;
    } else {
      forall name | name in names
        ensures Get(before, name) == Get(after, name)
      {
        assert EditAt(before, after, name) !in found;
      }
    }
  }

  /** The edits of the names already compared, and one more. */
  lemma ExactMore<V(!new)>(found: seq<Edit<V>>, before: map<string, V>, after: map<string, V>, names: set<string>,
                           name: string)
    requires ExactEdits(found, before, after, names)
    ensures Get(before, name) == Get(after, name) ==> ExactEdits(found, before, after, names + {name})
    ensures Get(before, name) != Get(after, name) ==>
      ExactEdits(found + [EditAt(before, after, name)], before, after, names + {name})
  {
  }

  // -------------------------------------------------------------------- contents

  datatype TableSnapshot = TableSnapshot(rows: nat, hash: string)

  method Differences(before: map<string, TableSnapshot>, after: map<string, TableSnapshot>)
    returns (found: seq<Edit<TableSnapshot>>)
    ensures ExactEdits(found, before, after, before.Keys)
  {
    found := [];
    var rest := before.Keys;
    while rest != {}
      invariant rest <= before.Keys
      invariant ExactEdits(found, before, after, before.Keys - rest)
      decreases |rest|
    {
      var table :| table in rest;
      var was := before[table];
      ExactMore(found, before, after, before.Keys - rest, table);
      assert before.Keys - rest + {table} == before.Keys - (rest - {table});
      if table !in after || after[table].rows != was.rows || after[table].hash != was.hash {
        found := found + [Edit(table, Some(was), Get(after, table))];
      }
      rest := rest - {table};
    }
  }

  // ----------------------------------------------------------------------- views

  method ViewDifferences(before: map<string, string>, after: map<string, string>) returns (found: seq<Edit<string>>)
    ensures ExactEdits(found, before, after, before.Keys + after.Keys)
  {
    found := [];
    var rest := before.Keys + after.Keys;
    while rest != {}
      invariant rest <= before.Keys + after.Keys
      invariant ExactEdits(found, before, after, before.Keys + after.Keys - rest)
      decreases |rest|
    {
      var view :| view in rest;
      ExactMore(found, before, after, before.Keys + after.Keys - rest, view);
      assert before.Keys + after.Keys - rest + {view} == before.Keys + after.Keys - (rest - {view});
      if view !in before && view in after {
        found := found + [Edit(view, None, Some(after[view]))];
      } else if view in before && view !in after {
        found := found + [Edit(view, Some(before[view]), None)];
      } else if view in before && view in after && before[view] != after[view] {
        found := found + [Edit(view, Some(before[view]), Some(after[view]))];
      }
      rest := rest - {view};
    }
  }

  /** No view difference is reported exactly when the two snapshots are equal. */
  lemma ViewsAgreeIffNone(before: map<string, string>, after: map<string, string>, found: seq<Edit<string>>)
    requires ExactEdits(found, before, after, before.Keys + after.Keys)
    ensures found == [] <==> before == after
    ensures Patched(before, found) == after
  {
    EditsAreExact(found, before, after, before.Keys + after.Keys);
    SameMaps(Patched(before, found), after);
    if found == [] {
      SameMaps(before, after);
    }
  }

  lemma SameMaps<V>(a: map<string, V>, b: map<string, V>)
    ensures (forall name :: Get(a, name) == Get(b, name)) ==> a == b
  {
    if forall name :: Get(a, name) == Get(b, name) {
      forall name
        ensures name in a <==> name in b
        ensures name in a && name in b ==> a[name] == b[name]
      {
        assert Get(a, name) == Get(b, name);
      }
      assert a.Keys == b.Keys;
    }
  }

  // ---------------------------------------------------------------------- shapes

  /** The leading word of a rendered line. */
  function NameOf(line: string): string {
    line[..IndexOf(line, " ", 0)]
  }

  /** The lines by the names they begin with; of two lines with one name, the later. */
  function Keyed(lines: seq<string>): map<string, string> {
    if lines == [] then map[] else Keyed(lines[..|lines| - 1])[NameOf(lines[|lines| - 1]) := lines[|lines| - 1]]
  }

  method DiffRendered(before: seq<string>, after: seq<string>) returns (changes: seq<Edit<string>>)
    ensures ExactEdits(changes, Keyed(before), Keyed(after), Keyed(before).Keys + Keyed(after).Keys)
  {
    var was, now := Keyed(before), Keyed(after);
    changes := [];
    var rest := was.Keys;
    while rest != {}
      invariant rest <= was.Keys
      invariant ExactEdits(changes, was, now, was.Keys - rest)
      decreases |rest|
    {
      var name :| name in rest;
      ExactMore(changes, was, now, was.Keys - rest, name);
      assert was.Keys - rest + {name} == was.Keys - (rest - {name});
      if name !in now {
        changes := changes + [Edit(name, Some(was[name]), None)];
      } else if now[name] != was[name] {
        changes := changes + [Edit(name, Some(was[name]), Some(now[name]))];
      }
      rest := rest - {name};
    }
    rest := now.Keys;
    assert was.Keys + (now.Keys - now.Keys) == was.Keys - {};
    while rest != {}
      invariant rest <= now.Keys
      invariant ExactEdits(changes, was, now, was.Keys + (now.Keys - rest))
      decreases |rest|
    {
      var name :| name in rest;
      ExactMore(changes, was, now, was.Keys + (now.Keys - rest), name);
      assert was.Keys + (now.Keys - rest) + {name} == was.Keys + (now.Keys - (rest - {name}));
      assert name in was ==> was.Keys + (now.Keys - rest) + {name} == was.Keys + (now.Keys - rest);
      if name !in was {
        changes := changes + [Edit(name, None, Some(now[name]))];
      }
      rest := rest - {name};
    }
  }

  /** The two lists say the same, name by name. */
  predicate SameLines(before: seq<string>, after: seq<string>) {
    Keyed(before) == Keyed(after)
  }

  /** The changes reported are none exactly when the lists agree by name, and turn the one into the other. */
  lemma RenderedIsExact(before: seq<string>, after: seq<string>, changes: seq<Edit<string>>)
    requires ExactEdits(changes, Keyed(before), Keyed(after), Keyed(before).Keys + Keyed(after).Keys)
    ensures changes == [] <==> SameLines(before, after)
    ensures Patched(Keyed(before), changes) == Keyed(after)
  {
    ViewsAgreeIffNone(Keyed(before), Keyed(after), changes);
  }

  ghost predicate OneNameEach(lines: seq<string>) {
    forall i, j :: 0 <= i < j < |lines| ==> NameOf(lines[i]) != NameOf(lines[j])
  }

  lemma {:induction false} KeyedHolds(lines: seq<string>, line: string)
    requires OneNameEach(lines)
    ensures Get(Keyed(lines), NameOf(line)) == Some(line) <==> line in lines
    ensures NameOf(line) in Keyed(lines) ==>
      Keyed(lines)[NameOf(line)] in lines && NameOf(Keyed(lines)[NameOf(line)]) == NameOf(line)
  {
    if lines != [] {
      var rest, last := lines[..|lines| - 1], lines[|lines| - 1];
      assert lines == rest + [last];
      KeyedHolds(rest, line);
      KeyedHolds(rest, last);
    }
  }

  /** Every key is the name of the line it stands for. */
  lemma {:induction false} KeysAreNames(lines: seq<string>, name: string)
    requires name in Keyed(lines)
    ensures Keyed(lines)[name] in lines && NameOf(Keyed(lines)[name]) == name
  {
    var rest, last := lines[..|lines| - 1], lines[|lines| - 1];
    assert lines == rest + [last];
    if name != NameOf(last) {
      KeysAreNames(rest, name);
    }
  }

  /**
   * Where every line has a name of its own, nothing is reported exactly when the lines are the
   * same, in whatever order.
   */
  lemma OrderIsUnseen(before: seq<string>, after: seq<string>)
    requires OneNameEach(before) && OneNameEach(after)
    ensures SameLines(before, after) <==> forall line :: line in before <==> line in after
  {
    if SameLines(before, after) {
      forall line
        ensures line in before <==> line in after
      {
        KeyedHolds(before, line);
        KeyedHolds(after, line);
      }
    } else if forall line :: line in before <==> line in after {
      forall name
        ensures Get(Keyed(before), name) == Get(Keyed(after), name)
      {
        KeyedAgree(before, after, name);
        KeyedAgree(after, before, name);
      }
      SameMaps(Keyed(before), Keyed(after));
      assert false;
    }
  }

  lemma KeyedAgree(before: seq<string>, after: seq<string>, name: string)
    requires OneNameEach(after) && forall line :: line in before ==> line in after
    ensures name in Keyed(before) ==> Get(Keyed(after), name) == Get(Keyed(before), name)
  {
    if name in Keyed(before) {
      KeysAreNames(before, name);
      KeyedHolds(after, Keyed(before)[name]);
    }
  }

  /** Two columns trade places, and nothing is reported. */
  lemma SwappedColumnsAreUnseen()
    ensures SameLines(["id int", "at date"], ["at date", "id int"])
  {
    var a, b := "id int", "at date";
    FirstSpace(a, 2);
    FirstSpace(b, 2);
    assert NameOf(a)[0] == 'i' && NameOf(b)[0] == 'a';
    assert [a, b][0] == a && [a, b][1] == b && [b, a][0] == b && [b, a][1] == a;
    OrderIsUnseen([a, b], [b, a]);
  }

  lemma FirstSpace(line: string, at: nat)
    requires at < |line| && line[at] == ' ' && ' ' !in line[..at]
    ensures NameOf(line) == line[..at]
  {
    var found := IndexOf(line, " ", 0);
    assert line[at..at + 1] == " ";
    assert StartsWithAt(line, " ", at);
    assert line[found] == line[found..found + 1][0] == ' ';
  }

  /** A line is found under the text before its first space, unless a later line begins so too. */
  lemma {:induction false} LaterLineWins(lines: seq<string>, i: nat, name: string)
    requires i < |lines| && BeginsWith(lines[i], name)
    requires forall j :: i < j < |lines| ==> !BeginsWith(lines[j], name)
    ensures name in Keyed(lines) && Keyed(lines)[name] == lines[i]
    decreases |lines|
  {
    var rest, last := lines[..|lines| - 1], lines[|lines| - 1];
    assert lines == rest + [last];
    NameIsBeginning(last, name);
    if i < |rest| {
      LaterLineWins(rest, i, name);
    }
  }

  /** `name` is the line's text before its first space, or all of it. */
  predicate BeginsWith(line: string, name: string) {
    ' ' !in name && (line == name || name + " " <= line)
  }

  lemma SpaceAt(line: string, i: nat)
    requires i < |line|
    ensures StartsWithAt(line, " ", i) <==> line[i] == ' '
  {
    assert line[i..i + 1] == [line[i]];
  }

  lemma NameIsBeginning(line: string, name: string)
    ensures NameOf(line) == name <==> BeginsWith(line, name)
  {
    var at := IndexOf(line, " ", 0);
    forall i | 0 <= i < at
      ensures line[i] != ' '
    {
      SpaceAt(line, i);
    }
    if at < |line| {
      SpaceAt(line, at);
      assert line[..at + 1] == NameOf(line) + " ";
    }
    if BeginsWith(line, name) {
      assert forall i :: 0 <= i < |name| ==> line[i] == name[i];
      assert line != name ==> line[|name|] == (name + " ")[|name|] == ' ';
      assert line[..|name|] == name;
    }
  }

  datatype TableShape = TableShape(columns: seq<string>, constraints: seq<string>, indexes: seq<string>)

  datatype ShapeDifference =
    | TableRemoved(table: string)
    | ShapeChanged(table: string, columns: seq<Edit<string>>, constraints: seq<Edit<string>>,
                   indexes: seq<Edit<string>>)

  predicate SameShape(was: TableShape, now: TableShape) {
    SameLines(was.columns, now.columns) && SameLines(was.constraints, now.constraints)
      && SameLines(was.indexes, now.indexes)
  }

  /** The reported difference, applied to the shape before, gives the shape after. */
  predicate Rebuilds(d: ShapeDifference, was: TableShape, now: TableShape)
    requires d.ShapeChanged?
  {
    && Patched(Keyed(was.columns), d.columns) == Keyed(now.columns)
    && Patched(Keyed(was.constraints), d.constraints) == Keyed(now.constraints)
    && Patched(Keyed(was.indexes), d.indexes) == Keyed(now.indexes)
  }

  predicate Explains(d: ShapeDifference, before: map<string, TableShape>, after: map<string, TableShape>) {
    && d.table in before
    && (d.TableRemoved? <==> d.table !in after)
    && (d.ShapeChanged? ==> !SameShape(before[d.table], after[d.table]) && Rebuilds(d, before[d.table], after[d.table]))
  }

  /** The table was there before, and is gone or has another shape. */
  predicate Reshaped(before: map<string, TableShape>, after: map<string, TableShape>, table: string) {
    table in before && (table !in after || !SameShape(before[table], after[table]))
  }

  /** Every table that was there before and is gone or reshaped is reported, once, and nothing else is. */
  ghost predicate ExactShapes(found: seq<ShapeDifference>, before: map<string, TableShape>,
                              after: map<string, TableShape>, among: set<string>)
  {
    && (forall i :: 0 <= i < |found| ==> found[i].table in among && Explains(found[i], before, after))
    && (forall i, j :: 0 <= i < j < |found| ==> found[i].table != found[j].table)
    && (forall table :: table in among && Reshaped(before, after, table) ==>
      exists i :: 0 <= i < |found| && found[i].table == table)
  }

  method ShapeDifferences(before: map<string, TableShape>, after: map<string, TableShape>)
    returns (found: seq<ShapeDifference>)
    ensures ExactShapes(found, before, after, before.Keys)
  {
    found := [];
    var rest := before.Keys;
    while rest != {}
      invariant rest <= before.Keys
      invariant ExactShapes(found, before, after, before.Keys - rest)
      decreases |rest|
    {
      var table :| table in rest;
      ghost var among := before.Keys - rest;
      assert before.Keys - (rest - {table}) == among + {table};
      if table !in after {
        ShapesMore(found, before, after, among, TableRemoved(table));
        found := found + [TableRemoved(table)];
      } else {
        var was, now := before[table], after[table];
        var columns := DiffRendered(was.columns, now.columns);
        var constraints := DiffRendered(was.constraints, now.constraints);
        var indexes := DiffRendered(was.indexes, now.indexes);
        RenderedIsExact(was.columns, now.columns, columns);
        RenderedIsExact(was.constraints, now.constraints, constraints);
        RenderedIsExact(was.indexes, now.indexes, indexes);
        if |columns| + |constraints| + |indexes| > 0 {
          ShapesMore(found, before, after, among, ShapeChanged(table, columns, constraints, indexes));
          found := found + [ShapeChanged(table, columns, constraints, indexes)];
        }
      }
      rest := rest - {table};
    }
    assert before.Keys - {} == before.Keys;
  }

  lemma ShapesMore(found: seq<ShapeDifference>, before: map<string, TableShape>, after: map<string, TableShape>,
                   among: set<string>, d: ShapeDifference)
    requires ExactShapes(found, before, after, among) && d.table !in among && Explains(d, before, after)
    ensures ExactShapes(found + [d], before, after, among + {d.table})
  {
    forall table | table in among + {d.table} && Reshaped(before, after, table)
      ensures exists i :: 0 <= i < |found + [d]| && (found + [d])[i].table == table
    {
      if table == d.table {
        assert (found + [d])[|found|].table == table;
      } else {
        var i :| 0 <= i < |found| && found[i].table == table;
        assert (found + [d])[i].table == table;
      }
    }
  }

  /**
   * No shape difference is reported exactly when every table from before is there after, with the
   * same lines by name.
   */
  lemma ShapesAgreeIffNone(found: seq<ShapeDifference>, before: map<string, TableShape>, after: map<string, TableShape>)
    requires ExactShapes(found, before, after, before.Keys)
    ensures found == [] <==> forall table :: table in before ==>
      && table in after
      && Keyed(before[table].columns) == Keyed(after[table].columns)
      && Keyed(before[table].constraints) == Keyed(after[table].constraints)
      && Keyed(before[table].indexes) == Keyed(after[table].indexes)
  {
    if found != [] {
      assert Reshaped(before, after, found[0].table);
    } else {
      forall table | table in before
        ensures table in after && SameShape(before[table], after[table])
      {
        assert !Reshaped(before, after, table);
      }
    }
  }
}
