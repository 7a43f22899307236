// Lists of names that are added to and spliced, as the replay and the classifier keep them.
module Lists {

  ghost predicate EachOnce<T>(list: seq<T>) {
    forall i, j :: 0 <= i < j < |list| ==> list[i] != list[j]
  }

  lemma Halves<T>(list: seq<T>, at: nat)
    requires at <= |list|
    ensures list == list[..at] + list[at..]
  {
  }

  lemma Around<T>(list: seq<T>, at: nat)
    requires at < |list|
    ensures list == list[..at] + ([list[at]] + list[at + 1..])
  {
  }

  lemma Grown<T>(list: seq<T>, at: nat)
    requires at < |list|
    ensures list[..at + 1] == list[..at] + [list[at]]
  {
  }

  lemma Regrouped<T>(x: seq<T>, y: T, z: seq<T>)
    ensures x + ([y] + z) == (x + [y]) + z
  {
  }

  lemma Associates<T>(x: seq<T>, y: seq<T>, z: seq<T>)
    ensures x + (y + z) == (x + y) + z
  {
  }

  /** `list.splice(list.indexOf(name), 1)`, where the name is listed. */
  function Without(list: seq<string>, name: string): seq<string> {
    if list == [] then []
    else if list[0] == name then list[1..]
    else [list[0]] + Without(list[1..], name)
  }

  function WithoutAll(list: seq<string>, names: seq<string>): seq<string>
    decreases |names|
  {
    if names == [] then list else WithoutAll(Without(list, names[0]), names[1..])
  }

  lemma {:induction false} WithoutHas(list: seq<string>, name: string, x: string)
    requires EachOnce(list)
    ensures x in Without(list, name) <==> x in list && x != name
  {
    if list != [] {
      assert list == [list[0]] + list[1..];
      if list[0] == name {
        assert name !in list[1..];
      } else {
        WithoutHas(list[1..], name, x);
      }
    }
  }

  lemma {:induction false} WithoutEachOnce(list: seq<string>, name: string)
    requires EachOnce(list)
    ensures EachOnce(Without(list, name))
  {
    if list != [] && list[0] != name {
      WithoutEachOnce(list[1..], name);
      WithoutHas(list[1..], name, list[0]);
      assert list[0] !in list[1..];
    }
  }

  /** From a list without repetitions, splicing removes exactly the names given. */
  lemma {:induction false} WithoutAllHas(list: seq<string>, names: seq<string>, x: string)
    requires EachOnce(list)
    ensures EachOnce(WithoutAll(list, names))
    ensures x in WithoutAll(list, names) <==> x in list && x !in names
    decreases |names|
  {
    if names != [] {
      WithoutEachOnce(list, names[0]);
      WithoutHas(list, names[0], x);
      WithoutAllHas(Without(list, names[0]), names[1..], x);
    }
  }
}
