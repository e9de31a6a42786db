/** The habit records of HabitBuilder and the three list transformations its
    handlers apply: the spread-append of add, the `filter` of remove and the
    `map` of toggle. Names are not unique: every operation here is stated for
    lists that may hold several habits with the same name. */
module HabitList {

  /** One entry of the habit list. */
  datatype Habit = Habit(name: string, completed: bool)

  /** The names of the habits, in list order. */
  function Names(list: seq<Habit>): seq<string>
  {
    seq(|list|, i requires 0 <= i < |list| => list[i].name)
  }

  /** How many habits of `list` carry the name `name`. */
  function CountNamed(list: seq<Habit>, name: string): (r: nat)
    ensures r <= |list|
    ensures r == 0 <==> name !in Names(list)
  {
    if list == [] then 0
    else
      assert Names(list) == [list[0].name] + Names(list[1..]);
      (if list[0].name == name then 1 else 0) + CountNamed(list[1..], name)
  }

  /** `[...habitList, {name, completed: false}]`: every earlier habit keeps
      its place and exactly one entry, named by the argument and not yet
      completed, goes last, whatever names the list already holds. */
  function Added(list: seq<Habit>, name: string): (r: seq<Habit>)
    ensures |r| == |list| + 1
    ensures r[..|list|] == list
    ensures r[|list|] == Habit(name, false)
  {
    list + [Habit(name, false)]
  }

  /** `habitList.filter(item => item.name !== name)`. */
  function Removed(list: seq<Habit>, name: string): (r: seq<Habit>)
    ensures |r| <= |list|
    ensures forall i :: 0 <= i < |r| ==> r[i].name != name
    ensures forall h :: h in r ==> h in list
  {
    if list == [] then []
    else if list[0].name == name then Removed(list[1..], name)
    else [list[0]] + Removed(list[1..], name)
  }

  /** `habitList.map(h => h.name === name ? {...h, completed: !h.completed} : h)`. */
  function Toggled(list: seq<Habit>, name: string): (r: seq<Habit>)
    ensures |r| == |list|
    ensures forall i :: 0 <= i < |list| ==>
      && r[i].name == list[i].name
      && r[i].completed == (if list[i].name == name then !list[i].completed else list[i].completed)
  {
    if list == [] then []
    else
      var h := list[0];
      [if h.name == name then h.(completed := !h.completed) else h] + Toggled(list[1..], name)
  }

  // ---------------------------------------------------------------- counting

  /** Counting names distributes over concatenation. */
  lemma {:induction false} CountNamedAppend(a: seq<Habit>, b: seq<Habit>, name: string)
    ensures CountNamed(a + b, name) == CountNamed(a, name) + CountNamed(b, name)
  {
    if a != [] {
      assert (a + b)[1..] == a[1..] + b;
      CountNamedAppend(a[1..], b, name);
    } else {
      assert a + b == b;
    }
  }

  // --------------------------------------------------------------------- add

  /** Add does not look for an existing habit of the same name: a duplicate
      becomes one more, separate entry, and no other name's count moves. */
  lemma AddedDuplicates(list: seq<Habit>, name: string, other: string)
    ensures CountNamed(Added(list, name), name) == CountNamed(list, name) + 1
    ensures other != name ==> CountNamed(Added(list, name), other) == CountNamed(list, other)
  {
    CountNamedAppend(list, [Habit(name, false)], name);
    CountNamedAppend(list, [Habit(name, false)], other);
  }

  // ------------------------------------------------------------------ remove

  /** Remove acts on concatenations piecewise, so the survivors keep their
      original relative order. */
  lemma {:induction false} RemovedAppend(a: seq<Habit>, b: seq<Habit>, name: string)
    ensures Removed(a + b, name) == Removed(a, name) + Removed(b, name)
  {
    if a != [] {
      assert (a + b)[1..] == a[1..] + b;
      RemovedAppend(a[1..], b, name);
    } else {
      assert a + b == b;
    }
  }

  /** Remove drops every habit named `name` (not only the first) and keeps
      every other habit exactly as often as it occurred. */
  lemma {:induction false} RemovedOccurrences(list: seq<Habit>, name: string, h: Habit)
    ensures multiset(Removed(list, name))[h] == if h.name == name then 0 else multiset(list)[h]
  {
    if list != [] {
      RemovedOccurrences(list[1..], name, h);
      assert list == [list[0]] + list[1..];
    }
  }

  /** The list shrinks by exactly the number of habits named `name`. */
  lemma {:induction false} RemovedLength(list: seq<Habit>, name: string)
    ensures |Removed(list, name)| == |list| - CountNamed(list, name)
  {
    if list != [] {
      RemovedLength(list[1..], name);
    }
  }

  /** Removing a name that is not in the list leaves it unchanged. */
  lemma {:induction false} RemovedAbsent(list: seq<Habit>, name: string)
    requires name !in Names(list)
    ensures Removed(list, name) == list
  {
    if list != [] {
      assert Names(list) == [list[0].name] + Names(list[1..]);
      RemovedAbsent(list[1..], name);
    }
  }

  /** No habit named `name` survives a removal, so removing again changes
      nothing. */
  lemma RemovedIdempotent(list: seq<Habit>, name: string)
    ensures Removed(Removed(list, name), name) == Removed(list, name)
  {
    RemovedAbsent(Removed(list, name), name);
  }

  // ------------------------------------------------------------------ toggle

  /** Toggle keeps the names, and so the count of every name. */
  lemma ToggledNames(list: seq<Habit>, name: string)
    ensures Names(Toggled(list, name)) == Names(list)
  {
  }

  /** Toggling the same name twice restores the list. */
  lemma ToggledInvolution(list: seq<Habit>, name: string)
    ensures Toggled(Toggled(list, name), name) == list
  {
    var once := Toggled(list, name);
    var twice := Toggled(once, name);
    assert forall i :: 0 <= i < |list| ==> twice[i] == list[i];
  }

  /** Toggling a name that is not in the list leaves it unchanged. */
  lemma ToggledAbsent(list: seq<Habit>, name: string)
    requires name !in Names(list)
    ensures Toggled(list, name) == list
  {
    var r := Toggled(list, name);
    assert forall i :: 0 <= i < |list| ==> list[i].name == Names(list)[i];
    assert forall i :: 0 <= i < |list| ==> r[i] == list[i];
  }

  /** Toggles of two names commute. */
  lemma ToggledCommute(list: seq<Habit>, m: string, n: string)
    ensures Toggled(Toggled(list, m), n) == Toggled(Toggled(list, n), m)
  {
    var a := Toggled(Toggled(list, m), n);
    var b := Toggled(Toggled(list, n), m);
    assert forall i :: 0 <= i < |list| ==> a[i] == b[i];
  }

  /** Removing a name after toggling it is the same as removing it: the
      completion flags of the habits that survive are untouched. */
  lemma {:induction false} RemovedAfterToggled(list: seq<Habit>, name: string)
    ensures Removed(Toggled(list, name), name) == Removed(list, name)
  {
    if list != [] {
      var t := Toggled(list, name);
      assert t[1..] == Toggled(list[1..], name);
      RemovedAfterToggled(list[1..], name);
    }
  }
}
