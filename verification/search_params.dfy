/** The part of the URL standard's `URLSearchParams` the search box uses: an
    ordered list of name/value pairs, read with `get` and updated with
    `set`. */
module SearchParams {
  import opened Wrappers

  datatype Param = Param(name: string, value: string)

  /** `get(name)`: the value of the first pair with that name. */
  function Get(ps: seq<Param>, name: string): Option<string> {
    if |ps| == 0 then None
    else if ps[0].name == name then Some(ps[0].value)
    else Get(ps[1..], name)
  }

  /** The pairs whose name is not in `names`, in order. */
  function Drop(ps: seq<Param>, names: set<string>): seq<Param> {
    if |ps| == 0 then []
    else if ps[0].name in names then Drop(ps[1..], names)
    else [ps[0]] + Drop(ps[1..], names)
  }

  /** How many pairs carry `name`. */
  function Count(ps: seq<Param>, name: string): nat {
    if |ps| == 0 then 0
    else (if ps[0].name == name then 1 else 0) + Count(ps[1..], name)
  }

  /** `set(name, value)`: the first pair with that name takes the value and
      the later ones are removed; with no such pair, one is appended. */
  function Set(ps: seq<Param>, name: string, value: string): (r: seq<Param>)
    ensures Get(r, name) == Some(value)
    ensures Count(r, name) == 1
    ensures Drop(r, {name}) == Drop(ps, {name})
    ensures Count(ps, name) == 0 ==> r == ps + [Param(name, value)]
  {
    if |ps| == 0 then [Param(name, value)]
    else if ps[0].name == name then
      var rest := Drop(ps[1..], {name});
      DropRemovesAll(ps[1..], name);
      DropIsIdempotent(ps[1..], {name});
      [Param(name, value)] + rest
    else
      var r := [ps[0]] + Set(ps[1..], name, value);
      assert r[1..] == Set(ps[1..], name, value);
      r
  }

  /** When `name` is present, `set` overwrites its first pair in place:
      everything before it is untouched and later pairs with that name are
      removed. */
  lemma {:induction false} SetInPlace(ps: seq<Param>, name: string, value: string, i: nat)
    requires i < |ps| && ps[i].name == name
    requires forall j :: 0 <= j < i ==> ps[j].name != name
    ensures Set(ps, name, value) == ps[..i] + [Param(name, value)] + Drop(ps[i + 1..], {name})
  {
    if i > 0 {
      SetInPlace(ps[1..], name, value, i - 1);
      assert ps[1..][..i - 1] == ps[1..i];
      assert ps[1..][i..] == ps[i + 1..];
      assert ps[..i] == [ps[0]] + ps[1..i];
    }
  }

  lemma {:induction false} DropRemovesAll(ps: seq<Param>, name: string)
    ensures Count(Drop(ps, {name}), name) == 0
    ensures Get(Drop(ps, {name}), name) == None
  {
    if |ps| > 0 {
      DropRemovesAll(ps[1..], name);
      if ps[0].name != name {
        assert ([ps[0]] + Drop(ps[1..], {name}))[1..] == Drop(ps[1..], {name});
      }
    }
  }

  lemma {:induction false} DropIsIdempotent(ps: seq<Param>, names: set<string>)
    ensures Drop(Drop(ps, names), names) == Drop(ps, names)
  {
    if |ps| > 0 {
      DropIsIdempotent(ps[1..], names);
      if ps[0].name !in names {
        assert ([ps[0]] + Drop(ps[1..], names))[1..] == Drop(ps[1..], names);
      }
    }
  }

  /** Dropping a larger set of names after a smaller one is dropping the
      larger set. */
  lemma {:induction false} DropAbsorbs(ps: seq<Param>, small: set<string>, large: set<string>)
    requires small <= large
    ensures Drop(Drop(ps, small), large) == Drop(ps, large)
  {
    if |ps| > 0 {
      DropAbsorbs(ps[1..], small, large);
      if ps[0].name !in small {
        assert ([ps[0]] + Drop(ps[1..], small))[1..] == Drop(ps[1..], small);
      }
    }
  }

  /** `set` leaves every pair under another name where it was: whatever set
      of names containing `name` is dropped, the two lists agree. */
  lemma SetFrame(ps: seq<Param>, name: string, value: string, names: set<string>)
    requires name in names
    ensures Drop(Set(ps, name, value), names) == Drop(ps, names)
  {
    DropAbsorbs(Set(ps, name, value), {name}, names);
    DropAbsorbs(ps, {name}, names);
  }

  lemma {:induction false} GetIgnoresDroppedNames(ps: seq<Param>, names: set<string>, other: string)
    requires other !in names
    ensures Get(Drop(ps, names), other) == Get(ps, other)
  {
    if |ps| > 0 {
      GetIgnoresDroppedNames(ps[1..], names, other);
      if ps[0].name !in names {
        assert ([ps[0]] + Drop(ps[1..], names))[1..] == Drop(ps[1..], names);
      }
    }
  }

  /** `set` changes what `get` answers for no other name. */
  lemma SetKeepsOtherNames(ps: seq<Param>, name: string, value: string, other: string)
    requires other != name
    ensures Get(Set(ps, name, value), other) == Get(ps, other)
  {
    GetIgnoresDroppedNames(Set(ps, name, value), {name}, other);
    GetIgnoresDroppedNames(ps, {name}, other);
  }
}
