/** The names of the steps that changed a text, each once, in the order they first did. */
module StepNames {

  function Add(applied: seq<string>, name: string): seq<string> {
    if name in applied then applied else applied + [name]
  }

  function AddAll(applied: seq<string>, more: seq<string>): seq<string>
    decreases |more|
  {
    if more == [] then applied else AddAll(Add(applied, more[0]), more[1..])
  }

  lemma AddAllKeeps(applied: seq<string>, more: seq<string>)
    ensures AddAll(applied, more) == [] ==> applied == [] && more == []
    ensures forall name :: name in AddAll(applied, more) <==> name in applied || name in more
    decreases |more|
  {
    if more != [] {
      assert more == [more[0]] + more[1..];
      AddAllKeeps(Add(applied, more[0]), more[1..]);
    }
  }

  /** Where a name first stands. */
  predicate IsFirst(names: seq<string>, k: nat, name: string) {
    k < |names| && names[k] == name && name !in names[..k]
  }

  lemma {:induction false} AddAllSnoc(applied: seq<string>, more: seq<string>, name: string)
    ensures AddAll(applied, more + [name]) == Add(AddAll(applied, more), name)
    decreases |more|
  {
    if more == [] {
      assert (more + [name])[1..] == [];
    } else {
      assert (more + [name])[1..] == more[1..] + [name];
      AddAllSnoc(Add(applied, more[0]), more[1..], name);
    }
  }

  lemma {:induction false} AddAllMore(applied: seq<string>, more: seq<string>, rest: seq<string>)
    ensures AddAll(AddAll(applied, more), rest) == AddAll(applied, more + rest)
    decreases |more|
  {
    if more == [] {
      assert more + rest == rest;
    } else {
      assert (more + rest)[1..] == more[1..] + rest;
      AddAllMore(Add(applied, more[0]), more[1..], rest);
    }
  }

  /** Each name once, in the order in which the names first appear. */
  lemma {:induction false} InOrderOfAppearance(more: seq<string>)
    ensures var all := AddAll([], more);
      && (forall name :: name in all <==> name in more)
      && forall i, j, k, l :: 0 <= i < j < |all| && IsFirst(more, k, all[i]) && IsFirst(more, l, all[j]) ==> k < l
    decreases |more|
  {
    if more != [] {
      var n := |more| - 1;
      var front, name := more[..n], more[n];
      assert more == front + [name];
      InOrderOfAppearance(front);
      AddAllSnoc([], front, name);
      var all := AddAll([], more);
      forall i, j, k: nat, l: nat | 0 <= i < j < |all| && IsFirst(more, k, all[i]) && IsFirst(more, l, all[j]) ensures k < l {
        assert k < n ==> front[..k] == more[..k] && IsFirst(front, k, all[i]);
        assert l < n ==> front[..l] == more[..l] && IsFirst(front, l, all[j]);
        assert all[i] in AddAll([], front);
      }
    }
  }

  method Union(steps: seq<string>, more: seq<string>) returns (applied: seq<string>)
    ensures applied == AddAll(steps, more)
  {
    applied := steps;
    for i := 0 to |more|
      invariant AddAll(applied, more[i..]) == AddAll(steps, more)
    {
      assert more[i..][1..] == more[i + 1..];
      if more[i] !in applied {
        applied := applied + [more[i]];
      }
    }
  }
}
