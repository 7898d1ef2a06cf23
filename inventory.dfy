/**
  * `get_inventory_dict` (listener.py): the player's stacks folded into a
  * dictionary from simple item name to total count.
  */
module Inventory {
  import opened Wrappers
  import opened BlockIds

  /** One inventory stack as the game reports it; the count may be missing. */
  datatype Stack = Stack(item: string, count: Option<int>)

  /** The dictionary key of a stack: the item id without the namespace. */
  function StackName(s: Stack): string {
    SimpleName(s.item)
  }

  /** The count of a stack, 1 when the stack carries none. */
  function StackCount(s: Stack): int {
    if s.count.Some? then s.count.value else 1
  }

  /**
    * The dictionary after folding in `stacks`, the last stack last: the
    * last stack's name is always one of its keys.
    */
  function Tally(stacks: seq<Stack>): (inv: map<string, int>)
    ensures stacks != [] ==> StackName(stacks[|stacks| - 1]) in inv
    decreases |stacks|
  {
    if stacks == [] then map[] else Add(Tally(stacks[..|stacks| - 1]), stacks[|stacks| - 1])
  }

  /**
    * One iteration of the loop in `get_inventory_dict`: the stack's count
    * (1 when it has none) added to the entry of its simple name, which
    * starts from 0.
    */
  function Add(m: map<string, int>, s: Stack): map<string, int> {
    var itemName := SimpleName(s.item);
    var count := if s.count.Some? then s.count.value else 1;
    m[itemName := (if itemName in m then m[itemName] else 0) + count]
  }

  /** The names of the stacks. */
  function Names(stacks: seq<Stack>): set<string> {
    set s | s in stacks :: StackName(s)
  }

  /** The sum of the counts of the stacks called `name`. */
  function SumFor(stacks: seq<Stack>, name: string): int
    decreases |stacks|
  {
    if stacks == [] then 0
    else
      var s := stacks[|stacks| - 1];
      SumFor(stacks[..|stacks| - 1], name) + (if StackName(s) == name then StackCount(s) else 0)
  }

  /** The sum of the counts of all stacks. */
  function TotalCount(stacks: seq<Stack>): int
    decreases |stacks|
  {
    if stacks == [] then 0 else TotalCount(stacks[..|stacks| - 1]) + StackCount(stacks[|stacks| - 1])
  }

  /** Some key of a non-empty map. */
  ghost function PickKey(m: map<string, int>): (k: string)
    requires m != map[]
    ensures k in m
  {
    assert exists k :: k in m.Keys by {
      assert m.Keys != {};
    }
    var k :| k in m.Keys; k
  }

  /** The sum of the values of a map. */
  ghost function MapSum(m: map<string, int>): int
    decreases |m|
  {
    if m == map[] then 0
    else
      var k := PickKey(m);
      assert |m - {k}| < |m| by {
        assert (m - {k}).Keys + {k} == m.Keys;
      }
      m[k] + MapSum(m - {k})
  }

  /** The sum of a map is any one value plus the sum of the rest. */
  lemma {:induction false} MapSumRemove(m: map<string, int>, k: string)
    requires k in m
    ensures MapSum(m) == m[k] + MapSum(m - {k})
    decreases |m|
  {
    var j := PickKey(m);
    if j != k {
      assert |m - {j}| < |m| by {
        assert (m - {j}).Keys + {j} == m.Keys;
      }
      assert |m - {k}| < |m| by {
        assert (m - {k}).Keys + {k} == m.Keys;
      }
      MapSumRemove(m - {j}, k);
      MapSumRemove(m - {k}, j);
      assert m - {j} - {k} == m - {k} - {j};
    }
  }

  /** Updating one key changes the sum by the difference of the new and the old value. */
  lemma MapSumUpdate(m: map<string, int>, k: string, v: int)
    ensures MapSum(m[k := v]) == MapSum(m) - (if k in m then m[k] else 0) + v
  {
    MapSumRemove(m[k := v], k);
    assert m[k := v] - {k} == m - {k};
    if k in m {
      MapSumRemove(m, k);
    } else {
      assert m - {k} == m;
    }
  }

  /** The keys of the dictionary are exactly the simple names of the stacks. */
  lemma {:induction false} TallyKeys(stacks: seq<Stack>)
    ensures Tally(stacks).Keys == Names(stacks)
    decreases |stacks|
  {
    if stacks != [] {
      var init := stacks[..|stacks| - 1];
      TallyKeys(init);
      TallySnoc(stacks);
      NamesSnoc(stacks);
    }
  }

  /** The dictionary has no more entries than there are stacks. */
  lemma {:induction false} TallySize(stacks: seq<Stack>)
    ensures |Tally(stacks)| <= |stacks|
    decreases |stacks|
  {
    if stacks != [] {
      TallySize(stacks[..|stacks| - 1]);
      TallySnoc(stacks);
    }
  }

  /** Each value of the dictionary is the sum of the counts of the stacks of that name. */
  lemma {:induction false} TallyValues(stacks: seq<Stack>, name: string)
    requires name in Tally(stacks)
    ensures Tally(stacks)[name] == SumFor(stacks, name)
    decreases |stacks|
  {
    var init := stacks[..|stacks| - 1];
    var last := stacks[|stacks| - 1];
    TallySnoc(stacks);
    if name in Tally(init) {
      TallyValues(init, name);
    } else if StackName(last) == name {
      SumForAbsent(init, name);
    }
  }

  /** A name that is not a key has no stacks. */
  lemma {:induction false} SumForAbsent(stacks: seq<Stack>, name: string)
    requires name !in Tally(stacks)
    ensures SumFor(stacks, name) == 0
    decreases |stacks|
  {
    if stacks != [] {
      SumForAbsent(stacks[..|stacks| - 1], name);
    }
  }

  /** No count is lost or invented: the values add up to the counts of all stacks. */
  lemma {:induction false} TallyTotal(stacks: seq<Stack>)
    ensures MapSum(Tally(stacks)) == TotalCount(stacks)
    decreases |stacks|
  {
    if stacks != [] {
      var init := stacks[..|stacks| - 1];
      TallySnoc(stacks);
      TotalSnoc(stacks);
      TallyTotal(init);
      MapSumAdd(Tally(init), stacks[|stacks| - 1]);
    }
  }

  /** Folding in a stack adds its count to the sum of the values. */
  lemma MapSumAdd(m: map<string, int>, s: Stack)
    ensures MapSum(Add(m, s)) == MapSum(m) + StackCount(s)
  {
    var name := StackName(s);
    MapSumUpdate(m, name, (if name in m then m[name] else 0) + StackCount(s));
  }

  /** Folding in the last stack. */
  lemma TallySnoc(stacks: seq<Stack>)
    requires stacks != []
    ensures Tally(stacks) == Add(Tally(stacks[..|stacks| - 1]), stacks[|stacks| - 1])
  {
  }

  /** One step of the loop in `GetInventoryDict`: the prefix one stack longer. */
  lemma TallyPrefix(stacks: seq<Stack>, i: nat)
    requires i < |stacks|
    ensures Tally(stacks[..i + 1]) == Add(Tally(stacks[..i]), stacks[i])
  {
    var seen := stacks[..i + 1];
    assert seen[..i] == stacks[..i] && seen[i] == stacks[i];
    TallySnoc(seen);
  }

  lemma NamesSnoc(stacks: seq<Stack>)
    requires stacks != []
    ensures Names(stacks) == Names(stacks[..|stacks| - 1]) + {StackName(stacks[|stacks| - 1])}
  {
    assert stacks == stacks[..|stacks| - 1] + [stacks[|stacks| - 1]];
  }

  lemma TotalSnoc(stacks: seq<Stack>)
    requires stacks != []
    ensures TotalCount(stacks) == TotalCount(stacks[..|stacks| - 1]) + StackCount(stacks[|stacks| - 1])
  {
  }

  /**
    * What the dictionary means: one key per simple name, each value the sum
    * of that name's counts, and the values adding up to all the counts.
    */
  lemma TallyMeaning(stacks: seq<Stack>)
    ensures Tally(stacks).Keys == Names(stacks)
    ensures forall name :: name in Tally(stacks) ==> Tally(stacks)[name] == SumFor(stacks, name)
    ensures MapSum(Tally(stacks)) == TotalCount(stacks)
  {
    TallyKeys(stacks);
    TallyTotal(stacks);
    forall name | name in Tally(stacks)
      ensures Tally(stacks)[name] == SumFor(stacks, name)
    {
      TallyValues(stacks, name);
    }
  }

  /**
    * `get_inventory_dict`: one pass over the stacks, adding each count to
    * the entry of its simple name.
    */
  method GetInventoryDict(stacks: seq<Stack>) returns (inv: map<string, int>)
    ensures inv == Tally(stacks)
    ensures inv.Keys == Names(stacks)
    ensures forall name :: name in inv ==> inv[name] == SumFor(stacks, name)
    ensures MapSum(inv) == TotalCount(stacks)
  {
    inv := map[];
    for i := 0 to |stacks|
      invariant inv == Tally(stacks[..i])
    {
      TallyPrefix(stacks, i);
      inv := Add(inv, stacks[i]);
    }
    assert stacks[..|stacks|] == stacks;
    TallyMeaning(stacks);
  }
}
