/**
 * The submitter's machine list: `getMachinesInOrder` moves the chosen main machine to
 * the front of the Workers of the copycat group, and `setWorldSize` counts the
 * non-blank entries of the comma-joined list the user may have edited.
 */
module MachineOrder {
  import opened Text
  import opened Sequences

  /** Position of the first occurrence of `x` in `s`. */
  function FirstIndex<T(==)>(s: seq<T>, x: T): (k: nat)
    requires x in s
    ensures k < |s| && s[k] == x && x !in s[..k]
  {
    if s[0] == x then 0
    else
      var k := FirstIndex(s[1..], x) + 1;
      assert s[..k] == [s[0]] + s[1..][..k - 1];
      k
  }

  /** `list.remove(x)`: the first occurrence of `x` taken out. */
  function RemoveFirst<T(==)>(s: seq<T>, x: T): seq<T>
    decreases |s|
  {
    if |s| == 0 then []
    else if s[0] == x then s[1..]
    else [s[0]] + RemoveFirst(s[1..], x)
  }

  /** `remove` followed by `insert(0, x)` when `x` is listed; otherwise the list as it is. */
  function MoveToFront<T(==)>(s: seq<T>, x: T): seq<T> {
    if x in s then [x] + RemoveFirst(s, x) else s
  }

  /** The machine-list knob: `','.join(machines)`. */
  function MachineListText(machines: seq<string>): string {
    Join(machines, ',')
  }

  /** `machine.strip() != ""`. */
  predicate NonBlank(machine: string) {
    Strip(machine) != ""
  }

  function NonBlankTest(): string -> bool {
    machine => NonBlank(machine)
  }

  function BlankTest(): string -> bool {
    machine => !NonBlank(machine)
  }

  /** `setWorldSize`: the number of comma-separated entries that are not blank. */
  function NonBlankCount(machineList: string): nat {
    |Filter(Split(machineList, ','), NonBlankTest())|
  }

  // ---------------------------------------------------------------------------
  // Properties
  // ---------------------------------------------------------------------------

  /** Removing the first occurrence keeps everything before and after it, in order. */
  lemma {:induction false} RemoveFirstAt<T>(s: seq<T>, x: T)
    requires x in s
    ensures RemoveFirst(s, x) == s[..FirstIndex(s, x)] + s[FirstIndex(s, x) + 1..]
    decreases |s|
  {
    if s[0] != x {
      RemoveFirstAt(s[1..], x);
      var k := FirstIndex(s[1..], x);
      assert s[..k + 1] == [s[0]] + s[1..][..k];
      assert s[k + 2..] == s[1..][k + 1..];
    }
  }

  /**
   * With the main machine listed, it comes first and the other entries follow in
   * their old order with only its first occurrence removed; the result is a
   * permutation of the list. Without it, the list is unchanged.
   */
  lemma {:induction false} MoveToFrontShape<T>(s: seq<T>, x: T)
    ensures x !in s ==> MoveToFront(s, x) == s
    ensures x in s ==>
      var k := FirstIndex(s, x);
      && MoveToFront(s, x) == [x] + s[..k] + s[k + 1..]
      && multiset(MoveToFront(s, x)) == multiset(s)
  {
    if x in s {
      var k := FirstIndex(s, x);
      RemoveFirstAt(s, x);
      assert MoveToFront(s, x) == [x] + (s[..k] + s[k + 1..]);
      assert [x] + (s[..k] + s[k + 1..]) == [x] + s[..k] + s[k + 1..];
      PermutationAround(s, k);
    }
  }

  /** Taking out the element at `k` and putting it first is a permutation. */
  lemma PermutationAround<T>(s: seq<T>, k: nat)
    requires k < |s|
    ensures multiset([s[k]] + s[..k] + s[k + 1..]) == multiset(s)
  {
    assert s == s[..k] + [s[k]] + s[k + 1..];
  }

  /** Reordering an already reordered list changes nothing. */
  lemma MoveToFrontIdempotent<T>(s: seq<T>, x: T)
    ensures MoveToFront(MoveToFront(s, x), x) == MoveToFront(s, x)
  {
    if x in s {
      var r := [x] + RemoveFirst(s, x);
      assert r[0] == x && r[1..] == RemoveFirst(s, x);
    }
  }

  /**
   * The non-blank count never exceeds the raw field count the Worker uses, and the two
   * agree exactly when no field is blank.
   */
  lemma NonBlankCountBound(machineList: string)
    ensures NonBlankCount(machineList) <= |Split(machineList, ',')|
    ensures NonBlankCount(machineList) == |Split(machineList, ',')|
        <==> forall f :: f in Split(machineList, ',') ==> NonBlank(f)
  {
    var fields := Split(machineList, ',');
    FilterPartition(fields, NonBlankTest(), BlankTest());
    if NonBlankCount(machineList) == |fields| {
      forall f | f in fields ensures NonBlank(f) {
        FilterMember(fields, BlankTest(), f);
      }
    } else {
      var dropped := Filter(fields, BlankTest());
      assert |dropped| > 0;
      FilterMember(fields, BlankTest(), dropped[0]);
    }
  }

  /** An empty machine list has world size 0. */
  lemma EmptyListWorldSize()
    ensures NonBlankCount("") == 0
  {
    assert Split("", ',') == [""];
    assert !NonBlank("");
    assert Filter([""], NonBlankTest()) == [] by {
      assert [""][..0] == [];
    }
  }

  /** A blank entry between two machines is not counted: world size 2 of 3 fields. */
  lemma BlankEntryNotCounted(a: string, blank: string, b: string)
    requires ',' !in a && ',' !in blank && ',' !in b
    requires NonBlank(a) && !NonBlank(blank) && NonBlank(b)
    ensures |Split(a + "," + blank + "," + b, ',')| == 3
    ensures NonBlankCount(a + "," + blank + "," + b) == 2
  {
    SplitThree(a, blank, b);
    FilterThree(a, blank, b, NonBlankTest());
  }

  lemma SplitThree(a: string, d: string, b: string)
    requires ',' !in a && ',' !in d && ',' !in b
    ensures Split(a + "," + d + "," + b, ',') == [a, d, b]
  {
    var text := a + "," + d + "," + b;
    assert text == a + [','] + (d + [','] + b);
    SplitAfterField(a, d + [','] + b, ',');
    SplitAfterField(d, b, ',');
    SplitFree(b, ',');
  }

  lemma FilterThree<T>(a: T, d: T, b: T, keep: T -> bool)
    requires keep(a) && !keep(d) && keep(b)
    ensures Filter([a, d, b], keep) == [a, b]
  {
    assert [a, d, b][..2] == [a, d] && [a, d][..1] == [a] && [a][..0] == [];
    assert Filter([a], keep) == [a];
    assert Filter([a, d], keep) == [a];
  }

  /**
   * The list `getMachinesInOrder` writes, read back by `setWorldSize`, counts every
   * machine when the names are non-blank and hold no comma.
   */
  lemma WorldSizeOfWrittenList(machines: seq<string>)
    requires |machines| >= 1
    requires FreeOf(machines, ',')
    requires forall i :: 0 <= i < |machines| ==> NonBlank(machines[i])
    ensures NonBlankCount(MachineListText(machines)) == |machines|
  {
    SplitJoin(machines, ',');
    FilterAll(machines, NonBlankTest());
  }
}
