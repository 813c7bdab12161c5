/**
 * Example #2 of the playground: a lottery store keyed by `winningNumbers` and
 * `losingNumbers`, whose items are lists of integers.
 */
module Lottery {
  import opened Wrappers
  import opened KeyedStore

  /** The store's closed key set. */
  datatype DataKey = WinningNumbers | LosingNumbers

  const Winning: seq<seq<int>> := [[1, 7, 4], [1, 5, 7], [8, 2, 1]]
  const Losing: seq<seq<int>> := [[6, 4, 3], [2, 5, 7], [7, 6, 1]]

  /** The script's updates of the shared store: one assignment per key. */
  function Script(): seq<Step<DataKey, seq<int>>>
  {
    [ Write(WinningNumbers, Some(Winning)),
      Write(LosingNumbers, Some(Losing)) ]
  }

  /**
   * Assigning one key and then the other leaves each key holding exactly what
   * was assigned to it, whatever the two lists are: the second assignment does
   * not disturb the first.
   */
  lemma AssignmentsAreIndependent(m: map<DataKey, seq<seq<int>>>, winning: seq<seq<int>>, losing: seq<seq<int>>)
    ensures var steps := [Write(WinningNumbers, Some(winning)), Write(LosingNumbers, Some(losing))];
            CanRun(m, steps) && Run(m, steps) == map[WinningNumbers := winning, LosingNumbers := losing]
  {
    var steps := [Write(WinningNumbers, Some(winning)), Write(LosingNumbers, Some(losing))];
    var m1 := Apply(m, steps[0]);
    var m2 := Apply(m1, steps[1]);
    var expected := map[WinningNumbers := winning, LosingNumbers := losing];
    forall k ensures Lookup(m2, k) == Lookup(expected, k) {
      if k == WinningNumbers {
        assert Lookup(m1, k) == Some(winning);
      }
    }
    assert m2.Keys == expected.Keys by {
      assert forall k :: k in m2 <==> Lookup(m2, k).Some?;
    }
    assert m2 == expected;
    assert steps[1..][1..] == [];
    assert Run(m1, steps[1..]) == Run(m2, []) == m2;
  }

  /** The script does not trap and leaves each key with its own three lists. */
  lemma ScriptOutcome()
    ensures CanRun(map[], Script())
    ensures Run(map[], Script()) == map[WinningNumbers := Winning, LosingNumbers := Losing]
  {
    AssignmentsAreIndependent(map[], Winning, Losing);
  }

  /**
   * The script run on one store object; the reads are in the order they are
   * printed, and each force-unwrap is a read of `.value`.
   */
  method Replay() returns (losing: seq<seq<int>>, winning: seq<seq<int>>,
                           finalData: map<DataKey, seq<seq<int>>>)
    ensures losing == Losing
    ensures winning == Winning
    ensures |losing| == |winning| == 3
    ensures CanRun(map[], Script()) && finalData == Run(map[], Script())
  {
    var shared := new Store<DataKey, seq<int>>();
    shared.Set(WinningNumbers, Some(Winning));
    shared.Set(LosingNumbers, Some(Losing));
    ScriptOutcome();
    finalData := shared.data;
    var read := shared.Get(LosingNumbers);
    losing := read.value;
    read := shared.Get(WinningNumbers);
    winning := read.value;
  }
}
