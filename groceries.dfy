/**
 * Example #1 of the playground: a grocery list store keyed by `fruits` and
 * `vegetables`, whose items are fruits and vegetables.
 */
module Groceries {
  import opened Wrappers
  import opened KeyedStore

  /** The store's closed key set. */
  datatype DataKey = Fruits | Vegetables

  /**
   * An item of the store. Both kinds carry a price and a name; prices are
   * whole cents rather than floating-point amounts.
   */
  datatype Grocery =
    | Fruit(price: int, name: string, sweetness: int)
    | Vegetable(price: int, name: string, hasCarbs: bool)

  const Banana: Grocery := Fruit(90, "Banana", 8)
  const Kiwi: Grocery := Fruit(130, "Kiwi", 8)
  const Cucumber: Grocery := Vegetable(40, "Cucumber", false)

  /** The script's updates of the shared store: two assignments, then removing the first fruit. */
  function Script(): seq<Step<DataKey, Grocery>>
  {
    [ Write(Fruits, Some([Banana, Kiwi])),
      Write(Vegetables, Some([Cucumber])),
      Remove(Fruits, 0) ]
  }

  /** The script does not trap and leaves `[Kiwi]` under fruits and `[Cucumber]` under vegetables. */
  lemma ScriptOutcome()
    ensures CanRun(map[], Script())
    ensures Run(map[], Script()) == map[Fruits := [Kiwi], Vegetables := [Cucumber]]
  {
    var m1 := Apply(map[], Script()[0]);
    var m2 := Apply(m1, Script()[1]);
    assert m2 == map[Fruits := [Banana, Kiwi], Vegetables := [Cucumber]];
    assert RemoveAtSeq([Banana, Kiwi], 0) == [Kiwi];
    var m3 := Apply(m2, Script()[2]);
    assert m3 == map[Fruits := [Kiwi], Vegetables := [Cucumber]];
    assert Script()[1..][1..][1..] == [];
    assert CanRun(m3, []);
    assert CanRun(m2, Script()[1..][1..]);
    assert CanRun(m1, Script()[1..]);
  }

  /**
   * The script run on one store object. Each force-unwrap in the Swift script is a
   * read of `.value`, which is only defined when the read is not `nil`.
   */
  method Replay() returns (fruitsBefore: seq<Grocery>, removed: Option<Grocery>,
                           fruitsAfter: seq<Grocery>, vegetables: seq<Grocery>,
                           finalData: map<DataKey, seq<Grocery>>)
    ensures fruitsBefore == [Banana, Kiwi]
    ensures removed == Some(Banana)
    ensures fruitsAfter == [Kiwi]
    ensures vegetables == [Cucumber]
    ensures CanRun(map[], Script()) && finalData == Run(map[], Script())
  {
    var shared := new Store<DataKey, Grocery>();
    shared.Set(Fruits, Some([Banana, Kiwi]));
    shared.Set(Vegetables, Some([Cucumber]));
    var read := shared.Get(Fruits);
    fruitsBefore := read.value;
    removed := shared.RemoveAt(Fruits, 0);
    ScriptOutcome();
    finalData := shared.data;
    read := shared.Get(Fruits);
    fruitsAfter := read.value;
    read := shared.Get(Vegetables);
    vegetables := read.value;
  }
}
