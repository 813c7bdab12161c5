# Keyed data store (Swift playground), modelled in Dafny

The playground `GroceriesDataStorePlayground.playground/Contents.swift` shows one
pattern twice. A store class has a single `shared` instance and a mutable
`data` dictionary. The dictionary maps a closed two-case key enum to an array,
and a subscript reads and writes it by key. Assigning `nil` through the
subscript removes the key. Callers remove an element through optional chaining,
`shared[.fruits]?.remove(at: 0)`. This is a no-op when the key holds `nil` and a
trap when the index is out of range.

The model has four modules:

- `Wrappers` (`wrappers.dfy`): `Option`, Swift's optional.
- `KeyedStore` (`keyed_store.dfy`) has two parts.
  - Value functions for the dictionary: `Lookup` (subscript read), `Assign` (subscript write; `None` removes), `RemoveAtSeq` (`Array.remove(at:)`) and `RemoveAtKey` (the optional-chained removal).
  - A script is modelled as a sequence of `Step`s run by `Run`.
  - The generic class `Store<K, V>` has the field `data: map<K, seq<V>>`. Its methods are `Get`, `Set` and `RemoveAt`. `GroceriesListStorage` (lines 56-80) and `WinningLotteryNumbersStorage` (lines 105-127) have identical bodies, so both are this one class at different types.
- `Groceries` (`groceries.dfy`): the `fruits`/`vegetables` key enum, the `Fruit`/`Vegetable` items as one sum type `Grocery`, and the script of lines 82-93.
- `Lottery` (`lottery.dfy`): the `winningNumbers`/`losingNumbers` key enum, with `seq<int>` items, and the script of lines 130-134.

The code has no error results. On a `nil` key the optional chain does nothing, and an out-of-range `remove(at:)` traps. The model follows this: a missing key is a no-op, and the index bound is a `requires`.

## Model

| member | source | states |
|---|---|---|
| `KeyedStore.Assign` | GroceriesDataStorePlayground.playground/Contents.swift:76-78 | reading the assigned key gives exactly the assigned optional array, so `nil` removes the key; every other key reads as before; the key set gains or loses only that key |
| `KeyedStore.RemoveAtSeq` | GroceriesDataStorePlayground.playground/Contents.swift:90 | removing index `i` from an array of length n (`i < n` required, as `remove(at:)` traps otherwise) leaves n-1 elements: those before `i` unchanged, those after `i` shifted down by one in their order |
| `KeyedStore.RemoveAtSeqMultiset` | GroceriesDataStorePlayground.playground/Contents.swift:90 | the removed element plus the remaining array are exactly the old array's elements: nothing is lost or duplicated |
| `KeyedStore.RemoveAtSeqReinsert` | GroceriesDataStorePlayground.playground/Contents.swift:90 | inserting the removed element back at index `i` restores the old array (the inverse of removal) |
| `KeyedStore.RemoveAtKey` | GroceriesDataStorePlayground.playground/Contents.swift:90 | `m[k]?.remove(at: i)` leaves the dictionary unchanged when `k` holds `nil`; otherwise `k` holds the array with element `i` removed; other keys and the key set are unchanged |
| `KeyedStore.Apply` | GroceriesDataStorePlayground.playground/Contents.swift:86-90 | one script statement changes nothing under any key but its own, and an assignment leaves its key reading the assigned value |
| `KeyedStore.RunFrame` | GroceriesDataStorePlayground.playground/Contents.swift:130-131 | a whole script leaves every key that none of its statements names reading as before (the single-assignment case, that writing one key leaves the other unchanged, is the frame clause of `KeyedStore.Assign` and `Lottery.AssignmentsAreIndependent`) |
| `KeyedStore.NeverAssignedReadsNil` | GroceriesDataStorePlayground.playground/Contents.swift:70-74 | since `data` starts empty, a key that no statement of a script names reads `nil` afterwards |
| `KeyedStore.Store.constructor` | GroceriesDataStorePlayground.playground/Contents.swift:70 | a new store's `data` is the empty dictionary |
| `KeyedStore.Store.Get` | GroceriesDataStorePlayground.playground/Contents.swift:72-74 | the subscript getter returns the array stored under the key, and `nil` exactly when the key is absent; nothing changes |
| `KeyedStore.Store.Set` | GroceriesDataStorePlayground.playground/Contents.swift:76-78 | the subscript setter makes `data` the old dictionary with `Assign` applied (replace the array wholesale, or remove the key on `nil`) |
| `KeyedStore.Store.RemoveAt` | GroceriesDataStorePlayground.playground/Contents.swift:90 | the optional-chained removal updates `data` as `RemoveAtKey` says; the chain's value is the removed element, or `nil` when the key was absent; the index must be in range when the key is present |
| `Groceries.ScriptOutcome` | GroceriesDataStorePlayground.playground/Contents.swift:86-90 | the grocery script does not trap, and it leaves `[Kiwi]` under fruits and `[Cucumber]` under vegetables |
| `Groceries.Replay` | GroceriesDataStorePlayground.playground/Contents.swift:82-93 | on one store object the reads at lines 89, 91 and 93 are non-`nil` (the force-unwraps succeed) and give `[Banana, Kiwi]`, `[Kiwi]` and `[Cucumber]`; the removal yields `Banana`; the store's final `data`, returned as `finalData`, is what `Run` computes for the script |
| `Lottery.AssignmentsAreIndependent` | GroceriesDataStorePlayground.playground/Contents.swift:123-125 | assigning the winning key and then the losing key, from any starting dictionary and with any lists, leaves exactly those two lists, each under its own key |
| `Lottery.ScriptOutcome` | GroceriesDataStorePlayground.playground/Contents.swift:130-131 | the lottery script leaves each key holding its own three lists |
| `Lottery.Replay` | GroceriesDataStorePlayground.playground/Contents.swift:130-134 | on one store object both force-unwrapped reads succeed and return the losing and the winning lists, three each, as assigned; the store's final `data`, returned as `finalData`, is what `Run` computes for the script |

## Left out

- `import UIKit` and every `print` (lines 3, 89-93, 133-134): console output only. The printed reads are kept as the replay methods' results.
- The `description` properties of `Fruit` and `Vegetable` (lines 29-31, 38-40): they format `Double` prices into strings. Prices are whole cents (`int`) in the model, and nothing is formatted.
- The `Singleton` and `DataStorage` protocols with their associated types (lines 6-15): type-level machinery that the generic class `Store<K, V>` stands for.
- The lazy, thread-safe initialisation of `static var shared` (lines 58, 107): each replay method allocates one store object and runs every script statement on it. There is no global state and no concurrency.
- Swift `Int` is 64 bits wide. The lottery numbers are small literals, so the model uses unbounded `int`.
- The enum raw strings (`"fruits"`, `"veggies"`, `"winning"`, `"losing"`, lines 61-64 and 109-112): nothing reads them.
- Removal by object equality, which the comment at line 90 mentions, is never implemented.
- The `sweetness` range "1 - 10" (line 27) is only a comment, so it is not enforced.
- Copy-on-write: `remove(at:)` mutates a copy of the array obtained from the getter, and the setter writes it back. Dafny sequences (`seq`) are values, so the model does no in-place update of a shared buffer.
