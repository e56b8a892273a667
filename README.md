# Design patterns in Rust: Observer, Strategy and the demo registry

This project models the demos of a small Rust crate that shows two
object-oriented patterns. It also proves properties of the model.

- **Observer** (`src/patterns/observer.rs`, module `Observer`). A `WeatherData`
  subject keeps an ordered list of observers and three readings
  (temperature, humidity, pressure). `set_measurements` overwrites the
  readings and pushes them to every observer in list order. The one observer
  kind, `CurrentConditionsDisplay`, stores temperature and humidity and prints
  them.
- **Strategy** (`src/patterns/strategy.rs`, module `Strategy`). A `Duck`
  delegates flying and quacking to behaviours held in two replaceable slots.
  A `DuckCall`'s behaviours are fixed by the types of its fields.
- **Strategy puzzle** (`src/puzzles/strategy_puzzle.rs`, module
  `StrategyPuzzle`). A `Character` fights with whatever weapon it holds and
  can be handed another one.
- **Registry** (`src/lib.rs`, module `DesignPatterns`). `App::new` fills a
  pattern registry and a puzzle registry. `run` picks one registry by the
  puzzle flag, looks the name up, and either runs the demo it finds and
  returns `Ok(())` or returns `Err("Pattern not found")`.

How the model represents the source:

- An observer is its identity, an `ObserverId`. The source compares
  observers by pointer identity (`Rc::ptr_eq`).
- The display objects live in a `Displays` object. It maps each identity to
  that display's state. It also holds the log of every `update` call, as
  `Notification(observer, readings)`, and the lines the displays printed.
  The subject's notifying methods take this object as a parameter.
- The subject's list holds the observer objects themselves, so every entry
  is a live display. The model keeps this as the invariant
  `Displays.Covers(subject)`.
- Readings are `real`. The source's `f32` values are only copied, never
  computed on.
- Each `println!` becomes a line appended to a log. A demo's run returns the
  sequence of lines it prints. A display line is represented by the
  `Conditions` value it shows, which is the display's stored state.

What the code does, and the model with it:

- `add_observer` appends without a duplicate check. Adding an observer twice
  gives two entries and two updates per round
  (`Observer.SubscribedTwiceUpdatedTwice`).
- Observers get the readings as `update` arguments. They do not read them
  back from the subject.
- Every list entry is a shared owning handle to an observer, so notification
  reaches every entry; none is skipped.
- `CurrentConditionsDisplay` is the only observer type.

## Model

| member | source | states |
|---|---|---|
| `Observer.WeatherData.constructor` | src/patterns/observer.rs:20-27 | a new subject has no observers and all three readings are zero |
| `Observer.WeatherData.SetMeasurements` | src/patterns/observer.rs:28-33 | the readings become exactly `(t, h, p)`, the list is unchanged, and exactly one round follows: the log grows by one update per entry in list order with the new readings, and one line is printed per entry. No display is created. Equal old and new readings still notify |
| `Observer.WeatherData.MeasurementsChanged` | src/patterns/observer.rs:34-36 | runs one notification round with the current readings and leaves the subject unchanged |
| `Observer.WeatherData.AddObserver` | src/patterns/observer.rs:40-42 | the list becomes the old list plus `o` at the end, even when `o` is already in it |
| `Observer.WeatherData.RemoveObserver` | src/patterns/observer.rs:44-46 | the list becomes `Removed(old list, o)`. The loop keeps exactly the entries not identical to `o`, in order |
| `Observer.WeatherData.NotifyObservers` | src/patterns/observer.rs:48-54 | each entry gets one `update` with the current readings, in list order. Displays end as `Delivered` says and print `RoundLines`. No display is created. The subject's list and readings are unchanged |
| `Observer.Round` | src/patterns/observer.rs:48-54 | a round has exactly one call per list entry; call `i` goes to entry `i` with the subject's readings; an empty list gives no calls |
| `Observer.Delivered` | src/patterns/observer.rs:49-53 | after a round, every listed display shows the new temperature and humidity; every other display keeps its state |
| `Observer.Removed` | src/patterns/observer.rs:45 | an identity is kept iff it was present and differs from `o`; each other identity keeps its count and `o`'s count becomes zero; removing an absent observer changes nothing |
| `Observer.RemovedAppend` | src/patterns/observer.rs:45 | removal distributes over concatenation, so the kept entries stay in their original relative order |
| `Observer.RemovedIsNeverNotified` | src/patterns/observer.rs:44-54 | after removal, no later round reaches the removed observer |
| `Observer.RoundAppend` | src/patterns/observer.rs:40-54 | notification order is subscription order: a round over `a + b` is the round over `a` followed by the round over `b` |
| `Observer.SubscribedTwiceUpdatedTwice` | src/patterns/observer.rs:40-42 | an observer added twice gets two updates per round, one after the other |
| `Observer.Displays.Update` | src/patterns/observer.rs:71-84 | the display stores the given temperature and humidity and ignores pressure. One call is logged. It then prints the state it now holds |
| `Observer.Displays.NewDisplay` | src/patterns/observer.rs:89-99 | a new display starts at zero and was not on the list before. It subscribes itself, so the list grows by exactly one entry, its own identity. Every entry stays a live display, and nothing else changes |
| `Observer.RoundLines` | src/patterns/observer.rs:48-54 | a round prints one line per list entry, and each line shows the round's temperature and humidity |
| `Observer.RoundLinesShowStoredState` | src/patterns/observer.rs:80-84 | each line a round prints is the stored state that entry's display holds once the round is over |
| `Observer.MeasureThreeTimes` | src/patterns/observer.rs:120-122 | with one subscribed display, the three measurements give three updates, with the readings in the order they were set, and print `(80, 65)`, `(82, 70)`, `(78, 90)` |
| `Observer.RunScenario` | src/patterns/observer.rs:113-123 | the demo prints `(80, 65)`, `(82, 70)`, `(78, 90)` in that order |
| `Strategy.LinesIdentifyBehaviors` | src/patterns/strategy.rs:10-42 | each behaviour prints its own line. The swim line differs from all of them |
| `Strategy.Duck.constructor` | src/patterns/strategy.rs:95-98 | a duck holds exactly the two behaviours it is built with |
| `Strategy.Duck.Fly` | src/patterns/strategy.rs:50-52 | prints the line of whatever the fly slot holds now |
| `Strategy.Duck.Quack` | src/patterns/strategy.rs:53-55 | prints the line of whatever the quack slot holds now |
| `Strategy.Duck.Swim` | src/patterns/strategy.rs:56-58 | prints the swim line, whatever either slot holds |
| `Strategy.Duck.SetFlyBehavior` | src/patterns/strategy.rs:103 | replaces the fly slot; the quack slot is unchanged |
| `Strategy.Duck.SetQuackBehavior` | src/patterns/strategy.rs:109 | replaces the quack slot; the fly slot is unchanged, and so is its output |
| `Strategy.DuckCall.constructor` | src/patterns/strategy.rs:67-72 | a duck call holds the no-fly and quack behaviours; their field types allow no other value |
| `Strategy.DuckCall.Fly` | src/patterns/strategy.rs:74-76 | always prints "Sorry, can't fly..." |
| `Strategy.DuckCall.Quack` | src/patterns/strategy.rs:77-79 | always prints "Quacking..." |
| `Strategy.RunScenario` | src/patterns/strategy.rs:94-117 | the demo prints exactly eight lines: flying, quacking, can't fly, squeaking, can't quack, swimming, quacking, can't fly |
| `StrategyPuzzle.WeaponLineIdentifiesWeapon` | src/puzzles/strategy_puzzle.rs:10-32 | two weapons print the same line iff they are the same weapon |
| `StrategyPuzzle.Character.constructor` | src/puzzles/strategy_puzzle.rs:39-43 | a new character holds the weapon it is given |
| `StrategyPuzzle.Character.Fight` | src/puzzles/strategy_puzzle.rs:44-46 | prints the line of the weapon held now and changes nothing |
| `StrategyPuzzle.Character.SetWeapon` | src/puzzles/strategy_puzzle.rs:47-49 | after the call the character holds the new weapon; nothing of the old one is kept |
| `StrategyPuzzle.RunScenario` | src/puzzles/strategy_puzzle.rs:70-76 | the demo prints the sword line, then the knife line |
| `DesignPatterns.App.constructor` | src/lib.rs:46-55 | the pattern registry holds exactly "observer" and "strategy"; the puzzle registry holds exactly "strategy" |
| `DesignPatterns.RunComponent` | src/lib.rs:69-70 | running a demo prints exactly that demo's lines |
| `DesignPatterns.Lookup` | src/lib.rs:63-67 | the puzzle registry is searched iff the flag is set. A name resolves iff the searched registry holds it, and it resolves to that registry's entry |
| `DesignPatterns.LookupConsultsOnlySelected` | src/lib.rs:63-67 | the registry the flag does not select has no influence on the result |
| `DesignPatterns.Resolution` | src/lib.rs:46-74 | "strategy" resolves to the Strategy demo without the flag and to the puzzle with it; "observer" resolves only without the flag |
| `DesignPatterns.Run` | src/lib.rs:58-75 | on a name in the selected registry, that demo runs exactly once and the result is `Ok(())`. Otherwise nothing runs and the result is `Err("Pattern not found")` |

## Left out

- Command-line parsing (`Config::build`) and the exit codes and error output of `src/main.rs` are not modelled; `DesignPatterns.Run` takes the name and the flag directly.
- Console printing is not modelled: a printed line is returned as a value, and the numeric formatting of display lines is not modelled.
- The `f32` representation of the readings: readings are exact reals, which is enough because nothing computes on them.
- Reference counting and run-time borrow checking (`Rc`, `RefCell`) are not modelled. This includes the display's unused back-reference to the subject and the reference cycle it forms. Observers are identities only.
- Allocating a new display object is not modelled. `Observer.Displays.NewDisplay` takes the new identity as a parameter that names no existing display. Under `Displays.Covers`, that identity is also not on the subject's list.
- The `DesignPatternFactory::new` constructors and the trait declarations of `src/traits.rs` are not modelled; the demos are the values of `DesignPatterns.Component`.
