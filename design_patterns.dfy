/** The crate root: two registries from names to runnable demos, and `run`,
    which picks a registry by the puzzle flag, looks the name up in it, and
    either runs what it finds or reports that nothing has that name. */
module DesignPatterns {
  import Observer
  import Strategy
  import StrategyPuzzle

  /** The runnable demos; each has a single `run` operation. */
  datatype Component = ObserverPattern | StrategyPattern | StrategyPatternPuzzle

  /** What a demo prints when it runs: display lines for the Observer demo,
      text lines for the others. */
  datatype Output =
    | ConditionsLines(conditions: seq<Observer.Conditions>)
    | TextLines(text: seq<string>)

  datatype Option<T> = None | Some(value: T)

  datatype Result<T> = Ok(value: T) | Err(error: string)

  /** The one error `run` can report. */
  const PatternNotFound: string := "Pattern not found"

  /** The registry of patterns as `App::new` fills it. */
  const Patterns: map<string, Component> :=
    map["observer" := ObserverPattern, "strategy" := StrategyPattern]

  /** The registry of puzzle variants as `App::new` fills it. */
  const Puzzles: map<string, Component> := map["strategy" := StrategyPatternPuzzle]

  /** What each demo prints when it runs. */
  function Prints(c: Component): (out: Output)
  {
    match c
    case ObserverPattern => ConditionsLines(Observer.ScenarioLines)
    case StrategyPattern => TextLines(Strategy.ScenarioLines)
    case StrategyPatternPuzzle => TextLines(StrategyPuzzle.ScenarioLines)
  }

  /** `DesignPattern::run`, dispatched on the demo; returns what it printed. */
  method RunComponent(c: Component) returns (out: Output)
    ensures out == Prints(c)
  {
    match c
    case ObserverPattern =>
      var lines := Observer.RunScenario();
      out := ConditionsLines(lines);
    case StrategyPattern =>
      var lines := Strategy.RunScenario();
      out := TextLines(lines);
    case StrategyPatternPuzzle =>
      var lines := StrategyPuzzle.RunScenario();
      out := TextLines(lines);
  }

  /** A map lookup that reports a missing key instead of failing. */
  function Get(m: map<string, Component>, key: string): (found: Option<Component>)
  {
    if key in m then Some(m[key]) else None
  }

  /** The lookup `run` performs, as a specification: the puzzle registry is
      searched if and only if the flag is set, and a name resolves exactly
      when the searched registry holds it. */
  function Lookup(patterns: map<string, Component>, puzzles: map<string, Component>, name: string, runPuzzle: bool)
    : (found: Option<Component>)
    ensures runPuzzle ==> (found.Some? <==> name in puzzles) && (found.Some? ==> found.value == puzzles[name])
    ensures !runPuzzle ==> (found.Some? <==> name in patterns) && (found.Some? ==> found.value == patterns[name])
  {
    if runPuzzle then Get(puzzles, name) else Get(patterns, name)
  }

  /** Only the selected registry matters: with the flag set the pattern
      registry is never consulted, and without it the puzzle registry is not. */
  lemma LookupConsultsOnlySelected(patterns: map<string, Component>, puzzles: map<string, Component>,
                                   otherPatterns: map<string, Component>, otherPuzzles: map<string, Component>,
                                   name: string)
    ensures Lookup(patterns, puzzles, name, true) == Lookup(otherPatterns, puzzles, name, true)
    ensures Lookup(patterns, puzzles, name, false) == Lookup(patterns, otherPuzzles, name, false)
  {
  }

  /** The names the demo registries resolve: the same name reaches a
      different demo with and without the flag, and "observer" is not a
      puzzle. */
  lemma Resolution()
    ensures Patterns.Keys == {"observer", "strategy"} && Puzzles.Keys == {"strategy"}
    ensures Lookup(Patterns, Puzzles, "strategy", false) == Some(StrategyPattern)
    ensures Lookup(Patterns, Puzzles, "strategy", true) == Some(StrategyPatternPuzzle)
    ensures Lookup(Patterns, Puzzles, "observer", false) == Some(ObserverPattern)
    ensures Lookup(Patterns, Puzzles, "observer", true) == None
  {
  }

  /** The application: the two registries, filled once. */
  class App {
    var patterns: map<string, Component>
    var puzzles: map<string, Component>

    constructor ()
      ensures patterns == Patterns && puzzles == Puzzles
    {
      var pats: map<string, Component> := map[];
      pats := pats["observer" := ObserverPattern];
      pats := pats["strategy" := StrategyPattern];

      var puzs: map<string, Component> := map[];
      puzs := puzs["strategy" := StrategyPatternPuzzle];

      patterns, puzzles := pats, puzs;
    }
  }

  /** `run`: builds the registries, searches the one the flag selects, and
      either runs the demo found there exactly once and succeeds, or runs
      nothing and reports "Pattern not found". `output` holds what each demo
      that ran printed. */
  method Run(name: string, runPuzzle: bool) returns (result: Result<()>, output: seq<Output>)
    ensures match Lookup(Patterns, Puzzles, name, runPuzzle)
            case Some(c) => result == Ok(()) && output == [Prints(c)]
            case None => result == Err(PatternNotFound) && output == []
  {
    var app := new App();
    var patternToRun: Option<Component>;
    if runPuzzle {
      patternToRun := Get(app.puzzles, name);
    } else {
      patternToRun := Get(app.patterns, name);
    }
    if patternToRun.Some? {
      var out := RunComponent(patternToRun.value);
      return Ok(()), [out];
    }
    return Err(PatternNotFound), [];
  }
}
