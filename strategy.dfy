/** The Strategy demo: a Duck whose flying and quacking are delegated to
    behaviour objects held in two replaceable slots, and a DuckCall whose
    behaviours are fixed by the types of its fields.

    The behaviour families are closed, so each is a datatype; what a
    behaviour prints is the line its `perform` operation returns, and a
    scenario's console output is the sequence of those lines. */
module Strategy {

  datatype FlyBehavior = FlyWithWings | FlyNoFly

  datatype QuackBehavior = Quack | Squeak | MuteQuack

  /** The one line each flying behaviour prints. */
  function FlyLine(b: FlyBehavior): (line: string)
  {
    match b
    case FlyWithWings => "Just flying..."
    case FlyNoFly => "Sorry, can't fly..."
  }

  /** The one line each quacking behaviour prints. */
  function QuackLine(b: QuackBehavior): (line: string)
  {
    match b
    case Quack => "Quacking..."
    case Squeak => "Squeaking..."
    case MuteQuack => "Can't Quack..."
  }

  /** What every duck prints when it swims, whatever its behaviours. */
  const SwimLine: string := "All ducks should know how to swim!"

  /** Each behaviour has a line of its own, and swimming has a line no
      behaviour prints: from the output alone one can tell which behaviour
      each slot held at each call. */
  lemma LinesIdentifyBehaviors(f1: FlyBehavior, f2: FlyBehavior, q1: QuackBehavior, q2: QuackBehavior)
    ensures FlyLine(f1) == FlyLine(f2) <==> f1 == f2
    ensures QuackLine(q1) == QuackLine(q2) <==> q1 == q2
    ensures FlyLine(f1) != QuackLine(q1)
    ensures SwimLine != FlyLine(f1) && SwimLine != QuackLine(q1)
  {
  }

  /** A host with one slot per capability; each slot always holds exactly one
      behaviour and can be replaced at run time. */
  class Duck {
    var flyBehavior: FlyBehavior
    var quackBehavior: QuackBehavior

    constructor (fly: FlyBehavior, quack: QuackBehavior)
      ensures flyBehavior == fly && quackBehavior == quack
    {
      flyBehavior := fly;
      quackBehavior := quack;
    }

    /** Delegates to whatever the fly slot holds now. */
    method Fly() returns (line: string)
      ensures line == FlyLine(flyBehavior)
    {
      line := FlyLine(flyBehavior);
    }

    /** Delegates to whatever the quack slot holds now. */
    method Quack() returns (line: string)
      ensures line == QuackLine(quackBehavior)
    {
      line := QuackLine(quackBehavior);
    }

    /** Common to all ducks: looks at neither slot. */
    method Swim() returns (line: string)
      ensures line == SwimLine
    {
      line := SwimLine;
    }

    /** Replaces the fly slot; the quack slot is untouched. */
    method SetFlyBehavior(b: FlyBehavior)
      modifies this`flyBehavior
      ensures flyBehavior == b && quackBehavior == old(quackBehavior)
    {
      flyBehavior := b;
    }

    /** Replaces the quack slot; the fly slot is untouched. */
    method SetQuackBehavior(b: QuackBehavior)
      modifies this`quackBehavior
      ensures quackBehavior == b && flyBehavior == old(flyBehavior)
    {
      quackBehavior := b;
    }
  }

  /** The only behaviour a DuckCall's fly slot can hold: its field has the
      concrete type of that one behaviour. */
  type NoFlyOnly = b: FlyBehavior | b == FlyNoFly witness FlyNoFly

  /** The only behaviour a DuckCall's quack slot can hold. */
  type QuackOnly = b: QuackBehavior | b == Quack witness Quack

  /** A duck call: it has behaviours but they cannot be replaced. */
  class DuckCall {
    const flyBehavior: NoFlyOnly
    const quackBehavior: QuackOnly

    constructor ()
      ensures flyBehavior == FlyNoFly && quackBehavior == QuackBehavior.Quack
    {
      flyBehavior := FlyNoFly;
      quackBehavior := QuackBehavior.Quack;
    }

    method Fly() returns (line: string)
      ensures line == "Sorry, can't fly..."
    {
      line := FlyLine(flyBehavior);
    }

    method Quack() returns (line: string)
      ensures line == "Quacking..."
    {
      line := QuackLine(quackBehavior);
    }
  }

  /** What `StrategyPattern::run` prints, in order. */
  const ScenarioLines: seq<string> := [
    "Just flying...", "Quacking...",
    "Sorry, can't fly...", "Squeaking...",
    "Can't Quack...", "All ducks should know how to swim!",
    "Quacking...", "Sorry, can't fly..."
  ]

  /** `StrategyPattern::run`: a duck that flies with wings and quacks, then
      gets a no-fly and a squeak behaviour, then a mute quack, swims; then a
      duck call quacks and flies. */
  method RunScenario() returns (lines: seq<string>)
    ensures lines == ScenarioLines
  {
    var duck := new Duck(FlyWithWings, Quack);
    var l1 := duck.Fly();
    var l2 := duck.Quack();

    duck.SetFlyBehavior(FlyNoFly);
    duck.SetQuackBehavior(Squeak);
    var l3 := duck.Fly();
    var l4 := duck.Quack();

    duck.SetQuackBehavior(MuteQuack);
    var l5 := duck.Quack();
    var l6 := duck.Swim();

    var duckCall := new DuckCall();
    var l7 := duckCall.Quack();
    var l8 := duckCall.Fly();

    lines := [l1, l2, l3, l4, l5, l6, l7, l8];
  }
}
