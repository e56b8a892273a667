/** The Strategy puzzle: a Character fights with whatever weapon behaviour it
    currently holds, and can be handed another one. */
module StrategyPuzzle {

  datatype WeaponBehavior = Knife | BowAndArrow | Axe | Sword

  /** The one line each weapon prints when used. */
  function WeaponLine(w: WeaponBehavior): (line: string)
  {
    match w
    case Knife => "Just going to use knife..."
    case BowAndArrow => "I'm not going to worry if you're far enough..."
    case Axe => "I'm just gonna chop your head off with an axe..."
    case Sword => "My sword is sharp enough for your body..."
  }

  /** Different weapons print different lines, so a fight's output tells
      which weapon was held. */
  lemma WeaponLineIdentifiesWeapon(w1: WeaponBehavior, w2: WeaponBehavior)
    ensures WeaponLine(w1) == WeaponLine(w2) <==> w1 == w2
  {
  }

  /** King, Queen, Knight and Troll are all this one type in the source. */
  class Character {
    var weapon: WeaponBehavior

    constructor (weapon: WeaponBehavior)
      ensures this.weapon == weapon
    {
      this.weapon := weapon;
    }

    /** Uses the weapon held now; changes nothing. */
    method Fight() returns (line: string)
      ensures line == WeaponLine(weapon)
    {
      line := WeaponLine(weapon);
    }

    /** Replaces the weapon; the old one is dropped, no history is kept. */
    method SetWeapon(weapon: WeaponBehavior)
      modifies this
      ensures this.weapon == weapon
    {
      this.weapon := weapon;
    }
  }

  /** What `StrategyPatternPuzzle::run` prints, in order. */
  const ScenarioLines: seq<string> := [
    "My sword is sharp enough for your body...",
    "Just going to use knife..."
  ]

  /** `StrategyPatternPuzzle::run`: a knight fights with a sword, is handed a
      knife, and fights again. */
  method RunScenario() returns (lines: seq<string>)
    ensures lines == ScenarioLines
  {
    var knight := new Character(Sword);
    var first := knight.Fight();
    knight.SetWeapon(Knife);
    var second := knight.Fight();
    lines := [first, second];
  }
}
