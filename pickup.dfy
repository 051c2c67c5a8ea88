/**
 * The pickup actor (APickUp) as a client of the character: on overlap it
 * grants a fixed amount of experience to the player character. The engine
 * cast of the overlapping actor is a nullable reference: null when the
 * other actor is not the player character.
 */
module PickUp {
  import Experience
  import PlayerCharacter

  method OnOverlap(other: PlayerCharacter.Character?)
    requires other != null ==> other.Valid()
    modifies other
    ensures other != null ==> other.Valid()
    ensures other != null ==> other.Model() == Experience.UpdateExp(old(other.Model()), Experience.PickUpExp)
  {
    if other != null {
      other.UpdateExp(Experience.PickUpExp);
    }
  }

  /** A pickup on a fresh character lifts its experience to 30 and leaves it at level 1. */
  method FirstPickUp() returns (level: int, exp: real)
    ensures level == 1 && exp == 30.0
  {
    var player := new PlayerCharacter.Character.BeginPlay();
    OnOverlap(player);
    level, exp := player.CurrentLevel, player.CurrentExp;
  }
}
