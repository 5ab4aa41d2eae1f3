/**
 * The memento demo `DinosaurGame`: lives and distance, saved as an immutable
 * `GameState` and loaded into a new game.
 */
module DinosaurGame {
  /** The memento: the seed of the obstacle generator, the lives and the distance. */
  datatype GameState = GameState(seed: int, lives: int, distance: int)

  class DinosaurGame {
    const seed: int
    var lives: int
    var distance: int

    /** The private constructor: a game for `seed` with 3 lives at distance 0. */
    constructor(seed: int)
      ensures this.seed == seed && lives == 3 && distance == 0
    {
      this.seed := seed;
      lives := 3;
      distance := 0;
    }

    /** `CreateNew`, with the value drawn from `Random.Shared.Next()` passed in. */
    static method CreateNew(randomDraw: int) returns (game: DinosaurGame)
      ensures fresh(game) && game.seed == randomDraw && game.lives == 3 && game.distance == 0
    {
      game := new DinosaurGame(randomDraw);
    }

    /** Loses one life; nothing stops the count at zero. */
    method TakeDamage()
      modifies this
      ensures lives == old(lives) - 1 && distance == old(distance)
    {
      lives := lives - 1;
    }

    method Run(d: int)
      modifies this
      ensures distance == old(distance) + d && lives == old(lives)
    {
      distance := distance + d;
    }

    function Save(): GameState
      reads this
    {
      GameState(seed, lives, distance)
    }

    static method Load(state: GameState) returns (game: DinosaurGame)
      ensures fresh(game) && game.Save() == state
    {
      game := new DinosaurGame(state.seed);
      game.lives := state.lives;
      game.distance := state.distance;
    }
  }

  /** The demo's test: play, save, keep playing until game over, then load the save. */
  method SaveLoadScenario(randomDraw: int) returns (lives: int, distance: int)
    ensures lives == 2 && distance == 2000
  {
    var game := DinosaurGame.CreateNew(randomDraw);
    game.Run(1000);
    game.TakeDamage();
    game.Run(1000);
    var saved := game.Save();
    game.Run(1000);
    game.TakeDamage();
    game.TakeDamage();
    game := DinosaurGame.Load(saved);
    lives, distance := game.lives, game.distance;
  }

  /** Loading a save gives back the saved game's values, whatever happened to that game since. */
  method SaveIsIndependentOfLaterPlay(game: DinosaurGame, d: int) returns (restored: DinosaurGame)
    modifies game
    ensures fresh(restored)
    ensures restored.seed == game.seed && restored.lives == old(game.lives) && restored.distance == old(game.distance)
  {
    var saved := game.Save();
    game.Run(d);
    game.TakeDamage();
    restored := DinosaurGame.Load(saved);
  }
}
