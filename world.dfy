/** The client's world (GUI/GUI.Client/Models/World.cs): three maps keyed by
    independent integer id-spaces, plus the world's side length. */
module Worlds {
  import opened Powerups
  import opened Snakes
  import opened Walls

  /** What the client knows about one snake: its wire fields and its running
      maximum score. */
  datatype SnakeView = SnakeView(data: SnakeData, maxScore: int)

  /** The abstract value of a world: one map per entity kind, each keyed by that
      kind's own ids. */
  datatype WorldView = WorldView(
    worldSize: int,
    snakes: map<int, SnakeView>,
    walls: map<int, WallData>,
    powerups: map<int, Powerup>)

  /** Every entry is stored under its own id. */
  ghost predicate WellKeyed(v: WorldView) {
    && (forall id | id in v.snakes :: v.snakes[id].data.snake == id)
    && (forall id | id in v.walls :: v.walls[id].wall == id)
    && (forall id | id in v.powerups :: v.powerups[id].power == id)
  }

  class World {
    var worldSize: int
    var snakes: map<int, Snake>
    var walls: map<int, Wall>
    var powerups: map<int, Powerup>

    /** Each object is stored under its own id (so two keys never share an
        object) and each wall's private state is consistent. */
    ghost predicate Valid()
      reads this, snakes.Values, walls.Values
    {
      && (forall id | id in snakes :: snakes[id].snake == id)
      && (forall id | id in walls :: walls[id].wall == id && walls[id].Valid())
      && (forall id | id in powerups :: powerups[id].power == id)
    }

    /** The abstract value of this world. */
    ghost function View(): WorldView
      reads this, snakes.Values
    {
      WorldView(
        worldSize,
        map id | id in snakes :: SnakeView(snakes[id].Data(), snakes[id].maxScore),
        map id | id in walls :: walls[id].Data(),
        powerups)
    }

    /** A new world is empty, and its size is 0 until the handshake sets it. */
    constructor ()
      ensures Valid()
      ensures worldSize == 0 && snakes == map[] && walls == map[] && powerups == map[]
      ensures View() == WorldView(0, map[], map[], map[])
    {
      worldSize := 0;
      walls := map[];
      powerups := map[];
      snakes := map[];
    }

    /** A valid world's view is well keyed. */
    lemma ValidViewIsWellKeyed()
      requires Valid()
      ensures WellKeyed(View())
    {
    }
  }
}
