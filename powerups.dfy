/** A collectible as the server sends it (GUI/GUI.Client/Models/Powerup.cs). */
module Powerups {
  import opened Points

  /** `power` is the id, `loc` the location and `died` whether a snake collected it.
      All three are init-only in the client, so a powerup is a plain value. */
  datatype Powerup = Powerup(power: int, loc: Point2D, died: bool)
}
