/** The challenge data the game screen works on. The classes behind it
    (ChallengeData, WallData, KnightData, HighTowerData) are not part of this
    model: only the parts the game screen reads or writes are kept. */
module Entities {

  datatype Option<T> = None | Some(value: T)

  /** A grid block, as the hovered block and wall positions use it. */
  datatype Cell = Cell(x: int, y: int)

  /** A wall piece: its shape definition (opaque here) and its position on the
      grid, or None while it sits on the palette. */
  datatype Wall = Wall(definition: nat, position: Option<Cell>)

  /** A knight. Only the solution validator, which is not part of this model,
      reads its fields; here it is opaque payload of a challenge. */
  datatype Knight = Knight(position: Cell, red: bool)

  /** A high tower's two endpoints. Only the solution validator and the
      views read them; here it is opaque payload of a challenge. */
  datatype HighTower = HighTower(first: Option<Cell>, second: Option<Cell>)

  /** A challenge, identified within the campaign by its name. */
  datatype Challenge = Challenge(
    name: string,
    walls: seq<Wall>,
    knights: seq<Knight>,
    highTowers: seq<HighTower>)

  /** The challenge after `setPosition(null)` on its wall `w`: that wall goes
      back to the palette and nothing else changes. */
  function Lifted(c: Challenge, w: nat): (r: Challenge)
    requires w < |c.walls|
    ensures r.name == c.name && r.knights == c.knights && r.highTowers == c.highTowers
    ensures |r.walls| == |c.walls|
    ensures r.walls[w].position == None && r.walls[w].definition == c.walls[w].definition
    ensures forall j :: 0 <= j < |c.walls| && j != w ==> r.walls[j] == c.walls[j]
  {
    c.(walls := c.walls[w := c.walls[w].(position := None)])
  }
}
