/**
 * The static level: an ordered list of platforms and the world's size.
 * Every character simulation reads it; nothing ever changes it.
 */
module Levels {

  /** A platform's top-left corner and its (unused) friction value. */
  datatype Platform = Platform(x: real, y: real, friction: int)

  datatype Level = Level(platforms: seq<Platform>, width: real, height: real)

  const PLATFORM_FRICTION: int := 2
  const WORLD_WIDTH: real := 800.0
  const WORLD_HEIGHT: real := 600.0

  function NewPlatform(x: real, y: real): (p: Platform)
    ensures p.x == x && p.y == y
    ensures p.friction == PLATFORM_FRICTION
  {
    Platform(x, y, PLATFORM_FRICTION)
  }

  /** The one level the game ships: four platforms in a fixed order on an 800x600 world. */
  function NewLevel(): (l: Level)
    ensures |l.platforms| == 4
    ensures l.platforms[0] == NewPlatform(20.0, 150.0)
    ensures l.platforms[1] == NewPlatform(390.0, 250.0)
    ensures l.platforms[2] == NewPlatform(45.0, 500.0)
    ensures l.platforms[3] == NewPlatform(120.0, 360.0)
    ensures l.width == WORLD_WIDTH && l.height == WORLD_HEIGHT
    ensures forall i :: 0 <= i < |l.platforms| ==> l.platforms[i].friction == PLATFORM_FRICTION
  {
    Level([NewPlatform(20.0, 150.0), NewPlatform(390.0, 250.0),
           NewPlatform(45.0, 500.0), NewPlatform(120.0, 360.0)],
          WORLD_WIDTH, WORLD_HEIGHT)
  }
}
