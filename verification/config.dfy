/** Fixed world and player configuration of the platformer. */
module Config {
  const ScreenWidth: int := 800
  const ScreenHeight: int := 600

  const PlayerWidth: int := 30
  const PlayerHeight: int := 40
  const PlayerSpeed: int := 5

  /**
   * Vertical velocities are kept exactly, in tenths of a pixel per frame:
   * GRAVITY = 0.8 is 8, the terminal fall speed 10 is 100 and
   * JUMP_STRENGTH = -15 is -150.
   */
  const Gravity: int := 8
  const MaxFall: int := 100
  const JumpStrength: int := -150

  /** Where the player is (re)spawned: (50, SCREEN_HEIGHT - PLAYER_HEIGHT - 20). */
  const SpawnX: int := 50
  const SpawnY: int := ScreenHeight - PlayerHeight - 20
}
