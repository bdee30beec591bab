/** The game's fixed dimensions and rates, in screen pixels and per-tick units. */
module Constants {
  const GAME_WIDTH: int := 512
  const GAME_HEIGHT: int := 384
  const PLAYER_WIDTH: int := 16
  const PLAYER_HEIGHT: int := 24
  const PLAYER_SPEED: real := 3.0
  const GRAVITY: real := 0.3
  const UMBRELLA_PUSH_FORCE: real := 8.0
  const MAX_POWER: real := 100.0
  const POWER_DRAIN_RATE: real := 0.5
  const POWER_RECHARGE_RATE: real := 0.1
  /** The y coordinate of the ground: 384 - 24 - 10 = 350. */
  const GROUND_LEVEL: int := GAME_HEIGHT - PLAYER_HEIGHT - 10
  const PILE_SEGMENT_WIDTH: int := 32

  /** Sprites are drawn at two screen pixels per mask cell. */
  const SPRITE_SCALE: int := 2

  const MAX_KNOWLEDGE: int := 100
  const MAX_COUNTDOWN: int := 10
  /** Ticks of stillness that earn one unit of knowledge in meditation. */
  const STILLNESS_TICKS: int := 60
  /** Ticks the umbrella stays open after the key is released. */
  const UMBRELLA_GRACE_TICKS: int := 10
  /** Ticks a knowledge message stays on screen. */
  const MESSAGE_TICKS: int := 120
  /** Number of knowledge messages to choose from. */
  const MESSAGE_COUNT: int := 10
  /** Score for each deflection. */
  const DEFLECT_SCORE: int := 10
  /** Assumed height of one piled obstacle in the pile hazard test. */
  const PILE_UNIT_HEIGHT: int := 32
  /** A pile whose estimated top is at or above this y ends the game. */
  const PILE_DANGER_TOP: int := 50
  /** Length of a meteor's trail. */
  const TRAIL_LENGTH: int := 8
}
