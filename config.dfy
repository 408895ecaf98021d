/** The constants and static tables of the Tap & Pop fruit game (js/config.js). */
module Config {

  const GAME_WIDTH: real := 720.0
  const GAME_HEIGHT: real := 1280.0

  const MAX_LIVES: int := 5
  const COMBO_WINDOW_MS: real := 800.0
  const MAX_COMBO_MULTIPLIER: int := 5
  const DIFFICULTY_INTERVAL_MS: real := 15000.0

  /** One spawnable item kind: its type tag, score value, colour and radius factor. */
  datatype ItemConfig = ItemConfig(kind: string, points: int, color: string, radius: real)

  const FRUITS: seq<ItemConfig> := [
    ItemConfig("blueberry", 10, "#6366f1", 0.8),
    ItemConfig("grape", 15, "#a855f7", 0.75),
    ItemConfig("cherry", 15, "#ef4444", 0.7),
    ItemConfig("lemon", 20, "#facc15", 0.85),
    ItemConfig("strawberry", 25, "#f43f5e", 0.8),
    ItemConfig("orange", 30, "#f97316", 0.9),
    ItemConfig("apple", 35, "#22c55e", 0.9),
    ItemConfig("watermelon", 50, "#10b981", 1.1)
  ]

  const STAR: ItemConfig := ItemConfig("star", 100, "#fbbf24", 0.9)
  const BOMB: ItemConfig := ItemConfig("bomb", 0, "#1f2937", 0.85)
  const HEART: ItemConfig := ItemConfig("heart", 0, "#ec4899", 0.8)

  const SPECIAL_SPAWN_CHANCE: real := 0.12
  const BOMB_RATIO: real := 0.4
  const STAR_RATIO: real := 0.35
  const HEART_RATIO: real := 0.25

  const BASE_ENTITY_RADIUS: real := 50.0

  /** A difficulty tier (row of DIFFICULTY_TABLE). */
  datatype Tier = Tier(spawnInterval: real, ttl: real, radiusScale: real, maxOnScreen: int)

  /** Index 0 is level 1. */
  const DIFFICULTY_TABLE: seq<Tier> := [
    Tier(1200.0, 4000.0, 1.0, 5),
    Tier(1050.0, 3700.0, 0.95, 6),
    Tier(900.0, 3400.0, 0.90, 7),
    Tier(800.0, 3100.0, 0.85, 8),
    Tier(700.0, 2800.0, 0.80, 9),
    Tier(600.0, 2500.0, 0.75, 10),
    Tier(520.0, 2300.0, 0.72, 11),
    Tier(450.0, 2100.0, 0.68, 12),
    Tier(400.0, 1900.0, 0.65, 13),
    Tier(350.0, 1700.0, 0.60, 14)
  ]

  const PARTICLE_COUNT: int := 12
  const PARTICLE_LIFETIME: real := 500.0
  const FLOAT_TEXT_LIFETIME: real := 800.0
  const SCREEN_SHAKE_DURATION: real := 300.0
  const SCREEN_SHAKE_INTENSITY: real := 8.0

  /** The margin the spawner keeps from the side edges for a tier's items. */
  function SpawnMargin(radiusScale: real): real
  {
    BASE_ENTITY_RADIUS * radiusScale * 1.5
  }

  /** Ten tiers; each harder than the one before: shorter interval, shorter
      ttl, smaller items, one more item allowed on screen. */
  lemma TableIsProgressive()
    ensures |DIFFICULTY_TABLE| == 10
    ensures forall i :: 0 <= i < 9 ==>
      && DIFFICULTY_TABLE[i + 1].spawnInterval < DIFFICULTY_TABLE[i].spawnInterval
      && DIFFICULTY_TABLE[i + 1].ttl < DIFFICULTY_TABLE[i].ttl
      && DIFFICULTY_TABLE[i + 1].radiusScale < DIFFICULTY_TABLE[i].radiusScale
    ensures forall i :: 0 <= i < 10 ==> DIFFICULTY_TABLE[i].maxOnScreen == 5 + i
  {
  }

  /** Every tier leaves room to place an item: margin < width - margin. */
  lemma TiersLeavePlacementRoom()
    ensures forall i :: 0 <= i < |DIFFICULTY_TABLE| ==>
      0.0 < SpawnMargin(DIFFICULTY_TABLE[i].radiusScale) < GAME_WIDTH - SpawnMargin(DIFFICULTY_TABLE[i].radiusScale)
  {
  }

  /** The special-item weights partition [0, 1). */
  lemma SpecialRatiosPartition()
    ensures BOMB_RATIO + STAR_RATIO + HEART_RATIO == 1.0
    ensures 0.0 < BOMB_RATIO < BOMB_RATIO + STAR_RATIO < 1.0
  {
  }

  /** Fruits score; bombs and hearts are worth nothing; stars are worth 100. */
  lemma ItemPoints()
    ensures forall f :: f in FRUITS ==> f.points > 0
    ensures BOMB.points == 0 && HEART.points == 0 && STAR.points == 100
  {
  }
}
