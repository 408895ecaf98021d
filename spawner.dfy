/** Difficulty-driven spawning for the fruit game (js/spawner.js). */
module Spawner {
  import opened Utils
  import opened Config
  import opened Entities

  /** The Math.random() values one spawn draws, in the source's order: the
      special-or-fruit draw, the draw that picks the item, then x, y and the
      entity's own draws. */
  datatype SpawnRolls = SpawnRolls(special: real, pick: real, x: real, y: real, entity: EntityRolls)

  predicate ValidSpawnRolls(r: SpawnRolls)
  {
    && 0.0 <= r.special < 1.0 && 0.0 <= r.pick < 1.0
    && 0.0 <= r.x < 1.0 && 0.0 <= r.y < 1.0
    && ValidRolls(r.entity)
  }

  /** getDifficulty's index: the level clamped to the table's rows. */
  function TierIndex(level: int): (i: int)
    ensures 0 <= i < |DIFFICULTY_TABLE|
    ensures 0 <= level < |DIFFICULTY_TABLE| ==> i == level
    ensures level < 0 ==> i == 0
    ensures |DIFFICULTY_TABLE| <= level ==> i == |DIFFICULTY_TABLE| - 1
  {
    var r := Clamp(level as real, 0.0, (|DIFFICULTY_TABLE| - 1) as real);
    r.Floor
  }

  /** getDifficulty(). */
  function Difficulty(level: int): (t: Tier)
    ensures t in DIFFICULTY_TABLE
    ensures 0 <= level < |DIFFICULTY_TABLE| ==> t == DIFFICULTY_TABLE[level]
    ensures |DIFFICULTY_TABLE| <= level ==> t == DIFFICULTY_TABLE[|DIFFICULTY_TABLE| - 1]
  {
    DIFFICULTY_TABLE[TierIndex(level)]
  }

  /** The level after `gameTime` milliseconds: one more every DIFFICULTY_INTERVAL_MS. */
  function LevelAt(gameTime: real): (level: int)
    ensures 0.0 <= gameTime ==> 0 <= level
    ensures (level as real) * DIFFICULTY_INTERVAL_MS <= gameTime < ((level + 1) as real) * DIFFICULTY_INTERVAL_MS
  {
    Floor(gameTime / DIFFICULTY_INTERVAL_MS)
  }

  /** Playing longer never lowers the level, so never eases the difficulty. */
  lemma {:induction false} LevelMonotone(t1: real, t2: real)
    requires t1 <= t2
    ensures LevelAt(t1) <= LevelAt(t2)
    ensures TierIndex(LevelAt(t1)) <= TierIndex(LevelAt(t2))
    ensures Difficulty(LevelAt(t2)).spawnInterval <= Difficulty(LevelAt(t1)).spawnInterval
  {
    var l1, l2 := LevelAt(t1), LevelAt(t2);
    TableIsProgressive();
    IntervalsShrink(TierIndex(l1), TierIndex(l2));
  }

  /** Along the table the spawn interval never grows. */
  lemma {:induction false} IntervalsShrink(i: int, j: int)
    requires 0 <= i <= j < |DIFFICULTY_TABLE|
    ensures DIFFICULTY_TABLE[j].spawnInterval <= DIFFICULTY_TABLE[i].spawnInterval
    decreases j - i
  {
    if i < j {
      TableIsProgressive();
      IntervalsShrink(i, j - 1);
    }
  }

  /** The item a spawn creates: with probability SPECIAL_SPAWN_CHANCE a special
      item split bomb / star / heart by the ratios, else a uniform fruit. */
  function ChooseItem(special: real, pick: real): (c: ItemConfig)
    requires 0.0 <= special < 1.0 && 0.0 <= pick < 1.0
    ensures special < SPECIAL_SPAWN_CHANCE ==>
      c == (if pick < BOMB_RATIO then BOMB else if pick < BOMB_RATIO + STAR_RATIO then STAR else HEART)
    ensures SPECIAL_SPAWN_CHANCE <= special ==> c in FRUITS
    ensures IsSpecialKind(c.kind) <==> special < SPECIAL_SPAWN_CHANCE
  {
    SpecialKindsMatchConfig();
    if special < SPECIAL_SPAWN_CHANCE then
      if pick < BOMB_RATIO then BOMB
      else if pick < BOMB_RATIO + STAR_RATIO then STAR
      else HEART
    else
      RandomItem(FRUITS, pick).value
  }

  /** The spawn x for a tier: inside the margin from both side edges. */
  function PlaceX(t: Tier, roll: real): (x: real)
    requires 0.0 <= roll < 1.0
    ensures t.radiusScale <= 4.8 ==> SpawnMargin(t.radiusScale) <= x <= GAME_WIDTH - SpawnMargin(t.radiusScale)
  {
    var margin := BASE_ENTITY_RADIUS * t.radiusScale * 1.5;
    RandomFloat(margin, GAME_WIDTH - margin, roll)
  }

  /** The spawn y: from 200 down to 250 above the bottom edge. */
  function PlaceY(roll: real): (y: real)
    requires 0.0 <= roll < 1.0
    ensures 200.0 <= y < GAME_HEIGHT - 250.0
  {
    RandomFloat(200.0, GAME_HEIGHT - 250.0, roll)
  }

  /** Whether update spawns: the interval has elapsed and the screen holds fewer
      than the tier's maximum. */
  predicate ShouldSpawn(timeSinceSpawn: real, entityCount: nat, t: Tier)
  {
    timeSinceSpawn >= t.spawnInterval && entityCount < t.maxOnScreen
  }

  /** No spawn ever brings the screen past the highest tier's cap, and a full
      screen never spawns. */
  lemma {:induction false} SpawnRespectsCap(timeSinceSpawn: real, entityCount: nat, level: int)
    requires ShouldSpawn(timeSinceSpawn, entityCount, Difficulty(level))
    ensures entityCount + 1 <= Difficulty(level).maxOnScreen <= 14
  {
    TableIsProgressive();
  }

  /** The entity spawn(diff) makes from the rolls: the chosen item's kind,
      points and colour, its radius scaled by the tier, placed by the rolls,
      living the tier's ttl, alive and not yet grown. */
  ghost predicate SpawnedFrom(e: Entity, t: Tier, rolls: SpawnRolls)
    requires ValidSpawnRolls(rolls)
    reads e
  {
    var item := ChooseItem(rolls.special, rolls.pick);
    && e.kind == item.kind && e.points == item.points && e.color == item.color
    && e.baseRadius == BASE_ENTITY_RADIUS * RadiusFactor(item) * t.radiusScale
    && e.targetRadius == e.baseRadius
    && e.x == PlaceX(t, rolls.x) && e.y == PlaceY(rolls.y)
    && e.ttl == t.ttl && e.maxTtl == t.ttl
    && e.alive && !e.popping && e.radius == 0.0
  }

  /** spawn(diff): a fresh entity of the chosen kind placed inside the tier's margins. */
  method Spawn(t: Tier, rolls: SpawnRolls) returns (e: Entity)
    requires ValidSpawnRolls(rolls)
    ensures fresh(e)
    ensures SpawnedFrom(e, t, rolls)
    ensures 0.0 <= t.radiusScale ==> e.Valid()
  {
    var config := ChooseItem(rolls.special, rolls.pick);
    var x := PlaceX(t, rolls.x);
    var y := PlaceY(rolls.y);
    ItemRadiiPositive(config, rolls.special, rolls.pick);
    e := new Entity(config, x, y, t.ttl, t.radiusScale, rolls.entity);
  }

  /** Every item the spawner can choose has a positive radius factor. */
  lemma ItemRadiiPositive(c: ItemConfig, special: real, pick: real)
    requires 0.0 <= special < 1.0 && 0.0 <= pick < 1.0
    requires c == ChooseItem(special, pick)
    ensures 0.0 < c.radius
  {
  }

  class Spawner {
    var timeSinceSpawn: real
    var gameTime: real
    var level: int

    constructor()
      ensures timeSinceSpawn == 0.0 && gameTime == 0.0 && level == 0
    {
      timeSinceSpawn := 0.0;
      gameTime := 0.0;
      level := 0;
    }

    /** Time counters never run negative while every frame's dt is non-negative. */
    ghost predicate Valid()
      reads this
    {
      0.0 <= timeSinceSpawn && 0.0 <= gameTime && level == LevelAt(gameTime)
    }

    method Reset()
      modifies this
      ensures timeSinceSpawn == 0.0 && gameTime == 0.0 && level == 0
      ensures Valid()
    {
      timeSinceSpawn := 0.0;
      gameTime := 0.0;
      level := 0;
    }

    function GetDifficulty(): (t: Tier)
      reads this
      ensures t == Difficulty(level)
    {
      DIFFICULTY_TABLE[TierIndex(level)]
    }

    /** update(dt, entities): only the number of entities on screen matters. */
    method Update(dt: real, entityCount: nat, rolls: SpawnRolls) returns (e: Entity?)
      requires ValidSpawnRolls(rolls)
      requires Valid()
      modifies this
      ensures 0.0 <= dt ==> Valid() && old(level) <= level
      ensures gameTime == old(gameTime) + dt
      ensures level == LevelAt(gameTime)
      ensures e != null <==> ShouldSpawn(old(timeSinceSpawn) + dt, entityCount, Difficulty(level))
      ensures timeSinceSpawn == if e != null then 0.0 else old(timeSinceSpawn) + dt
      ensures e != null ==>
        && fresh(e) && e.Valid() && SpawnedFrom(e, Difficulty(level), rolls)
    {
      if 0.0 <= dt {
        LevelMonotone(gameTime, gameTime + dt);
      }
      gameTime := gameTime + dt;
      level := LevelAt(gameTime);
      timeSinceSpawn := timeSinceSpawn + dt;

      var diff := GetDifficulty();

      if timeSinceSpawn >= diff.spawnInterval && entityCount < diff.maxOnScreen {
        timeSinceSpawn := 0.0;
        TableIsProgressive();
        e := Spawn(diff, rolls);
        return;
      }
      return null;
    }
  }
}
