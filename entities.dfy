/** A spawnable item of the fruit game (js/entities.js): its time to live,
    spawn-in and pop animations, fade-out and hit test. */
module Entities {
  import opened Utils
  import opened Config

  /** The Math.random() values the constructor draws, each in [0, 1). */
  datatype EntityRolls = EntityRolls(
    rotation: real, wobblePhase: real, wobbleSpeed: real, floatSpeed: real, floatAmplitude: real)

  predicate ValidRolls(r: EntityRolls)
  {
    && 0.0 <= r.rotation < 1.0 && 0.0 <= r.wobblePhase < 1.0 && 0.0 <= r.wobbleSpeed < 1.0
    && 0.0 <= r.floatSpeed < 1.0 && 0.0 <= r.floatAmplitude < 1.0
  }

  /** The `isSpecial` getter on a type tag. */
  predicate IsSpecialKind(kind: string)
  {
    kind == "star" || kind == "bomb" || kind == "heart"
  }

  /** The special kinds are exactly the three special item configs; no fruit is special. */
  lemma SpecialKindsMatchConfig()
    ensures IsSpecialKind(STAR.kind) && IsSpecialKind(BOMB.kind) && IsSpecialKind(HEART.kind)
    ensures forall f :: f in FRUITS ==> !IsSpecialKind(f.kind)
  {
    forall f | f in FRUITS ensures !IsSpecialKind(f.kind) {
      assert f.kind[0] != 's' || f.kind == "strawberry";
    }
  }

  /** An item's radius factor, where a zero factor falls back to 1. */
  function RadiusFactor(c: ItemConfig): (f: real)
    ensures c.radius != 0.0 ==> f == c.radius
    ensures 0.0 <= c.radius ==> 0.0 <= f
  {
    if c.radius == 0.0 then 1.0 else c.radius
  }

  /** The radius during spawn-in at progress t: target · min(1.2 · ease(t), 1). */
  function SpawnRadius(target: real, t: real): (r: real)
    ensures 0.0 <= target && 0.0 <= t <= 1.0 ==> 0.0 <= r <= target
  {
    var m := Min(EaseInOutQuad(t) * 1.2, 1.0);
    if 0.0 <= t <= 1.0 then
      EaseInOutQuadRange(t);
      UnitScale(m, target);
      target * m
    else
      target * m
  }

  /** The radius while popping at progress p: target · (1 + p/2). */
  function PopRadius(target: real, p: real): (r: real)
    ensures 0.0 <= target && 0.0 <= p < 1.0 ==> target <= r <= 1.5 * target
    ensures 0.0 < target && 0.0 <= p < 1.0 ==> r < 1.5 * target
  {
    PopScale(target, p);
    target * (1.0 + p * 0.5)
  }

  lemma PopScale(target: real, p: real)
    ensures 0.0 <= target && 0.0 <= p < 1.0 ==> target <= target * (1.0 + p * 0.5) <= 1.5 * target
    ensures 0.0 < target && 0.0 <= p < 1.0 ==> target * (1.0 + p * 0.5) < 1.5 * target
  {
    if 0.0 <= target && 0.0 <= p < 1.0 {
      MulMonotone(1.0, 1.0 + p * 0.5, target);
      MulMonotone(1.0 + p * 0.5, 1.5, target);
      if 0.0 < target {
        MulStrict(1.0 + p * 0.5, 1.5, target);
      }
    }
  }

  /** The alpha the fade-out gives a non-popping entity with ttl < 500; `wave`
      is Math.sin(ttl / 30), the blink applied below 300. */
  function FadeAlpha(ttl: real, wave: real): (a: real)
    ensures ttl < 500.0 && -1.0 <= wave <= 1.0 ==> 0.0 <= a <= 1.0
    ensures ttl <= 0.0 ==> a == 0.0
  {
    var base := Max(0.0, ttl / 500.0);
    var blink := (wave + 1.0) / 2.0;
    UnitScale(base, blink);
    if ttl < 300.0 then base * blink else base
  }

  /** A factor in [0, 1] keeps a non-negative quantity between 0 and itself. */
  lemma UnitScale(m: real, c: real)
    ensures 0.0 <= m <= 1.0 && 0.0 <= c ==> 0.0 <= c * m <= c
  {
    if 0.0 <= m <= 1.0 && 0.0 <= c {
      MulMonotone(0.0, m, c);
      MulMonotone(m, 1.0, c);
    }
  }

  class Entity {
    const kind: string
    const points: int
    const color: string
    const x: real
    const y: real
    const baseRadius: real
    const targetRadius: real
    const maxTtl: real
    const rotation: real
    const wobbleSpeed: real
    const floatSpeed: real
    const floatAmplitude: real

    var radius: real
    var ttl: real
    var alive: bool
    var popping: bool
    var popProgress: real
    var alpha: real
    var wobblePhase: real
    var spawnProgress: real
    var floatY: real

    /** What every update with dt >= 0 keeps: radius in [0, 1.5 · target],
        alpha in [0, 1], progress counters in range. */
    ghost predicate Valid()
      reads this
    {
      && 0.0 <= targetRadius
      && 0.0 <= radius <= 1.5 * targetRadius
      && 0.0 <= alpha <= 1.0
      && 0.0 <= spawnProgress <= 1.0
      && 0.0 <= popProgress
      && (!popping ==> popProgress == 0.0)
    }

    constructor(config: ItemConfig, x: real, y: real, ttl: real, radiusScale: real, rolls: EntityRolls)
      requires ValidRolls(rolls)
      ensures kind == config.kind && points == config.points && color == config.color
      ensures this.x == x && this.y == y
      ensures baseRadius == BASE_ENTITY_RADIUS * RadiusFactor(config) * radiusScale
      ensures targetRadius == baseRadius && radius == 0.0
      ensures this.ttl == ttl && maxTtl == ttl
      ensures alive && !popping && popProgress == 0.0 && alpha == 1.0
      ensures spawnProgress == 0.0 && floatY == 0.0
      ensures rotation == RandomFloat(-0.3, 0.3, rolls.rotation)
      ensures wobblePhase == RandomFloat(0.0, TAU, rolls.wobblePhase)
      ensures wobbleSpeed == RandomFloat(2.0, 4.0, rolls.wobbleSpeed)
      ensures floatSpeed == RandomFloat(1.5, 3.0, rolls.floatSpeed)
      ensures floatAmplitude == RandomFloat(3.0, 8.0, rolls.floatAmplitude)
      ensures 0.0 <= config.radius && 0.0 <= radiusScale ==> Valid()
    {
      kind := config.kind;
      points := config.points;
      color := config.color;
      this.x := x;
      this.y := y;
      var factor := RadiusFactor(config);
      baseRadius := BASE_ENTITY_RADIUS * factor * radiusScale;
      radius := 0.0;
      targetRadius := BASE_ENTITY_RADIUS * factor * radiusScale;
      this.ttl := ttl;
      maxTtl := ttl;
      alive := true;
      popping := false;
      popProgress := 0.0;
      alpha := 1.0;
      rotation := RandomFloat(-0.3, 0.3, rolls.rotation);
      wobblePhase := RandomFloat(0.0, TAU, rolls.wobblePhase);
      wobbleSpeed := RandomFloat(2.0, 4.0, rolls.wobbleSpeed);
      spawnProgress := 0.0;
      floatY := 0.0;
      floatSpeed := RandomFloat(1.5, 3.0, rolls.floatSpeed);
      floatAmplitude := RandomFloat(3.0, 8.0, rolls.floatAmplitude);
      new;
      if 0.0 <= config.radius && 0.0 <= radiusScale {
        MulMonotone(0.0, radiusScale, BASE_ENTITY_RADIUS * factor);
      }
    }

    /** The `isSpecial` getter. */
    predicate IsSpecial()
    {
      IsSpecialKind(kind)
    }

    /** The drawn centre's y: the base position plus the float offset. */
    function CenterY(): real
      reads this
    {
      y + floatY
    }

    /** hitTest(x, y): the distance to the drawn centre is at most the radius. */
    function HitTest(px: real, py: real): (hit: bool)
      reads this
      ensures forall s :: IsRoot(s, DistSq(px, py, x, CenterY())) ==> (hit <==> s <= radius)
    {
      DistanceTestAll(px, py, x, CenterY(), radius);
      WithinDistance(px, py, x, CenterY(), radius)
    }

    /** pop(): enters the pop animation once; a second call changes nothing. */
    method Pop()
      modifies this`popping, this`popProgress
      ensures popping
      ensures popProgress == if old(popping) then old(popProgress) else 0.0
    {
      if popping {
        return;
      }
      popping := true;
      popProgress := 0.0;
    }

    /** expire(): dead without the pop animation. */
    method Expire()
      modifies this`alive
      ensures !alive
    {
      alive := false;
    }

    /** update(dt); `sin` plays Math.sin. The four phases of the source's
        update are the steps below, run in the source's order. */
    method Update(dt: real, sin: Wave)
      requires Valid()
      modifies this
      ensures dt >= 0.0 ==> Valid()
      ensures ttl == old(ttl) - dt
      ensures spawnProgress ==
        if old(spawnProgress) < 1.0 then Min(old(spawnProgress) + dt / 300.0, 1.0) else old(spawnProgress)
      ensures wobblePhase == Wobble(old(wobblePhase), dt, wobbleSpeed)
      ensures floatY == WaveScale(sin(wobblePhase), floatAmplitude)
      ensures popping == old(popping)
      ensures popProgress == if popping then old(popProgress) + dt / 200.0 else old(popProgress)
      // a popping entity never expires by its ttl: only the pop animation ends it
      ensures !popping ==> alive == (old(alive) && ttl > 0.0)
      ensures popping ==> alive == (old(alive) && popProgress < 1.0)
      ensures popping && popProgress < 1.0 ==>
        radius == PopRadius(targetRadius, popProgress) && alpha == 1.0 - popProgress
      ensures !(popping && popProgress < 1.0) ==>
        radius == if old(spawnProgress) < 1.0 then SpawnRadius(targetRadius, spawnProgress) else old(radius)
      ensures !popping ==>
        alpha == if ttl < 500.0 then FadeAlpha(ttl, sin(ttl / 30.0)) else old(alpha)
      ensures popping && popProgress >= 1.0 ==> alpha == old(alpha)
    {
      SpawnIn(dt);
      Bob(dt, sin);
      Age(dt, sin);
      PopStep(dt);
    }

    /** Spawn-in: progress advances by dt / 300 up to 1, the radius follows
        easeInOutQuad, overshooting to the target at 1 / 1.2. */
    method SpawnIn(dt: real)
      modifies this`spawnProgress, this`radius
      ensures spawnProgress ==
        if old(spawnProgress) < 1.0 then Min(old(spawnProgress) + dt / 300.0, 1.0) else old(spawnProgress)
      ensures radius == if old(spawnProgress) < 1.0 then SpawnRadius(targetRadius, spawnProgress) else old(radius)
    {
      if spawnProgress < 1.0 {
        spawnProgress := Min(spawnProgress + dt / 300.0, 1.0);
        // the source writes easeInOutQuad out inline here
        radius := SpawnRadius(targetRadius, spawnProgress);
      }
    }

    /** The idle bob. */
    method Bob(dt: real, sin: Wave)
      modifies this`wobblePhase, this`floatY
      ensures wobblePhase == Wobble(old(wobblePhase), dt, wobbleSpeed)
      ensures floatY == WaveScale(sin(wobblePhase), floatAmplitude)
    {
      wobblePhase := Wobble(wobblePhase, dt, wobbleSpeed);
      floatY := WaveScale(sin(wobblePhase), floatAmplitude);
    }

    /** Ageing: the ttl runs down; below 500 a non-popping entity fades (and
        blinks below 300); at 0 it expires unless it is popping. */
    method Age(dt: real, sin: Wave)
      modifies this`ttl, this`alpha, this`alive
      ensures ttl == old(ttl) - dt
      ensures alpha == if ttl < 500.0 && !popping then FadeAlpha(ttl, sin(ttl / 30.0)) else old(alpha)
      ensures alive == (old(alive) && !(ttl <= 0.0 && !popping))
    {
      ttl := ttl - dt;

      if ttl < 500.0 && !popping {
        alpha := FadeAlpha(ttl, sin(ttl / 30.0));
      }

      if ttl <= 0.0 && !popping {
        Expire();
      }
    }

    /** The pop animation: progress advances by dt / 200; at 1 the entity
        dies, before that it swells and fades. */
    method PopStep(dt: real)
      modifies this`popProgress, this`alive, this`radius, this`alpha
      ensures popProgress == if popping then old(popProgress) + dt / 200.0 else old(popProgress)
      ensures alive == (old(alive) && !(popping && popProgress >= 1.0))
      ensures popping && popProgress < 1.0 ==>
        radius == PopRadius(targetRadius, popProgress) && alpha == 1.0 - popProgress
      ensures !(popping && popProgress < 1.0) ==> radius == old(radius) && alpha == old(alpha)
    {
      if popping {
        popProgress := popProgress + dt / 200.0;
        if popProgress >= 1.0 {
          alive := false;
        } else {
          radius := PopRadius(targetRadius, popProgress);
          alpha := 1.0 - popProgress;
        }
      }
    }
  }

  /** The wobble phase after dt milliseconds at `speed` radians per second. */
  function Wobble(phase: real, dt: real, speed: real): (next: real)
    ensures 0.0 <= dt && 0.0 <= speed ==> phase <= next
  {
    if 0.0 <= dt && 0.0 <= speed then
      MulMonotone(0.0, dt / 1000.0, speed);
      phase + dt / 1000.0 * speed
    else
      phase + dt / 1000.0 * speed
  }

  /** HitTest's comparison agrees with the square root for every root. */
  lemma DistanceTestAll(x1: real, y1: real, x2: real, y2: real, r: real)
    ensures forall s :: IsRoot(s, DistSq(x1, y1, x2, y2)) ==> (WithinDistance(x1, y1, x2, y2, r) <==> s <= r)
  {
    forall s | IsRoot(s, DistSq(x1, y1, x2, y2))
      ensures WithinDistance(x1, y1, x2, y2, r) <==> s <= r
    {
      DistanceTest(x1, y1, x2, y2, r, s);
    }
  }
}
