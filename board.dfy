/** What is on the Spot the Shape board (js/game.js): the drifting shapes,
    and the spark bursts and floating texts of a tap. */
module Board {
  import opened Utils
  import Config

  /** The parts of a shape that update changes. */
  datatype Motion = Motion(x: real, wobblePhase: real, rotation: real, highlightTimer: real)

  /** BoardShape.update(dt) on the moving parts: drift by speed, wobble and
      spin, wrap around past the far edge, and count the highlight down. */
  function Moved(m: Motion, speed: real, size: real, rotSpeed: real, dt: real): (n: Motion)
    ensures n.wobblePhase == m.wobblePhase + dt / 1000.0 * 2.0
    ensures n.rotation == m.rotation + rotSpeed * (dt / 1000.0)
    ensures n.highlightTimer == if m.highlightTimer > 0.0 then m.highlightTimer - dt else m.highlightTimer
  {
    var dtSec := dt / 1000.0;
    var x := m.x + speed * dtSec;
    var margin := size;
    var x1 := if speed > 0.0 && x > Config.GAME_WIDTH + margin then -margin else x;
    var x2 := if speed < 0.0 && x1 < -margin then Config.GAME_WIDTH + margin else x1;
    Motion(x2, m.wobblePhase + dtSec * 2.0, m.rotation + rotSpeed * dtSec,
           if m.highlightTimer > 0.0 then m.highlightTimer - dt else m.highlightTimer)
  }

  /** The band a shape drifts in: its own size past either side edge. */
  predicate InBand(x: real, size: real)
  {
    -size <= x <= Config.GAME_WIDTH + size
  }

  /** A shape in its band stays there, whatever its speed, as long as time
      runs forward; it moves by its speed until it wraps to the other edge. */
  lemma {:induction false} MovedStaysInBand(m: Motion, speed: real, size: real, rotSpeed: real, dt: real)
    requires InBand(m.x, size) && 0.0 <= dt
    ensures InBand(Moved(m, speed, size, rotSpeed, dt).x, size)
    ensures var x := m.x + speed * (dt / 1000.0);
      InBand(x, size) ==> Moved(m, speed, size, rotSpeed, dt).x == x
  {
    var dtSec := dt / 1000.0;
    if speed > 0.0 {
      MulMonotone(0.0, speed, dtSec);
    } else if speed < 0.0 {
      MulMonotone(speed, 0.0, dtSec);
    }
  }

  /** A shape floating on the board. */
  class BoardShape {
    const kind: string
    var x: real
    const y: real
    const size: real
    const speed: real
    var wobblePhase: real
    const wobbleAmp: real
    var rotation: real
    const rotSpeed: real
    var highlighted: bool
    var highlightTimer: real

    /** new BoardShape(type, x, y, size, speed, image): the four draws are the
        Math.random() values of the wobble phase and amplitude and of the
        spin. */
    constructor(kind: string, x: real, y: real, size: real, speed: real,
                phaseRoll: real, ampRoll: real, rotRoll: real, spinRoll: real)
      requires 0.0 <= phaseRoll < 1.0 && 0.0 <= ampRoll < 1.0 && 0.0 <= rotRoll < 1.0 && 0.0 <= spinRoll < 1.0
      ensures this.kind == kind && this.x == x && this.y == y && this.size == size && this.speed == speed
      ensures 0.0 <= wobblePhase < TAU && 3.0 <= wobbleAmp < 11.0
      ensures -0.15 <= rotation < 0.15 && -0.2 <= rotSpeed < 0.2
      ensures !highlighted && highlightTimer == 0.0
    {
      this.kind := kind;
      this.x := x;
      this.y := y;
      this.size := size;
      this.speed := speed;
      RollScale(phaseRoll, TAU);
      RollScale(ampRoll, 8.0);
      wobblePhase := phaseRoll * TAU;
      wobbleAmp := 3.0 + ampRoll * 8.0;
      rotation := (rotRoll - 0.5) * 0.3;
      rotSpeed := (spinRoll - 0.5) * 0.4;
      highlighted := false;
      highlightTimer := 0.0;
    }

    function Drift(): Motion
      reads this`x, this`wobblePhase, this`rotation, this`highlightTimer
    {
      Motion(x, wobblePhase, rotation, highlightTimer)
    }

    /** update(dt). */
    method Update(dt: real)
      modifies this`x, this`wobblePhase, this`rotation, this`highlightTimer
      ensures Drift() == Moved(old(Drift()), speed, size, rotSpeed, dt)
    {
      var dtSec := dt / 1000.0;
      x := x + speed * dtSec;
      wobblePhase := wobblePhase + dtSec * 2.0;
      rotation := rotation + rotSpeed * dtSec;

      var margin := size;
      if speed > 0.0 && x > Config.GAME_WIDTH + margin {
        x := -margin;
      }
      if speed < 0.0 && x < -margin {
        x := Config.GAME_WIDTH + margin;
      }

      if highlightTimer > 0.0 {
        highlightTimer := highlightTimer - dt;
      }
    }

    /** hitTest(px, py): `sin` is Math.sin; the test is on the wobbling
        centre. */
    predicate HitTest(px: real, py: real, sin: real -> real)
      reads this`x, this`wobblePhase
    {
      Hits(x, y + sin(wobblePhase) * wobbleAmp, size, px, py)
    }
  }

  /** The strict hit test: the tap lies strictly closer to the centre than
      0.55 of the size. */
  predicate Hits(cx: real, cy: real, size: real, px: real, py: real)
  {
    var dx := px - cx;
    var ddy := py - cy;
    var hitRadius := size * 0.55;
    dx * dx + ddy * ddy < hitRadius * hitRadius
  }

  /** With d the distance from the centre, a tap hits exactly when d is below
      the hit radius; the edge itself is a miss. */
  lemma {:induction false} HitsWithinRadius(cx: real, cy: real, size: real, px: real, py: real, d: real)
    requires 0.0 <= size && IsRoot(d, DistSq(px, py, cx, cy))
    ensures Hits(cx, cy, size, px, py) <==> d < size * 0.55
  {
    var r := size * 0.55;
    var dx, ddy := px - cx, py - cy;
    assert (cx - px) * (cx - px) == dx * dx && (cy - py) * (cy - py) == ddy * ddy;
    assert d * d == dx * dx + ddy * ddy;
    if d < r {
      SquareBelow(d, r);
    } else {
      SquareAtMost(r, d);
    }
  }

  lemma SquareBelow(a: real, b: real)
    requires 0.0 <= a < b
    ensures a * a < b * b
  {
    var d := b - a;
    assert b * b == a * a + 2.0 * a * d + d * d;
    assert d * d > 0.0 && a * d >= 0.0;
  }

  lemma SquareAtMost(a: real, b: real)
    requires 0.0 <= a <= b
    ensures a * a <= b * b
  {
    var d := b - a;
    assert b * b == a * a + 2.0 * a * d + d * d;
    assert d * d >= 0.0 && a * d >= 0.0;
  }

  /** The Math.random() values of one spark, with the cosine and sine of its
      random direction: a point on the unit circle. */
  datatype SparkRolls = SparkRolls(radius: real, life: real, cos: real, sin: real, speed: real, color: real)

  predicate ValidSparkRolls(r: SparkRolls)
  {
    && 0.0 <= r.radius < 1.0 && 0.0 <= r.life < 1.0 && 0.0 <= r.speed < 1.0 && 0.0 <= r.color < 1.0
    && -1.0 <= r.cos <= 1.0 && -1.0 <= r.sin <= 1.0
    && r.cos * r.cos + r.sin * r.sin == 1.0
  }

  /** A spark of a burst (the Particle class of js/game.js). */
  datatype Spark = Spark(x: real, y: real, color: string, r: real, life: real, elapsed: real, vx: real, vy: real)

  /** new Particle(x, y, color). */
  function NewSpark(x: real, y: real, color: string, rolls: SparkRolls): (p: Spark)
    requires ValidSparkRolls(rolls)
    ensures p.x == x && p.y == y && p.color == color && p.elapsed == 0.0
    ensures 3.0 <= p.r < 10.0 && 500.0 <= p.life < 800.0
    ensures -350.0 <= p.vx <= 350.0 && -350.0 <= p.vy <= 350.0
  {
    RollScale(rolls.radius, 7.0);
    RollScale(rolls.life, 300.0);
    RollScale(rolls.speed, 250.0);
    var spd := 100.0 + rolls.speed * 250.0;
    Spark(x, y, color, 3.0 + rolls.radius * 7.0, 500.0 + rolls.life * 300.0, 0.0,
          WaveScale(rolls.cos, spd), WaveScale(rolls.sin, spd))
  }

  /** A spark leaves at its drawn speed, 100 plus the roll's share of 250,
      whatever its direction. */
  lemma {:induction false} SparkLaunchSpeed(x: real, y: real, color: string, rolls: SparkRolls)
    requires ValidSparkRolls(rolls)
    ensures var p := NewSpark(x, y, color, rolls); var spd := 100.0 + rolls.speed * 250.0;
      && 100.0 <= spd < 350.0
      && p.vx * p.vx + p.vy * p.vy == spd * spd
  {
    var p := NewSpark(x, y, color, rolls);
    var spd := 100.0 + rolls.speed * 250.0;
    RollScale(rolls.speed, 250.0);
    assert p.vx == rolls.cos * spd && p.vy == rolls.sin * spd;
    calc {
      p.vx * p.vx + p.vy * p.vy;
      (rolls.cos * rolls.cos + rolls.sin * rolls.sin) * (spd * spd);
      spd * spd;
    }
  }

  /** Particle.update(dt): the clock runs, gravity pulls, the spark moves. */
  function SparkStep(p: Spark, dt: real): (q: Spark)
    ensures q.elapsed == p.elapsed + dt && q.life == p.life && q.color == p.color && q.r == p.r
    ensures q.vx == p.vx && q.vy == p.vy + 300.0 * (dt / 1000.0)
  {
    var s := dt / 1000.0;
    var vy := p.vy + 300.0 * s;
    p.(elapsed := p.elapsed + dt, vy := vy, x := p.x + p.vx * s, y := p.y + vy * s)
  }

  /** The alive getter: the spark's time is not over. */
  predicate SparkAlive(p: Spark)
  {
    p.elapsed < p.life
  }

  /** The update-and-filter of the board's sparks. */
  function LiveSparks(ps: seq<Spark>, dt: real): (qs: seq<Spark>)
    ensures |qs| <= |ps|
    ensures forall k :: 0 <= k < |qs| ==> SparkAlive(qs[k])
    ensures forall k :: 0 <= k < |ps| && SparkAlive(SparkStep(ps[k], dt)) ==> SparkStep(ps[k], dt) in qs
    ensures forall q :: q in qs ==> exists k :: 0 <= k < |ps| && q == SparkStep(ps[k], dt)
    decreases |ps|
  {
    if ps == [] then []
    else
      var q := SparkStep(ps[0], dt);
      var rest := LiveSparks(ps[1..], dt);
      assert forall k :: 1 <= k < |ps| ==> ps[k] == ps[1..][k - 1];
      if SparkAlive(q) then [q] + rest else rest
  }

  /** The draw's fade, `1 - elapsed / life`: in (0, 1] for a live spark that
      has not run backwards. */
  function SparkFade(p: Spark): (a: real)
    requires 0.0 < p.life
  {
    1.0 - p.elapsed / p.life
  }

  lemma {:induction false} LiveSparkFade(p: Spark)
    requires 0.0 < p.life && 0.0 <= p.elapsed && SparkAlive(p)
    ensures 0.0 < SparkFade(p) <= 1.0
  {
    FractionBelowOne(p.elapsed, p.life);
  }

  /** The spark colours of a correct and of a wrong tap. */
  const CORRECT_SOLO_COLORS: seq<string> := ["#22C55E", "#4ADE80", "#86EFAC", "#FDE047", "#FBBF24"]
  const WRONG_SOLO_COLORS: seq<string> := ["#EF4444", "#F87171", "#FCA5A5"]
  const CORRECT_DUO_COLORS: seq<string> := ["#22C55E", "#4ADE80", "#86EFAC", "#FDE047"]
  const WRONG_DUO_COLORS: seq<string> := ["#EF4444", "#F87171"]

  /** The sparks _burstParticles adds: one per set of draws, each coloured by
      its colour draw. */
  function BurstSparks(x: real, y: real, colors: seq<string>, rolls: seq<SparkRolls>): (ps: seq<Spark>)
    requires |colors| > 0 && forall k :: 0 <= k < |rolls| ==> ValidSparkRolls(rolls[k])
    ensures |ps| == |rolls|
    ensures forall k :: 0 <= k < |ps| ==> ps[k].x == x && ps[k].y == y && ps[k].color in colors && ps[k].elapsed == 0.0
  {
    seq(|rolls|, k requires 0 <= k < |rolls| => assert ValidSparkRolls(rolls[k]); NewSpark(x, y, colors[RandomIndex(rolls[k].color, |colors|)], rolls[k]))
  }

  /** One more set of draws adds one spark at the end. */
  lemma {:induction false} BurstSparksSnoc(x: real, y: real, colors: seq<string>, rolls: seq<SparkRolls>, i: int)
    requires |colors| > 0 && forall k :: 0 <= k < |rolls| ==> ValidSparkRolls(rolls[k])
    requires 0 <= i < |rolls|
    ensures BurstSparks(x, y, colors, rolls[..i + 1])
         == BurstSparks(x, y, colors, rolls[..i]) + [NewSpark(x, y, colors[RandomIndex(rolls[i].color, |colors|)], rolls[i])]
  {
    var a := BurstSparks(x, y, colors, rolls[..i + 1]);
    var b := BurstSparks(x, y, colors, rolls[..i]);
    assert ValidSparkRolls(rolls[i]);
    forall k | 0 <= k < i + 1
      ensures a[k] == (b + [NewSpark(x, y, colors[RandomIndex(rolls[i].color, |colors|)], rolls[i])])[k]
    {
      assert rolls[..i + 1][k] == rolls[k];
      if k < i {
        assert rolls[..i][k] == rolls[k];
      }
    }
  }

  /** What a floating text shows: points won, a miss cross, or a player's
      point. */
  datatype Caption = Points(points: int) | Cross | PlayerPoint(player: int)

  /** A floating score text (the FloatingText class of js/game.js). */
  datatype Label = Label(x: real, y: real, caption: Caption, color: string, life: real, elapsed: real)

  const LABEL_LIFE_MS: real := 800.0

  /** new FloatingText(x, y, text, color). */
  function NewLabel(x: real, y: real, caption: Caption, color: string): (l: Label)
    ensures l.life == LABEL_LIFE_MS && l.elapsed == 0.0 && l.caption == caption
  {
    Label(x, y, caption, color, LABEL_LIFE_MS, 0.0)
  }

  /** FloatingText.update(dt): the clock runs and the text rises. */
  function LabelStep(l: Label, dt: real): (m: Label)
    ensures m.elapsed == l.elapsed + dt && m.y == l.y - dt * 0.08 && m.life == l.life && m.caption == l.caption
  {
    l.(elapsed := l.elapsed + dt, y := l.y - dt * 0.08)
  }

  predicate LabelAlive(l: Label)
  {
    l.elapsed < l.life
  }

  /** The update-and-filter of the board's floating texts. */
  function LiveLabels(ls: seq<Label>, dt: real): (ms: seq<Label>)
    ensures |ms| <= |ls|
    ensures forall k :: 0 <= k < |ms| ==> LabelAlive(ms[k])
    ensures forall k :: 0 <= k < |ls| && LabelAlive(LabelStep(ls[k], dt)) ==> LabelStep(ls[k], dt) in ms
    ensures forall m :: m in ms ==> exists k :: 0 <= k < |ls| && m == LabelStep(ls[k], dt)
    decreases |ls|
  {
    if ls == [] then []
    else
      var m := LabelStep(ls[0], dt);
      var rest := LiveLabels(ls[1..], dt);
      assert forall k :: 1 <= k < |ls| ==> ls[k] == ls[1..][k - 1];
      if LabelAlive(m) then [m] + rest else rest
  }

  /** A fresh text lives exactly until 800 ms of updates have run. */
  lemma {:induction false} LabelLifetime(l: Label, dt: real)
    requires l.life == LABEL_LIFE_MS && l.elapsed == 0.0
    ensures LabelAlive(LabelStep(l, dt)) <==> dt < LABEL_LIFE_MS
  {
  }

  /** The board moved n times: the update loop applied to each shape's parts. */
  function MovedTimes(m: Motion, speed: real, size: real, rotSpeed: real, dt: real, n: nat): Motion
    decreases n
  {
    if n == 0 then m else MovedTimes(Moved(m, speed, size, rotSpeed, dt), speed, size, rotSpeed, dt, n - 1)
  }

  /** Any number of frames keeps a shape in its band. */
  lemma {:induction false} MovedTimesInBand(m: Motion, speed: real, size: real, rotSpeed: real, dt: real, n: nat)
    requires InBand(m.x, size) && 0.0 <= dt
    ensures InBand(MovedTimes(m, speed, size, rotSpeed, dt, n).x, size)
    decreases n
  {
    if n > 0 {
      MovedStaysInBand(m, speed, size, rotSpeed, dt);
      MovedTimesInBand(Moved(m, speed, size, rotSpeed, dt), speed, size, rotSpeed, dt, n - 1);
    }
  }

  /** The sparks after n update-and-filter passes. */
  function LiveSparksTimes(ps: seq<Spark>, dt: real, n: nat): seq<Spark>
    decreases n
  {
    if n == 0 then ps else LiveSparksTimes(LiveSparks(ps, dt), dt, n - 1)
  }

  function LiveLabelsTimes(ls: seq<Label>, dt: real, n: nat): seq<Label>
    decreases n
  {
    if n == 0 then ls else LiveLabelsTimes(LiveLabels(ls, dt), dt, n - 1)
  }

  /** One more pass is one more step after the others. */
  lemma {:induction false} MovedTimesSnoc(m: Motion, speed: real, size: real, rotSpeed: real, dt: real, n: nat)
    ensures MovedTimes(m, speed, size, rotSpeed, dt, n + 1) == Moved(MovedTimes(m, speed, size, rotSpeed, dt, n), speed, size, rotSpeed, dt)
    decreases n
  {
    if n > 0 {
      MovedTimesSnoc(Moved(m, speed, size, rotSpeed, dt), speed, size, rotSpeed, dt, n - 1);
    }
  }

  lemma {:induction false} LiveSparksTimesSnoc(ps: seq<Spark>, dt: real, n: nat)
    ensures LiveSparksTimes(ps, dt, n + 1) == LiveSparks(LiveSparksTimes(ps, dt, n), dt)
    decreases n
  {
    if n > 0 {
      LiveSparksTimesSnoc(LiveSparks(ps, dt), dt, n - 1);
    }
  }

  lemma {:induction false} LiveLabelsTimesSnoc(ls: seq<Label>, dt: real, n: nat)
    ensures LiveLabelsTimes(ls, dt, n + 1) == LiveLabels(LiveLabelsTimes(ls, dt, n), dt)
    decreases n
  {
    if n > 0 {
      LiveLabelsTimesSnoc(LiveLabels(ls, dt), dt, n - 1);
    }
  }
}
