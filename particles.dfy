/** Burst particles and floating score text of the fruit game (js/particles.js). */
module Particles {
  import opened Utils
  import opened Config

  /** The random values one particle draws: the radius and speed draws of
      Math.random(), and the launch angle randomFloat(0, 2π) given by its
      cosine and sine (a point on the unit circle). */
  datatype ParticleRolls = ParticleRolls(radius: real, speed: real, cos: real, sin: real)

  predicate ValidParticleRolls(r: ParticleRolls)
  {
    0.0 <= r.radius < 1.0 && 0.0 <= r.speed < 1.0 && r.cos * r.cos + r.sin * r.sin == 1.0
  }

  /** How far through its life something that has lived `elapsed` of `lifetime` is. */
  function Progress(elapsed: real, lifetime: real): (p: real)
    requires 0.0 < lifetime
    ensures 0.0 <= elapsed < lifetime ==> 0.0 <= p < 1.0
    ensures elapsed == 0.0 ==> p == 0.0
  {
    if 0.0 <= elapsed < lifetime then
      FractionBelowOne(elapsed, lifetime);
      elapsed / lifetime
    else
      elapsed / lifetime
  }

  /** The alpha a spark or a floating text is drawn with: 1 at birth,
      falling towards 0 as the end of its life nears, and positive while it
      lives. */
  function LifeAlpha(elapsed: real, lifetime: real): (a: real)
    requires 0.0 < lifetime
    ensures 0.0 <= elapsed < lifetime ==> 0.0 < a <= 1.0
    ensures elapsed == 0.0 ==> a == 1.0
  {
    1.0 - Progress(elapsed, lifetime)
  }

  /** randomFloat(100, 350): the speed a particle is launched at. */
  function LaunchSpeed(roll: real): (speed: real)
    requires 0.0 <= roll < 1.0
    ensures 100.0 <= speed < 350.0
  {
    RandomFloat(100.0, 350.0, roll)
  }

  /** A particle leaves the burst at exactly its drawn speed, whatever the angle. */
  lemma {:induction false} LaunchVelocity(rolls: ParticleRolls)
    requires ValidParticleRolls(rolls)
    ensures var speed := LaunchSpeed(rolls.speed);
      var vx, vy := rolls.cos * speed, rolls.sin * speed;
      vx * vx + vy * vy == speed * speed
  {
    var speed := LaunchSpeed(rolls.speed);
    calc {
      (rolls.cos * speed) * (rolls.cos * speed) + (rolls.sin * speed) * (rolls.sin * speed);
      (rolls.cos * rolls.cos + rolls.sin * rolls.sin) * (speed * speed);
      speed * speed;
    }
  }

  /** The life clock particles and texts share: time lived and whether alive. */
  datatype Clock = Clock(elapsed: real, alive: bool)

  /** One update's effect on the clock: the time always runs; reaching the
      lifetime kills, and nothing revives. */
  function Tick(c: Clock, dt: real, lifetime: real): (n: Clock)
    ensures n.elapsed == c.elapsed + dt
    ensures n.alive <==> c.alive && n.elapsed < lifetime
  {
    var elapsed := c.elapsed + dt;
    if elapsed >= lifetime then Clock(elapsed, false) else Clock(elapsed, c.alive)
  }

  /** The clock after a run of updates with frame times `dts`. */
  function Run(c: Clock, dts: seq<real>, lifetime: real): Clock
    decreases |dts|
  {
    if dts == [] then c else Run(Tick(c, dts[0], lifetime), dts[1..], lifetime)
  }

  function Sum(dts: seq<real>): real
  {
    if dts == [] then 0.0 else dts[0] + Sum(dts[1..])
  }

  lemma {:induction false} SumNonNegative(dts: seq<real>)
    requires forall k :: 0 <= k < |dts| ==> 0.0 <= dts[k]
    ensures 0.0 <= Sum(dts)
  {
    if dts != [] {
      SumNonNegative(dts[1..]);
    }
  }

  /** Over any run of non-negative frame times, a clock that is only alive
      before its lifetime stays alive exactly while its total lived time is
      below that lifetime: nothing revives, and dying needs no exact frame. */
  lemma {:induction false} RunLifespan(c: Clock, dts: seq<real>, lifetime: real)
    requires c.alive ==> c.elapsed < lifetime
    requires forall k :: 0 <= k < |dts| ==> 0.0 <= dts[k]
    ensures Run(c, dts, lifetime).elapsed == c.elapsed + Sum(dts)
    ensures Run(c, dts, lifetime).alive <==> c.alive && c.elapsed + Sum(dts) < lifetime
    decreases |dts|
  {
    if dts != [] {
      var next := Tick(c, dts[0], lifetime);
      RunLifespan(next, dts[1..], lifetime);
      SumNonNegative(dts[1..]);
      assert Sum(dts) == dts[0] + Sum(dts[1..]);
      assert Run(c, dts, lifetime) == Run(next, dts[1..], lifetime);
    }
  }

  /** The moving part of a particle. */
  datatype Motion = Motion(x: real, y: real, vx: real, vy: real, clock: Clock)

  /** Particle.update(dt) on its moving part: a particle whose time runs out
      dies where it stands; otherwise drag slows vx by 2%, gravity adds to vy,
      and the particle moves by its new velocity. */
  function ParticleStep(m: Motion, dt: real, lifetime: real, gravity: real): (n: Motion)
    ensures n.clock == Tick(m.clock, dt, lifetime)
    ensures n.clock.elapsed >= lifetime ==> n.x == m.x && n.y == m.y && n.vx == m.vx && n.vy == m.vy
    ensures n.clock.elapsed < lifetime ==> n.vx == m.vx * 0.98
    ensures n.clock.elapsed < lifetime && 0.0 <= gravity && 0.0 <= dt ==> m.vy <= n.vy
  {
    var clock := Tick(m.clock, dt, lifetime);
    if clock.elapsed >= lifetime then
      m.(clock := clock)
    else
      var dtSec := dt / 1000.0;
      var vx := m.vx * 0.98;
      var vy := m.vy + Fall(gravity, dtSec);
      Motion(m.x + vx * dtSec, m.y + vy * dtSec, vx, vy, clock)
  }

  /** The speed gravity adds in dtSec seconds. */
  function Fall(gravity: real, dtSec: real): (dv: real)
    ensures 0.0 <= gravity && 0.0 <= dtSec ==> 0.0 <= dv
  {
    if 0.0 <= gravity && 0.0 <= dtSec then
      MulMonotone(0.0, gravity, dtSec);
      gravity * dtSec
    else
      gravity * dtSec
  }

  /** The moving part of a floating text. */
  datatype Drift = Drift(y: real, vy: real, clock: Clock)

  /** FloatingText.update(dt) on its moving part: a text whose time runs out
      dies where it stands; otherwise it moves by its velocity, which then
      decays by 3%. */
  function TextStep(d: Drift, dt: real, lifetime: real): (n: Drift)
    ensures n.clock == Tick(d.clock, dt, lifetime)
    ensures n.clock.elapsed >= lifetime ==> n.y == d.y && n.vy == d.vy
    ensures n.clock.elapsed < lifetime ==> n.vy == d.vy * 0.97
    ensures n.clock.elapsed < lifetime && d.vy <= 0.0 && 0.0 <= dt ==> n.y <= d.y && d.vy <= n.vy <= 0.0
  {
    var clock := Tick(d.clock, dt, lifetime);
    if clock.elapsed >= lifetime then
      d.(clock := clock)
    else
      var dtSec := dt / 1000.0;
      var dy := d.vy * dtSec;
      if d.vy <= 0.0 && 0.0 <= dt then
        MulMonotone(d.vy, 0.0, dtSec);
        Drift(d.y + dy, d.vy * 0.97, clock)
      else
        Drift(d.y + dy, d.vy * 0.97, clock)
  }

  class Particle {
    const r: int
    const g: int
    const b: int
    const radius: real
    const lifetime: real
    const gravity: real

    var x: real
    var y: real
    var vx: real
    var vy: real
    var elapsed: real
    var alive: bool

    /** A live particle has time left; a dead one is never revived. */
    ghost predicate Valid()
      reads this
    {
      0.0 < lifetime && 0.0 <= elapsed && (alive ==> elapsed < lifetime)
    }

    /** new Particle(x, y, color). */
    constructor(x: real, y: real, color: string, rolls: ParticleRolls)
      requires ValidParticleRolls(rolls)
      ensures this.x == x && this.y == y
      ensures Rgb(r, g, b) == HexToRgb(color)
      ensures 3.0 <= radius < 8.0
      ensures lifetime == PARTICLE_LIFETIME && gravity == 400.0
      ensures elapsed == 0.0 && alive
      ensures vx == rolls.cos * LaunchSpeed(rolls.speed) && vy == rolls.sin * LaunchSpeed(rolls.speed)
      ensures Valid()
    {
      this.x := x;
      this.y := y;
      var rgb := HexToRgb(color);
      r := rgb.r;
      g := rgb.g;
      b := rgb.b;
      radius := RandomFloat(3.0, 8.0, rolls.radius);
      lifetime := PARTICLE_LIFETIME;
      elapsed := 0.0;
      var speed := LaunchSpeed(rolls.speed);
      vx := rolls.cos * speed;
      vy := rolls.sin * speed;
      gravity := 400.0;
      alive := true;
    }

    function State(): Motion
      reads this
    {
      Motion(x, y, vx, vy, Clock(elapsed, alive))
    }

    method Update(dt: real)
      requires Valid()
      modifies this
      ensures State() == ParticleStep(old(State()), dt, lifetime, gravity)
      ensures 0.0 <= dt ==> Valid()
    {
      var dtSec := dt / 1000.0;
      elapsed := elapsed + dt;
      if elapsed >= lifetime {
        alive := false;
        return;
      }
      vx := vx * 0.98;
      vy := vy + Fall(gravity, dtSec);
      x := x + vx * dtSec;
      y := y + vy * dtSec;
    }

    /** draw's radius: shrinks from the full radius towards half of it. */
    function DrawRadius(): (d: real)
      reads this
      requires Valid()
      ensures alive && 0.0 <= radius ==> radius / 2.0 <= d <= radius
    {
      var p := Progress(elapsed, lifetime);
      if alive && 0.0 <= radius then
        MulMonotone(0.0, p * 0.5, radius);
        MulMonotone(p * 0.5, 0.5, radius);
        radius * (1.0 - p * 0.5)
      else
        radius * (1.0 - p * 0.5)
    }
  }

  class FloatingText {
    const x: real
    const text: string
    const color: string
    const size: real
    const lifetime: real

    var y: real
    var vy: real
    var elapsed: real
    var alive: bool

    ghost predicate Valid()
      reads this
    {
      0.0 < lifetime && 0.0 <= elapsed && (alive ==> elapsed < lifetime)
    }

    /** new FloatingText(x, y, text, color, size = 36). */
    constructor(x: real, y: real, text: string, color: string, size: real := 36.0)
      ensures this.x == x && this.y == y && this.text == text && this.color == color && this.size == size
      ensures lifetime == FLOAT_TEXT_LIFETIME && elapsed == 0.0 && alive && vy == -120.0
      ensures Valid()
    {
      this.x := x;
      this.y := y;
      this.text := text;
      this.color := color;
      this.size := size;
      lifetime := FLOAT_TEXT_LIFETIME;
      elapsed := 0.0;
      alive := true;
      vy := -120.0;
    }

    function State(): Drift
      reads this
    {
      Drift(y, vy, Clock(elapsed, alive))
    }

    method Update(dt: real)
      requires Valid()
      modifies this
      ensures State() == TextStep(old(State()), dt, lifetime)
      ensures 0.0 <= dt ==> Valid()
    {
      var dtSec := dt / 1000.0;
      elapsed := elapsed + dt;
      if elapsed >= lifetime {
        alive := false;
        return;
      }
      y := y + vy * dtSec;
      vy := vy * 0.97;
    }

    /** draw's scale: grows from 1 to at most 1.3. */
    function Scale(): (s: real)
      reads this
      requires Valid()
      ensures alive ==> 1.0 <= s < 1.3
    {
      1.0 + Progress(elapsed, lifetime) * 0.3
    }
  }

  /** Each particle's alive flag, read from the heap. */
  function AliveFlags(ps: seq<Particle>): (fs: seq<bool>)
    reads ps
    ensures |fs| == |ps| && forall k :: 0 <= k < |ps| ==> fs[k] == ps[k].alive
  {
    if ps == [] then [] else [ps[0].alive] + AliveFlags(ps[1..])
  }

  /** Each text's alive flag, read from the heap. */
  function TextAliveFlags(ts: seq<FloatingText>): (fs: seq<bool>)
    reads ts
    ensures |fs| == |ts| && forall k :: 0 <= k < |ts| ==> fs[k] == ts[k].alive
  {
    if ts == [] then [] else [ts[0].alive] + TextAliveFlags(ts[1..])
  }

  /** Every particle of ps has taken one update of dt from its moving part in ms. */
  ghost predicate ParticlesStepped(ps: seq<Particle>, ms: seq<Motion>, dt: real)
    reads ps
  {
    |ps| == |ms| && forall k :: 0 <= k < |ps| ==> ps[k].State() == ParticleStep(ms[k], dt, ps[k].lifetime, ps[k].gravity)
  }

  /** The particle list after update(dt): each particle of ps, whose moving
      parts were ms, has stepped, and `after` keeps exactly those still alive,
      in their order. */
  ghost predicate ParticlesUpdated(ps: seq<Particle>, ms: seq<Motion>, dt: real, after: seq<Particle>)
    reads ps
  {
    ParticlesStepped(ps, ms, dt) && after == Kept(ps, AliveFlags(ps))
  }

  /** Every text of ts has taken one update of dt from its moving part in ds. */
  ghost predicate TextsStepped(ts: seq<FloatingText>, ds: seq<Drift>, dt: real)
    reads ts
  {
    |ts| == |ds| && forall k :: 0 <= k < |ts| ==> ts[k].State() == TextStep(ds[k], dt, ts[k].lifetime)
  }

  /** The text list after update(dt), as for particles. */
  ghost predicate TextsUpdated(ts: seq<FloatingText>, ds: seq<Drift>, dt: real, after: seq<FloatingText>)
    reads ts
  {
    TextsStepped(ts, ds, dt) && after == Kept(ts, TextAliveFlags(ts))
  }

  /** The first loop's progress down to index i: the particles after i have
      taken their step, those up to i are as they were. */
  ghost predicate ParticlesDone(P: seq<Particle>, S: seq<Motion>, A: seq<bool>, dt: real, i: int)
    reads P
  {
    && |P| == |S| == |A| && -1 <= i < |P|
    && (forall j :: i < j < |P| ==> P[j].State() == ParticleStep(S[j], dt, P[j].lifetime, P[j].gravity) && P[j].Valid() && P[j].alive == A[j])
    && (forall j :: 0 <= j <= i ==> P[j].State() == S[j] && P[j].Valid())
  }

  /** The second loop's progress down to index i. */
  ghost predicate TextsDone(T: seq<FloatingText>, S: seq<Drift>, A: seq<bool>, dt: real, i: int)
    reads T
  {
    && |T| == |S| == |A| && -1 <= i < |T|
    && (forall j :: i < j < |T| ==> T[j].State() == TextStep(S[j], dt, T[j].lifetime) && T[j].Valid() && T[j].alive == A[j])
    && (forall j :: 0 <= j <= i ==> T[j].State() == S[j] && T[j].Valid())
  }

  /** When the first loop is done, the list holds the survivors, each once,
      each alive and well-formed. */
  lemma {:induction false} ParticlesFinished(P: seq<Particle>, S: seq<Motion>, A: seq<bool>, dt: real, after: seq<Particle>)
    requires Distinct(P) && ParticlesDone(P, S, A, dt, -1) && after == Kept(P, A)
    ensures ParticlesUpdated(P, S, dt, after)
    ensures Distinct(after) && forall k :: 0 <= k < |after| ==> after[k].alive && after[k].Valid()
  {
    assert A == AliveFlags(P);
    KeptDistinct(P, A);
    forall k | 0 <= k < |after| ensures after[k].alive && after[k].Valid()
    {
      var j := KeptIndex(P, A, k);
    }
  }

  /** When the second loop is done, the list holds the surviving texts. */
  lemma {:induction false} TextsFinished(T: seq<FloatingText>, S: seq<Drift>, A: seq<bool>, dt: real, after: seq<FloatingText>)
    requires Distinct(T) && TextsDone(T, S, A, dt, -1) && after == Kept(T, A)
    ensures TextsUpdated(T, S, dt, after)
    ensures Distinct(after) && forall k :: 0 <= k < |after| ==> after[k].alive && after[k].Valid()
  {
    assert A == TextAliveFlags(T);
    KeptDistinct(T, A);
    forall k | 0 <= k < |after| ensures after[k].alive && after[k].Valid()
    {
      var j := KeptIndex(T, A, k);
    }
  }

  /** Which particles one update with frame time dt leaves alive, from
      their moving parts `ms` before it. */
  ghost function StepsAlive(ps: seq<Particle>, ms: seq<Motion>, dt: real): (fs: seq<bool>)
    requires |ps| == |ms|
    ensures |fs| == |ps|
    ensures forall k :: 0 <= k < |ps| ==> fs[k] == ParticleStep(ms[k], dt, ps[k].lifetime, ps[k].gravity).clock.alive
  {
    if ps == [] then [] else [ParticleStep(ms[0], dt, ps[0].lifetime, ps[0].gravity).clock.alive] + StepsAlive(ps[1..], ms[1..], dt)
  }

  /** Which texts one update with frame time dt leaves alive. */
  ghost function TextStepsAlive(ts: seq<FloatingText>, ds: seq<Drift>, dt: real): (fs: seq<bool>)
    requires |ts| == |ds|
    ensures |fs| == |ts|
    ensures forall k :: 0 <= k < |ts| ==> fs[k] == TextStep(ds[k], dt, ts[k].lifetime).clock.alive
  {
    if ts == [] then [] else [TextStep(ds[0], dt, ts[0].lifetime).clock.alive] + TextStepsAlive(ts[1..], ds[1..], dt)
  }

  /** The moving parts of a list of particles, read from the heap. */
  function Motions(ps: seq<Particle>): (ms: seq<Motion>)
    reads ps
    ensures |ms| == |ps| && forall k :: 0 <= k < |ps| ==> ms[k] == ps[k].State()
  {
    if ps == [] then [] else [ps[0].State()] + Motions(ps[1..])
  }

  /** The moving parts of a list of texts, read from the heap. */
  function Drifts(ts: seq<FloatingText>): (ds: seq<Drift>)
    reads ts
    ensures |ds| == |ts| && forall k :: 0 <= k < |ts| ==> ds[k] == ts[k].State()
  {
    if ts == [] then [] else [ts[0].State()] + Drifts(ts[1..])
  }


  class ParticleSystem {
    var particles: seq<Particle>
    var texts: seq<FloatingText>

    /** Nothing is listed twice, everything listed is alive and well-formed. */
    ghost predicate Valid()
      reads this`particles, this`texts, particles, texts
    {
      ParticlesValid() && TextsValid()
    }

    ghost predicate ParticlesValid()
      reads this`particles, particles
    {
      Distinct(particles) && forall k :: 0 <= k < |particles| ==> particles[k].alive && particles[k].Valid()
    }

    ghost predicate TextsValid()
      reads this`texts, texts
    {
      Distinct(texts) && forall k :: 0 <= k < |texts| ==> texts[k].alive && texts[k].Valid()
    }

    constructor()
      ensures particles == [] && texts == []
      ensures Valid()
    {
      particles := [];
      texts := [];
    }

    /** burst(x, y, color, count = PARTICLE_COUNT): appends `count` new
        particles at (x, y), the i-th drawing `rolls[i]`. */
    method Burst(x: real, y: real, color: string, rolls: seq<ParticleRolls>, count: int := PARTICLE_COUNT)
      requires Valid()
      requires count <= |rolls| && forall i :: 0 <= i < |rolls| ==> ValidParticleRolls(rolls[i])
      modifies this
      ensures Valid()
      ensures texts == old(texts)
      ensures |particles| == |old(particles)| + (if count < 0 then 0 else count)
      ensures particles[..|old(particles)|] == old(particles)
      ensures forall i :: |old(particles)| <= i < |particles| ==>
        && fresh(particles[i]) && particles[i].x == x && particles[i].y == y
        && Rgb(particles[i].r, particles[i].g, particles[i].b) == HexToRgb(color)
    {
      var i := 0;
      while i < count
        invariant 0 <= i <= (if count < 0 then 0 else count)
        invariant |particles| == |old(particles)| + i
        invariant particles[..|old(particles)|] == old(particles)
        invariant texts == old(texts)
        invariant forall j :: |old(particles)| <= j < |particles| ==>
          && fresh(particles[j]) && particles[j].x == x && particles[j].y == y
          && Rgb(particles[j].r, particles[j].g, particles[j].b) == HexToRgb(color)
        invariant Valid()
      {
        var p := new Particle(x, y, color, rolls[i]);
        particles := particles + [p];
        i := i + 1;
      }
    }

    /** addFloatingText(x, y, text, color, size): a call without a size
        leaves it to the floating text's own default of 36. */
    method AddFloatingText(x: real, y: real, text: string, color: string, size: real := 36.0)
      requires Valid()
      modifies this
      ensures Valid()
      ensures particles == old(particles)
      ensures |texts| == |old(texts)| + 1 && texts[..|old(texts)|] == old(texts)
      ensures var t := texts[|texts| - 1];
        fresh(t) && t.x == x && t.y == y && t.text == text && t.color == color && t.size == size
    {
      var t := new FloatingText(x, y, text, color, size);
      texts := texts + [t];
    }

    /** update(dt): every listed particle and text is updated once, and those
        that died are removed; the survivors keep their order. */
    method Update(dt: real)
      requires Valid() && 0.0 <= dt
      modifies this, particles, texts
      ensures Valid()
      ensures ParticlesUpdated(old(particles), old(Motions(particles)), dt, particles)
      ensures TextsUpdated(old(texts), old(Drifts(texts)), dt, texts)
    {
      ghost var P, M := particles, Motions(particles);
      ghost var T, D := texts, Drifts(texts);
      UpdateParticles(dt, P, M, T, D);
      UpdateTexts(dt, T, D, P, M, particles);
    }

    /** The first loop of update(dt). */
    method UpdateParticles(dt: real, ghost P: seq<Particle>, ghost S: seq<Motion>, ghost T: seq<FloatingText>, ghost D: seq<Drift>)
      requires ParticlesValid() && 0.0 <= dt
      requires particles == P && S == Motions(P)
      requires TextsValid() && texts == T && D == Drifts(T)
      modifies this`particles, particles
      ensures ParticlesValid()
      ensures ParticlesUpdated(P, S, dt, particles)
      ensures TextsValid() && texts == T && D == Drifts(T)
    {
      ParticlesLoop(dt, P, S, StepsAlive(P, S, dt));
    }

    /** The loop itself, from the back: each particle is updated, and spliced
        out when it died. */
    method ParticlesLoop(dt: real, ghost P: seq<Particle>, ghost S: seq<Motion>, ghost A: seq<bool>)
      requires Distinct(P) && 0.0 <= dt && |P| == |S|
      requires A == StepsAlive(P, S, dt)
      requires ParticlesDone(P, S, A, dt, |P| - 1)
      requires particles == P
      modifies this`particles, P
      ensures ParticlesUpdated(P, S, dt, particles)
      ensures ParticlesValid()
    {
      var i := |particles| - 1;
      assert P[..i + 1] == P && P[i + 1..] == [] && A[i + 1..] == [];
      while i >= 0
        invariant -1 <= i < |P|
        invariant particles == P[..i + 1] + Kept(P[i + 1..], A[i + 1..])
        invariant ParticlesDone(P, S, A, dt, i)
      {
        assert particles[i] == P[i];
        StepParticleAt(i, dt, P, S, A);
        SpliceParticleAt(i, P, A);
        i := i - 1;
      }
      assert P[..0] == [] && P[0..] == P && A[0..] == A;
      ParticlesFinished(P, S, A, dt, particles);
    }

    /** One pass of the first loop: particles[i] is updated. */
    method StepParticleAt(i: int, dt: real, ghost P: seq<Particle>, ghost S: seq<Motion>, ghost A: seq<bool>)
      requires 0 <= i < |P| == |S| && Distinct(P) && 0.0 <= dt
      requires A == StepsAlive(P, S, dt)
      requires ParticlesDone(P, S, A, dt, i)
      requires i < |particles| && particles[i] == P[i]
      modifies P[i]
      ensures ParticlesDone(P, S, A, dt, i - 1)
    {
      particles[i].Update(dt);
    }

    /** The rest of that pass: particles[i] is spliced out if it died. */
    method SpliceParticleAt(i: int, ghost P: seq<Particle>, ghost A: seq<bool>)
      requires 0 <= i < |P| == |A| && P[i].alive == A[i]
      requires particles == P[..i + 1] + Kept(P[i + 1..], A[i + 1..])
      modifies this`particles
      ensures particles == P[..i] + Kept(P[i..], A[i..])
    {
      assert particles[i] == P[i];
      ghost var rest := Kept(P[i + 1..], A[i + 1..]);
      KeptFrom(P, A, i);
      if !particles[i].alive {
        DropAt(P, i, rest);
        particles := particles[..i] + particles[i + 1..];
      } else {
        KeepAt(P, i, rest);
      }
    }

    /** The second loop of update(dt). */
    method UpdateTexts(dt: real, ghost T: seq<FloatingText>, ghost S: seq<Drift>, ghost P: seq<Particle>, ghost M: seq<Motion>, ghost survivors: seq<Particle>)
      requires TextsValid() && 0.0 <= dt
      requires texts == T && S == Drifts(T)
      requires ParticlesValid() && ParticlesUpdated(P, M, dt, survivors) && particles == survivors
      modifies this`texts, texts
      ensures TextsValid()
      ensures TextsUpdated(T, S, dt, texts)
      ensures ParticlesValid() && ParticlesUpdated(P, M, dt, survivors) && particles == survivors
    {
      TextsLoop(dt, T, S, TextStepsAlive(T, S, dt));
    }

    /** The loop itself, from the back, as for particles. */
    method TextsLoop(dt: real, ghost T: seq<FloatingText>, ghost S: seq<Drift>, ghost A: seq<bool>)
      requires Distinct(T) && 0.0 <= dt && |T| == |S|
      requires A == TextStepsAlive(T, S, dt)
      requires TextsDone(T, S, A, dt, |T| - 1)
      requires texts == T
      modifies this`texts, T
      ensures TextsUpdated(T, S, dt, texts)
      ensures TextsValid()
    {
      var i := |texts| - 1;
      assert T[..i + 1] == T && T[i + 1..] == [] && A[i + 1..] == [];
      while i >= 0
        invariant -1 <= i < |T|
        invariant texts == T[..i + 1] + Kept(T[i + 1..], A[i + 1..])
        invariant TextsDone(T, S, A, dt, i)
      {
        assert texts[i] == T[i];
        StepTextAt(i, dt, T, S, A);
        SpliceTextAt(i, T, A);
        i := i - 1;
      }
      assert T[..0] == [] && T[0..] == T && A[0..] == A;
      TextsFinished(T, S, A, dt, texts);
    }

    /** One pass of the second loop: texts[i] is updated. */
    method StepTextAt(i: int, dt: real, ghost T: seq<FloatingText>, ghost S: seq<Drift>, ghost A: seq<bool>)
      requires 0 <= i < |T| == |S| && Distinct(T) && 0.0 <= dt
      requires A == TextStepsAlive(T, S, dt)
      requires TextsDone(T, S, A, dt, i)
      requires i < |texts| && texts[i] == T[i]
      modifies T[i]
      ensures TextsDone(T, S, A, dt, i - 1)
    {
      texts[i].Update(dt);
    }

    /** The rest of that pass: texts[i] is spliced out if it died. */
    method SpliceTextAt(i: int, ghost T: seq<FloatingText>, ghost A: seq<bool>)
      requires 0 <= i < |T| == |A| && T[i].alive == A[i]
      requires texts == T[..i + 1] + Kept(T[i + 1..], A[i + 1..])
      modifies this`texts
      ensures texts == T[..i] + Kept(T[i..], A[i..])
    {
      assert texts[i] == T[i];
      ghost var rest := Kept(T[i + 1..], A[i + 1..]);
      KeptFrom(T, A, i);
      if !texts[i].alive {
        DropAt(T, i, rest);
        texts := texts[..i] + texts[i + 1..];
      } else {
        KeepAt(T, i, rest);
      }
    }

    /** clear(). */
    method Clear()
      modifies this
      ensures particles == [] && texts == []
      ensures Valid()
    {
      particles := [];
      texts := [];
    }
  }
}
