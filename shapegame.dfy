/** The Game class of Spot the Shape (js/game.js): the counters of GameRules
    held in fields and changed step by step, the board of BoardShape objects,
    and the sparks and floating texts of the taps. Every method is proved
    against the GameRules function of the same step. */
module ShapeGame {
  import opened Utils
  import opened Board
  import opened GameRules
  import Config

  predicate AllRolls(rolls: seq<real>)
  {
    forall k :: 0 <= k < |rolls| ==> 0.0 <= rolls[k] < 1.0
  }

  /** The board types the selection loop of _setupRound draws: each roll
      takes one name out of those left, until `count` names are drawn or
      none is left. */
  function Picked(avail: seq<string>, count: int, rolls: seq<real>): (types: seq<string>)
    requires AllRolls(rolls) && |avail| <= |rolls|
    ensures |types| == if count <= 0 then 0 else if count < |avail| then count else |avail|
    decreases |avail|
  {
    if count <= 0 || |avail| == 0 then []
    else
      var i := RandomIndex(rolls[0], |avail|);
      [avail[i]] + Picked(avail[..i] + avail[i + 1..], count - 1, rolls[1..])
  }

  /** One draw of the selection. */
  lemma PickedUnfold(avail: seq<string>, count: int, rolls: seq<real>)
    requires AllRolls(rolls) && |avail| <= |rolls| && 0 < count && 0 < |avail|
    ensures var i := RandomIndex(rolls[0], |avail|);
      Picked(avail, count, rolls) == [avail[i]] + Picked(avail[..i] + avail[i + 1..], count - 1, rolls[1..])
  {
  }

  /** Every drawn type is one of the available ones. */
  lemma {:induction false} PickedFromAvail(avail: seq<string>, count: int, rolls: seq<real>)
    requires AllRolls(rolls) && |avail| <= |rolls|
    ensures forall t :: t in Picked(avail, count, rolls) ==> t in avail
    decreases |avail|
  {
    if count > 0 && |avail| > 0 {
      var i := RandomIndex(rolls[0], |avail|);
      var rest := avail[..i] + avail[i + 1..];
      PickedFromAvail(rest, count - 1, rolls[1..]);
      PickedUnfold(avail, count, rolls);
      forall t | t in rest ensures t in avail
      {
        var k :| 0 <= k < |rest| && rest[k] == t;
        assert rest[k] == avail[if k < i then k else k + 1];
      }
    }
  }

  /** Taking one element out of a sequence without repeats leaves a
      sequence without repeats that no longer holds it. */
  lemma {:induction false} DropDistinct(s: seq<string>, i: int)
    requires Distinct(s) && 0 <= i < |s|
    ensures Distinct(s[..i] + s[i + 1..]) && s[i] !in s[..i] + s[i + 1..]
  {
    var rest := s[..i] + s[i + 1..];
    forall k | 0 <= k < |rest| ensures rest[k] == s[if k < i then k else k + 1]
    {
    }
  }

  /** From distinct names the draw gives distinct types: no shape appears
      twice on a board. */
  lemma {:induction false} PickedDistinct(avail: seq<string>, count: int, rolls: seq<real>)
    requires AllRolls(rolls) && |avail| <= |rolls| && Distinct(avail)
    ensures Distinct(Picked(avail, count, rolls))
    decreases |avail|
  {
    if count > 0 && |avail| > 0 {
      var i := RandomIndex(rolls[0], |avail|);
      var rest := avail[..i] + avail[i + 1..];
      DropDistinct(avail, i);
      PickedDistinct(rest, count - 1, rolls[1..]);
      PickedFromAvail(rest, count - 1, rolls[1..]);
      PickedUnfold(avail, count, rolls);
      var tail := Picked(rest, count - 1, rolls[1..]);
      assert avail[i] !in tail;
      var all := [avail[i]] + tail;
      forall a, b | 0 <= a < b < |all| ensures all[a] != all[b]
      {
        if a == 0 {
          assert all[b] == tail[b - 1];
        } else {
          assert all[a] == tail[a - 1] && all[b] == tail[b - 1];
        }
      }
    }
  }

  /** The selection loop of _setupRound and _setupDuoRound, splicing from a
      copy of the names. */
  method PickBoardTypes(names: seq<string>, count: int, rolls: seq<real>) returns (types: seq<string>)
    requires AllRolls(rolls) && |names| <= |rolls|
    ensures types == Picked(names, count, rolls)
  {
    var available := names;
    types := [];
    var i := 0;
    while i < count && |available| > 0
      invariant 0 <= i && |available| + i == |names| && |available| <= |rolls[i..]|
      invariant types + Picked(available, count - i, rolls[i..]) == Picked(names, count, rolls)
      decreases |available|
    {
      var idx := RandomIndex(rolls[i], |available|);
      assert rolls[i..][0] == rolls[i] && rolls[i..][1..] == rolls[i + 1..];
      PickedUnfold(available, count - i, rolls[i..]);
      types := types + [available[idx]];
      available := available[..idx] + available[idx + 1..];
      i := i + 1;
    }
  }

  /** The target type, drawn uniformly from the types on the board: undefined
      (None) on an empty board. */
  function PickTarget(types: seq<string>, roll: real): (t: Option<string>)
    requires 0.0 <= roll < 1.0
    ensures t.Some? <==> |types| > 0
    ensures t.Some? ==> t.value in types
  {
    if |types| == 0 then None else Some(types[RandomIndex(roll, |types|)])
  }

  /** Where a new shape is placed and how fast it moves (the results of
      _randomSize and the placement draws), and the four draws of its
      constructor. */
  datatype ShapeDraw = ShapeDraw(x: real, y: real, size: real, speed: real,
                                 phase: real, amp: real, rot: real, spin: real)

  predicate ValidDraw(d: ShapeDraw)
  {
    0.0 <= d.phase < 1.0 && 0.0 <= d.amp < 1.0 && 0.0 <= d.rot < 1.0 && 0.0 <= d.spin < 1.0
  }

  /** The draws of one round set-up: one per type drawn, one for the
      target, and one ShapeDraw per shape; there are never more types than
      names. */
  datatype RoundRolls = RoundRolls(picks: seq<real>, target: real, draws: seq<ShapeDraw>)

  predicate ValidRoundRolls(r: RoundRolls, names: int)
  {
    && AllRolls(r.picks) && names <= |r.picks| && 0.0 <= r.target < 1.0
    && names <= |r.draws| && forall k :: 0 <= k < |r.draws| ==> ValidDraw(r.draws[k])
  }

  /** A shape as the set-up creates it. */
  predicate Placed(s: BoardShape, kind: string, d: ShapeDraw)
    reads s
  {
    && s.kind == kind && s.x == d.x && s.y == d.y && s.size == d.size && s.speed == d.speed
    && !s.highlighted && s.highlightTimer == 0.0
    && 0.0 <= s.wobblePhase < TAU && 3.0 <= s.wobbleAmp < 11.0
  }

  /** The shape-creating loop of the set-up: one new shape per type. */
  method BuildShapes(types: seq<string>, draws: seq<ShapeDraw>) returns (built: seq<BoardShape>)
    requires |types| <= |draws| && forall k :: 0 <= k < |draws| ==> ValidDraw(draws[k])
    ensures |built| == |types| && Distinct(built)
    ensures forall k :: 0 <= k < |built| ==> fresh(built[k]) && Placed(built[k], types[k], draws[k])
  {
    built := [];
    var i := 0;
    while i < |types|
      invariant 0 <= i <= |types| && |built| == i && Distinct(built)
      invariant forall k :: 0 <= k < i ==> fresh(built[k]) && Placed(built[k], types[k], draws[k])
    {
      var d := draws[i];
      assert ValidDraw(d);
      var shape := new BoardShape(types[i], d.x, d.y, d.size, d.speed, d.phase, d.amp, d.rot, d.spin);
      built := built + [shape];
      i := i + 1;
    }
  }

  /** The moving parts of each shape on the board. */
  function Drifts(ss: seq<BoardShape>): (ms: seq<Motion>)
    reads ss
    ensures |ms| == |ss| && forall k :: 0 <= k < |ss| ==> ms[k] == ss[k].Drift()
  {
    seq(|ss|, k requires 0 <= k < |ss| reads ss => ss[k].Drift())
  }

  /** One pass of the loop that updates every shape on the board. */
  function MovedAll(ms: seq<Motion>, ss: seq<BoardShape>, dt: real): (ns: seq<Motion>)
    requires |ms| == |ss|
    ensures |ns| == |ms|
    ensures forall k :: 0 <= k < |ms| ==> ns[k] == Moved(ms[k], ss[k].speed, ss[k].size, ss[k].rotSpeed, dt)
  {
    seq(|ms|, k requires 0 <= k < |ms| => Moved(ms[k], ss[k].speed, ss[k].size, ss[k].rotSpeed, dt))
  }

  /** n passes. */
  function MovedAllTimes(ms: seq<Motion>, ss: seq<BoardShape>, dt: real, n: nat): (ns: seq<Motion>)
    requires |ms| == |ss|
    ensures |ns| == |ms|
    decreases n
  {
    if n == 0 then ms else MovedAllTimes(MovedAll(ms, ss, dt), ss, dt, n - 1)
  }

  lemma {:induction false} MovedAllTimesSnoc(ms: seq<Motion>, ss: seq<BoardShape>, dt: real, n: nat)
    requires |ms| == |ss|
    ensures MovedAllTimes(ms, ss, dt, n + 1) == MovedAll(MovedAllTimes(ms, ss, dt, n), ss, dt)
    decreases n
  {
    if n > 0 {
      MovedAllTimesSnoc(MovedAll(ms, ss, dt), ss, dt, n - 1);
    }
  }

  /** Passes over the board move each shape on its own. */
  lemma {:induction false} MovedAllTimesAt(ms: seq<Motion>, ss: seq<BoardShape>, dt: real, n: nat, k: int)
    requires |ms| == |ss| && 0 <= k < |ms|
    ensures MovedAllTimes(ms, ss, dt, n)[k] == MovedTimes(ms[k], ss[k].speed, ss[k].size, ss[k].rotSpeed, dt, n)
    decreases n
  {
    if n > 0 {
      MovedAllTimesAt(MovedAll(ms, ss, dt), ss, dt, n - 1, k);
    }
  }

  /** A board whose shapes are all within their bands keeps them there. */
  lemma {:induction false} BoardStaysInBand(ms: seq<Motion>, ss: seq<BoardShape>, dt: real, n: nat)
    requires |ms| == |ss| && 0.0 <= dt
    requires forall k :: 0 <= k < |ms| ==> InBand(ms[k].x, ss[k].size)
    ensures forall k :: 0 <= k < |ms| ==> InBand(MovedAllTimes(ms, ss, dt, n)[k].x, ss[k].size)
  {
    forall k | 0 <= k < |ms|
      ensures InBand(MovedAllTimes(ms, ss, dt, n)[k].x, ss[k].size)
    {
      MovedAllTimesAt(ms, ss, dt, n, k);
      MovedTimesInBand(ms[k], ss[k].speed, ss[k].size, ss[k].rotSpeed, dt, n);
    }
  }

  /** Which shapes a tap at (px, py) is on. */
  function HitsOf(ss: seq<BoardShape>, px: real, py: real, sin: real -> real): (hits: seq<bool>)
    reads ss
    ensures |hits| == |ss| && forall k :: 0 <= k < |ss| ==> hits[k] == ss[k].HitTest(px, py, sin)
  {
    seq(|ss|, k requires 0 <= k < |ss| reads ss => ss[k].HitTest(px, py, sin))
  }

  /** The shape a tap resolves to: the last one drawn (the topmost) among
      those it is on, or none. */
  function Topmost(hits: seq<bool>): (r: Option<nat>)
    ensures r.Some? ==> r.value < |hits| && hits[r.value] && forall k :: r.value < k < |hits| ==> !hits[k]
    ensures r.None? <==> forall k :: 0 <= k < |hits| ==> !hits[k]
  {
    if hits == [] then None
    else if hits[|hits| - 1] then Some(|hits| - 1)
    else Topmost(hits[..|hits| - 1])
  }

  /** The spark colours of each kind of tap. */
  function BurstColors(phase: Phase, hit: TapResult): (colors: seq<string>)
    ensures |colors| > 0
  {
    if phase == PlayingSolo then (if hit == OnTarget then CORRECT_SOLO_COLORS else WRONG_SOLO_COLORS)
    else (if hit == OnTarget then CORRECT_DUO_COLORS else WRONG_DUO_COLORS)
  }

  /** The text colour of a player's point. */
  function PlayerColor(player: int): string
  {
    if player == 1 then "#F87171" else "#60A5FA"
  }

  /** The floating text of a tap on a shape at (x, y): the points won, a
      cross, or the point of the player who scores. */
  function TapLabel(s: Session, hit: TapResult, x: real, y: real): Label
  {
    if s.phase == PlayingSolo then
      (if hit == OnTarget then NewLabel(x, y, Points(SoloPoints(s.roundTimer)), "#22C55E")
       else NewLabel(x, y, Cross, "#EF4444"))
    else
      var player := if hit == OnTarget then s.buzzedPlayer else Opponent(s.buzzedPlayer);
      NewLabel(x, y, PlayerPoint(player), PlayerColor(player))
  }

  /** The text tells the truth: in solo it shows exactly the points the tap
      added, in duo it names player 1 exactly when player 1 scored. */
  lemma {:induction false} TapLabelMatchesScore(s: Session, hit: TapResult, c: Settings, x: real, y: real)
    requires (s.phase == PlayingSolo || s.phase == DuoBuzzed) && hit != Miss
    ensures var l := TapLabel(s, hit, x, y); var r := Tap(s, hit, c);
      && (s.phase == PlayingSolo && hit == OnTarget ==> l.caption == Points(r.score - s.score))
      && (s.phase == PlayingSolo && hit == OffTarget ==> l.caption == Cross && r.lives == s.lives - 1)
      && (s.phase == DuoBuzzed ==> (l.caption == PlayerPoint(1) <==> r.p1Score == s.p1Score + 1))
  {
  }

  const HIGHLIGHT_MS: real := 500.0

  /** The highlights after a tap: shape i lit for 500 ms if `on`, every other
      highlight as it was. */
  twostate predicate Lit(ss: seq<BoardShape>, i: int, on: bool)
    reads ss
  {
    forall k :: 0 <= k < |ss| ==>
      if k == i && on then ss[k].highlighted && ss[k].highlightTimer == HIGHLIGHT_MS
      else ss[k].highlighted == old(ss[k].highlighted) && ss[k].highlightTimer == old(ss[k].highlightTimer)
  }

  predicate ValidBurst(rolls: seq<SparkRolls>)
  {
    |rolls| == Config.PARTICLE_COUNT && forall k :: 0 <= k < |rolls| ==> ValidSparkRolls(rolls[k])
  }

  /** The Spot the Shape engine. */
  class Game {
    const cfg: Settings
    var phase: Phase
    var score: int
    var level: int
    var lives: int
    var roundTimer: real
    var roundTimerMax: real
    var highScore: int
    var transitionTimer: real
    var shakeTimer: real
    var p1Score: int
    var p2Score: int
    var currentRound: int
    var buzzedPlayer: int
    var buzzTimer: real
    /** The transitions scheduled by _showTransition whose timer has not
        fired yet, oldest first. */
    var pending: seq<Mode>
    var shapes: seq<BoardShape>
    var sparks: seq<Spark>
    var labels: seq<Label>
    var targetShape: Option<string>
    var lastTime: real

    /** The counters, as GameRules sees them. */
    function Snapshot(): Session
      reads this`phase, this`score, this`level, this`lives, this`roundTimer, this`roundTimerMax
      reads this`highScore, this`transitionTimer, this`shakeTimer, this`p1Score, this`p2Score
      reads this`currentRound, this`buzzedPlayer, this`buzzTimer, this`pending
    {
      Session(phase, score, level, lives, roundTimer, roundTimerMax, highScore, transitionTimer,
              shakeTimer, p1Score, p2Score, currentRound, buzzedPlayer, buzzTimer, pending)
    }

    predicate Valid()
      reads this`level, this`shapes
    {
      ValidSettings(cfg) && 0 <= level && Distinct(shapes)
    }

    /** The shapes, texts and target a set-up with these draws creates. */
    predicate SetUp(count: int, rolls: RoundRolls)
      reads this`shapes, this`sparks, this`labels, this`targetShape, shapes
      requires ValidRoundRolls(rolls, |cfg.shapes|)
    {
      var types := Picked(cfg.shapes, count, rolls.picks);
      && |shapes| == |types|
      && (forall k :: 0 <= k < |shapes| ==> Placed(shapes[k], types[k], rolls.draws[k]))
      && targetShape == PickTarget(types, rolls.target)
      && sparks == [] && labels == []
    }

    /** The constructor; `stored` is the best score read from storage. */
    constructor(cfg: Settings, stored: Option<int>)
      requires ValidSettings(cfg)
      ensures Valid() && this.cfg == cfg
      ensures Snapshot() == Initial(stored)
      ensures shapes == [] && sparks == [] && labels == [] && targetShape == None && lastTime == 0.0
    {
      this.cfg := cfg;
      phase := Menu;
      shapes := [];
      sparks := [];
      labels := [];
      targetShape := None;
      score := 0;
      level := 0;
      lives := START_LIVES;
      roundTimer := 0.0;
      roundTimerMax := 0.0;
      highScore := LoadedHighScore(stored);
      transitionTimer := 0.0;
      shakeTimer := 0.0;
      p1Score := 0;
      p2Score := 0;
      currentRound := 0;
      buzzedPlayer := 0;
      buzzTimer := 0.0;
      pending := [];
      lastTime := 0.0;
    }

    /** _saveHighScore(s): stores and adopts only a strictly greater score. */
    method SaveHighScore(s: int) returns (saved: bool)
      modifies this`highScore
      ensures highScore == SaveBest(old(highScore), s)
      ensures saved <==> s > old(highScore)
    {
      saved := false;
      if s > highScore {
        highScore := s;
        saved := true;
      }
    }

    /** startSolo(). */
    method StartSolo(rolls: RoundRolls)
      requires Valid() && ValidRoundRolls(rolls, |cfg.shapes|)
      modifies this`phase, this`score, this`level, this`lives
      modifies this`shapes, this`sparks, this`labels, this`targetShape, this`roundTimer, this`roundTimerMax
      ensures Valid()
      ensures Snapshot() == GameRules.StartSolo(old(Snapshot()), cfg)
      ensures SetUp(TierFor(cfg, 0).shapeCount, rolls)
      ensures forall k :: 0 <= k < |shapes| ==> fresh(shapes[k])
    {
      ClearSolo();
      SetupRound(rolls);
    }

    /** The counters startSolo clears before the first round. */
    method ClearSolo()
      modifies this`phase, this`score, this`level, this`lives
      ensures Snapshot() == old(Snapshot()).(phase := PlayingSolo, score := 0, level := 0, lives := START_LIVES)
      ensures level == 0
    {
      phase := PlayingSolo;
      score := 0;
      level := 0;
      lives := START_LIVES;
    }

    /** startDuo(). */
    method StartDuo(rolls: RoundRolls)
      requires Valid() && ValidRoundRolls(rolls, |cfg.shapes|)
      modifies this`phase, this`p1Score, this`p2Score, this`currentRound, this`buzzedPlayer, this`buzzTimer
      modifies this`shapes, this`sparks, this`labels, this`targetShape, this`roundTimer, this`roundTimerMax
      ensures Valid()
      ensures Snapshot() == GameRules.StartDuo(old(Snapshot()))
      ensures SetUp(cfg.duoShapes, rolls)
      ensures forall k :: 0 <= k < |shapes| ==> fresh(shapes[k])
    {
      ClearDuo();
      SetupDuoRound(rolls);
    }

    /** The match counters startDuo clears before the first round. */
    method ClearDuo()
      modifies this`phase, this`p1Score, this`p2Score, this`currentRound, this`buzzedPlayer
      ensures Snapshot() == old(Snapshot()).(phase := PlayingDuo, p1Score := 0, p2Score := 0, currentRound := 0, buzzedPlayer := 0)
    {
      phase := PlayingDuo;
      p1Score := 0;
      p2Score := 0;
      currentRound := 0;
      buzzedPlayer := 0;
    }

    /** The board part shared by _setupRound and _setupDuoRound: the lists
        emptied, `count` types drawn, the target chosen among them, and one
        new shape per type. */
    method SetupBoard(count: int, rolls: RoundRolls)
      requires ValidRoundRolls(rolls, |cfg.shapes|)
      modifies this`shapes, this`sparks, this`labels, this`targetShape
      ensures SetUp(count, rolls) && Distinct(shapes)
      ensures forall k :: 0 <= k < |shapes| ==> fresh(shapes[k])
    {
      sparks := [];
      labels := [];
      var types := PickBoardTypes(cfg.shapes, count, rolls.picks);
      targetShape := PickTarget(types, rolls.target);
      shapes := BuildShapes(types, rolls.draws);
    }

    /** _setupRound(): a new board for the current level's tier, and its
        clock. */
    method SetupRound(rolls: RoundRolls)
      requires Valid() && ValidRoundRolls(rolls, |cfg.shapes|)
      modifies this`shapes, this`sparks, this`labels, this`targetShape, this`roundTimer, this`roundTimerMax
      ensures Valid()
      ensures Snapshot() == SoloClock(old(Snapshot()), cfg)
      ensures SetUp(TierFor(cfg, old(level)).shapeCount, rolls)
      ensures forall k :: 0 <= k < |shapes| ==> fresh(shapes[k])
    {
      var diff := TierFor(cfg, level);
      roundTimer := diff.timeLimit * 1000.0;
      roundTimerMax := diff.timeLimit * 1000.0;
      ghost var counters := Snapshot();
      SetupBoard(diff.shapeCount, rolls);
      assert Snapshot() == counters;
    }

    /** _setupDuoRound(): the next round of a match, on a new board. */
    method SetupDuoRound(rolls: RoundRolls)
      requires Valid() && ValidRoundRolls(rolls, |cfg.shapes|)
      modifies this`currentRound, this`buzzedPlayer, this`buzzTimer
      modifies this`shapes, this`sparks, this`labels, this`targetShape, this`roundTimer, this`roundTimerMax
      ensures Valid()
      ensures Snapshot() == DuoClock(old(Snapshot()))
      ensures SetUp(cfg.duoShapes, rolls)
      ensures forall k :: 0 <= k < |shapes| ==> fresh(shapes[k])
    {
      NextDuoRound();
      ghost var counters := Snapshot();
      SetupBoard(cfg.duoShapes, rolls);
      assert Snapshot() == counters;
    }

    /** The counters of _setupDuoRound, set apart from the board. */
    method NextDuoRound()
      modifies this`currentRound, this`buzzedPlayer, this`buzzTimer, this`roundTimer, this`roundTimerMax
      ensures Snapshot() == DuoClock(old(Snapshot()))
    {
      currentRound := currentRound + 1;
      buzzedPlayer := 0;
      buzzTimer := 0.0;
      roundTimer := DUO_ROUND_MS;
      roundTimerMax := DUO_ROUND_MS;
    }

    /** duoBuzz(player). */
    method DuoBuzz(player: int)
      modifies this`buzzedPlayer, this`buzzTimer, this`phase
      ensures Snapshot() == Buzz(old(Snapshot()), player, cfg)
    {
      if phase != PlayingDuo {
        return;
      }
      if buzzedPlayer != 0 {
        return;
      }
      buzzedPlayer := player;
      buzzTimer := cfg.buzzTimeout;
      phase := DuoBuzzed;
    }

    /** _showTransition(text, duration, next): the pause, and its timer
        scheduled. */
    method ShowTransition(duration: real, next: Mode)
      modifies this`transitionTimer, this`phase, this`buzzedPlayer, this`pending
      ensures Snapshot() == GameRules.ShowTransition(old(Snapshot()), duration, next)
    {
      transitionTimer := duration;
      phase := RoundTransition;
      buzzedPlayer := 0;
      pending := pending + [next];
    }

    /** The timer of _showTransition firing, as written: it sets up the
        scheduled round whatever the game is doing now. `k` is the place of
        the timer among those waiting. */
    method FireTransition(k: int, rolls: RoundRolls)
      requires Valid() && 0 <= k < |pending| && ValidRoundRolls(rolls, |cfg.shapes|)
      modifies this
      ensures Valid()
      ensures Snapshot() == Fire(old(Snapshot()), k, cfg)
      ensures old(pending[k]) == Solo ==> SetUp(TierFor(cfg, old(level)).shapeCount, rolls)
      ensures old(pending[k]) == Duo ==> SetUp(cfg.duoShapes, rolls)
      ensures forall j :: 0 <= j < |shapes| ==> fresh(shapes[j])
    {
      var next := pending[k];
      pending := pending[..k] + pending[k + 1..];
      if next == Solo {
        phase := PlayingSolo;
        SetupRound(rolls);
      } else {
        phase := PlayingDuo;
        SetupDuoRound(rolls);
      }
    }

    /** The timer of _showTransition firing when leaving a pause cancels the
        timer it scheduled: only the latest timer, and only during the pause,
        sets up a round; any other is dropped. */
    method FireTransitionGuarded(k: int, rolls: RoundRolls)
      requires Valid() && 0 <= k < |pending| && ValidRoundRolls(rolls, |cfg.shapes|)
      modifies this
      ensures Valid()
      ensures Snapshot() == FireGuarded(old(Snapshot()), k, cfg)
    {
      if phase == RoundTransition && k == |pending| - 1 {
        FireTransition(k, rolls);
      } else {
        pending := pending[..k] + pending[k + 1..];
      }
    }

    /** _gameOver(). */
    method FinishGame()
      modifies this`highScore, this`buzzedPlayer, this`phase
      ensures Snapshot() == EndGame(old(Snapshot()))
    {
      if phase == PlayingSolo || (phase != PlayingDuo && phase != DuoBuzzed) {
        var _ := SaveHighScore(score);
      }
      buzzedPlayer := 0;
      phase := GameOver;
    }

    /** goToMenu(); `stored` is the best score read back from storage. */
    method GoToMenu(stored: Option<int>)
      modifies this`phase, this`highScore
      ensures Snapshot() == GameRules.GoToMenu(old(Snapshot()), stored)
    {
      phase := Menu;
      highScore := LoadedHighScore(stored);
    }

    /** One point to player 1, or else to player 2. */
    method AwardPoint(player: int)
      modifies this`p1Score, this`p2Score
      ensures Snapshot() == Award(old(Snapshot()), player)
    {
      if player == 1 {
        p1Score := p1Score + 1;
      } else {
        p2Score := p2Score + 1;
      }
    }

    /** The end of a decided duo round. */
    method CloseDuoRound(pause: real)
      modifies this`highScore, this`buzzedPlayer, this`phase, this`transitionTimer, this`pending
      ensures Snapshot() == GameRules.CloseDuoRound(old(Snapshot()), cfg, pause)
    {
      if currentRound >= cfg.duoRounds {
        FinishGame();
      } else {
        ShowTransition(pause, Duo);
      }
    }

    /** The sparks of _burstParticles, one per set of draws. */
    method Burst(x: real, y: real, colors: seq<string>, rolls: seq<SparkRolls>)
      requires |colors| > 0 && forall k :: 0 <= k < |rolls| ==> ValidSparkRolls(rolls[k])
      modifies this`sparks
      ensures sparks == old(sparks) + BurstSparks(x, y, colors, rolls)
    {
      var i := 0;
      while i < |rolls|
        invariant 0 <= i <= |rolls|
        invariant sparks == old(sparks) + BurstSparks(x, y, colors, rolls[..i])
      {
        assert ValidSparkRolls(rolls[i]);
        var color := colors[RandomIndex(rolls[i].color, |colors|)];
        sparks := sparks + [NewSpark(x, y, color, rolls[i])];
        BurstSparksSnoc(x, y, colors, rolls, i);
        i := i + 1;
      }
      assert rolls[..i] == rolls;
    }

    /** What the tap resolved to hit means: nothing, the target, or another
        shape. */
    function Outcome(hit: Option<nat>): TapResult
      reads this`shapes, this`targetShape
    {
      if hit.None? || hit.value >= |shapes| then Miss
      else if Some(shapes[hit.value].kind) == targetShape then OnTarget
      else OffTarget
    }

    /** The reverse loop of _handleSoloTap and _handleDuoBuzzedTap: the
        topmost shape the tap is on. */
    method TopmostHit(px: real, py: real, sin: real -> real) returns (hit: Option<nat>)
      ensures hit == Topmost(HitsOf(shapes, px, py, sin))
    {
      ghost var hits := HitsOf(shapes, px, py, sin);
      var i := |shapes|;
      while i > 0
        invariant 0 <= i <= |shapes|
        invariant forall k :: i <= k < |shapes| ==> !hits[k]
      {
        i := i - 1;
        if shapes[i].HitTest(px, py, sin) {
          return Some(i);
        }
      }
      return None;
    }

    /** The marks a tap leaves on shape i: the burst, the highlight of a
        correct tap, and the floating text. */
    method Mark(i: nat, colors: seq<string>, rolls: seq<SparkRolls>, highlight: bool, text: Label)
      requires i < |shapes| && Distinct(shapes) && |colors| > 0 && ValidBurst(rolls)
      modifies this`sparks, this`labels, shapes`highlighted, shapes`highlightTimer
      ensures sparks == old(sparks) + BurstSparks(shapes[i].x, shapes[i].y, colors, rolls)
      ensures labels == old(labels) + [text]
      ensures Lit(shapes, i, highlight)
    {
      var shape := shapes[i];
      Burst(shape.x, shape.y, colors, rolls);
      if highlight {
        shape.highlighted := true;
        shape.highlightTimer := HIGHLIGHT_MS;
      }
      labels := labels + [text];
    }

    /** The marks a wrong tap on shape i leaves: the shake, the burst and the
        floating text. */
    method Jolt(i: nat, colors: seq<string>, rolls: seq<SparkRolls>, text: Label)
      requires i < |shapes| && |colors| > 0 && ValidBurst(rolls)
      modifies this`shakeTimer, this`sparks, this`labels
      ensures Snapshot() == old(Snapshot()).(shakeTimer := SHAKE_MS)
      ensures sparks == old(sparks) + BurstSparks(shapes[i].x, shapes[i].y, colors, rolls)
      ensures labels == old(labels) + [text]
    {
      shakeTimer := SHAKE_MS;
      Burst(shapes[i].x, shapes[i].y, colors, rolls);
      labels := labels + [text];
    }

    /** _correctTapSolo(shape), shape i being the target. */
    method CorrectTapSolo(i: nat, rolls: seq<SparkRolls>)
      requires phase == PlayingSolo && i < |shapes| && Distinct(shapes) && ValidBurst(rolls)
      modifies this`score, this`level, this`transitionTimer, this`phase, this`buzzedPlayer, this`pending
      modifies this`sparks, this`labels, shapes`highlighted, shapes`highlightTimer
      ensures Snapshot() == GameRules.CorrectSolo(old(Snapshot()))
      ensures sparks == old(sparks) + BurstSparks(shapes[i].x, shapes[i].y, CORRECT_SOLO_COLORS, rolls)
      ensures labels == old(labels) + [TapLabel(old(Snapshot()), OnTarget, shapes[i].x, shapes[i].y)]
      ensures Lit(shapes, i, true)
    {
      var points := SoloPoints(roundTimer);
      Mark(i, CORRECT_SOLO_COLORS, rolls, true, NewLabel(shapes[i].x, shapes[i].y, Points(points), "#22C55E"));
      score := score + points;
      level := level + 1;
      ShowTransition(TAP_PAUSE_MS, Solo);
    }

    /** _wrongTapSolo(shape), shape i being another shape. */
    method WrongTapSolo(i: nat, rolls: seq<SparkRolls>)
      requires phase == PlayingSolo && i < |shapes| && ValidBurst(rolls)
      modifies this`shakeTimer, this`lives, this`highScore, this`buzzedPlayer, this`phase
      modifies this`sparks, this`labels
      ensures Snapshot() == GameRules.WrongSolo(old(Snapshot()))
      ensures sparks == old(sparks) + BurstSparks(shapes[i].x, shapes[i].y, WRONG_SOLO_COLORS, rolls)
      ensures labels == old(labels) + [TapLabel(old(Snapshot()), OffTarget, shapes[i].x, shapes[i].y)]
      ensures Lit(shapes, i, false)
    {
      Jolt(i, WRONG_SOLO_COLORS, rolls, NewLabel(shapes[i].x, shapes[i].y, Cross, "#EF4444"));
      lives := lives - 1;
      if lives <= 0 {
        FinishGame();
      }
    }

    /** _correctTapDuo(shape). */
    method CorrectTapDuo(i: nat, rolls: seq<SparkRolls>)
      requires phase == DuoBuzzed && i < |shapes| && Distinct(shapes) && ValidBurst(rolls)
      modifies this`p1Score, this`p2Score, this`highScore, this`buzzedPlayer, this`phase, this`transitionTimer, this`pending
      modifies this`sparks, this`labels, shapes`highlighted, shapes`highlightTimer
      ensures Snapshot() == GameRules.CorrectDuo(old(Snapshot()), cfg)
      ensures sparks == old(sparks) + BurstSparks(shapes[i].x, shapes[i].y, CORRECT_DUO_COLORS, rolls)
      ensures labels == old(labels) + [TapLabel(old(Snapshot()), OnTarget, shapes[i].x, shapes[i].y)]
      ensures Lit(shapes, i, true)
    {
      var player := buzzedPlayer;
      Mark(i, CORRECT_DUO_COLORS, rolls, true, NewLabel(shapes[i].x, shapes[i].y, PlayerPoint(player), PlayerColor(player)));
      AwardPoint(player);
      CloseDuoRound(TAP_PAUSE_MS);
    }

    /** _wrongTapDuo(shape). */
    method WrongTapDuo(i: nat, rolls: seq<SparkRolls>)
      requires phase == DuoBuzzed && i < |shapes| && ValidBurst(rolls)
      modifies this`shakeTimer, this`p1Score, this`p2Score, this`highScore, this`buzzedPlayer, this`phase
      modifies this`transitionTimer, this`pending, this`sparks, this`labels
      ensures Snapshot() == GameRules.WrongDuo(old(Snapshot()), cfg)
      ensures sparks == old(sparks) + BurstSparks(shapes[i].x, shapes[i].y, WRONG_DUO_COLORS, rolls)
      ensures labels == old(labels) + [TapLabel(old(Snapshot()), OffTarget, shapes[i].x, shapes[i].y)]
      ensures Lit(shapes, i, false)
    {
      var opponent := Opponent(buzzedPlayer);
      Jolt(i, WRONG_DUO_COLORS, rolls, NewLabel(shapes[i].x, shapes[i].y, PlayerPoint(opponent), PlayerColor(opponent)));
      AwardPoint(opponent);
      CloseDuoRound(TAP_PAUSE_MS);
    }

    /** _handleTap(x, y): in PLAYING_SOLO and DUO_BUZZED the topmost shape
        under the tap is handled; every other phase ignores taps. `hit` is
        the place of the shape that was handled and `result` what the tap
        was. */
    method HandleTap(px: real, py: real, sin: real -> real, rolls: seq<SparkRolls>) returns (hit: Option<nat>, result: TapResult)
      requires Distinct(shapes) && ValidBurst(rolls)
      modifies this`score, this`level, this`lives, this`shakeTimer, this`highScore, this`transitionTimer
      modifies this`p1Score, this`p2Score, this`buzzedPlayer, this`phase, this`pending
      modifies this`sparks, this`labels, shapes`highlighted, shapes`highlightTimer
      ensures hit == if old(phase) == PlayingSolo || old(phase) == DuoBuzzed then Topmost(old(HitsOf(shapes, px, py, sin))) else None
      ensures result == Outcome(hit)
      ensures Snapshot() == Tap(old(Snapshot()), result, cfg)
      ensures hit.None? ==> sparks == old(sparks) && labels == old(labels)
      ensures hit.Some? ==> hit.value < |shapes|
      ensures hit.Some? ==> var shape := shapes[hit.value];
        && sparks == old(sparks) + BurstSparks(shape.x, shape.y, BurstColors(old(phase), result), rolls)
        && labels == old(labels) + [TapLabel(old(Snapshot()), result, shape.x, shape.y)]
      ensures Lit(shapes, if hit.Some? then hit.value else -1, result == OnTarget)
    {
      if phase == PlayingSolo {
        hit, result := HandleSoloTap(px, py, sin, rolls);
      } else if phase == DuoBuzzed {
        hit, result := HandleDuoBuzzedTap(px, py, sin, rolls);
      } else {
        hit, result := None, Miss;
      }
    }

    /** _handleSoloTap(x, y): the topmost shape under the tap is the target
        or a wrong guess. */
    method HandleSoloTap(px: real, py: real, sin: real -> real, rolls: seq<SparkRolls>) returns (hit: Option<nat>, result: TapResult)
      requires phase == PlayingSolo && Distinct(shapes) && ValidBurst(rolls)
      modifies this`score, this`level, this`lives, this`shakeTimer, this`highScore, this`transitionTimer
      modifies this`p1Score, this`p2Score, this`buzzedPlayer, this`phase, this`pending
      modifies this`sparks, this`labels, shapes`highlighted, shapes`highlightTimer
      ensures hit == Topmost(old(HitsOf(shapes, px, py, sin)))
      ensures result == Outcome(hit)
      ensures Snapshot() == Tap(old(Snapshot()), result, cfg)
      ensures hit.None? ==> sparks == old(sparks) && labels == old(labels)
      ensures hit.Some? ==> hit.value < |shapes|
      ensures hit.Some? ==> var shape := shapes[hit.value];
        && sparks == old(sparks) + BurstSparks(shape.x, shape.y, BurstColors(old(phase), result), rolls)
        && labels == old(labels) + [TapLabel(old(Snapshot()), result, shape.x, shape.y)]
      ensures Lit(shapes, if hit.Some? then hit.value else -1, result == OnTarget)
    {
      ghost var s0 := Snapshot();
      hit := TopmostHit(px, py, sin);
      assert Snapshot() == s0;
      if hit.None? {
        return hit, Miss;
      }
      result := SoloShapeTap(hit.value, rolls);
    }

    /** The branch of _handleSoloTap once the shape is found: the target
        or another shape. */
    method SoloShapeTap(i: nat, rolls: seq<SparkRolls>) returns (result: TapResult)
      requires phase == PlayingSolo && i < |shapes| && Distinct(shapes) && ValidBurst(rolls)
      modifies this`score, this`level, this`lives, this`shakeTimer, this`highScore, this`transitionTimer
      modifies this`p1Score, this`p2Score, this`buzzedPlayer, this`phase, this`pending
      modifies this`sparks, this`labels, shapes`highlighted, shapes`highlightTimer
      ensures result == Outcome(Some(i))
      ensures Snapshot() == Tap(old(Snapshot()), result, cfg)
      ensures sparks == old(sparks) + BurstSparks(shapes[i].x, shapes[i].y, BurstColors(old(phase), result), rolls)
      ensures labels == old(labels) + [TapLabel(old(Snapshot()), result, shapes[i].x, shapes[i].y)]
      ensures Lit(shapes, i, result == OnTarget)
    {
      ghost var s0 := Snapshot();
      if Some(shapes[i].kind) == targetShape {
        result := OnTarget;
        assert Tap(s0, OnTarget, cfg) == CorrectSolo(s0);
        CorrectTapSolo(i, rolls);
      } else {
        result := OffTarget;
        assert Tap(s0, OffTarget, cfg) == WrongSolo(s0);
        WrongTapSolo(i, rolls);
      }
    }

    /** _handleDuoBuzzedTap(x, y): the same for the player who buzzed. */
    method HandleDuoBuzzedTap(px: real, py: real, sin: real -> real, rolls: seq<SparkRolls>) returns (hit: Option<nat>, result: TapResult)
      requires phase == DuoBuzzed && Distinct(shapes) && ValidBurst(rolls)
      modifies this`score, this`level, this`lives, this`shakeTimer, this`highScore, this`transitionTimer
      modifies this`p1Score, this`p2Score, this`buzzedPlayer, this`phase, this`pending
      modifies this`sparks, this`labels, shapes`highlighted, shapes`highlightTimer
      ensures hit == Topmost(old(HitsOf(shapes, px, py, sin)))
      ensures result == Outcome(hit)
      ensures Snapshot() == Tap(old(Snapshot()), result, cfg)
      ensures hit.None? ==> sparks == old(sparks) && labels == old(labels)
      ensures hit.Some? ==> hit.value < |shapes|
      ensures hit.Some? ==> var shape := shapes[hit.value];
        && sparks == old(sparks) + BurstSparks(shape.x, shape.y, BurstColors(old(phase), result), rolls)
        && labels == old(labels) + [TapLabel(old(Snapshot()), result, shape.x, shape.y)]
      ensures Lit(shapes, if hit.Some? then hit.value else -1, result == OnTarget)
    {
      ghost var s0 := Snapshot();
      hit := TopmostHit(px, py, sin);
      assert Snapshot() == s0;
      if hit.None? {
        return hit, Miss;
      }
      result := DuoBuzzedShapeTap(hit.value, rolls);
    }

    /** The branch of _handleDuoBuzzedTap once the shape is found: the target
        or another shape. */
    method DuoBuzzedShapeTap(i: nat, rolls: seq<SparkRolls>) returns (result: TapResult)
      requires phase == DuoBuzzed && i < |shapes| && Distinct(shapes) && ValidBurst(rolls)
      modifies this`score, this`level, this`lives, this`shakeTimer, this`highScore, this`transitionTimer
      modifies this`p1Score, this`p2Score, this`buzzedPlayer, this`phase, this`pending
      modifies this`sparks, this`labels, shapes`highlighted, shapes`highlightTimer
      ensures result == Outcome(Some(i))
      ensures Snapshot() == Tap(old(Snapshot()), result, cfg)
      ensures sparks == old(sparks) + BurstSparks(shapes[i].x, shapes[i].y, BurstColors(old(phase), result), rolls)
      ensures labels == old(labels) + [TapLabel(old(Snapshot()), result, shapes[i].x, shapes[i].y)]
      ensures Lit(shapes, i, result == OnTarget)
    {
      ghost var s0 := Snapshot();
      if Some(shapes[i].kind) == targetShape {
        result := OnTarget;
        assert Tap(s0, OnTarget, cfg) == CorrectDuo(s0, cfg);
        CorrectTapDuo(i, rolls);
      } else {
        result := OffTarget;
        assert Tap(s0, OffTarget, cfg) == WrongDuo(s0, cfg);
        WrongTapDuo(i, rolls);
      }
    }

    /** The shake countdown at the top of update. */
    method ShakeStep(dt: real)
      modifies this`shakeTimer
      ensures Snapshot() == ShakeClock(old(Snapshot()), dt)
    {
      if shakeTimer > 0.0 {
        shakeTimer := shakeTimer - dt;
      }
    }

    /** The round timer running out, in each active phase. */
    method TimeOut()
      modifies this`lives, this`shakeTimer, this`highScore, this`transitionTimer
      modifies this`p1Score, this`p2Score, this`buzzedPlayer, this`phase, this`pending
      ensures Snapshot() == RoundTimeout(old(Snapshot()), cfg)
    {
      if phase == PlayingSolo {
        SoloTimeOut();
      } else if phase == DuoBuzzed {
        AwardPoint(Opponent(buzzedPlayer));
        shakeTimer := SHAKE_MS;
        CloseDuoRound(TIMEOUT_PAUSE_MS);
      } else {
        CloseDuoRound(TIMEOUT_PAUSE_MS);
      }
    }

    /** The solo branch of the time-out: a life lost, and the game over or a
        pause before the next round. */
    method SoloTimeOut()
      requires phase == PlayingSolo
      modifies this`lives, this`shakeTimer, this`highScore, this`transitionTimer, this`buzzedPlayer, this`phase, this`pending
      ensures Snapshot() == RoundTimeout(old(Snapshot()), cfg)
    {
      lives := lives - 1;
      shakeTimer := SHAKE_MS;
      if lives <= 0 {
        FinishGame();
      } else {
        ShowTransition(TIMEOUT_PAUSE_MS, Solo);
      }
    }

    /** The round-timer part of update. */
    method RoundStep(dt: real)
      modifies this`roundTimer, this`lives, this`shakeTimer, this`highScore, this`transitionTimer
      modifies this`p1Score, this`p2Score, this`buzzedPlayer, this`phase, this`pending
      ensures Snapshot() == RoundClock(old(Snapshot()), dt, cfg)
    {
      roundTimer := roundTimer - dt;
      if roundTimer <= 0.0 {
        TimeOut();
      }
    }

    /** The buzz-timer part of update, run while a player has buzzed. */
    method BuzzStep(dt: real)
      modifies this`buzzTimer, this`highScore, this`transitionTimer
      modifies this`p1Score, this`p2Score, this`buzzedPlayer, this`phase, this`pending
      ensures Snapshot() == BuzzClock(old(Snapshot()), dt, cfg)
    {
      buzzTimer := buzzTimer - dt;
      if buzzTimer <= 0.0 {
        AwardPoint(Opponent(buzzedPlayer));
        CloseDuoRound(TIMEOUT_PAUSE_MS);
      }
    }

    /** The loop that updates every shape on the board by dt. */
    method MoveShapes(dt: real)
      requires Distinct(shapes)
      modifies shapes`x, shapes`wobblePhase, shapes`rotation, shapes`highlightTimer
      ensures Drifts(shapes) == MovedAll(old(Drifts(shapes)), shapes, dt)
    {
      ghost var before := Drifts(shapes);
      var i := 0;
      while i < |shapes|
        invariant 0 <= i <= |shapes|
        invariant forall k :: 0 <= k < i ==> shapes[k].Drift() == Moved(before[k], shapes[k].speed, shapes[k].size, shapes[k].rotSpeed, dt)
        invariant forall k :: i <= k < |shapes| ==> shapes[k].Drift() == before[k]
      {
        shapes[i].Update(dt);
        i := i + 1;
      }
    }

    /** One move of everything on the board: the shapes drift, and the sparks
        and texts age, the finished ones dropped. */
    method MoveBoard(dt: real)
      requires Distinct(shapes)
      modifies this`sparks, this`labels, shapes`x, shapes`wobblePhase, shapes`rotation, shapes`highlightTimer
      ensures Drifts(shapes) == MovedAll(old(Drifts(shapes)), shapes, dt)
      ensures sparks == LiveSparks(old(sparks), dt) && labels == LiveLabels(old(labels), dt)
    {
      MoveShapes(dt);
      sparks := LiveSparks(sparks, dt);
      labels := LiveLabels(labels, dt);
    }

    /** The active block of update: the board moves once, then the round
        timer and, while a player has buzzed, the buzz timer count down. */
    method ActiveFrame(dt: real)
      requires Distinct(shapes)
      modifies this`roundTimer, this`buzzTimer, this`lives, this`shakeTimer, this`highScore, this`transitionTimer
      modifies this`p1Score, this`p2Score, this`buzzedPlayer, this`phase, this`pending
      modifies this`sparks, this`labels, shapes`x, shapes`wobblePhase, shapes`rotation, shapes`highlightTimer
      ensures Snapshot() == ActiveClocks(old(Snapshot()), dt, cfg)
      ensures Drifts(shapes) == MovedAll(old(Drifts(shapes)), shapes, dt)
      ensures sparks == LiveSparks(old(sparks), dt) && labels == LiveLabels(old(labels), dt)
    {
      ghost var counters := Snapshot();
      MoveBoard(dt);
      assert Snapshot() == counters;
      ghost var board := Drifts(shapes);
      RunClocks(dt);
      assert Drifts(shapes) == board;
    }

    /** The counters of the active block of update. */
    method RunClocks(dt: real)
      modifies this`roundTimer, this`buzzTimer, this`lives, this`shakeTimer, this`highScore, this`transitionTimer
      modifies this`p1Score, this`p2Score, this`buzzedPlayer, this`phase, this`pending
      ensures Snapshot() == ActiveClocks(old(Snapshot()), dt, cfg)
    {
      RoundStep(dt);
      if phase == DuoBuzzed {
        BuzzStep(dt);
      }
    }

    /** The pause block of update: the pause timer counts down and the board
        moves once. */
    method PauseFrame(dt: real)
      requires Distinct(shapes) && phase == RoundTransition
      modifies this`transitionTimer, this`sparks, this`labels
      modifies shapes`x, shapes`wobblePhase, shapes`rotation, shapes`highlightTimer
      ensures Snapshot() == PauseClock(old(Snapshot()), dt)
      ensures Drifts(shapes) == MovedAll(old(Drifts(shapes)), shapes, dt)
      ensures sparks == LiveSparks(old(sparks), dt) && labels == LiveLabels(old(labels), dt)
    {
      ghost var counters := Snapshot();
      MoveBoard(dt);
      assert Snapshot() == counters;
      transitionTimer := transitionTimer - dt;
    }

    /** update(dt): the counters follow GameRules.Tick, and the board moves
        once for each of the two blocks of update that runs. */
    method Update(dt: real)
      requires Distinct(shapes)
      modifies this`roundTimer, this`buzzTimer, this`lives, this`shakeTimer, this`highScore, this`transitionTimer
      modifies this`p1Score, this`p2Score, this`buzzedPlayer, this`phase, this`pending
      modifies this`sparks, this`labels, shapes`x, shapes`wobblePhase, shapes`rotation, shapes`highlightTimer
      ensures Snapshot() == Tick(old(Snapshot()), dt, cfg)
      ensures var n := BoardSteps(old(Snapshot()), dt, cfg);
        && Drifts(shapes) == MovedAllTimes(old(Drifts(shapes)), shapes, dt, n)
        && sparks == LiveSparksTimes(old(sparks), dt, n)
        && labels == LiveLabelsTimes(old(labels), dt, n)
    {
      ghost var s0, d0, p0, l0 := Snapshot(), Drifts(shapes), sparks, labels;
      ghost var moves: nat := 0;
      ShakeStep(dt);
      assert Drifts(shapes) == d0;
      if phase == PlayingSolo || phase == PlayingDuo || phase == DuoBuzzed {
        ActiveFrame(dt);
        MovedAllTimesSnoc(d0, shapes, dt, 0);
        LiveSparksTimesSnoc(p0, dt, 0);
        LiveLabelsTimesSnoc(l0, dt, 0);
        moves := 1;
      }
      ghost var d1 := Drifts(shapes);
      assert d1 == MovedAllTimes(d0, shapes, dt, moves);
      if phase == RoundTransition {
        PauseFrame(dt);
        MovedAllTimesSnoc(d0, shapes, dt, moves);
        LiveSparksTimesSnoc(p0, dt, moves);
        LiveLabelsTimesSnoc(l0, dt, moves);
        moves := moves + 1;
      }
      assert moves == BoardSteps(s0, dt, cfg);
    }

    /** _loop(): the frame's time step, capped at 50 ms, then update. `now`
        is the clock reading of the frame. */
    method Loop(now: real)
      requires Distinct(shapes)
      modifies this`roundTimer, this`buzzTimer, this`lives, this`shakeTimer, this`highScore, this`transitionTimer
      modifies this`p1Score, this`p2Score, this`buzzedPlayer, this`phase, this`pending
      modifies this`sparks, this`labels, this`lastTime
      modifies shapes`x, shapes`wobblePhase, shapes`rotation, shapes`highlightTimer
      ensures lastTime == now
      ensures var dt := FrameDelta(now, old(lastTime)); var n := BoardSteps(old(Snapshot()), dt, cfg);
        && Snapshot() == Tick(old(Snapshot()), dt, cfg)
        && Drifts(shapes) == MovedAllTimes(old(Drifts(shapes)), shapes, dt, n)
        && sparks == LiveSparksTimes(old(sparks), dt, n)
        && labels == LiveLabelsTimes(old(labels), dt, n)
    {
      var dt := Min(now - lastTime, MAX_FRAME_MS);
      Update(dt);
      lastTime := now;
    }
  }
}
