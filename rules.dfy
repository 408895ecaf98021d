/** The rules of Spot the Shape (js/game.js) as functions on the game's
    counters: modes, lives, scores, rounds and the per-frame timers. The
    class in ShapeGame performs these changes field by field. */
module GameRules {
  import opened Utils

  /** The screens of the game; LOADING is declared but never entered. */
  datatype Phase = Menu | PlayingSolo | PlayingDuo | DuoBuzzed | RoundTransition | GameOver

  /** The state a scheduled transition leads to. */
  datatype Mode = Solo | Duo

  /** One row of the shape game's difficulty table. */
  datatype ShapeTier = ShapeTier(shapeCount: int, timeLimit: real, minSize: real, maxSize: real, speed: real)

  /** The shape game's own constants, which the model takes as given: the
      shape names, the difficulty rows, the board band and the duo settings. */
  datatype Settings = Settings(
    shapes: seq<string>,
    tiers: seq<ShapeTier>,
    boardTop: real,
    boardBottom: real,
    duoShapes: int,
    duoRounds: int,
    buzzTimeout: real)

  predicate ValidSettings(c: Settings)
  {
    |c.tiers| > 0
  }

  const START_LIVES: int := 3
  const TAP_PAUSE_MS: real := 1200.0
  const TIMEOUT_PAUSE_MS: real := 1000.0
  const DUO_ROUND_MS: real := 15000.0
  const SHAKE_MS: real := 200.0
  const MAX_FRAME_MS: real := 50.0

  /** The counters of a game, and the transitions scheduled with setTimeout
      that have not fired yet, oldest first. */
  datatype Session = Session(
    phase: Phase,
    score: int,
    level: int,
    lives: int,
    roundTimer: real,
    roundTimerMax: real,
    highScore: int,
    transitionTimer: real,
    shakeTimer: real,
    p1Score: int,
    p2Score: int,
    currentRound: int,
    buzzedPlayer: int,
    buzzTimer: real,
    pending: seq<Mode>)

  /** The stored best score read back: a missing or unreadable record, like a zero,
      is 0. */
  function LoadedHighScore(stored: Option<int>): (best: int)
    ensures stored.None? ==> best == 0
    ensures stored.Some? ==> best == stored.value
  {
    if stored.Some? then stored.value else 0
  }

  /** The constructor's counters. */
  function Initial(stored: Option<int>): (s: Session)
    ensures s.phase == Menu && s.lives == START_LIVES && s.level == 0 && s.score == 0
    ensures s.highScore == LoadedHighScore(stored) && s.pending == []
  {
    Session(Menu, 0, 0, START_LIVES, 0.0, 0.0, LoadedHighScore(stored), 0.0, 0.0, 0, 0, 0, 0, 0.0, [])
  }

  /** The difficulty row for a level: the last row serves every level past the table. */
  function TierFor(c: Settings, level: int): (t: ShapeTier)
    requires ValidSettings(c) && 0 <= level
    ensures level < |c.tiers| ==> t == c.tiers[level]
    ensures |c.tiers| <= level ==> t == c.tiers[|c.tiers| - 1]
  {
    c.tiers[if level < |c.tiers| - 1 then level else |c.tiers| - 1]
  }

  /** The timers _setupRound sets: the tier's time limit in milliseconds. */
  function SoloClock(s: Session, c: Settings): (r: Session)
    requires ValidSettings(c) && 0 <= s.level
    ensures r == s.(roundTimer := TierFor(c, s.level).timeLimit * 1000.0, roundTimerMax := TierFor(c, s.level).timeLimit * 1000.0)
  {
    var limit := TierFor(c, s.level).timeLimit * 1000.0;
    s.(roundTimer := limit, roundTimerMax := limit)
  }

  /** The counters _setupDuoRound sets: the next round, nobody buzzed, and
      15 seconds on the clock. */
  function DuoClock(s: Session): (r: Session)
    ensures r.currentRound == s.currentRound + 1 && r.buzzedPlayer == 0 && r.buzzTimer == 0.0
    ensures r.roundTimer == DUO_ROUND_MS == r.roundTimerMax
    ensures r.phase == s.phase && r.p1Score == s.p1Score && r.p2Score == s.p2Score && r.lives == s.lives
    ensures r.pending == s.pending && r.level == s.level
  {
    s.(currentRound := s.currentRound + 1, buzzedPlayer := 0, buzzTimer := 0.0,
       roundTimer := DUO_ROUND_MS, roundTimerMax := DUO_ROUND_MS)
  }

  /** startSolo(). */
  function StartSolo(s: Session, c: Settings): (r: Session)
    requires ValidSettings(c)
    ensures r.phase == PlayingSolo && r.score == 0 && r.level == 0 && r.lives == START_LIVES
    ensures r.roundTimer == c.tiers[0].timeLimit * 1000.0 == r.roundTimerMax
    ensures r.pending == s.pending && r.highScore == s.highScore
  {
    SoloClock(s.(phase := PlayingSolo, score := 0, level := 0, lives := START_LIVES), c)
  }

  /** startDuo(): both scores cleared and round 1 set up. */
  function StartDuo(s: Session): (r: Session)
    ensures r.phase == PlayingDuo && r.p1Score == 0 && r.p2Score == 0
    ensures r.currentRound == 1 && r.buzzedPlayer == 0 && r.buzzTimer == 0.0
    ensures r.roundTimer == DUO_ROUND_MS && r.pending == s.pending && r.lives == s.lives && r.level == s.level
  {
    DuoClock(s.(phase := PlayingDuo, p1Score := 0, p2Score := 0, currentRound := 0, buzzedPlayer := 0))
  }

  /** duoBuzz(player): only from PLAYING_DUO with nobody buzzed yet. */
  function Buzz(s: Session, player: int, c: Settings): (r: Session)
    ensures s.phase == PlayingDuo && s.buzzedPlayer == 0 ==>
      r.phase == DuoBuzzed && r.buzzedPlayer == player && r.buzzTimer == c.buzzTimeout
    ensures !(s.phase == PlayingDuo && s.buzzedPlayer == 0) ==> r == s
    ensures r.p1Score == s.p1Score && r.p2Score == s.p2Score && r.roundTimer == s.roundTimer
  {
    if s.phase != PlayingDuo || s.buzzedPlayer != 0 then s
    else s.(buzzedPlayer := player, buzzTimer := c.buzzTimeout, phase := DuoBuzzed)
  }

  /** A second buzz, by either player, changes nothing. */
  lemma {:induction false} SecondBuzzIgnored(s: Session, p: int, q: int, c: Settings)
    ensures Buzz(Buzz(s, p, c), q, c) == Buzz(s, p, c)
  {
    if s.phase == PlayingDuo && s.buzzedPlayer == 0 {
      assert Buzz(s, p, c).phase == DuoBuzzed;
    }
  }

  /** _showTransition(text, duration, next): the pause screen, and one more
      callback waiting to fire. */
  function ShowTransition(s: Session, duration: real, next: Mode): (r: Session)
    ensures r.phase == RoundTransition && r.buzzedPlayer == 0 && r.transitionTimer == duration
    ensures r.pending == s.pending + [next]
    ensures r.score == s.score && r.level == s.level && r.lives == s.lives
    ensures r.p1Score == s.p1Score && r.p2Score == s.p2Score && r.currentRound == s.currentRound
  {
    s.(transitionTimer := duration, phase := RoundTransition, buzzedPlayer := 0, pending := s.pending + [next])
  }

  /** Whether _gameOver saves the score from this phase: every phase but the
      two duo ones. */
  predicate SavesScore(p: Phase)
  {
    p == PlayingSolo || (p != PlayingDuo && p != DuoBuzzed)
  }

  /** _saveHighScore(score) on the best score: only a strictly greater score
      replaces it. */
  function SaveBest(best: int, score: int): (r: int)
    ensures r >= best && r >= score
    ensures r == best || r == score
    ensures r != best <==> score > best
  {
    if score > best then score else best
  }

  /** _gameOver(). */
  function EndGame(s: Session): (r: Session)
    ensures r.phase == GameOver && r.buzzedPlayer == 0
    ensures r.highScore == (if SavesScore(s.phase) then SaveBest(s.highScore, s.score) else s.highScore)
    ensures r.score == s.score && r.lives == s.lives && r.level == s.level && r.pending == s.pending
    ensures r.p1Score == s.p1Score && r.p2Score == s.p2Score && r.currentRound == s.currentRound
  {
    var best := if SavesScore(s.phase) then SaveBest(s.highScore, s.score) else s.highScore;
    s.(highScore := best, buzzedPlayer := 0, phase := GameOver)
  }

  /** A game over never lowers the best score, and raises it only to a
      strictly greater solo score. */
  lemma {:induction false} EndGameBest(s: Session)
    ensures EndGame(s).highScore >= s.highScore
    ensures EndGame(s).highScore != s.highScore ==> SavesScore(s.phase) && EndGame(s).highScore == s.score > s.highScore
    ensures s.phase == PlayingDuo || s.phase == DuoBuzzed ==> EndGame(s).highScore == s.highScore
  {
  }

  /** The points of a solo hit: one per started tenth of a second left, and at least 10. */
  function SoloPoints(roundTimer: real): (p: int)
    ensures p >= 10 && p as real >= roundTimer / 100.0
    ensures p == 10 || (p as real) - 1.0 < roundTimer / 100.0
  {
    var c := Ceil(roundTimer / 100.0);
    if c >= 10 then c else 10
  }

  /** _correctTapSolo: points by the time left, one level up, and a pause
      before the next solo round; lives are untouched. */
  function CorrectSolo(s: Session): (r: Session)
    ensures r.score == s.score + SoloPoints(s.roundTimer) && r.level == s.level + 1 && r.lives == s.lives
    ensures r.phase == RoundTransition && r.buzzedPlayer == 0 && r.pending == s.pending + [Solo]
    ensures r.transitionTimer == TAP_PAUSE_MS
  {
    ShowTransition(s.(score := s.score + SoloPoints(s.roundTimer), level := s.level + 1), TAP_PAUSE_MS, Solo)
  }

  /** _wrongTapSolo: one life lost and the screen shakes; the game ends when
      no life is left. */
  function WrongSolo(s: Session): (r: Session)
    ensures r.lives == s.lives - 1 && r.score == s.score && r.level == s.level && r.pending == s.pending
    ensures r.phase == (if s.lives - 1 <= 0 then GameOver else s.phase)
    ensures r.shakeTimer == SHAKE_MS
  {
    var hurt := s.(shakeTimer := SHAKE_MS, lives := s.lives - 1);
    if hurt.lives <= 0 then EndGame(hurt) else hurt
  }

  /** The other player: 2 for player 1, 1 for anyone else. */
  function Opponent(player: int): (o: int)
    ensures o == 1 || o == 2
    ensures o == 1 <==> player != 1
  {
    if player == 1 then 2 else 1
  }

  /** One point to player 1, or else to player 2. */
  function Award(s: Session, player: int): (r: Session)
    ensures player == 1 ==> r.p1Score == s.p1Score + 1 && r.p2Score == s.p2Score
    ensures player != 1 ==> r.p2Score == s.p2Score + 1 && r.p1Score == s.p1Score
    ensures r.phase == s.phase && r.currentRound == s.currentRound && r.pending == s.pending && r.lives == s.lives
  {
    if player == 1 then s.(p1Score := s.p1Score + 1) else s.(p2Score := s.p2Score + 1)
  }

  /** The end of a decided duo round: the match is over once the last round
      is reached, otherwise a pause before the next round. */
  function CloseDuoRound(s: Session, c: Settings, pause: real): (r: Session)
    ensures s.currentRound >= c.duoRounds ==> r == EndGame(s)
    ensures s.currentRound < c.duoRounds ==> r == ShowTransition(s, pause, Duo)
    ensures r.p1Score == s.p1Score && r.p2Score == s.p2Score && r.lives == s.lives && r.level == s.level
    ensures r.phase == GameOver || r.phase == RoundTransition
  {
    if s.currentRound >= c.duoRounds then EndGame(s) else ShowTransition(s, pause, Duo)
  }

  /** _correctTapDuo: the buzzing player scores. */
  function CorrectDuo(s: Session, c: Settings): (r: Session)
    ensures s.buzzedPlayer == 1 ==> r.p1Score == s.p1Score + 1 && r.p2Score == s.p2Score
    ensures s.buzzedPlayer != 1 ==> r.p2Score == s.p2Score + 1 && r.p1Score == s.p1Score
    ensures r.phase == (if s.currentRound >= c.duoRounds then GameOver else RoundTransition)
    ensures r.phase == RoundTransition ==> r.pending == s.pending + [Duo] && r.transitionTimer == TAP_PAUSE_MS
    ensures r.shakeTimer == s.shakeTimer && r.buzzedPlayer == 0
  {
    CloseDuoRound(Award(s, s.buzzedPlayer), c, TAP_PAUSE_MS)
  }

  /** _wrongTapDuo: the screen shakes and the opponent scores. */
  function WrongDuo(s: Session, c: Settings): (r: Session)
    ensures s.buzzedPlayer == 1 ==> r.p2Score == s.p2Score + 1 && r.p1Score == s.p1Score
    ensures s.buzzedPlayer != 1 ==> r.p1Score == s.p1Score + 1 && r.p2Score == s.p2Score
    ensures r.phase == (if s.currentRound >= c.duoRounds then GameOver else RoundTransition)
    ensures r.phase == RoundTransition ==> r.pending == s.pending + [Duo] && r.transitionTimer == TAP_PAUSE_MS
    ensures r.shakeTimer == SHAKE_MS && r.buzzedPlayer == 0
  {
    CloseDuoRound(Award(s.(shakeTimer := SHAKE_MS), Opponent(s.buzzedPlayer)), c, TAP_PAUSE_MS)
  }

  /** What a tap on the canvas found: nothing, the target shape, or another
      shape. */
  datatype TapResult = Miss | OnTarget | OffTarget

  /** _handleTap: only PLAYING_SOLO and DUO_BUZZED react, and only to a tap
      that hit a shape. */
  function Tap(s: Session, hit: TapResult, c: Settings): (r: Session)
    ensures s.phase != PlayingSolo && s.phase != DuoBuzzed ==> r == s
    ensures hit == Miss ==> r == s
    ensures s.phase == PlayingSolo && hit == OnTarget ==> r == CorrectSolo(s)
    ensures s.phase == PlayingSolo && hit == OffTarget ==> r == WrongSolo(s)
    ensures s.phase == DuoBuzzed && hit == OnTarget ==> r == CorrectDuo(s, c)
    ensures s.phase == DuoBuzzed && hit == OffTarget ==> r == WrongDuo(s, c)
  {
    match s.phase
    case PlayingSolo =>
      (match hit
       case Miss => s
       case OnTarget => CorrectSolo(s)
       case OffTarget => WrongSolo(s))
    case DuoBuzzed =>
      (match hit
       case Miss => s
       case OnTarget => CorrectDuo(s, c)
       case OffTarget => WrongDuo(s, c))
    case _ => s
  }

  /** A decided duo tap gives exactly one point: to the buzzer when right, to
      the opponent when wrong. */
  lemma {:induction false} DuoTapPoint(s: Session, hit: TapResult, c: Settings)
    requires s.phase == DuoBuzzed && hit != Miss
    ensures var r := Tap(s, hit, c);
      r.p1Score + r.p2Score == s.p1Score + s.p2Score + 1
      && (r.p1Score == s.p1Score + 1 <==> (hit == OnTarget) == (s.buzzedPlayer == 1))
      && r.phase != DuoBuzzed
  {
  }

  /** The phases in which update runs the round. */
  predicate Active(p: Phase)
  {
    p == PlayingSolo || p == PlayingDuo || p == DuoBuzzed
  }

  /** The shake countdown at the top of update. */
  function ShakeClock(s: Session, dt: real): (r: Session)
    ensures s.shakeTimer > 0.0 ==> r.shakeTimer == s.shakeTimer - dt
    ensures s.shakeTimer <= 0.0 ==> r.shakeTimer == s.shakeTimer
    ensures r.(shakeTimer := s.shakeTimer) == s
  {
    if s.shakeTimer > 0.0 then s.(shakeTimer := s.shakeTimer - dt) else s
  }

  /** The round timer running out: a lost life in solo, a point to the
      opponent when a player had buzzed, and no point in an unbuzzed duo
      round. */
  function RoundTimeout(s: Session, c: Settings): (r: Session)
  {
    if s.phase == PlayingSolo then
      var hurt := s.(lives := s.lives - 1, shakeTimer := SHAKE_MS);
      if hurt.lives <= 0 then EndGame(hurt) else ShowTransition(hurt, TIMEOUT_PAUSE_MS, Solo)
    else if s.phase == DuoBuzzed then
      CloseDuoRound(Award(s.(shakeTimer := SHAKE_MS), Opponent(s.buzzedPlayer)), c, TIMEOUT_PAUSE_MS)
    else
      CloseDuoRound(s, c, TIMEOUT_PAUSE_MS)
  }

  /** The round-timer part of update. */
  function RoundClock(s: Session, dt: real, c: Settings): (r: Session)
  {
    var t := s.(roundTimer := s.roundTimer - dt);
    if t.roundTimer <= 0.0 then RoundTimeout(t, c) else t
  }

  /** The buzz-timer part of update: a buzzer who runs out of time gives the
      opponent the point. */
  function BuzzClock(s: Session, dt: real, c: Settings): (r: Session)
  {
    var t := s.(buzzTimer := s.buzzTimer - dt);
    if t.buzzTimer <= 0.0 then CloseDuoRound(Award(t, Opponent(t.buzzedPlayer)), c, TIMEOUT_PAUSE_MS) else t
  }

  /** update(dt) on the counters: the shake, then in an active phase the
      round timer and, if still buzzed, the buzz timer, then the pause timer
      if the game is (now) pausing. */
  function Tick(s: Session, dt: real, c: Settings): (r: Session)
  {
    var a := ShakeClock(s, dt);
    PauseClock(if Active(a.phase) then ActiveClocks(a, dt, c) else a, dt)
  }

  /** The counters of the active block of update: the round timer, then the
      buzz timer if a player is (still) buzzed. */
  function ActiveClocks(a: Session, dt: real, c: Settings): Session
  {
    var b := RoundClock(a, dt, c);
    if b.phase == DuoBuzzed then BuzzClock(b, dt, c) else b
  }

  /** The pause block of update: the transition timer counts down. */
  function PauseClock(d: Session, dt: real): Session
  {
    if d.phase == RoundTransition then d.(transitionTimer := d.transitionTimer - dt) else d
  }

  /** How often the board moves in a frame: once in an active phase, once
      more if the frame ends in a pause. */
  function BoardSteps(s: Session, dt: real, c: Settings): (n: nat)
    ensures n <= 2
    ensures !Active(s.phase) && s.phase != RoundTransition ==> n == 0
  {
    (if Active(s.phase) then 1 else 0) + (if Tick(s, dt, c).phase == RoundTransition then 1 else 0)
  }

  /** A frame gives at most one point, never takes one away, gives none in an
      unbuzzed duo round, and never gives one to the player who buzzed. */
  lemma {:induction false} TickAwardsAtMostOnePoint(s: Session, dt: real, c: Settings)
    ensures var r := Tick(s, dt, c);
      && r.p1Score >= s.p1Score && r.p2Score >= s.p2Score
      && r.p1Score + r.p2Score <= s.p1Score + s.p2Score + 1
      && (s.phase != DuoBuzzed ==> r.p1Score == s.p1Score && r.p2Score == s.p2Score)
      && (s.phase == DuoBuzzed && s.buzzedPlayer == 1 ==> r.p1Score == s.p1Score)
      && (s.phase == DuoBuzzed && s.buzzedPlayer != 1 ==> r.p2Score == s.p2Score)
  {
    var a := ShakeClock(s, dt);
    if Active(a.phase) {
      var b := RoundClock(a, dt, c);
      if b.phase == DuoBuzzed {
        assert s.phase == DuoBuzzed && b.p1Score == s.p1Score && b.p2Score == s.p2Score && b.buzzedPlayer == s.buzzedPlayer;
      }
    }
  }

  /** A frame costs a solo player at most one life, and only when the round
      timer runs out; the game is then over exactly when no life is left. */
  lemma {:induction false} TickLives(s: Session, dt: real, c: Settings)
    ensures var r := Tick(s, dt, c);
      && (s.phase != PlayingSolo ==> r.lives == s.lives)
      && (s.phase == PlayingSolo ==>
            if s.roundTimer - dt <= 0.0 then
              r.lives == s.lives - 1 && (r.phase == GameOver <==> r.lives <= 0)
              && (r.phase != GameOver ==> r.phase == RoundTransition && r.pending == s.pending + [Solo])
            else r.lives == s.lives && r.phase == PlayingSolo)
  {
  }

  /** The fired callback of _showTransition, as written: whatever the game is
      doing now, it enters the scheduled mode and sets up a round. */
  function Fire(s: Session, k: int, c: Settings): (r: Session)
    requires ValidSettings(c) && 0 <= s.level && 0 <= k < |s.pending|
    ensures r.pending == s.pending[..k] + s.pending[k + 1..]
    ensures s.pending[k] == Solo ==> r.phase == PlayingSolo && r.lives == s.lives && r.level == s.level
    ensures s.pending[k] == Duo ==> r.phase == PlayingDuo && r.currentRound == s.currentRound + 1 && r.buzzedPlayer == 0
  {
    var rest := s.pending[..k] + s.pending[k + 1..];
    if s.pending[k] == Solo then SoloClock(s.(phase := PlayingSolo, pending := rest), c)
    else DuoClock(s.(phase := PlayingDuo, pending := rest))
  }

  /** The fired callback when leaving a pause cancels what it scheduled: only
      the latest callback, and only during the pause, acts; any other is
      dropped. */
  function FireGuarded(s: Session, k: int, c: Settings): (r: Session)
    requires ValidSettings(c) && 0 <= s.level && 0 <= k < |s.pending|
    ensures s.phase == RoundTransition && k == |s.pending| - 1 ==> r == Fire(s, k, c)
    ensures !(s.phase == RoundTransition && k == |s.pending| - 1) ==> r == s.(pending := s.pending[..k] + s.pending[k + 1..])
  {
    if s.phase == RoundTransition && k == |s.pending| - 1 then Fire(s, k, c)
    else s.(pending := s.pending[..k] + s.pending[k + 1..])
  }

  /** goToMenu(): the best score is read back from storage. */
  function GoToMenu(s: Session, stored: Option<int>): (r: Session)
    ensures r.phase == Menu && r.highScore == LoadedHighScore(stored)
    ensures r.(phase := s.phase, highScore := s.highScore) == s
  {
    s.(phase := Menu, highScore := LoadedHighScore(stored))
  }

  /** The time a frame covers, capped: no frame advances the game by more than
      50 ms. */
  function FrameDelta(now: real, last: real): (dt: real)
    ensures dt <= MAX_FRAME_MS
    ensures now - last <= MAX_FRAME_MS ==> dt == now - last
    ensures last <= now ==> 0.0 <= dt
  {
    Min(now - last, MAX_FRAME_MS)
  }

  /** The things that can happen to a game: the public calls and a
      transition callback firing (k is the callback's place among those
      waiting). */
  datatype Event =
    | StartSoloEvent
    | StartDuoEvent
    | MenuEvent(stored: Option<int>)
    | BuzzEvent(player: int)
    | TapEvent(hit: TapResult)
    | TickEvent(dt: real)
    | FireEvent(k: int)

  /** One event, as the source handles it. */
  function Step(s: Session, e: Event, c: Settings): Session
    requires ValidSettings(c) && 0 <= s.level
  {
    match e
    case StartSoloEvent => StartSolo(s, c)
    case StartDuoEvent => StartDuo(s)
    case MenuEvent(stored) => GoToMenu(s, stored)
    case BuzzEvent(p) => Buzz(s, p, c)
    case TapEvent(hit) => Tap(s, hit, c)
    case TickEvent(dt) => Tick(s, dt, c)
    case FireEvent(k) => if 0 <= k < |s.pending| then Fire(s, k, c) else s
  }

  /** One event, with stale callbacks cancelled. */
  function StepGuarded(s: Session, e: Event, c: Settings): Session
    requires ValidSettings(c) && 0 <= s.level
  {
    match e
    case FireEvent(k) => if 0 <= k < |s.pending| then FireGuarded(s, k, c) else s
    case _ => Step(s, e, c)
  }

  /** Every step keeps the level non-negative, so the tier lookup is always
      defined. */
  lemma {:induction false} StepKeepsLevel(s: Session, e: Event, c: Settings)
    requires ValidSettings(c) && 0 <= s.level
    ensures 0 <= Step(s, e, c).level && 0 <= StepGuarded(s, e, c).level
  {
    match e
    case TapEvent(hit) =>
    case TickEvent(dt) =>
      assert Tick(s, dt, c).level == s.level;
    case _ =>
  }

  /** The events in order. */
  function Run(s: Session, es: seq<Event>, c: Settings): Session
    requires ValidSettings(c) && 0 <= s.level
    decreases |es|
  {
    if es == [] then s
    else
      StepKeepsLevel(s, es[0], c);
      Run(Step(s, es[0], c), es[1..], c)
  }

  function RunGuarded(s: Session, es: seq<Event>, c: Settings): Session
    requires ValidSettings(c) && 0 <= s.level
    decreases |es|
  {
    if es == [] then s
    else
      StepKeepsLevel(s, es[0], c);
      RunGuarded(StepGuarded(s, es[0], c), es[1..], c)
  }

  /** The largest round number a match reaches. */
  function LastRound(c: Settings): int
  {
    if c.duoRounds < 1 then 1 else c.duoRounds
  }

  /** What the game promises about its counters: lives in [0, 3], at least
      one while a solo round runs or is about to, a duo match within its
      rounds, at most one point per duo round played and none yet for the
      round being played, and a pause always waiting on its own callback. */
  ghost predicate Inv(s: Session, c: Settings)
  {
    && 0 <= s.level
    && 0 <= s.lives <= START_LIVES
    && (s.phase == PlayingSolo ==> 1 <= s.lives)
    && 0 <= s.currentRound <= LastRound(c)
    && 0 <= s.p1Score && 0 <= s.p2Score
    && s.p1Score + s.p2Score <= s.currentRound
    && (s.phase == PlayingDuo || s.phase == DuoBuzzed ==> 1 <= s.currentRound && s.p1Score + s.p2Score < s.currentRound)
    && (s.phase == RoundTransition ==> |s.pending| > 0)
    && (s.phase == RoundTransition && s.pending[|s.pending| - 1] == Solo ==> 1 <= s.lives)
    && (s.phase == RoundTransition && s.pending[|s.pending| - 1] == Duo ==> 1 <= s.currentRound < c.duoRounds)
  }

  lemma {:induction false} InitialInv(stored: Option<int>, c: Settings)
    ensures Inv(Initial(stored), c)
  {
  }

  /** A frame keeps the invariant. */
  lemma {:induction false} TickKeepsInv(s: Session, dt: real, c: Settings)
    requires Inv(s, c)
    ensures Inv(Tick(s, dt, c), c)
  {
    var a := ShakeClock(s, dt);
    if Active(a.phase) {
      var b := RoundClock(a, dt, c);
      assert Inv(b, c);
      if b.phase == DuoBuzzed {
        assert Inv(BuzzClock(b, dt, c), c);
      }
    }
  }

  /** Every event keeps the invariant once stale callbacks are cancelled. */
  lemma {:induction false} GuardedStepKeepsInv(s: Session, e: Event, c: Settings)
    requires ValidSettings(c) && Inv(s, c)
    ensures Inv(StepGuarded(s, e, c), c)
  {
    match e
    case TickEvent(dt) => TickKeepsInv(s, dt, c);
    case TapEvent(hit) =>
    case FireEvent(k) =>
      if 0 <= k < |s.pending| && s.phase == RoundTransition && k == |s.pending| - 1 {
        assert s.pending[k] == s.pending[|s.pending| - 1];
      }
    case _ =>
  }

  /** A step that raises the duo scores' total starts from a buzz, raises it
      by exactly one and leaves the duo round; a duo round is entered only by
      startDuo, with both scores cleared and round 1, or by a callback ending
      a pause, which counts one more round. */
  lemma {:induction false} GuardedStepScores(s: Session, e: Event, c: Settings)
    requires ValidSettings(c) && Inv(s, c)
    ensures var r := StepGuarded(s, e, c);
      && (r.p1Score + r.p2Score > s.p1Score + s.p2Score ==>
            s.phase == DuoBuzzed && r.p1Score + r.p2Score == s.p1Score + s.p2Score + 1
            && r.phase != PlayingDuo && r.phase != DuoBuzzed)
      && (r.phase == PlayingDuo && s.phase != PlayingDuo ==>
            (e == StartDuoEvent && r.currentRound == 1 && r.p1Score == 0 && r.p2Score == 0)
            || (e.FireEvent? && s.phase == RoundTransition && r.currentRound == s.currentRound + 1))
  {
    match e
    case TickEvent(dt) => TickAwardsAtMostOnePoint(s, dt, c);
    case TapEvent(hit) =>
    case _ =>
  }

  /** Any run of events keeps the invariant once stale callbacks are
      cancelled: lives never leave [0, 3]. */
  lemma {:induction false} GuardedRunKeepsInv(s: Session, es: seq<Event>, c: Settings)
    requires ValidSettings(c) && Inv(s, c)
    ensures Inv(RunGuarded(s, es, c), c)
    decreases |es|
  {
    if es != [] {
      GuardedStepKeepsInv(s, es[0], c);
      GuardedRunKeepsInv(StepGuarded(s, es[0], c), es[1..], c);
    }
  }

  /** The two versions differ only in how a callback fires. */
  lemma {:induction false} StepsAgreeButFire(s: Session, e: Event, c: Settings)
    requires ValidSettings(c) && 0 <= s.level && !e.FireEvent?
    ensures Step(s, e, c) == StepGuarded(s, e, c)
  {
  }

  /** As written, a callback scheduled before a restart still fires: a solo
      game restarted during a pause, lost, and then resumed by the old
      callback reaches -1 lives. */
  lemma {:induction false} StaleTransitionLosesInv(c: Settings)
    requires ValidSettings(c)
    ensures Inv(Initial(None), c)
    ensures Run(Initial(None), StaleTrace(), c).lives == -1
  {
    var s0 := Initial(None);
    var s1 := Step(s0, StartSoloEvent, c);
    var s2 := Step(s1, TapEvent(OnTarget), c);
    assert s2.phase == RoundTransition && s2.pending == [Solo];
    var s3 := Step(s2, StartSoloEvent, c);
    assert s3.phase == PlayingSolo && s3.lives == 3;
    var s4 := Step(s3, TapEvent(OffTarget), c);
    var s5 := Step(s4, TapEvent(OffTarget), c);
    var s6 := Step(s5, TapEvent(OffTarget), c);
    assert s6.phase == GameOver && s6.lives == 0 && s6.pending == [Solo];
    var s7 := Step(s6, FireEvent(0), c);
    assert s7.phase == PlayingSolo && s7.lives == 0;
    var s8 := Step(s7, TapEvent(OffTarget), c);
    assert s8.lives == -1;
    var es := StaleTrace();
    assert Run(s7, es[7..], c) == s8;
    assert Run(s6, es[6..], c) == s8;
    assert Run(s5, es[5..], c) == s8;
    assert Run(s4, es[4..], c) == s8;
    assert Run(s3, es[3..], c) == s8;
    assert Run(s2, es[2..], c) == s8;
    assert Run(s1, es[1..], c) == s8;
  }

  /** Start solo, win a round, restart during the pause, lose three lives,
      let the first pause's callback fire, and miss once more. */
  function StaleTrace(): seq<Event>
  {
    [StartSoloEvent, TapEvent(OnTarget), StartSoloEvent,
     TapEvent(OffTarget), TapEvent(OffTarget), TapEvent(OffTarget),
     FireEvent(0), TapEvent(OffTarget)]
  }

  /** With cancellation the same events leave the game over with no life
      lost below zero. */
  lemma {:induction false} StaleTraceGuarded(c: Settings)
    requires ValidSettings(c)
    ensures RunGuarded(Initial(None), StaleTrace(), c).lives == 0
  {
    InitialInv(None, c);
    GuardedRunKeepsInv(Initial(None), StaleTrace(), c);
    var s0 := Initial(None);
    var s1 := StepGuarded(s0, StartSoloEvent, c);
    var s2 := StepGuarded(s1, TapEvent(OnTarget), c);
    var s3 := StepGuarded(s2, StartSoloEvent, c);
    var s4 := StepGuarded(s3, TapEvent(OffTarget), c);
    var s5 := StepGuarded(s4, TapEvent(OffTarget), c);
    var s6 := StepGuarded(s5, TapEvent(OffTarget), c);
    assert s6.phase == GameOver && s6.lives == 0;
    var s7 := StepGuarded(s6, FireEvent(0), c);
    assert s7.phase == GameOver && s7.lives == 0;
    var s8 := StepGuarded(s7, TapEvent(OffTarget), c);
    var es := StaleTrace();
    assert RunGuarded(s7, es[7..], c) == s8;
    assert RunGuarded(s6, es[6..], c) == s8;
    assert RunGuarded(s5, es[5..], c) == s8;
    assert RunGuarded(s4, es[4..], c) == s8;
    assert RunGuarded(s3, es[3..], c) == s8;
    assert RunGuarded(s2, es[2..], c) == s8;
    assert RunGuarded(s1, es[1..], c) == s8;
  }
}
