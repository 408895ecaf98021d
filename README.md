# Tap & Pop / Spot the Shape — a Dafny model

This project models the game logic of the two browser tap games in the
tap-and-pop repository.

- **Spot the Shape** (`js/game.js`, `js/i18n.js`). Shapes drift across a board, and the
  player taps the one that matches the target.
  - In solo play, a correct tap scores by the time left and raises the level. A wrong tap
    or a timeout costs one of three lives.
  - In duo play, two players buzz in, and the buzzer or the opponent takes the round's point.
  - Between rounds, a pause screen runs out on a timer.
- **Tap & Pop** (`js/entities.js`, `js/spawner.js`, `js/particles.js`, `js/tween.js`,
  `js/utils.js`, `js/config.js`).
  - Fruit and special items spawn by a difficulty table, live for a time to live,
    and pop when tapped.
  - Particles, floating texts and tweens age and are filtered out of their lists when done.

Modules, one per source file:

| module | source | models |
|---|---|---|
| `Utils` | `js/utils.js` | the maths helpers |
| `Config` | `js/config.js` | the constant tables |
| `Entities` | `js/entities.js` | `Entity` as a class |
| `Spawner` | `js/spawner.js` | the spawner class and its pure choices |
| `Particles` | `js/particles.js` | `Particle`, `FloatingText` and `ParticleSystem` as classes, with the backward splice loops |
| `Tween` | `js/tween.js` | `Tween` and `TweenManager` |
| `I18n` | `js/i18n.js` | the language state as a class, and the lookup and templating functions |
| `GameRules` | `js/game.js` | the counters of `Game` as a `Session` value, with one function per step and the invariants and lemmas about them |
| `Board` | `js/game.js` | the `BoardShape` class, and game.js's own `Particle` and `FloatingText` as values (sparks and labels) |
| `ShapeGame` | `js/game.js` | the `Game` class |

Each method of `Game` changes its fields step by step. Each is proved equal to the
`GameRules` function for the same step, via `Snapshot()`, the counters read as a `Session`.

Conventions:
- Times and positions are exact reals.
- Every `Math.random()` value is a parameter in [0, 1).
- `Math.sin` and `Math.cos` are parameters whose values lie in [-1, 1].
- Distances are compared squared; a square root is only a predicate (`IsRoot`).

`js/config.js` does export a `DIFFICULTY_TABLE` (js/config.js:36-47), but its rows are
the fruit game's (spawn interval, ttl, radius scale, maximum on screen). They lack the
fields game.js reads from that table: `shapeCount`, `minSize`, `maxSize`, `speed` and
`timeLimit` (js/game.js:381-411). game.js also imports `SHAPES`, `BOARD_TOP`,
`BOARD_BOTTOM`, `TARGET_AREA_Y`, the `TWO_PLAYER_*` constants and `BUZZ_TIMEOUT_MS`
(js/game.js:3-9), none of which `js/config.js` defines. The model takes the shape game's
rows and these constants as a `Settings` parameter.

## Model

| member | source | states |
|---|---|---|
| Utils.Lerp | js/utils.js:3-5 | lerp gives a at t = 0 and b at t = 1, and lies between a and b for t in [0, 1] |
| Utils.LerpBetween | js/utils.js:3-5 | for t in [0, 1], a + (b − a)·t lies between min(a, b) and max(a, b) |
| Utils.Clamp | js/utils.js:7-9 | clamp is in [lo, hi] when lo ≤ hi; it is the value itself when already in range; it is always lo, hi or the value; crossed bounds give lo |
| Utils.DistSq | js/utils.js:11-15 | the squared distance is non-negative |
| Utils.RootComparison | js/utils.js:11-15 | for a root s of d: s ≤ r iff r ≥ 0 and d ≤ r² |
| Utils.DistanceTest | js/utils.js:11-15 | distance(p, q) ≤ r iff the squared test WithinDistance holds |
| Utils.DistanceSymmetric | js/utils.js:11-15 | the distance from p to q equals the distance from q to p |
| Utils.RandomFloat | js/utils.js:17-19 | randomFloat(min, max) lies in [min, max], and below max when min < max |
| Utils.RollScale | js/utils.js:17-19 | roll·w lies in [0, w], and below w when w > 0 |
| Utils.RandomInt | js/utils.js:21-23 | randomInt(min, max) lies in [min, max] for every roll |
| Utils.RandomIndex | js/game.js:389 | `Math.floor(Math.random() * n)` is an index in [0, n) |
| Utils.RandomItem | js/utils.js:25-27 | randomItem gives an element of the array exactly when the array is non-empty |
| Utils.EaseEndpoints | js/utils.js:29-44 | every easing maps 0 to 0 and 1 to 1; easeInOutQuad(0.5) = 0.5 |
| Utils.EaseOutCubic | js/utils.js:29-31 | easeOutCubic: one minus the cube of the time left (1 − t); its endpoints are stated by Utils.EaseEndpoints |
| Utils.EaseOutQuad | js/utils.js:38-40 | easeOutQuad: one minus the square of the time left (1 − t) |
| Utils.EaseInOutQuad | js/utils.js:42-44 | easeInOutQuad: 2t² in the first half, one minus half the square of (2 − 2t) in the second |
| Utils.EaseOutElastic | js/utils.js:33-36 | easeOutElastic: t itself at 0 and 1, otherwise the decaying sine term (a parameter, as Math.pow and Math.sin are not modelled) plus one |
| Utils.EaseOutCubicRange | js/utils.js:29-31 | easeOutCubic maps [0, 1] into [0, 1] |
| Utils.EaseOutQuadRange | js/utils.js:38-40 | easeOutQuad maps [0, 1] into [0, 1] |
| Utils.EaseInOutQuadRange | js/utils.js:42-44 | easeInOutQuad maps [0, 1] into [0, 1] |
| Utils.HexValue | js/utils.js:49-51 | a hex digit of either case is worth 0 to 15 |
| Utils.PairValue | js/utils.js:49-51 | a two-digit hex pair parses to 0..255 |
| Utils.HexToRgb | js/utils.js:46-53 | an optional '#' plus six hex digits gives each channel its pair's value; anything else gives white (255, 255, 255) |
| Utils.HexChar | js/utils.js:47 | the digit written for 0..15 is a hex digit that parses back to the same value |
| Utils.HexRoundTrip | js/utils.js:46-53 | formatting channels in [0, 255] as '#' and three hex pairs, then parsing, gives the same channels |
| Utils.Ceil | js/game.js:501 | Math.ceil(x) is the least integer at or above x |
| Utils.WaveScale | js/entities.js:69 | a sine value times a non-negative amplitude stays within ± the amplitude |
| Utils.FractionBelowOne | js/particles.js:40 | elapsed / lifetime is in [0, 1) while the item lives |
| Utils.Kept | js/particles.js:105-110 | filtering never lengthens the list |
| Utils.KeptFrom | js/particles.js:105-110 | the filter from index i keeps element i exactly when its flag is set, then filters the rest |
| Utils.KeptIndex | js/particles.js:105-110 | every element of the filtered list comes from a position whose flag is set |
| Utils.KeptComplete | js/particles.js:105-110 | every element whose flag is set is in the filtered list |
| Utils.KeptDistinct | js/particles.js:105-110 | filtering a list without repeats gives a list without repeats |
| Config.TableIsProgressive | js/config.js:36-47 | ten tiers; spawnInterval, ttl and radiusScale strictly decrease with the tier, and maxOnScreen = 5 + tier |
| Config.TiersLeavePlacementRoom | js/config.js:36-47 | every tier's side margin is positive and below the width minus the margin |
| Config.SpecialRatiosPartition | js/config.js:28-31 | the three special ratios sum to 1 and split [0, 1) into three non-empty parts |
| Config.ItemPoints | js/config.js:11-26 | every fruit scores points, bomb and heart score 0, and the star scores 100 |
| Entities.SpecialKindsMatchConfig | js/entities.js:34-36 | isSpecial holds for star, bomb and heart and for no fruit |
| Entities.Entity.IsSpecial | js/entities.js:34-36 | the isSpecial getter: the entity is a bomb, star or heart |
| Entities.RadiusFactor | js/entities.js:13 | `config.radius \|\| 1` is the configured radius whenever that is non-zero, and never negative for a non-negative radius |
| Entities.SpawnRadius | js/entities.js:56-65 | the spawn-in radius target·min(1.2·ease(t), 1) stays in [0, target] for t in [0, 1] |
| Entities.PopRadius | js/entities.js:93 | for p in [0, 1), the pop radius lies in [target, 1.5·target], strictly below 1.5·target when the target is positive |
| Entities.PopScale | js/entities.js:93 | the arithmetic behind PopRadius's bounds |
| Entities.FadeAlpha | js/entities.js:75-81 | below 500 ms of ttl the fade alpha, blink factor included, stays in [0, 1], and it is 0 once ttl ≤ 0 |
| Entities.Wobble | js/entities.js:68 | the wobble phase never moves backwards for dt ≥ 0 |
| Entities.DistanceTestAll | js/entities.js:38-40 | the squared hit test agrees with comparing the distance itself, for every root |
| Entities.Entity.constructor | js/entities.js:7-32 | ttl = maxTtl = the given ttl; alive, not popping; radius 0; baseRadius = targetRadius = 50·(radius \|\| 1)·scale; the random draws land in their ranges |
| Entities.Entity.HitTest | js/entities.js:38-40 | a hit iff the distance to (x, y + floatY) is at most the radius (inclusive) |
| Entities.Entity.Pop | js/entities.js:42-46 | pop enters the pop animation; a second pop changes nothing and does not reset popProgress |
| Entities.Entity.Expire | js/entities.js:48-50 | expire leaves the entity dead |
| Entities.Entity.Update | js/entities.js:52-97 | update keeps Valid (radius, alpha, progress in range). The ttl drops by dt. A popping entity never expires by ttl. A non-popping one dies exactly when ttl ≤ 0. Popping ends life at progress 1, and before that sets radius target·(1 + p/2) and alpha 1 − p |
| Entities.Entity.SpawnIn | js/entities.js:55-65 | spawnProgress grows by dt/300 capped at 1; the radius follows SpawnRadius |
| Entities.Entity.Bob | js/entities.js:67-69 | the wobble phase advances and floatY is the amplitude-scaled sine |
| Entities.Entity.Age | js/entities.js:71-85 | ttl drops by dt; a non-popping entity below 500 fades by FadeAlpha; it expires at ttl ≤ 0 unless popping |
| Entities.Entity.PopStep | js/entities.js:87-96 | popProgress grows by dt/200; at ≥ 1 the entity dies, before that it swells and fades |
| Spawner.TierIndex | js/spawner.js:26-29 | the tier index is the level clamped to [0, 9]: negative levels use tier 0, levels past the table the last tier |
| Spawner.Difficulty | js/spawner.js:26-29 | getDifficulty is a row of the table: the level's own row, or the last one past the table |
| Spawner.LevelAt | js/spawner.js:33 | level = floor(gameTime / 15000): gameTime lies in [level·15000, (level+1)·15000) |
| Spawner.LevelMonotone | js/spawner.js:31-33 | a longer game time never gives a lower level, tier or a longer spawn interval |
| Spawner.IntervalsShrink | js/config.js:36-47 | along the table the spawn interval never grows |
| Spawner.ChooseItem | js/spawner.js:49-62 | below 0.12 a bomb (roll < 0.4), a star (roll < 0.75) or else a heart; otherwise a fruit from FRUITS; the item is special exactly on the first branch |
| Spawner.PlaceX | js/spawner.js:64-65 | for radius scales up to 4.8 (every tier of the table), x lies at least the tier's margin from both side edges |
| Spawner.PlaceY | js/spawner.js:66 | y lies in [200, 1030) |
| Spawner.Spawn | js/spawner.js:45-69 | a fresh, live, not-popping entity with the chosen item's kind, points and colour. Its base and target radius are 50 × the item's radius factor × the tier's radius scale. It is placed by PlaceX/PlaceY, has the tier's ttl and starts at radius 0 |
| Spawner.SpawnRespectsCap | js/spawner.js:38 | a spawn happens only while fewer than the tier's cap (at most 14) are on screen |
| Spawner.ShouldSpawn | js/spawner.js:38 | update spawns exactly when the time since the last spawn has reached the tier's interval and fewer than the tier's maximum are on screen |
| Spawner.ItemRadiiPositive | js/spawner.js:49-62 | every item the spawner can choose has a positive radius factor |
| Spawner.Spawner.constructor | js/spawner.js:13-18 | all three counters start at 0 |
| Spawner.Spawner.Reset | js/spawner.js:20-24 | reset zeroes timeSinceSpawn, gameTime and level |
| Spawner.Spawner.GetDifficulty | js/spawner.js:26-29 | the row for the current level, clamped |
| Spawner.Spawner.Update | js/spawner.js:31-43 | gameTime grows by dt and the level follows it, never falling. An entity is returned iff the interval has elapsed and the screen is below the cap. timeSinceSpawn resets only on a spawn, and otherwise keeps accumulating. The returned entity is made by Spawn from the tier of the new level: the item's kind, points, colour and scaled radius, placed by the rolls |
| Particles.Progress | js/particles.js:40 | a live item's progress is in [0, 1), and 0 at birth |
| Particles.LaunchSpeed | js/particles.js:19 | the launch speed lies in [100, 350) |
| Particles.LaunchVelocity | js/particles.js:18-21 | the launch velocity has exactly the drawn speed, whatever the angle |
| Particles.Tick | js/particles.js:28-32 | an update adds dt to elapsed, and the item stays alive only while elapsed < lifetime |
| Particles.SumNonNegative | js/particles.js:28 | non-negative frame times add up to a non-negative total |
| Particles.RunLifespan | js/particles.js:26-32 | over any run of frames, elapsed is the sum of the frame times, and the item is alive iff it started alive and the total is below lifetime |
| Particles.ParticleStep | js/particles.js:26-37 | once elapsed ≥ lifetime, position and velocity are untouched; otherwise vx is damped by 0.98 and gravity never slows the fall |
| Particles.Fall | js/particles.js:34 | gravity adds non-negative speed |
| Particles.TextStep | js/particles.js:61-70 | once elapsed ≥ lifetime, y and vy are untouched; otherwise vy is damped by 0.97 and a rising text keeps rising |
| Particles.Particle.constructor | js/particles.js:7-24 | position as given; colour from hexToRgb; radius in [3, 8); lifetime 500; elapsed 0; alive; velocity = (cos, sin)·speed |
| Particles.Particle.Update | js/particles.js:26-37 | the particle's moving part follows ParticleStep, and Valid is kept for dt ≥ 0 |
| Particles.LifeAlpha | js/particles.js:39-41 | the draw alpha of a spark, and by the same formula of a floating text (js/particles.js:72-74), is 1 at birth and lies in (0, 1] while it lives |
| Particles.Particle.DrawRadius | js/particles.js:42 | the draw radius lies between half the radius and the radius |
| Particles.FloatingText.constructor | js/particles.js:49-59 | fields as given; lifetime 800; elapsed 0; alive; vy = −120 |
| Particles.FloatingText.Update | js/particles.js:61-70 | the text's moving part follows TextStep, and Valid is kept for dt ≥ 0 |
| Particles.FloatingText.Scale | js/particles.js:75 | a live text's scale lies in [1, 1.3) |
| Particles.AliveFlags | js/particles.js:107 | one flag per particle, each its alive field |
| Particles.TextAliveFlags | js/particles.js:113 | one flag per text, each its alive field |
| Particles.ParticlesFinished | js/particles.js:105-110 | after the backward loop, the list is exactly the survivors in their order, each once, each alive |
| Particles.TextsFinished | js/particles.js:111-116 | the same for the text list |
| Particles.StepsAlive | js/particles.js:106-107 | which particles one update leaves alive |
| Particles.TextStepsAlive | js/particles.js:112-113 | which texts one update leaves alive |
| Particles.Motions | js/particles.js:104-110 | the moving part of each listed particle |
| Particles.Drifts | js/particles.js:111-116 | the moving part of each listed text |
| Particles.ParticleSystem.constructor | js/particles.js:89-92 | both lists start empty |
| Particles.ParticleSystem.Burst | js/particles.js:94-98 | burst appends exactly `count` new particles (none for a negative count) at (x, y), leaves the existing ones and the texts as they were |
| Particles.ParticleSystem.AddFloatingText | js/particles.js:100-102 | exactly one new text is appended, with the given position, text, colour and size (36 when no size is passed, as the constructor's default at js/particles.js:49 gives); the particles are unchanged |
| Particles.ParticleSystem.Update | js/particles.js:104-117 | every particle and text is updated exactly once, and each list keeps exactly those alive afterwards, in their order |
| Particles.ParticleSystem.UpdateParticles | js/particles.js:105-110 | the particle loop's result, leaving the texts untouched |
| Particles.ParticleSystem.ParticlesLoop | js/particles.js:105-110 | the backward splice loop leaves the survivors in order |
| Particles.ParticleSystem.StepParticleAt | js/particles.js:106 | one pass updates particle i |
| Particles.ParticleSystem.SpliceParticleAt | js/particles.js:107-109 | splice(i, 1) exactly when particle i died |
| Particles.ParticleSystem.UpdateTexts | js/particles.js:111-116 | the text loop's result, leaving the particles untouched |
| Particles.ParticleSystem.TextsLoop | js/particles.js:111-116 | the backward splice loop over texts |
| Particles.ParticleSystem.StepTextAt | js/particles.js:112 | one pass updates text i |
| Particles.ParticleSystem.SpliceTextAt | js/particles.js:113-115 | splice(i, 1) exactly when text i died |
| Particles.ParticleSystem.Clear | js/particles.js:124-127 | clear empties both lists |
| Tween.EasingNamed | js/tween.js:18 | one of the table's five names picks its curve; any other string in the model falls back to easeOutCubic |
| Tween.EaseEnds | js/tween.js:5-11 | every curve maps 0 to 0 and 1 to 1 |
| Tween.EaseInUnit | js/tween.js:5-11 | every curve but the elastic one maps [0, 1] into [0, 1] |
| Tween.QuotientReaches | js/tween.js:34 | for a duration that is not 0, elapsed/duration reaches 1 exactly when the time has run its course (at or past a positive duration, at or below a negative one) |
| Tween.TweenProgress | js/tween.js:34 | a finite progress never exceeds 1. It is exactly 1 iff the time has run its course, and it is not finite (NaN or −Infinity) exactly for duration 0 at a time ≤ 0. It is finite and non-negative for a positive duration and a non-negative time |
| Tween.EaseNumber | js/tween.js:35 | the eased progress is finite exactly when the progress is, and 0 and 1 are kept |
| Tween.Target.constructor | js/tween.js:14 | the target holds the given property values |
| Tween.Captured | js/tween.js:23-28 | one entry per goal key, ending at the goal. It starts at the target's value, or not finite when the target lacks the key |
| Tween.Blend | js/tween.js:38-39 | the written value is finite exactly when the start and the eased progress are. It is the start at eased 0 and the goal at eased 1, and lies between them for eased in [0, 1] |
| Tween.Written | js/tween.js:37-40 | each tweened key is written start + (end − start)·eased, by Blend; all other keys are kept |
| Tween.WrittenAtEnd | js/tween.js:37-40 | at eased progress 1 every property that started finite equals its goal; one that did not stays not finite |
| Tween.AbsentKeyWritesNaN | js/tween.js:25 | a goal key the target lacked is written as NaN on every update |
| Tween.TweenStepConsistent | js/tween.js:31-46 | for any duration, an update keeps the counters consistent. It sets done exactly when the time runs its course, and it is a no-op once done |
| Tween.ZeroDurationTween | js/tween.js:33-44 | a tween of duration 0 finishes on its first update iff dt > 0; otherwise that update writes NaN to every property |
| Tween.CompletesAtMostOnce | js/tween.js:42-45 | over any run of updates, with any duration, onComplete fires at most once, and a finished tween never changes |
| Tween.CaptureStarts | js/tween.js:23-28 | the constructor's loop records exactly Captured |
| Tween.Tween.constructor | js/tween.js:14-29 | any target, goals and duration are accepted. Start values are captured (an absent one is not finite), the easing is chosen by name with the fallback, elapsed is 0 and the tween is not done |
| Tween.Tween.Update | js/tween.js:31-46 | the counters follow TweenStep, and nothing is written once done. Otherwise every property is written by Written with the eased progress, where a duration of 0 divides to Infinity, NaN or −Infinity. At completion every property that started finite equals its goal |
| Tween.Tween.WriteProps | js/tween.js:37-40 | the loop writes exactly Written |
| Tween.Running | js/tween.js:62-63 | one flag per tween: not yet done |
| Tween.States | js/tween.js:60-67 | the counters of each listed tween |
| Tween.StepsRunning | js/tween.js:61-63 | which tweens one update leaves running |
| Tween.TweensFinished | js/tween.js:60-67 | after the backward loop the list is exactly the tweens still running, in order, each once |
| Tween.TargetValues | js/tween.js:39 | the values of each listed tween's target |
| Tween.TargetsWrittenStep | js/tween.js:62 | updating tween i, which writes only its own target, extends the written targets by one place |
| Tween.TweenManager.constructor | js/tween.js:50-52 | the list starts empty |
| Tween.TweenManager.Add | js/tween.js:54-58 | add accepts any goals and duration. It appends exactly the new tween, made as the constructor makes it, and returns it |
| Tween.TweenManager.Update | js/tween.js:60-67 | every tween is updated once, and exactly the finished ones are removed; the rest keep their order. When no two tweens share a target, each target holds what its own tween wrote over its old values. Only the tweens and their targets change |
| Tween.TweenManager.TweensLoop | js/tween.js:61-66 | the backward splice loop, with the same list and target results |
| Tween.TweenManager.PassAt | js/tween.js:62-65 | one pass updates tween i and splices it out if done |
| Tween.TweenManager.StepTweenAt | js/tween.js:62 | one pass updates tween i; with distinct targets, only its own target changes |
| Tween.TweenManager.SpliceTweenAt | js/tween.js:63-65 | splice(i, 1) exactly when tween i is done; no target changes |
| Tween.TweenManager.Clear | js/tween.js:69-71 | clear empties the list |
| I18n.FindFrom | js/i18n.js:157 | the first occurrence of the pattern at or after an index, or none |
| I18n.ReplaceFirst | js/i18n.js:157 | String.replace with a string pattern: only the first occurrence is replaced, and a string without one is unchanged |
| I18n.ReplaceKeepsLater | js/i18n.js:157 | a later occurrence survives the replacement, shifted |
| I18n.SpliceKeepsLater | js/i18n.js:157 | the splice behind ReplaceKeepsLater |
| I18n.Decimal | js/i18n.js:157 | an argument's index is written as a non-empty string of decimal digits that reads back as the index, with no leading zero |
| I18n.Placeholder | js/i18n.js:157 | the placeholder of argument i is braced: `{`, the digits, `}` |
| I18n.NoPlaceholderUnchanged | js/i18n.js:156-158 | a template with no `{` is not changed by any arguments |
| I18n.ApplyFrom | js/i18n.js:156-158 | the argument loop of t: argument i replaces the first occurrence of {i}, in index order |
| I18n.RepeatedPlaceholderExample | js/i18n.js:156-158 | with one argument, the second `{0}` of a template stays |
| I18n.Lookup | js/i18n.js:155 | the current language's text, else the English text, else the key; an empty text counts as missing |
| I18n.UpperChar | js/i18n.js:163 | toUpperCase on one ASCII character |
| I18n.Upper | js/i18n.js:163 | toUpperCase upper-cases each character and keeps the length |
| I18n.UpperIdempotent | js/i18n.js:163 | upper-casing twice is upper-casing once |
| I18n.ShapeName | js/i18n.js:162-164 | the table entry for the language, else the type with its first '_' made a space, upper-cased |
| I18n.FallbackWithoutUnderscore | js/i18n.js:163 | an unknown type without '_' is named by the type upper-cased |
| I18n.Toggled | js/i18n.js:149-152 | toggling always gives 'en' or 'he', and never leaves 'he' unchanged |
| I18n.ToggleTwice | js/i18n.js:149-152 | two toggles restore the language iff it was 'he' or 'en' |
| I18n.Localizer.constructor | js/i18n.js:129 | the language starts as 'he' |
| I18n.Localizer.InitLang | js/i18n.js:131-137 | a stored 'en' or 'he' is adopted; anything else keeps the current language |
| I18n.Localizer.GetLang | js/i18n.js:139-141 | the current language |
| I18n.Localizer.SetLang | js/i18n.js:143-147 | any string becomes the current language |
| I18n.Localizer.ToggleLang | js/i18n.js:149-152 | the language becomes Toggled of the old one, and the new one is returned |
| I18n.Localizer.T | js/i18n.js:154-160 | the looked-up text with argument i replacing the first `{i}`, in order; with no arguments the looked-up text itself |
| I18n.Localizer.ShapeNameOf | js/i18n.js:162-164 | ShapeName for the current language |
| GameRules.LoadedHighScore | js/game.js:289-292 | a missing record reads as 0, otherwise the stored number |
| GameRules.Initial | js/game.js:162-184 | the game starts at MENU with 3 lives, level 0, score 0 and the stored best score |
| GameRules.TierFor | js/game.js:381 | the tier `DIFFICULTY_TABLE[min(level, length − 1)]` |
| GameRules.SoloClock | js/game.js:410-411 | roundTimer = roundTimerMax = the tier's time limit in ms; nothing else changes |
| GameRules.DuoClock | js/game.js:416-447 | the next round: currentRound + 1, nobody buzzed, buzz timer 0, 15000 ms on the round clock; scores, lives and phase kept |
| GameRules.StartSolo | js/game.js:333-344 | PLAYING_SOLO with score 0, level 0, 3 lives and the first tier's clock |
| GameRules.StartDuo | js/game.js:346-358 | PLAYING_DUO with both scores 0, currentRound = 1, nobody buzzed, 15000 ms |
| GameRules.Buzz | js/game.js:454-464 | a buzz takes effect only from PLAYING_DUO with nobody buzzed: DUO_BUZZED, that player, the buzz timeout; otherwise nothing changes; scores are never touched |
| GameRules.SecondBuzzIgnored | js/game.js:454-464 | a second buzz by either player is a no-op |
| GameRules.ShowTransition | js/game.js:572-590 | ROUND_TRANSITION, nobody buzzed, the pause timer set, one more callback scheduled; scores, lives and rounds kept |
| GameRules.SaveBest | js/game.js:294-298 | the best score changes only to a strictly greater score |
| GameRules.EndGame | js/game.js:592-601 | GAME_OVER, nobody buzzed, the best score saved from every phase but the two duo ones |
| GameRules.EndGameBest | js/game.js:592-601 | a game over never lowers the best score, raises it only to a greater solo score, and never changes it from a duo phase |
| GameRules.SoloPoints | js/game.js:501 | max(10, ceil(roundTimer/100)) |
| GameRules.CorrectSolo | js/game.js:494-508 | score + SoloPoints, level + 1, lives unchanged, ROUND_TRANSITION with nobody buzzed and a solo round scheduled after 1200 ms |
| GameRules.WrongSolo | js/game.js:510-522 | exactly one life lost, the shake set, GAME_OVER iff no life is left |
| GameRules.Opponent | js/game.js:550 | player 1's opponent is 2, anyone else's is 1 |
| GameRules.Award | js/game.js:531-532 | one point to player 1, or else to player 2; nothing else changes |
| GameRules.CloseDuoRound | js/game.js:537-541 | the match ends iff currentRound ≥ the round count, otherwise a pause before the next duo round |
| GameRules.CorrectDuo | js/game.js:524-542 | the buzzer gets the one point; the match ends iff the last round is reached, otherwise a 1200 ms pause before the next duo round |
| GameRules.WrongDuo | js/game.js:544-564 | the opponent gets the one point and the screen shakes; the match ends iff the last round is reached |
| GameRules.Tap | js/game.js:322-329 | a tap acts only in PLAYING_SOLO and DUO_BUZZED, and only when it hit a shape; otherwise nothing changes |
| GameRules.DuoTapPoint | js/game.js:524-564 | a decided duo tap gives exactly one point, to player 1 iff (right tap) = (player 1 buzzed), and leaves DUO_BUZZED |
| GameRules.ShakeClock | js/game.js:616-617 | a running shake timer counts down by dt; nothing else changes |
| GameRules.RoundTimeout | js/game.js:636-669 | the round timer running out: in solo a life is lost and the screen shakes, then the game ends at 0 lives or pauses 1000 ms back to solo; in a buzzed duo round the opponent scores and the screen shakes; in an unbuzzed duo round nobody scores; a duo round then ends the game after the last round or pauses 1000 ms before the next |
| GameRules.RoundClock | js/game.js:633-669 | the round timer counts down by dt and the round times out when it reaches 0 |
| GameRules.BuzzClock | js/game.js:672-688 | the buzz timer counts down by dt; a buzzer whose time runs out gives the opponent the point and the round closes |
| GameRules.ActiveClocks | js/game.js:628-689 | the active block of update: the round timer, then the buzz timer only if a player is still buzzed |
| GameRules.PauseClock | js/game.js:691-696 | the pause block of update: the transition timer counts down only in ROUND_TRANSITION |
| GameRules.Tick | js/game.js:614-697 | update(dt) on the counters: the shake first, the active block in an active phase, then the pause block on the (possibly new) phase; its invariant is kept by GameRules.TickKeepsInv |
| GameRules.BoardSteps | js/game.js:626-696 | the board moves at most twice a frame, and never outside the play and pause phases |
| GameRules.TickAwardsAtMostOnePoint | js/game.js:636-688 | a frame never takes a point away. It gives at most one point, none outside DUO_BUZZED, and never to the player who buzzed |
| GameRules.TickLives | js/game.js:636-646 | a frame costs a life only in solo and only when the round timer runs out, exactly one. The game is then over iff no life is left, and otherwise pauses before a solo round |
| GameRules.Fire | js/game.js:580-589 | the fired callback enters the scheduled mode and sets up its round, whatever the game is doing |
| GameRules.FireGuarded | js/game.js:580-589 | corrected: only the latest callback, during the pause, acts; any other is dropped |
| GameRules.GoToMenu | js/game.js:603-610 | MENU with the best score read back; nothing else changes |
| GameRules.FrameDelta | js/game.js:862 | dt = min(now − last, 50): never above 50, the real delta when that is smaller, non-negative when time moves forward |
| GameRules.StepKeepsLevel | js/game.js:381 | no event makes the level negative, so the tier lookup is always defined |
| GameRules.InitialInv | js/game.js:162-184 | the constructor's counters satisfy the invariant |
| GameRules.TickKeepsInv | js/game.js:614-697 | a frame keeps the invariant: level ≥ 0, lives in [0, 3], at least one life while solo play runs or a solo round waits, the duo round within the match, and a pending callback during every pause. The scores are non-negative and total at most the rounds played, with no point yet for the round being played |
| GameRules.GuardedStepKeepsInv | js/game.js:322-610 | with stale callbacks cancelled, every event keeps the invariant |
| GameRules.GuardedRunKeepsInv | js/game.js:322-697 | with stale callbacks cancelled, any run of events keeps lives in [0, 3] and gives at most one point per duo round played |
| GameRules.GuardedStepScores | js/game.js:322-697 | a step that raises the duo scores' total starts in DUO_BUZZED, raises it by exactly one and leaves the duo round. PLAYING_DUO is entered only by startDuo (scores cleared, round 1) or by a callback ending a pause, which counts one more round |
| GameRules.StepsAgreeButFire | js/game.js:580-589 | the guarded and unguarded games differ only in how a callback fires |
| GameRules.StaleTransitionLosesInv | js/game.js:580-589 | as written, the callback of a pause that a restart cut short still fires and leads to −1 lives |
| GameRules.StaleTraceGuarded | js/game.js:580-589 | with cancellation the same events end at 0 lives |
| Board.Moved | js/game.js:40-53 | update advances the wobble by 2 rad/s and the rotation by rotSpeed; a positive highlight timer counts down |
| Board.MovedStaysInBand | js/game.js:46-48 | a shape within its size past the edges stays there after an update with dt ≥ 0, the wrap putting it at the opposite edge |
| Board.BoardShape.constructor | js/game.js:23-38 | fields as given, the draws within their ranges, not highlighted |
| Board.BoardShape.Update | js/game.js:40-53 | the shape's moving part follows Moved |
| Board.HitsWithinRadius | js/game.js:55-61 | a tap hits iff its distance from the wobbling centre is strictly below 0.55·size |
| Board.Hits | js/game.js:55-61 | hitTest: the tap lies strictly inside the circle of radius 0.55 × size around the shape's centre |
| Board.NewSpark | js/game.js:88-98 | radius in [3, 10), life in [500, 800), elapsed 0, velocity within ±350 |
| Board.SparkLaunchSpeed | js/game.js:94-97 | a new spark's velocity has exactly the drawn speed 100 + 250·roll, in [100, 350), for any direction on the unit circle |
| Board.SparkStep | js/game.js:99-105 | elapsed grows by dt and gravity adds 300·dt/1000 to vy |
| Board.LiveSparks | js/game.js:630 | the filter keeps exactly the sparks alive after their update |
| Board.SparkAlive | js/game.js:115 | a spark is alive while its elapsed time is below its life |
| Board.LiveSparkFade | js/game.js:106-108 | a live spark's fade lies in (0, 1] |
| Board.SparkFade | js/game.js:106-108 | a spark's alpha is one minus the fraction of its life used |
| Board.BurstSparks | js/game.js:566-570 | one spark per draw, at (x, y), coloured from the given colours |
| Board.BurstSparksSnoc | js/game.js:567-569 | one more draw adds one spark at the end |
| Board.NewLabel | js/game.js:121-127 | life 800, elapsed 0, the caption given |
| Board.LabelStep | js/game.js:128-131 | elapsed grows by dt and the text rises by 0.08·dt |
| Board.LiveLabels | js/game.js:631 | the filter keeps exactly the texts alive after their update |
| Board.LabelAlive | js/game.js:146 | a floating text is alive while its elapsed time is below its life |
| Board.LabelLifetime | js/game.js:125-146 | a new text survives an update iff dt < 800 |
| Board.MovedTimesInBand | js/game.js:629 | any number of frames keeps a shape in its band |
| Board.MovedTimesSnoc | js/game.js:629 | n + 1 moves are one more move after n |
| Board.LiveSparksTimesSnoc | js/game.js:630 | n + 1 filters are one more filter after n |
| Board.LiveLabelsTimesSnoc | js/game.js:631 | the same for texts |
| ShapeGame.Picked | js/game.js:386-391 | the selection loop draws min(count, number of names) types |
| ShapeGame.PickedUnfold | js/game.js:389-390 | one draw takes the drawn name out of those left |
| ShapeGame.PickedFromAvail | js/game.js:386-391 | every drawn type is one of the names |
| ShapeGame.DropDistinct | js/game.js:390 | splicing one name out keeps the rest distinct and drops it |
| ShapeGame.PickedDistinct | js/game.js:386-391 | from distinct names the board types are pairwise distinct |
| ShapeGame.PickBoardTypes | js/game.js:386-391 | the loop that splices from a copy of the names yields exactly Picked |
| ShapeGame.PickTarget | js/game.js:393 | the target is one of the board types, and undefined only on an empty board |
| ShapeGame.BuildShapes | js/game.js:396-408 | one new shape per type, in order, each placed by its draw |
| ShapeGame.Drifts | js/game.js:629 | the moving part of each shape |
| ShapeGame.MovedAll | js/game.js:629 | one pass moves every shape by Moved |
| ShapeGame.MovedAllTimes | js/game.js:629 | n passes keep one moving part per shape |
| ShapeGame.MovedAllTimesSnoc | js/game.js:629 | n + 1 passes are one more pass after n |
| ShapeGame.MovedAllTimesAt | js/game.js:629 | passes over the board move each shape on its own |
| ShapeGame.BoardStaysInBand | js/game.js:46-48 | a board whose shapes are within their bands keeps them there for any number of frames |
| ShapeGame.HitsOf | js/game.js:469 | each shape's hit test for the tap |
| ShapeGame.Topmost | js/game.js:467-477 | the highest-index shape hit, or none exactly when no shape is hit |
| ShapeGame.BurstColors | js/game.js:496-547 | every kind of tap has a non-empty colour list |
| ShapeGame.TapLabelMatchesScore | js/game.js:504-554 | the floating text shows exactly the points the solo tap added, a cross for a lost life, and in duo names player 1 iff player 1 scored |
| ShapeGame.PlayerColor | js/game.js:533 | player 1's text is red (#F87171), any other player's blue (#60A5FA) |
| ShapeGame.TapLabel | js/game.js:504-554 | the floating text of a tap: the solo points in green, a cross in red for a wrong solo tap, and in duo the scoring player's point in that player's colour |
| ShapeGame.Game.constructor | js/game.js:151-198 | counters as Initial, with empty board, sparks and texts |
| ShapeGame.Game.SaveHighScore | js/game.js:294-298 | the best score becomes SaveBest, and true is returned iff it changed |
| ShapeGame.Game.StartSolo | js/game.js:333-344 | the counters follow GameRules.StartSolo, and the board is set up for the first tier |
| ShapeGame.Game.ClearSolo | js/game.js:336-339 | PLAYING_SOLO with score 0, level 0 and 3 lives |
| ShapeGame.Game.StartDuo | js/game.js:346-358 | the counters follow GameRules.StartDuo, and the board is set up with the duo shape count |
| ShapeGame.Game.ClearDuo | js/game.js:349-353 | PLAYING_DUO with both scores, the round and the buzzer cleared |
| ShapeGame.Game.SetupBoard | js/game.js:382-408 | the lists emptied, the types drawn, the target among them, one new shape per type |
| ShapeGame.Game.SetupRound | js/game.js:380-413 | the counters follow SoloClock, and the board is set up for the level's tier |
| ShapeGame.Game.SetupDuoRound | js/game.js:415-451 | the counters follow DuoClock, and the board is set up with the duo shape count |
| ShapeGame.Game.NextDuoRound | js/game.js:416-447 | the counters follow DuoClock |
| ShapeGame.Game.DuoBuzz | js/game.js:454-464 | the counters follow Buzz |
| ShapeGame.Game.ShowTransition | js/game.js:572-590 | the counters follow GameRules.ShowTransition |
| ShapeGame.Game.FireTransition | js/game.js:580-589 | as written: the counters follow Fire, and the scheduled round's board is set up |
| ShapeGame.Game.FireTransitionGuarded | js/game.js:580-589 | corrected: the counters follow FireGuarded |
| ShapeGame.Game.FinishGame | js/game.js:592-601 | the counters follow EndGame |
| ShapeGame.Game.GoToMenu | js/game.js:603-610 | the counters follow GameRules.GoToMenu |
| ShapeGame.Game.AwardPoint | js/game.js:531-532 | the counters follow Award |
| ShapeGame.Game.CloseDuoRound | js/game.js:537-541 | the counters follow GameRules.CloseDuoRound |
| ShapeGame.Game.Burst | js/game.js:566-570 | the loop appends exactly BurstSparks |
| ShapeGame.Game.TopmostHit | js/game.js:467-477 | the reverse loop finds exactly Topmost |
| ShapeGame.Game.Mark | js/game.js:496-504 | the burst and the text are appended; only shape i is lit, and only for a correct tap |
| ShapeGame.Game.Jolt | js/game.js:512-514 | the shake is set, and the burst and the text are appended |
| ShapeGame.Game.CorrectTapSolo | js/game.js:494-508 | the counters follow CorrectSolo; the sparks, the points text, and shape i lit for 500 ms |
| ShapeGame.Game.WrongTapSolo | js/game.js:510-522 | the counters follow WrongSolo; the sparks and the cross text; no shape lit |
| ShapeGame.Game.CorrectTapDuo | js/game.js:524-542 | the counters follow CorrectDuo; the sparks, the buzzer's text, and shape i lit |
| ShapeGame.Game.WrongTapDuo | js/game.js:544-564 | the counters follow WrongDuo; the sparks and the opponent's text |
| ShapeGame.Game.HandleTap | js/game.js:322-329 | only PLAYING_SOLO and DUO_BUZZED look for a shape. The topmost shape hit is handled, and the counters follow Tap. A tap that hits nothing leaves the counters, sparks, texts and highlights as they were |
| ShapeGame.Game.HandleSoloTap | js/game.js:466-478 | the topmost shape hit is handled as the target or as a wrong guess |
| ShapeGame.Game.SoloShapeTap | js/game.js:469-475 | a target shape is a correct tap, any other a wrong one |
| ShapeGame.Game.HandleDuoBuzzedTap | js/game.js:480-492 | the same for the player who buzzed |
| ShapeGame.Game.DuoBuzzedShapeTap | js/game.js:483-489 | a target shape is a correct duo tap, any other a wrong one |
| ShapeGame.Game.ShakeStep | js/game.js:616-617 | the counters follow ShakeClock |
| ShapeGame.Game.TimeOut | js/game.js:636-669 | the counters follow RoundTimeout |
| ShapeGame.Game.SoloTimeOut | js/game.js:637-646 | the solo branch of RoundTimeout |
| ShapeGame.Game.RoundStep | js/game.js:633-669 | the counters follow RoundClock |
| ShapeGame.Game.BuzzStep | js/game.js:672-688 | the counters follow BuzzClock |
| ShapeGame.Game.MoveShapes | js/game.js:629 | every shape is updated once: the board's moving parts follow MovedAll |
| ShapeGame.Game.MoveBoard | js/game.js:629-631 | the shapes move once, and the sparks and texts are updated and filtered once |
| ShapeGame.Game.ActiveFrame | js/game.js:628-689 | the active block: the board moves once, and the counters follow ActiveClocks |
| ShapeGame.Game.RunClocks | js/game.js:633-688 | the counters follow ActiveClocks |
| ShapeGame.Game.PauseFrame | js/game.js:691-696 | the pause block: the counters follow PauseClock, and the board moves once |
| ShapeGame.Game.Update | js/game.js:614-697 | the counters follow Tick, and the board, sparks and texts move BoardSteps times |
| ShapeGame.Game.Loop | js/game.js:860-866 | one frame: lastTime becomes now, and Update runs with dt = FrameDelta(now, lastTime) |

## Left out

- Drawing: every `draw`/`render` method, the target panel and the buzz overlay. Only the alpha, radius and scale formulas of the Tap & Pop draw methods are modelled.
- Audio and vibration: `_initAudio`, `_unlockAudio`, `_playSound`, `_playMusic`, `_stopMusic`, `toggleSound`, `startMenuMusic` and `navigator.vibrate`. They change no game field.
- DOM and UI: `_bindInput` and its coordinate mapping, the `onStateChange`/`onScoreChange`/`onTimerChange`/`onBuzzChange` callbacks, the `document` direction in `_applyDir`, and the screens of `js/main.js`, `js/ui.js` and `js/input.js`.
- Storage: localStorage reads arrive as an `Option` parameter (`stored`, `saved`), and writes are dropped. `_saveHighScore`'s try/catch cannot fail in the model.
- `transitionText` and the shake offsets `shakeX`/`shakeY`: the first is display text only, the second random visual jitter.
- `_randomSize` and the placement and speed arithmetic of `_setupRound`/`_setupDuoRound`: each shape's x, y, size and speed arrive as a `ShapeDraw`. No property is claimed about them.
- `start()` and the `requestAnimationFrame` recursion of `_loop`: `Loop` models one frame, with the clock reading as a parameter.
- ShapeGame.Game.Loop: updates before recording `lastTime`, where the source records it first. `update` never reads `lastTime`, so the order does not matter.
- The shape game's difficulty rows and constants: `js/config.js`'s `DIFFICULTY_TABLE` has only the fruit game's fields, not the `shapeCount`, `minSize`, `maxSize`, `speed` and `timeLimit` that js/game.js:381-411 reads, and `SHAPES`, `BOARD_TOP`/`BOARD_BOTTOM`, `TARGET_AREA_Y`, `TWO_PLAYER_*` and `BUZZ_TIMEOUT_MS` are not defined there at all. They are the `Settings` parameter. `TWO_PLAYER_SPEED` and the size bounds only feed the placement draws.
- ShapeGame.Game.FireTransition: the callback is a method the environment calls with the timer's place among those waiting, not a real timer. Real delays (how long after scheduling it fires) are not modelled.
- Entities.Entity.Update: `Math.sin` is a parameter ranging over [-1, 1]. The wobble speed, float amplitude and drawing rotation are not tied to the physical sine.
- Utils.EaseOutElastic: the term 2^(−10t)·sin(…) is a parameter, so only its endpoints are stated, not its range.
- Particles and Board sparks: Math.cos and Math.sin of the launch angle arrive as a pair of rolls on the unit circle (cos² + sin² = 1, required by `Particles.ValidParticleRolls` and `Board.ValidSparkRolls`), not as a function of the drawn angle.
- Particles.ParticleSystem.Update, Entities.Entity.Update and Spawner.Spawner.Update assume a non-negative frame time `dt`: their `Valid()` invariants (elapsed times, spawn progress, game time and time since the last spawn all at least 0) hold only along such histories, and ParticleSystem.Update requires `0 <= dt`. The source accepts any `dt`, where a negative one runs the clocks backwards; it contains no caller of these methods, and a frame delta is never negative in practice.
- I18n: `toUpperCase` is modelled on ASCII letters only. `String.replace`'s `$` patterns in the replacement are not modelled, so arguments are taken to contain no `$`.
- Floating-point rounding: all arithmetic is on exact reals.
- Tween: NaN, Infinity and −Infinity are one value, `NotFinite`, and goal values are finite numbers. Target properties that are not numbers, and inherited enumerable keys in `for…in`, are not modelled.
- Tween.TweenManager.Update: onComplete is reduced to a count of its calls. A callback that adds a tween or clears the manager during the loop is not modelled. In the source a tween added then is not updated in that pass, and a clear makes line 63 of js/tween.js read `done` of an undefined entry, which throws. When two tweens share a target, only the list and the counters are stated, not the target's final values.
- Tween.EasingNamed: a name that every object inherits (`toString`, `constructor`, …) finds a function in the table in the source and does not fall back. The model takes the table as holding only its five own names.
- The `highlighted` flag of a shape is set by a correct tap and never cleared in the source. The model keeps it that way.
- The Tap & Pop game object that would own the spawner, entities and scoring (combo multiplier, bomb and heart effects) is not part of this model. Its code is not in js/game.js: js/ui.js:3 imports a `GameState` that js/game.js does not export, since it exports only `State` (line 11) and `Game` (line 150).

## Findings

| source | as written | input that shows it | evidently intended | confidence | as-written member | corrected member |
|---|---|---|---|---|---|---|
| js/game.js:580-589 | The `setTimeout` callback of `_showTransition` is never cancelled. Whenever it fires, it switches to the scheduled mode and sets up a round, whatever the game is doing then. | startSolo; a correct tap (schedules a solo round); startSolo again during the pause; three wrong taps (lives 0, GAME_OVER); the first pause's callback fires (PLAYING_SOLO with 0 lives); one more wrong tap gives lives = −1 | A callback acts only for the pause that scheduled it, so a game over or a restart cancels it, and lives stay in [0, 3] | not executed; the restart during a pause goes through the class's public `startSolo`, and whether the shipped screens offer that button during a pause is outside this model | GameRules.StaleTransitionLosesInv (with GameRules.Fire and ShapeGame.Game.FireTransition) | GameRules.GuardedRunKeepsInv (with GameRules.FireGuarded and ShapeGame.Game.FireTransitionGuarded) |
