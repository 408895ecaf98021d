/** Property tweens and the manager that runs them (js/tween.js). */
module Tween {
  import opened Utils

  /** A JavaScript number as a tween reads and writes it: a finite value, or
      one of NaN, Infinity and -Infinity, which the model does not tell
      apart. */
  datatype Number = Finite(value: real) | NotFinite

  /** The entries of the EASING table. */
  datatype Easing = Linear | OutCubic | OutElastic | OutQuad | InOutQuad

  /** The easing looked up by name: one of the table's five names picks its
      curve, any other name falls back to easeOutCubic. */
  function EasingNamed(name: string): (e: Easing)
    ensures name == "linear" ==> e == Linear
    ensures name == "easeOutElastic" ==> e == OutElastic
    ensures name == "easeOutQuad" ==> e == OutQuad
    ensures name == "easeInOutQuad" ==> e == InOutQuad
    ensures name !in {"linear", "easeOutElastic", "easeOutQuad", "easeInOutQuad"} ==> e == OutCubic
  {
    match name
    case "linear" => Linear
    case "easeOutCubic" => OutCubic
    case "easeOutElastic" => OutElastic
    case "easeOutQuad" => OutQuad
    case "easeInOutQuad" => InOutQuad
    case _ => OutCubic
  }

  /** The easing curve applied to t; `tail` stands for easeOutElastic's
      power-times-sine term. */
  function Ease(e: Easing, t: real, tail: real -> real): real
  {
    match e
    case Linear => t
    case OutCubic => EaseOutCubic(t)
    case OutElastic => EaseOutElastic(t, tail)
    case OutQuad => EaseOutQuad(t)
    case InOutQuad => EaseInOutQuad(t)
  }

  /** Every curve starts at 0 and ends at 1. */
  lemma {:induction false} EaseEnds(e: Easing, tail: real -> real)
    ensures Ease(e, 0.0, tail) == 0.0 && Ease(e, 1.0, tail) == 1.0
  {
    EaseEndpoints(tail);
  }

  /** All curves but the elastic one stay in [0, 1] on [0, 1]. */
  lemma {:induction false} EaseInUnit(e: Easing, t: real, tail: real -> real)
    requires e != OutElastic && 0.0 <= t <= 1.0
    ensures 0.0 <= Ease(e, t, tail) <= 1.0
  {
    match e
    case Linear =>
    case OutCubic => EaseOutCubicRange(t);
    case OutQuad => EaseOutQuadRange(t);
    case InOutQuad => EaseInOutQuadRange(t);
  }

  /** Where elapsed / duration reaches 1, for a duration that is not 0. */
  lemma {:induction false} QuotientReaches(elapsed: real, duration: real)
    requires duration != 0.0
    ensures elapsed / duration >= 1.0 <==> Reached(elapsed, duration)
    ensures 0.0 < duration && 0.0 <= elapsed ==> 0.0 <= elapsed / duration
  {
    var q := elapsed / duration;
    assert q * duration == elapsed;
    if 0.0 < duration {
      if q >= 1.0 {
        MulMonotone(1.0, q, duration);
      }
      if elapsed >= duration && q < 1.0 {
        MulStrict(q, 1.0, duration);
      }
      if 0.0 <= elapsed && q < 0.0 {
        MulStrict(q, 0.0, duration);
      }
    } else {
      assert q * -duration == -elapsed;
      if q >= 1.0 {
        MulMonotone(1.0, q, -duration);
      }
      if elapsed <= duration && q < 1.0 {
        MulStrict(q, 1.0, -duration);
      }
    }
  }

  /** Whether a tween's time has run its course: at or past a positive
      duration; past 0 for a duration of 0 (the division then gives
      Infinity); at or below a negative duration, where the quotient first
      reaches 1. */
  predicate Reached(elapsed: real, duration: real)
  {
    || (0.0 < duration && duration <= elapsed)
    || (duration == 0.0 && 0.0 < elapsed)
    || (duration < 0.0 && elapsed <= duration)
  }

  /** The progress of a tween: its time over its duration, capped at 1. A
      duration of 0 gives Infinity (capped to 1) for a positive time, NaN for
      time 0 and -Infinity for a negative time. */
  function TweenProgress(elapsed: real, duration: real): (t: Number)
    ensures t.Finite? ==> t.value <= 1.0
    ensures t == Finite(1.0) <==> Reached(elapsed, duration)
    ensures t.NotFinite? <==> duration == 0.0 && elapsed <= 0.0
    ensures 0.0 < duration && 0.0 <= elapsed ==> t.Finite? && 0.0 <= t.value
  {
    if duration == 0.0 then
      if 0.0 < elapsed then Finite(1.0) else NotFinite
    else
      QuotientReaches(elapsed, duration);
      Finite(Min(elapsed / duration, 1.0))
  }

  /** A curve applied to a progress that may not be finite: NaN and
      -Infinity go through every curve's arithmetic as values that are not
      finite either. */
  function EaseNumber(e: Easing, t: Number, tail: real -> real): (r: Number)
    ensures r.Finite? <==> t.Finite?
    ensures t == Finite(0.0) ==> r == Finite(0.0)
    ensures t == Finite(1.0) ==> r == Finite(1.0)
  {
    EaseEnds(e, tail);
    if t.Finite? then Finite(Ease(e, t.value, tail)) else NotFinite
  }

  /** One tweened property: the value it had when the tween was made (not
      finite when the target lacked it) and its goal. */
  datatype Prop = Prop(start: Number, end: real)

  /** The object whose numeric properties a tween writes. */
  class Target {
    var values: map<string, Number>

    constructor(values: map<string, Number>)
      ensures this.values == values
    {
      this.values := values;
    }
  }

  /** The properties captured from `values`: each key of `ends` starts at its
      current value and ends at its goal. A key the target lacks reads as
      undefined, which every later sum turns into NaN. */
  function Captured(values: map<string, Number>, ends: map<string, real>): (props: map<string, Prop>)
    ensures props.Keys == ends.Keys
    ensures forall k :: k in props && k in values ==> props[k] == Prop(values[k], ends[k])
    ensures forall k :: k in props && k !in values ==> props[k] == Prop(NotFinite, ends[k])
  {
    map k | k in ends :: Prop(if k in values then values[k] else NotFinite, ends[k])
  }

  /** The value written for one property: start + (end - start) * eased,
      finite exactly when both the start and the eased progress are. */
  function Blend(start: Number, end: real, eased: Number): (r: Number)
    ensures r.Finite? <==> start.Finite? && eased.Finite?
    ensures start.Finite? && eased == Finite(0.0) ==> r == start
    ensures start.Finite? && eased == Finite(1.0) ==> r == Finite(end)
    ensures r.Finite? && start.value <= end && 0.0 <= eased.value <= 1.0 ==> start.value <= r.value <= end
  {
    if start.Finite? && eased.Finite? then
      Finite(Lerp(start.value, end, eased.value))
    else
      NotFinite
  }

  /** The target's values after the properties in `keys` were written with
      eased progress `eased`; every other value is kept. */
  function Written(values: map<string, Number>, props: map<string, Prop>, keys: set<string>, eased: Number): (r: map<string, Number>)
    requires keys <= props.Keys
    ensures r.Keys == values.Keys + keys
    ensures forall k :: k in keys ==> r[k] == Blend(props[k].start, props[k].end, eased)
    ensures forall k :: k in values && k !in keys ==> r[k] == values[k]
  {
    map k | k in values.Keys + keys :: if k in keys then Blend(props[k].start, props[k].end, eased) else values[k]
  }

  /** Written at eased progress 1 leaves every tweened property that started
      finite at its goal, and every other one not finite. */
  lemma {:induction false} WrittenAtEnd(values: map<string, Number>, props: map<string, Prop>)
    ensures forall k :: k in props && props[k].start.Finite? ==>
      Written(values, props, props.Keys, Finite(1.0))[k] == Finite(props[k].end)
    ensures forall k :: k in props && props[k].start.NotFinite? ==>
      Written(values, props, props.Keys, Finite(1.0))[k] == NotFinite
  {
  }

  /** A goal the target lacked is written as NaN on every update. */
  lemma {:induction false} AbsentKeyWritesNaN(values: map<string, Number>, ends: map<string, real>, k: string, eased: Number)
    requires k in ends && k !in values
    ensures Written(values, Captured(values, ends), ends.Keys, eased)[k] == NotFinite
  {
  }

  /** The counters of one tween: time run, finished, and how often its
      onComplete has fired. */
  datatype TweenState = TweenState(elapsed: real, done: bool, completions: nat)

  /** Tween.update(dt) on the counters: nothing once done; otherwise the time
      runs, and the update whose progress reaches 1 finishes the tween and
      fires onComplete, if there is one. A progress that is NaN or -Infinity
      is not at least 1. */
  function TweenStep(s: TweenState, dt: real, duration: real, hasCallback: bool): (n: TweenState)
  {
    if s.done then s
    else
      var elapsed := s.elapsed + dt;
      var t := TweenProgress(elapsed, duration);
      if t.Finite? && t.value >= 1.0 then
        TweenState(elapsed, true, s.completions + (if hasCallback then 1 else 0))
      else
        TweenState(elapsed, false, s.completions)
  }

  /** Counters a tween can have: finished exactly when its time has run its
      course, and onComplete fired once if finished with a callback. */
  predicate Consistent(s: TweenState, duration: real, hasCallback: bool)
  {
    (s.done <==> Reached(s.elapsed, duration)) && s.completions == (if s.done && hasCallback then 1 else 0)
  }

  /** Each update keeps the counters consistent, whatever dt and the duration
      are; the tween finishes on the update that brings its time to its
      course's end. */
  lemma {:induction false} TweenStepConsistent(s: TweenState, dt: real, duration: real, hasCallback: bool)
    requires Consistent(s, duration, hasCallback)
    ensures Consistent(TweenStep(s, dt, duration, hasCallback), duration, hasCallback)
    ensures !s.done ==> (TweenStep(s, dt, duration, hasCallback).done <==> Reached(s.elapsed + dt, duration))
    ensures s.done ==> TweenStep(s, dt, duration, hasCallback) == s
  {
  }

  /** A fresh tween of duration 0 finishes on its first update exactly when
      dt is positive; otherwise that update writes NaN to every property. */
  lemma {:induction false} ZeroDurationTween(values: map<string, Number>, props: map<string, Prop>, e: Easing, dt: real, tail: real -> real)
    ensures TweenStep(TweenState(0.0, false, 0), dt, 0.0, false).done <==> 0.0 < dt
    ensures dt <= 0.0 ==> forall k :: k in props ==>
      Written(values, props, props.Keys, EaseNumber(e, TweenProgress(dt, 0.0), tail))[k] == NotFinite
  {
  }

  /** The counters after a run of updates. */
  function TweenRun(s: TweenState, dts: seq<real>, duration: real, hasCallback: bool): TweenState
    decreases |dts|
  {
    if dts == [] then s else TweenRun(TweenStep(s, dts[0], duration, hasCallback), dts[1..], duration, hasCallback)
  }

  /** However many updates run, onComplete fires at most once, and once a
      tween is done no update changes it. */
  lemma {:induction false} CompletesAtMostOnce(s: TweenState, dts: seq<real>, duration: real, hasCallback: bool)
    requires Consistent(s, duration, hasCallback)
    ensures Consistent(TweenRun(s, dts, duration, hasCallback), duration, hasCallback)
    ensures TweenRun(s, dts, duration, hasCallback).completions <= 1
    ensures s.done ==> TweenRun(s, dts, duration, hasCallback) == s
    decreases |dts|
  {
    if dts != [] {
      TweenStepConsistent(s, dts[0], duration, hasCallback);
      CompletesAtMostOnce(TweenStep(s, dts[0], duration, hasCallback), dts[1..], duration, hasCallback);
    }
  }

  /** The loop of the constructor that records each property's start value. */
  method CaptureStarts(target: Target, ends: map<string, real>) returns (props: map<string, Prop>)
    ensures props == Captured(target.values, ends)
  {
    props := map[];
    var keys := ends.Keys;
    while keys != {}
      invariant keys <= ends.Keys
      invariant props.Keys == ends.Keys - keys
      invariant forall k :: k in props ==> props[k] == Captured(target.values, ends)[k]
      decreases keys
    {
      var k :| k in keys;
      var start := if k in target.values then target.values[k] else NotFinite;
      props := props[k := Prop(start, ends[k])];
      keys := keys - {k};
    }
  }

  class Tween {
    const target: Target
    const props: map<string, Prop>
    const duration: real
    const easing: Easing
    const hasCallback: bool

    var elapsed: real
    var done: bool
    var completions: nat

    /** The counters are consistent with the duration. */
    ghost predicate Valid()
      reads this
    {
      Consistent(State(), duration, hasCallback)
    }

    function State(): TweenState
      reads this
    {
      TweenState(elapsed, done, completions)
    }

    /** new Tween(target, props, duration, easing, onComplete), with
        onComplete reduced to whether there is one. Any duration and any goal
        keys are accepted. */
    constructor(target: Target, ends: map<string, real>, duration: real, easingName: string := "easeOutCubic", hasCallback: bool := false)
      ensures this.target == target && this.duration == duration && this.hasCallback == hasCallback
      ensures props == Captured(target.values, ends)
      ensures easing == EasingNamed(easingName)
      ensures elapsed == 0.0 && !done && completions == 0
      ensures Valid()
    {
      var captured := CaptureStarts(target, ends);
      this.target := target;
      props := captured;
      this.duration := duration;
      easing := EasingNamed(easingName);
      this.hasCallback := hasCallback;
      elapsed := 0.0;
      done := false;
      completions := 0;
    }

    /** update(dt): `tail` is the value of easeOutElastic's sine term. */
    method Update(dt: real, tail: real -> real)
      requires Valid()
      modifies this`elapsed, this`done, this`completions, target`values
      ensures State() == TweenStep(old(State()), dt, duration, hasCallback)
      ensures Valid()
      ensures old(done) ==> target.values == old(target.values)
      ensures !old(done) ==>
        target.values == Written(old(target.values), props, props.Keys, EaseNumber(easing, TweenProgress(elapsed, duration), tail))
      ensures done && !old(done) ==> forall k :: k in props && props[k].start.Finite? ==> target.values[k] == Finite(props[k].end)
    {
      if done {
        return;
      }
      elapsed := elapsed + dt;
      var t: Number;
      if duration == 0.0 {
        // a division by zero: Infinity, capped to 1, or NaN, or -Infinity
        t := if 0.0 < elapsed then Finite(1.0) else NotFinite;
      } else {
        t := Finite(Min(elapsed / duration, 1.0));
      }
      var eased := EaseNumber(easing, t, tail);
      WriteProps(eased);

      if t.Finite? && t.value >= 1.0 {
        done := true;
        if hasCallback {
          completions := completions + 1;
        }
        WrittenAtEnd(old(target.values), props);
      }
    }

    /** The loop of update that writes start + (end - start) * eased to every
        tweened property of the target. */
    method WriteProps(eased: Number)
      modifies target`values
      ensures target.values == Written(old(target.values), props, props.Keys, eased)
    {
      ghost var before := target.values;
      var keys := props.Keys;
      while keys != {}
        invariant keys <= props.Keys
        invariant target.values == Written(before, props, props.Keys - keys, eased)
        decreases keys
      {
        var k :| k in keys;
        target.values := target.values[k := Blend(props[k].start, props[k].end, eased)];
        keys := keys - {k};
      }
    }
  }

  /** Every tween of ts has taken one update of dt from its counters in ss. */
  ghost predicate TweensStepped(ts: seq<Tween>, ss: seq<TweenState>, dt: real)
    reads ts
  {
    |ts| == |ss| && forall k :: 0 <= k < |ts| ==>
      ts[k].State() == TweenStep(ss[k], dt, ts[k].duration, ts[k].hasCallback)
  }

  /** Whether each tween is still running. */
  function Running(ts: seq<Tween>): (fs: seq<bool>)
    reads ts
    ensures |fs| == |ts| && forall k :: 0 <= k < |ts| ==> fs[k] == !ts[k].done
  {
    if ts == [] then [] else [!ts[0].done] + Running(ts[1..])
  }

  /** The counters of each tween, read from the heap. */
  function States(ts: seq<Tween>): (ss: seq<TweenState>)
    reads ts
    ensures |ss| == |ts| && forall k :: 0 <= k < |ts| ==> ss[k] == ts[k].State()
  {
    if ts == [] then [] else [ts[0].State()] + States(ts[1..])
  }

  /** Which tweens one update of dt leaves running. */
  ghost function StepsRunning(ts: seq<Tween>, ss: seq<TweenState>, dt: real): (fs: seq<bool>)
    requires |ts| == |ss|
    ensures |fs| == |ts|
    ensures forall k :: 0 <= k < |ts| ==> fs[k] == !TweenStep(ss[k], dt, ts[k].duration, ts[k].hasCallback).done
  {
    if ts == [] then [] else [!TweenStep(ss[0], dt, ts[0].duration, ts[0].hasCallback).done] + StepsRunning(ts[1..], ss[1..], dt)
  }

  /** The list after TweenManager.update(dt): each tween of ts, whose
      counters were ss, has stepped, and `after` keeps exactly those not done,
      in their order. */
  ghost predicate TweensUpdated(ts: seq<Tween>, ss: seq<TweenState>, dt: real, after: seq<Tween>)
    reads ts
  {
    TweensStepped(ts, ss, dt) && after == Kept(ts, Running(ts))
  }

  /** The manager loop's progress down to index i. */
  ghost predicate TweensDone(P: seq<Tween>, S: seq<TweenState>, A: seq<bool>, dt: real, i: int)
    reads P
  {
    && |P| == |S| == |A| && -1 <= i < |P|
    && (forall j :: i < j < |P| ==>
          P[j].Valid() && P[j].State() == TweenStep(S[j], dt, P[j].duration, P[j].hasCallback) && !P[j].done == A[j])
    && (forall j :: 0 <= j <= i ==> P[j].State() == S[j] && P[j].Valid())
  }

  /** When the manager loop is done, the list holds the running tweens, each
      once, each well-formed. */
  lemma {:induction false} TweensFinished(P: seq<Tween>, S: seq<TweenState>, A: seq<bool>, dt: real, after: seq<Tween>)
    requires Distinct(P) && TweensDone(P, S, A, dt, -1) && after == Kept(P, A)
    ensures TweensUpdated(P, S, dt, after)
    ensures Distinct(after) && forall k :: 0 <= k < |after| ==> !after[k].done && after[k].Valid()
  {
    assert A == Running(P);
    KeptDistinct(P, A);
    forall k | 0 <= k < |after| ensures !after[k].done && after[k].Valid()
    {
      var j := KeptIndex(P, A, k);
    }
  }

  /** The targets of a list of tweens. */
  function Targets(ts: seq<Tween>): set<Target>
  {
    set k | 0 <= k < |ts| :: ts[k].target
  }

  /** No two of the tweens write the same target object. */
  predicate DistinctTargets(ts: seq<Tween>)
  {
    forall j, k :: 0 <= j < k < |ts| ==> ts[j].target != ts[k].target
  }

  /** The values of each tween's target, read from the heap. */
  function TargetValues(ts: seq<Tween>): (vs: seq<map<string, Number>>)
    reads Targets(ts)
    ensures |vs| == |ts| && forall k :: 0 <= k < |ts| ==> vs[k] == ts[k].target.values
  {
    seq(|ts|, k requires 0 <= k < |ts| reads Targets(ts) => ts[k].target.values)
  }

  /** The eased progress a running tween with counters s writes when it is
      updated by dt. */
  ghost function EasedAfter(t: Tween, s: TweenState, dt: real, tail: real -> real): Number
  {
    EaseNumber(t.easing, TweenProgress(s.elapsed + dt, t.duration), tail)
  }

  /** The targets' values W once the manager loop is down to index i: the
      targets of the tweens after i hold what their update wrote over the
      values V they had, those up to i still hold V. */
  ghost predicate TargetsWritten(P: seq<Tween>, S: seq<TweenState>, V: seq<map<string, Number>>, W: seq<map<string, Number>>,
                                 dt: real, tail: real -> real, i: int)
  {
    && |P| == |S| == |V| == |W| && -1 <= i < |P|
    && (forall j :: i < j < |P| ==> W[j] == Written(V[j], P[j].props, P[j].props.Keys, EasedAfter(P[j], S[j], dt, tail)))
    && (forall j :: 0 <= j <= i ==> W[j] == V[j])
  }

  /** Updating the tween at i, which writes only its own target, moves the
      loop's progress on the targets down by one. */
  lemma {:induction false} TargetsWrittenStep(P: seq<Tween>, S: seq<TweenState>, V: seq<map<string, Number>>,
                                              W: seq<map<string, Number>>, W': seq<map<string, Number>>,
                                              dt: real, tail: real -> real, i: int)
    requires TargetsWritten(P, S, V, W, dt, tail, i) && 0 <= i && |W'| == |W|
    requires forall j :: 0 <= j < |W| && j != i ==> W'[j] == W[j]
    requires W'[i] == Written(W[i], P[i].props, P[i].props.Keys, EasedAfter(P[i], S[i], dt, tail))
    ensures TargetsWritten(P, S, V, W', dt, tail, i - 1)
  {
  }

  class TweenManager {
    var tweens: seq<Tween>

    /** No tween is listed twice, and every listed tween is running and
        well-formed. */
    ghost predicate Valid()
      reads this`tweens, tweens
    {
      Distinct(tweens) && forall k :: 0 <= k < |tweens| ==> !tweens[k].done && tweens[k].Valid()
    }

    constructor()
      ensures tweens == [] && Valid()
    {
      tweens := [];
    }

    /** add(target, props, duration, easing, onComplete): the new tween is
        appended and returned, whatever its duration and goal keys. */
    method Add(target: Target, ends: map<string, real>, duration: real, easingName: string := "easeOutCubic", hasCallback: bool := false)
      returns (tween: Tween)
      requires Valid()
      modifies this`tweens
      ensures fresh(tween) && tweens == old(tweens) + [tween]
      ensures tween.target == target && tween.props == Captured(target.values, ends)
      ensures tween.duration == duration && tween.hasCallback == hasCallback
      ensures tween.easing == EasingNamed(easingName) && tween.State() == TweenState(0.0, false, 0)
      ensures Valid()
    {
      tween := new Tween(target, ends, duration, easingName, hasCallback);
      tweens := tweens + [tween];
    }

    /** update(dt): every listed tween is updated once, and those done are
        removed; the others keep their order. When no two tweens share a
        target, each target holds what its tween wrote over its old values;
        no object other than the tweens and their targets changes. */
    method Update(dt: real, tail: real -> real)
      requires Valid()
      modifies this`tweens, tweens, Targets(tweens)
      ensures Valid()
      ensures TweensUpdated(old(tweens), old(States(tweens)), dt, tweens)
      ensures DistinctTargets(old(tweens)) ==>
        TargetsWritten(old(tweens), old(States(tweens)), old(TargetValues(tweens)), TargetValues(old(tweens)), dt, tail, -1)
    {
      ghost var P := tweens;
      ghost var S := States(P);
      ghost var V := TargetValues(P);
      assert P[..|P|] == P && P[|P|..] == [];
      TweensLoop(dt, tail, P, S, StepsRunning(P, S, dt), V);
    }

    /** The loop itself, from the back: each tween is updated, and spliced out
        once done. */
    method TweensLoop(dt: real, tail: real -> real, ghost P: seq<Tween>, ghost S: seq<TweenState>, ghost A: seq<bool>,
                      ghost V: seq<map<string, Number>>)
      requires Distinct(P) && |P| == |S|
      requires forall k :: 0 <= k < |S| ==> !S[k].done
      requires A == StepsRunning(P, S, dt)
      requires TweensDone(P, S, A, dt, |P| - 1)
      requires DistinctTargets(P) ==> TargetsWritten(P, S, V, TargetValues(P), dt, tail, |P| - 1)
      requires tweens == P
      modifies this`tweens, P, Targets(P)
      ensures TweensUpdated(P, S, dt, tweens)
      ensures DistinctTargets(P) ==> TargetsWritten(P, S, V, TargetValues(P), dt, tail, -1)
      ensures Valid()
    {
      var i := |tweens| - 1;
      ghost var separate := DistinctTargets(P);
      assert P[..i + 1] == P && P[i + 1..] == [] && A[i + 1..] == [];
      while i >= 0
        invariant -1 <= i < |P|
        invariant tweens == P[..i + 1] + Kept(P[i + 1..], A[i + 1..])
        invariant TweensDone(P, S, A, dt, i)
        invariant separate ==> TargetsWritten(P, S, V, TargetValues(P), dt, tail, i)
      {
        PassAt(i, dt, tail, P, S, A, V, separate);
        i := i - 1;
      }
      assert P[..0] == [] && P[0..] == P && A[0..] == A;
      TweensFinished(P, S, A, dt, tweens);
    }

    /** One pass of the loop: tweens[i] is updated, then spliced out if it is
        done. */
    method PassAt(i: int, dt: real, tail: real -> real, ghost P: seq<Tween>, ghost S: seq<TweenState>, ghost A: seq<bool>,
                  ghost V: seq<map<string, Number>>, ghost separate: bool)
      requires 0 <= i < |P| == |S| && Distinct(P) && !S[i].done
      requires separate == DistinctTargets(P)
      requires A == StepsRunning(P, S, dt)
      requires tweens == P[..i + 1] + Kept(P[i + 1..], A[i + 1..])
      requires TweensDone(P, S, A, dt, i)
      requires separate ==> TargetsWritten(P, S, V, TargetValues(P), dt, tail, i)
      modifies this`tweens, P[i], P[i].target
      ensures tweens == P[..i] + Kept(P[i..], A[i..])
      ensures TweensDone(P, S, A, dt, i - 1)
      ensures separate ==> TargetsWritten(P, S, V, TargetValues(P), dt, tail, i - 1)
    {
      assert tweens[i] == P[i];
      StepTweenAt(i, dt, tail, P, S, A, V);
      SpliceTweenAt(i, P, A);
    }

    /** The first half of a pass: tweens[i] is updated. */
    method StepTweenAt(i: int, dt: real, tail: real -> real, ghost P: seq<Tween>, ghost S: seq<TweenState>, ghost A: seq<bool>,
                       ghost V: seq<map<string, Number>>)
      requires 0 <= i < |P| == |S| && Distinct(P) && !S[i].done
      requires A == StepsRunning(P, S, dt)
      requires TweensDone(P, S, A, dt, i)
      requires DistinctTargets(P) ==> TargetsWritten(P, S, V, TargetValues(P), dt, tail, i)
      requires i < |tweens| && tweens[i] == P[i]
      modifies P[i], P[i].target
      ensures TweensDone(P, S, A, dt, i - 1)
      ensures DistinctTargets(P) ==> TargetsWritten(P, S, V, TargetValues(P), dt, tail, i - 1)
    {
      ghost var W := TargetValues(P);
      tweens[i].Update(dt, tail);
      if DistinctTargets(P) {
        ghost var W' := TargetValues(P);
        forall j | 0 <= j < |P| && j != i ensures W'[j] == W[j]
        {
          assert P[j].target != P[i].target;
        }
        TargetsWrittenStep(P, S, V, W, W', dt, tail, i);
      }
    }

    /** The rest of that pass: tweens[i] is spliced out if it is done. */
    method SpliceTweenAt(i: int, ghost P: seq<Tween>, ghost A: seq<bool>)
      requires 0 <= i < |P| == |A| && !P[i].done == A[i]
      requires tweens == P[..i + 1] + Kept(P[i + 1..], A[i + 1..])
      modifies this`tweens
      ensures tweens == P[..i] + Kept(P[i..], A[i..])
      ensures TargetValues(P) == old(TargetValues(P))
    {
      assert tweens[i] == P[i];
      ghost var rest := Kept(P[i + 1..], A[i + 1..]);
      KeptFrom(P, A, i);
      if tweens[i].done {
        DropAt(P, i, rest);
        tweens := tweens[..i] + tweens[i + 1..];
      } else {
        KeepAt(P, i, rest);
      }
    }

    /** clear(). */
    method Clear()
      modifies this`tweens
      ensures tweens == [] && Valid()
    {
      tweens := [];
    }
  }
}
