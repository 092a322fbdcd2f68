/** The central token bucket: one level per pace key, shared by every node, drawn on by the callers'
    own clocks. Rates and times are reals. */
module Bucket {
  import opened Reals
  import opened Wrappers

  /** What the store keeps for a key. */
  datatype Level = Level(tokens: real, ts: real)

  type Levels = map<string, Level>

  datatype Decision = Decision(allowed: bool, tokens: real, retry: real)

  /** A key never seen starts full. */
  function LevelOf(s: Levels, key: string, burst: real, now: real): Level {
    if key in s then s[key] else Level(burst, now)
  }

  function Refilled(l: Level, rate: real, burst: real, now: real): real {
    Min(burst, l.tokens + Max(0.0, now - l.ts) * rate)
  }

  function Taken(s: Levels, key: string, rate: real, burst: real, now: real, want: real): (Levels, Decision)
    requires rate > 0.0
  {
    var tokens := Refilled(LevelOf(s, key, burst, now), rate, burst, now);
    if tokens >= want then
      (s[key := Level(tokens - want, now)], Decision(true, tokens - want, 0.0))
    else
      (s[key := Level(tokens, now)], Decision(false, tokens, (want - tokens) / rate))
  }

  class Store {
    var levels: Levels

    constructor ()
      ensures levels == map[]
    {
      levels := map[];
    }

    method Run(key: string, rate: real, burst: real, now: real, want: real) returns (d: Decision)
      requires rate > 0.0
      modifies this
      ensures (levels, d) == Taken(old(levels), key, rate, burst, now, want)
    {
      var tokens, ts := burst, now;
      if key in levels {
        tokens, ts := levels[key].tokens, levels[key].ts;
      }
      tokens := Min(burst, tokens + Max(0.0, now - ts) * rate);
      var allowed, retry := false, 0.0;
      if tokens >= want {
        allowed, tokens := true, tokens - want;
      } else {
        retry := (want - tokens) / rate;
      }
      levels := levels[key := Level(tokens, now)];
      d := Decision(allowed, tokens, retry);
    }

    /** One token for a host. Without a decision, no budget is established and nothing is drawn. */
    method Take(host: string, rate: real, burst: real, now: real, up: bool) returns (d: Option<Decision>)
      modifies this
      ensures d.Some? <==> host != "" && rate > 0.0 && burst > 0.0 && up
      ensures d.None? ==> levels == old(levels)
      ensures d.Some? ==> (levels, d.value) == Taken(old(levels), host, rate, burst, now, 1.0)
    {
      if host == "" || rate <= 0.0 || burst <= 0.0 || !up {
        return None;
      }
      var decision := Run(host, rate, burst, now, 1.0);
      d := Some(decision);
    }
  }

  // ---------------------------------------------------------------- every run

  /** One draw on the bucket of the host's pace key, by the clock of whoever makes it. */
  datatype Draw = Draw(host: string, rate: real, burst: real, now: real)

  predicate Proper(d: Draw) {
    d.rate > 0.0 && d.burst > 0.0
  }

  ghost predicate AllProper(draws: seq<Draw>) {
    forall i :: 0 <= i < |draws| ==> Proper(draws[i])
  }

  /** The levels, how many draws on the key were allowed, and how far forward the clock moved between
      draws on it, over a run of draws by any callers in any order. */
  datatype Tally = Tally(levels: Levels, allowed: nat, forward: real)

  function Step(t: Tally, d: Draw, pace: string -> string, key: string): Tally
    requires Proper(d)
  {
    var (levels, decision) := Taken(t.levels, pace(d.host), d.rate, d.burst, d.now, 1.0);
    if pace(d.host) != key then t.(levels := levels)
    else
      Tally(levels,
            t.allowed + (if decision.allowed then 1 else 0),
            t.forward + Max(0.0, d.now - LevelOf(t.levels, key, d.burst, d.now).ts))
  }

  function Run(draws: seq<Draw>, pace: string -> string, key: string): Tally
    requires AllProper(draws)
  {
    if draws == [] then Tally(map[], 0, 0.0)
    else Step(Run(draws[..|draws| - 1], pace, key), draws[|draws| - 1], pace, key)
  }

  /** No draw on the key is at more than this rate and burst. */
  ghost predicate Capped(draws: seq<Draw>, pace: string -> string, key: string, rate: real, burst: real) {
    forall i :: 0 <= i < |draws| && pace(draws[i].host) == key ==> draws[i].rate <= rate && draws[i].burst <= burst
  }

  lemma MulAtMost(e: real, r: real, most: real)
    requires e >= 0.0 && r <= most
    ensures e * r <= e * most
  {
  }

  lemma FlowsIn(allowed: real, tokens: real, forward: real, e: real, r: real, rate: real, burst: real)
    requires e >= 0.0 && 0.0 < r <= rate && allowed + tokens <= burst + forward * rate
    ensures allowed + (tokens + e * r) <= burst + (forward + e) * rate && e * r >= 0.0
  {
    MulAtMost(e, r, rate);
    assert (forward + e) * rate == forward * rate + e * rate;
  }

  /** What has been spent and what is left is at most a full bucket and what has flowed in. */
  ghost predicate Balanced(t: Tally, key: string, rate: real, burst: real) {
    && t.forward >= 0.0
    && (key !in t.levels ==> t.allowed == 0 && t.forward == 0.0)
    && (key in t.levels ==>
          t.levels[key].tokens >= 0.0 && t.allowed as real + t.levels[key].tokens <= burst + t.forward * rate)
  }

  /** A draw on the key, as the tally sees it. */
  lemma StepOnKey(t: Tally, d: Draw, pace: string -> string, key: string)
    requires Proper(d) && pace(d.host) == key
    ensures var l := LevelOf(t.levels, key, d.burst, d.now);
            var tokens := Refilled(l, d.rate, d.burst, d.now);
            Step(t, d, pace, key) ==
            Tally(t.levels[key := Level(if tokens >= 1.0 then tokens - 1.0 else tokens, d.now)],
                  if tokens >= 1.0 then t.allowed + 1 else t.allowed,
                  t.forward + Max(0.0, d.now - l.ts))
  {
  }

  /** The books of one key, after a draw that found so many tokens. */
  lemma Booked(t: Tally, after: Tally, key: string, rate: real, burst: real, tokens: real, now: real, e: real)
    requires tokens >= 0.0 && e >= 0.0 && t.forward >= 0.0
    requires t.allowed as real + tokens <= burst + (t.forward + e) * rate
    requires after == Tally(t.levels[key := Level(if tokens >= 1.0 then tokens - 1.0 else tokens, now)],
                            if tokens >= 1.0 then t.allowed + 1 else t.allowed, t.forward + e)
    ensures Balanced(after, key, rate, burst)
  {
  }

  lemma FoundAtMost(t: Tally, d: Draw, key: string, rate: real, burst: real, l: Level, e: real)
    requires Proper(d) && Balanced(t, key, rate, burst) && d.rate <= rate && d.burst <= burst
    requires l == LevelOf(t.levels, key, d.burst, d.now) && e == Max(0.0, d.now - l.ts)
    ensures var tokens := Refilled(l, d.rate, d.burst, d.now);
            tokens >= 0.0 && t.allowed as real + tokens <= burst + (t.forward + e) * rate
  {
    if key in t.levels {
      FlowsIn(t.allowed as real, l.tokens, t.forward, e, d.rate, rate, burst);
    } else {
      assert e == 0.0 && t.forward + e == 0.0;
      assert 0.0 * d.rate == 0.0 && 0.0 * rate == 0.0;
    }
  }

  lemma BalancedStep(t: Tally, d: Draw, pace: string -> string, key: string, rate: real, burst: real)
    requires Proper(d) && Balanced(t, key, rate, burst)
    requires pace(d.host) == key ==> d.rate <= rate && d.burst <= burst
    ensures Balanced(Step(t, d, pace, key), key, rate, burst)
  {
    if pace(d.host) == key {
      StepOnKey(t, d, pace, key);
      var l := LevelOf(t.levels, key, d.burst, d.now);
      var e := Max(0.0, d.now - l.ts);
      FoundAtMost(t, d, key, rate, burst, l, e);
      Booked(t, Step(t, d, pace, key), key, rate, burst, Refilled(l, d.rate, d.burst, d.now), d.now, e);
    }
  }

  lemma {:induction false} BalancedRun(draws: seq<Draw>, pace: string -> string, key: string, rate: real, burst: real)
    requires AllProper(draws) && Capped(draws, pace, key, rate, burst)
    ensures Balanced(Run(draws, pace, key), key, rate, burst)
  {
    if draws == [] {
    } else {
      var n := |draws| - 1;
      BalancedRun(draws[..n], pace, key, rate, burst);
      BalancedStep(Run(draws[..n], pace, key), draws[n], pace, key, rate, burst);
    }
  }

  /** No more allowed than one burst and what flowed in at the rate. */
  ghost predicate Bounded(t: Tally, rate: real, burst: real) {
    t.allowed as real <= burst + t.forward * rate
  }

  lemma BalancedIsBounded(t: Tally, key: string, rate: real, burst: real)
    requires Balanced(t, key, rate, burst) && burst >= 0.0
    ensures Bounded(t, rate, burst)
  {
    assert 0.0 * rate == 0.0;
  }

  /** Whoever draws, for whichever hosts, in whatever order and by whatever clocks: one receiving
      system's bucket never allows more draws than one full burst and the highest rate over the time its
      clock moved forward, even when that clock steps back in between. */
  lemma AdmissionBound(draws: seq<Draw>, pace: string -> string, key: string, rate: real, burst: real)
    requires AllProper(draws) && Capped(draws, pace, key, rate, burst) && burst >= 0.0
    ensures Bounded(Run(draws, pace, key), rate, burst)
  {
    BalancedRun(draws, pace, key, rate, burst);
    BalancedIsBounded(Run(draws, pace, key), key, rate, burst);
  }

  // ---------------------------------------------------------------- a clock that never steps back

  ghost predicate Ordered(draws: seq<Draw>) {
    forall i, j :: 0 <= i < j < |draws| ==> draws[i].now <= draws[j].now
  }

  /** By a clock that never steps back, forward movement is elapsed time: the bucket allows at most one
      burst and the rate over the time since the first draw. */
  lemma {:induction false} ForwardIsElapsed(draws: seq<Draw>, pace: string -> string, key: string)
    requires AllProper(draws) && Ordered(draws) && draws != []
    ensures var t := Run(draws, pace, key);
            && 0.0 <= t.forward <= draws[|draws| - 1].now - draws[0].now
            && (key !in t.levels ==> t.forward == 0.0)
            && (key in t.levels ==> draws[0].now <= t.levels[key].ts <= draws[|draws| - 1].now
                                    && t.forward <= t.levels[key].ts - draws[0].now)
  {
    var n := |draws| - 1;
    if n == 0 {
      assert draws[..0] == [];
    } else {
      ForwardIsElapsed(draws[..n], pace, key);
    }
  }

  // ---------------------------------------------------------------- the span of the clock

  /** Draws for one host at these readings of the clock. */
  function DrawsAt(host: string, rate: real, burst: real, ts: seq<real>): (draws: seq<Draw>)
    ensures |draws| == |ts| && (rate > 0.0 && burst > 0.0 ==> AllProper(draws))
  {
    seq(|ts|, i requires 0 <= i < |ts| => Draw(host, rate, burst, ts[i]))
  }

  lemma DrawsAtSnoc(host: string, rate: real, burst: real, ts: seq<real>)
    requires ts != []
    ensures var n, draws := |ts| - 1, DrawsAt(host, rate, burst, ts);
            draws[..n] == DrawsAt(host, rate, burst, ts[..n]) && draws[n] == Draw(host, rate, burst, ts[n])
  {
  }

  /** How far forward the clock moved, step by step. */
  function Forward(ts: seq<real>): (f: real)
    ensures f >= 0.0
  {
    if |ts| <= 1 then 0.0 else Forward(ts[..|ts| - 1]) + Max(0.0, ts[|ts| - 1] - ts[|ts| - 2])
  }

  function Latest(ts: seq<real>): real
    requires ts != []
  {
    if |ts| == 1 then ts[0] else Max(Latest(ts[..|ts| - 1]), ts[|ts| - 1])
  }

  function Earliest(ts: seq<real>): real
    requires ts != []
  {
    if |ts| == 1 then ts[0] else Min(Earliest(ts[..|ts| - 1]), ts[|ts| - 1])
  }

  /** From the earliest reading to the latest. */
  function Span(ts: seq<real>): real
    requires ts != []
  {
    Latest(ts) - Earliest(ts)
  }

  lemma {:induction false} SpanIsPositive(ts: seq<real>)
    requires ts != []
    ensures Earliest(ts) <= Latest(ts)
  {
    if |ts| == 1 {
    } else {
      SpanIsPositive(ts[..|ts| - 1]);
    }
  }

  /** The tally counts exactly that movement. */
  lemma {:induction false} ForwardIsTallied(host: string, rate: real, burst: real, ts: seq<real>, pace: string -> string)
    requires rate > 0.0 && burst > 0.0
    ensures var t, key := Run(DrawsAt(host, rate, burst, ts), pace, pace(host)), pace(host);
            && t.forward == Forward(ts)
            && (ts != [] ==> key in t.levels && t.levels[key].ts == ts[|ts| - 1])
            && (ts == [] ==> key !in t.levels)
  {
    if ts == [] {
    } else {
      var n := |ts| - 1;
      ForwardIsTallied(host, rate, burst, ts[..n], pace);
      DrawsAtSnoc(host, rate, burst, ts);
      var t := Run(DrawsAt(host, rate, burst, ts[..n]), pace, pace(host));
      StepOnKey(t, Draw(host, rate, burst, ts[n]), pace, pace(host));
    }
  }

  ghost predicate Within(t: Tally, rate: real, burst: real, span: real) {
    t.allowed as real <= burst + span * rate
  }

  /** At no rate and burst are more draws allowed at these readings than one burst and the rate over their
      span. */
  ghost predicate SpanBounds(host: string, ts: seq<real>, pace: string -> string)
    requires ts != []
  {
    forall rate, burst :: rate > 0.0 && burst > 0.0 ==>
      Within(Run(DrawsAt(host, rate, burst, ts), pace, pace(host)), rate, burst, Span(ts))
  }

  lemma Wider(allowed: real, burst: real, forward: real, span: real, rate: real)
    requires allowed <= burst + forward * rate && forward <= span && rate > 0.0
    ensures allowed <= burst + span * rate
  {
    MulAtMost(rate, forward, span);
  }

  lemma SpanBoundsTally(t: Tally, rate: real, burst: real, span: real)
    requires Bounded(t, rate, burst) && t.forward <= span && rate > 0.0
    ensures Within(t, rate, burst, span)
  {
    Wider(t.allowed as real, burst, t.forward, span, rate);
  }

  lemma SpanBoundsAt(host: string, rate: real, burst: real, ts: seq<real>, pace: string -> string, span: real)
    requires Forward(ts) <= span && rate > 0.0 && burst > 0.0
    ensures Within(Run(DrawsAt(host, rate, burst, ts), pace, pace(host)), rate, burst, span)
  {
    AdmissionBound(DrawsAt(host, rate, burst, ts), pace, pace(host), rate, burst);
    ForwardIsTallied(host, rate, burst, ts, pace);
    SpanBoundsTally(Run(DrawsAt(host, rate, burst, ts), pace, pace(host)), rate, burst, span);
  }

  lemma MovementWithinTheSpan(host: string, ts: seq<real>, pace: string -> string)
    requires ts != [] && Forward(ts) <= Span(ts)
    ensures SpanBounds(host, ts, pace)
  {
    forall rate, burst | rate > 0.0 && burst > 0.0
      ensures Within(Run(DrawsAt(host, rate, burst, ts), pace, pace(host)), rate, burst, Span(ts))
    {
      SpanBoundsAt(host, rate, burst, ts, pace, Span(ts));
    }
  }

  // ---------------------------------------------------------------- a clock that moves further than its span

  /** The bucket after `k` draws, all of them allowed, that took in `inflow`. */
  ghost predicate Spent(t: Tally, key: string, burst: real, k: nat, inflow: real, ts: real) {
    true == (t.allowed == k && key in t.levels && t.levels[key] == Level(burst - k as real + inflow, ts))
  }

  lemma SpendFirst(d: Draw, pace: string -> string)
    requires Proper(d) && d.burst >= 1.0
    ensures Spent(Step(Tally(map[], 0, 0.0), d, pace, pace(d.host)), pace(d.host), d.burst, 1, 0.0, d.now)
  {
    var t := Tally(map[], 0, 0.0);
    StepOnKey(t, d, pace, pace(d.host));
    assert 0.0 * d.rate == 0.0;
  }

  /** One more draw, that finds the bucket neither full nor empty. */
  lemma SpendOne(t: Tally, d: Draw, pace: string -> string, key: string, k: nat, inflow: real, after: real, ts: real)
    requires Proper(d) && pace(d.host) == key && k >= 1 && Spent(t, key, d.burst, k, inflow, ts)
    requires after == inflow + Max(0.0, d.now - ts) * d.rate && after <= 1.0 && d.burst - k as real + after >= 1.0
    ensures Spent(Step(t, d, pace, key), key, d.burst, k + 1, after, d.now)
  {
    StepOnKey(t, d, pace, key);
  }

  /** Draws on one key at one rate and burst, how far the clock had moved forward by each, and in all. */
  datatype Feed = Feed(draws: seq<Draw>, rate: real, burst: real, moved: nat -> real, whole: real)

  ghost predicate MovesAt(f: Feed, k: nat) {
    1 <= k < |f.draws| ==> f.moved(k + 1) == f.moved(k) + Max(0.0, f.draws[k].now - f.draws[k - 1].now)
  }

  /** One fewer draw in the burst than there are. */
  ghost predicate Feeds(f: Feed, pace: string -> string, key: string) {
    true == (
      && |f.draws| >= 2 && AllProper(f.draws) && f.burst == (|f.draws| - 1) as real
      && (forall i :: 0 <= i < |f.draws| ==>
            pace(f.draws[i].host) == key && f.draws[i].rate == f.rate && f.draws[i].burst == f.burst)
      && f.moved(1) == 0.0 && f.moved(|f.draws|) == f.whole
      && (forall k: nat :: 1 <= k <= |f.draws| ==> 0.0 <= f.moved(k) <= f.whole)
      && (forall k: nat :: MovesAt(f, k)))
  }

  lemma FeedsAt(f: Feed, pace: string -> string, key: string, k: nat)
    requires Feeds(f, pace, key) && 1 <= k < |f.draws|
    ensures var d := f.draws[k];
            && Proper(d) && pace(d.host) == key && d.rate == f.rate && d.burst == f.burst == (|f.draws| - 1) as real
            && f.moved(k + 1) == f.moved(k) + Max(0.0, d.now - f.draws[k - 1].now)
            && 0.0 <= f.moved(k + 1) <= f.whole && (k + 1 == |f.draws| ==> f.moved(k + 1) == f.whole)
  {
    assert MovesAt(f, k);
  }

  lemma FeedsFirst(f: Feed, pace: string -> string, key: string)
    requires Feeds(f, pace, key)
    ensures |f.draws| >= 2 && AllProper(f.draws) && pace(f.draws[0].host) == key && f.draws[0].burst == f.burst >= 1.0
    ensures f.moved(1) == 0.0
  {
  }

  /** What flows in over a `part` of the movement `whole`, at the rate that takes in one over all of it. */
  lemma Share(part: real, whole: real, rate: real)
    requires 0.0 <= part <= whole && rate > 0.0 && whole * rate == 1.0
    ensures 0.0 <= part * rate <= 1.0 && (part < whole ==> part * rate < 1.0)
  {
    assert (whole - part) * rate == whole * rate - part * rate;
  }

  lemma Distribute(a: real, b: real, r: real)
    ensures (a + b) * r == a * r + b * r
  {
  }

  /** What flowed in by the draw after the `k`-th: the bucket is then neither full nor empty. */
  ghost predicate FlowsAt(f: Feed, inflow: nat -> real, k: nat) {
    1 <= k < |f.draws| ==>
      && inflow(k + 1) == inflow(k) + Max(0.0, f.draws[k].now - f.draws[k - 1].now) * f.rate
      && inflow(k + 1) <= 1.0 && f.burst - k as real + inflow(k + 1) >= 1.0
  }

  ghost predicate Flows(f: Feed, inflow: nat -> real) {
    true == (inflow(1) == 0.0 && forall k: nat :: FlowsAt(f, inflow, k))
  }

  lemma Flow(f: Feed, pace: string -> string, key: string, inflow: nat -> real, k: nat)
    requires Feeds(f, pace, key) && f.rate > 0.0 && f.whole * f.rate == 1.0 && 1 <= k < |f.draws|
    requires inflow(k) == f.moved(k) * f.rate && inflow(k + 1) == f.moved(k + 1) * f.rate
    ensures FlowsAt(f, inflow, k)
  {
    FeedsAt(f, pace, key, k);
    Distribute(f.moved(k), Max(0.0, f.draws[k].now - f.draws[k - 1].now), f.rate);
    Share(f.moved(k + 1), f.whole, f.rate);
  }

  /** When one flows in over the whole movement. */
  lemma MovementFlows(f: Feed, pace: string -> string, key: string, inflow: nat -> real)
    requires Feeds(f, pace, key) && f.rate > 0.0 && f.whole * f.rate == 1.0
    requires forall k: nat :: inflow(k) == f.moved(k) * f.rate
    ensures Flows(f, inflow)
  {
    FeedsFirst(f, pace, key);
    assert 0.0 * f.rate == 0.0;
    forall k: nat ensures FlowsAt(f, inflow, k) {
      if 1 <= k < |f.draws| {
        Flow(f, pace, key, inflow, k);
      }
    }
  }

  ghost predicate StepsAt(draws: seq<Draw>, pace: string -> string, key: string, run: nat -> Tally, k: nat) {
    k < |draws| ==> Proper(draws[k]) && run(k + 1) == Step(run(k), draws[k], pace, key)
  }

  /** `run` gives the tally after each number of the draws. */
  ghost predicate Runs(draws: seq<Draw>, pace: string -> string, key: string, run: nat -> Tally) {
    true == (run(0) == Tally(map[], 0, 0.0) && forall k: nat :: StepsAt(draws, pace, key, run, k))
  }

  lemma AllowedNext(f: Feed, pace: string -> string, key: string, inflow: nat -> real, run: nat -> Tally, k: nat)
    requires Runs(f.draws, pace, key, run) && Feeds(f, pace, key) && Flows(f, inflow)
    requires 1 <= k < |f.draws| && Spent(run(k), key, f.burst, k, inflow(k), f.draws[k - 1].now)
    ensures Spent(run(k + 1), key, f.burst, k + 1, inflow(k + 1), f.draws[k].now)
  {
    assert StepsAt(f.draws, pace, key, run, k) && FlowsAt(f, inflow, k);
    FeedsAt(f, pace, key, k);
    SpendOne(run(k), f.draws[k], pace, key, k, inflow(k), inflow(k + 1), f.draws[k - 1].now);
  }

  lemma AllowedFirst(f: Feed, pace: string -> string, key: string, inflow: nat -> real, run: nat -> Tally)
    requires Runs(f.draws, pace, key, run) && Feeds(f, pace, key) && Flows(f, inflow) && f.draws != []
    ensures Spent(run(1), key, f.burst, 1, inflow(1), f.draws[0].now)
  {
    assert StepsAt(f.draws, pace, key, run, 0);
    FeedsFirst(f, pace, key);
    SpendFirst(f.draws[0], pace);
  }

  /** Then every draw is allowed. */
  lemma {:induction false} AllAllowed(f: Feed, pace: string -> string, key: string, inflow: nat -> real,
                                      run: nat -> Tally, k: nat)
    requires Runs(f.draws, pace, key, run) && Feeds(f, pace, key) && Flows(f, inflow) && 1 <= k <= |f.draws|
    ensures Spent(run(k), key, f.burst, k, inflow(k), f.draws[k - 1].now)
  {
    if k == 1 {
      AllowedFirst(f, pace, key, inflow, run);
    } else {
      AllAllowed(f, pace, key, inflow, run, k - 1);
      AllowedNext(f, pace, key, inflow, run, k - 1);
    }
  }

  /** The tally after the first `k` draws. */
  function After(draws: seq<Draw>, pace: string -> string, key: string, k: nat): Tally
    requires AllProper(draws)
  {
    if k <= |draws| then Run(draws[..k], pace, key) else Run(draws, pace, key)
  }

  lemma AfterSteps(draws: seq<Draw>, pace: string -> string, key: string, run: nat -> Tally)
    requires AllProper(draws) && (forall k: nat :: run(k) == After(draws, pace, key, k))
    ensures Runs(draws, pace, key, run)
  {
    forall k: nat ensures StepsAt(draws, pace, key, run, k) {
      if k < |draws| {
        assert draws[..k + 1][..k] == draws[..k];
      }
    }
  }

  lemma EveryDrawIsAllowed(f: Feed, pace: string -> string, key: string, inflow: nat -> real)
    requires AllProper(f.draws) && Feeds(f, pace, key) && Flows(f, inflow)
    ensures Run(f.draws, pace, key).allowed == |f.draws|
  {
    FeedsFirst(f, pace, key);
    var run: nat -> Tally := (k: nat) => After(f.draws, pace, key, k);
    AfterSteps(f.draws, pace, key, run);
    AllAllowed(f, pace, key, inflow, run, |f.draws|);
    assert f.draws[..|f.draws|] == f.draws;
  }

  lemma ForwardStep(ts: seq<real>, k: nat)
    requires k < |ts|
    ensures Forward(ts[..k + 1]) == if k == 0 then 0.0 else Forward(ts[..k]) + Max(0.0, ts[k] - ts[k - 1])
  {
    assert ts[..k + 1][..k] == ts[..k];
  }

  lemma {:induction false} ForwardGrows(ts: seq<real>, k: nat)
    requires k <= |ts|
    ensures Forward(ts[..k]) <= Forward(ts)
    decreases |ts| - k
  {
    if k == |ts| {
      assert ts[..k] == ts;
    } else {
      ForwardGrows(ts, k + 1);
      ForwardStep(ts, k);
    }
  }

  /** How far the clock had moved forward by the `k`-th reading. */
  function Moved(ts: seq<real>, k: nat): real {
    if k <= |ts| then Forward(ts[..k]) else 0.0
  }

  lemma MovedOn(f: Feed, host: string, ts: seq<real>, k: nat)
    requires f.draws == DrawsAt(host, f.rate, f.burst, ts) && (forall k: nat :: f.moved(k) == Moved(ts, k))
    ensures MovesAt(f, k)
  {
    if 1 <= k < |ts| {
      ForwardStep(ts, k);
    }
  }

  lemma MovementFeeds(f: Feed, host: string, ts: seq<real>, pace: string -> string)
    requires |ts| >= 2 && f.rate > 0.0 && f.burst == (|ts| - 1) as real && f.whole == Forward(ts)
    requires f.draws == DrawsAt(host, f.rate, f.burst, ts) && (forall k: nat :: f.moved(k) == Moved(ts, k))
    ensures Feeds(f, pace, pace(host))
  {
    forall k: nat ensures MovesAt(f, k) {
      MovedOn(f, host, ts, k);
    }
    forall k: nat | 1 <= k <= |ts| ensures 0.0 <= f.moved(k) <= f.whole {
      ForwardGrows(ts, k);
    }
    ForwardStep(ts, 0);
    assert ts[..|ts|] == ts;
  }

  ghost predicate InvertsAt(inverse: real -> real, x: real) {
    x > 0.0 ==> inverse(x) > 0.0 && x * inverse(x) == 1.0
  }

  /** At the rate `inverse(x)`, one flows in over `x`. */
  ghost predicate Inverts(inverse: real -> real) {
    forall x :: InvertsAt(inverse, x)
  }

  lemma Inverse() returns (inverse: real -> real)
    ensures Inverts(inverse)
  {
    inverse := (x: real) => if x > 0.0 then 1.0 / x else 0.0;
  }

  lemma InversePositive(inverse: real -> real, x: real)
    requires Inverts(inverse) && x > 0.0
    ensures inverse(x) > 0.0
  {
    assert InvertsAt(inverse, x);
  }

  lemma FedThrough(f: Feed, pace: string -> string, key: string, inverse: real -> real)
    requires AllProper(f.draws) && Feeds(f, pace, key) && f.whole > 0.0 && Inverts(inverse) && f.rate == inverse(f.whole)
    ensures Run(f.draws, pace, key).allowed == |f.draws|
  {
    assert InvertsAt(inverse, f.whole);
    var inflow: nat -> real := (k: nat) => f.moved(k) * f.rate;
    MovementFlows(f, pace, key, inflow);
    EveryDrawIsAllowed(f, pace, key, inflow);
  }

  lemma FeedOf(host: string, ts: seq<real>, pace: string -> string, rate: real, whole: real) returns (f: Feed)
    requires |ts| >= 2 && rate > 0.0 && whole == Forward(ts)
    ensures Feeds(f, pace, pace(host)) && AllProper(f.draws) && f.rate == rate && f.whole == whole
    ensures f.draws == DrawsAt(host, rate, (|ts| - 1) as real, ts)
  {
    var burst := (|ts| - 1) as real;
    f := Feed(DrawsAt(host, rate, burst, ts), rate, burst, (k: nat) => Moved(ts, k), whole);
    MovementFeeds(f, host, ts, pace);
  }

  lemma MovementFedThrough(host: string, ts: seq<real>, pace: string -> string, inverse: real -> real, whole: real)
    requires |ts| >= 2 && whole == Forward(ts) > 0.0 && Inverts(inverse) && inverse(whole) > 0.0
    ensures Run(DrawsAt(host, inverse(whole), (|ts| - 1) as real, ts), pace, pace(host)).allowed == |ts|
  {
    var f := FeedOf(host, ts, pace, inverse(whole), whole);
    FedThrough(f, pace, pace(host), inverse);
  }

  lemma AtLeastTwo(ts: seq<real>)
    requires ts != [] && Forward(ts) > Span(ts)
    ensures |ts| >= 2 && 0.0 <= Span(ts) < Forward(ts)
  {
    SpanIsPositive(ts);
  }

  lemma TooMany(t: Tally, inverse: real -> real, whole: real, burst: real, span: real)
    requires t.allowed as real == burst + 1.0 && 0.0 <= span < whole && Inverts(inverse)
    ensures !Within(t, inverse(whole), burst, span)
  {
    assert InvertsAt(inverse, whole);
    Share(span, whole, inverse(whole));
  }

  lemma Exceeds(host: string, rate: real, burst: real, ts: seq<real>, pace: string -> string, span: real)
    requires ts != [] && rate > 0.0 && burst > 0.0 && span == Span(ts)
    requires !Within(Run(DrawsAt(host, rate, burst, ts), pace, pace(host)), rate, burst, span)
    ensures !SpanBounds(host, ts, pace)
  {
  }

  lemma MovementBreaksAt(host: string, ts: seq<real>, pace: string -> string, inverse: real -> real,
                         whole: real, span: real)
    requires |ts| >= 2 && whole == Forward(ts) && span == Span(ts) && 0.0 <= span < whole && Inverts(inverse)
    ensures !SpanBounds(host, ts, pace)
  {
    InversePositive(inverse, whole);
    MovementFedThrough(host, ts, pace, inverse, whole);
    var rate, burst := inverse(whole), (|ts| - 1) as real;
    TooMany(Run(DrawsAt(host, rate, burst, ts), pace, pace(host)), inverse, whole, burst, span);
    Exceeds(host, rate, burst, ts, pace, span);
  }

  /** A clock that moved further forward than its span lets more through: with one draw fewer in the burst than
      there are readings, and one flowing in over all of the movement, every one is allowed. */
  lemma MovementBreaksTheSpan(host: string, ts: seq<real>, pace: string -> string)
    requires ts != [] && Forward(ts) > Span(ts)
    ensures !SpanBounds(host, ts, pace)
  {
    AtLeastTwo(ts);
    var inverse := Inverse();
    MovementBreaksAt(host, ts, pace, inverse, Forward(ts), Span(ts));
  }

  /** The bucket keeps to one burst and the rate over the span of the clock, at every rate and burst, exactly
      when the clock did not move further forward than its span. */
  lemma SpanBoundsExactlyWhen(host: string, ts: seq<real>, pace: string -> string)
    requires ts != []
    ensures SpanBounds(host, ts, pace) <==> Forward(ts) <= Span(ts)
  {
    if Forward(ts) <= Span(ts) {
      MovementWithinTheSpan(host, ts, pace);
    } else {
      MovementBreaksTheSpan(host, ts, pace);
    }
  }

  /** The readings of a clock that goes from 0 to 1 and back, and to 1 again. */
  const BACK_AND_FORTH := [0.0, 1.0, 0.0, 1.0]

  lemma BackAndForth()
    ensures Forward(BACK_AND_FORTH) == 2.0 && Span(BACK_AND_FORTH) == 1.0
  {
    var ts := BACK_AND_FORTH;
    assert ts[..3] == [0.0, 1.0, 0.0] && ts[..3][..2] == [0.0, 1.0] && ts[..3][..2][..1] == [0.0];
    assert Forward(ts[..3][..2]) == 1.0 && Latest(ts[..3][..2]) == 1.0 && Earliest(ts[..3][..2]) == 0.0;
    assert Forward(ts[..3]) == 1.0 && Latest(ts[..3]) == 1.0 && Earliest(ts[..3]) == 0.0;
  }

  lemma ThreeAllowed(host: string, pace: string -> string)
    ensures var a, b := Draw(host, 1.0, 1.0, 0.0), Draw(host, 1.0, 1.0, 1.0);
            Run([a, b, a, b], pace, pace(host)).allowed == 3
  {
    var a, b := Draw(host, 1.0, 1.0, 0.0), Draw(host, 1.0, 1.0, 1.0);
    var key := pace(host);
    assert Run([], pace, key) == Tally(map[], 0, 0.0);
    assert [a][..0] == [] && [a, b][..1] == [a] && [a, b, a][..2] == [a, b] && [a, b, a, b][..3] == [a, b, a];
    var t1 := Run([a], pace, key);
    assert t1.allowed == 1 && t1.levels[key] == Level(0.0, 0.0);
    var t2 := Run([a, b], pace, key);
    assert t2.allowed == 2 && t2.levels[key] == Level(0.0, 1.0);
    var t3 := Run([a, b, a], pace, key);
    assert t3.allowed == 2 && t3.levels[key] == Level(0.0, 0.0);
  }

  /** So by a clock that steps back it does not: at one token a second and a burst of one, such a clock has
      three draws allowed in a span of one second. */
  lemma SteppingBackAllowsMore(host: string, pace: string -> string)
    ensures !SpanBounds(host, BACK_AND_FORTH, pace)
    ensures Run(DrawsAt(host, 1.0, 1.0, BACK_AND_FORTH), pace, pace(host)).allowed == 3
  {
    BackAndForth();
    SpanBoundsExactlyWhen(host, BACK_AND_FORTH, pace);
    ThreeAllowed(host, pace);
    var a, b := Draw(host, 1.0, 1.0, 0.0), Draw(host, 1.0, 1.0, 1.0);
    assert DrawsAt(host, 1.0, 1.0, BACK_AND_FORTH) == [a, b, a, b];
  }

  // ---------------------------------------------------------------- the retry time

  lemma DivideMeans(need: real, rate: real, wait: real)
    requires rate > 0.0
    ensures wait >= need / rate <==> wait * rate >= need
  {
    var q := need / rate;
    assert q * rate == need;
    if wait >= q {
      assert (wait - q) * rate >= 0.0;
    } else {
      assert (q - wait) * rate > 0.0;
    }
  }

  /** The retry time of a refused draw is exactly the least wait after which the same caller, alone, is
      allowed; with a burst below one token there is no such wait. */
  lemma RetryIsExact(s: Levels, key: string, rate: real, burst: real, now: real, wait: real)
    requires rate > 0.0 && !Taken(s, key, rate, burst, now, 1.0).1.allowed
    ensures var (s', d) := Taken(s, key, rate, burst, now, 1.0);
            Taken(s', key, rate, burst, now + wait, 1.0).1.allowed <==> burst >= 1.0 && wait >= d.retry
  {
    var (s', d) := Taken(s, key, rate, burst, now, 1.0);
    DivideMeans(1.0 - d.tokens, rate, wait);
    assert s'[key] == Level(d.tokens, now);
    if wait < 0.0 {
      assert Max(0.0, now + wait - now) == 0.0;
      assert d.retry * rate == 1.0 - d.tokens;
    }
  }
}
