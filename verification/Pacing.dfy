/** The rate loop of one receiving system: halve on a throttle, climb after ten clean answers, stand down
    when the floor is still too fast. Times are nanoseconds. */
module Pacing {
  import opened Reals
  import opened Wrappers
  import opened Band

  const BACKOFF: real := 0.5
  const CLIMB: real := 1.1
  const CLEAN: nat := 10
  const SECOND: int := 1_000_000_000

  datatype Phase = Probing | Steady | Backoff | Paused

  /** `pausedUntil` is None while no pause was ever set. */
  datatype Entry = Entry(band: Band, rate: real, conc: int, clean: nat, phase: Phase,
                         pausedUntil: Option<int>, lastUsed: int, atCeiling: nat, proposed: bool)

  datatype Promotion = Promotion(after: int, step: real, ceiling: real)

  datatype Proposal = Proposal(currentMax: real, proposedMax: real, cleanAt: nat)

  // ---------------------------------------------------------------- one answer

  function Throttled(e: Entry, now: int): Entry {
    var e := e.(lastUsed := now, clean := 0, atCeiling := 0);
    if e.rate > e.band.minRate then
      e.(rate := Max(e.band.minRate, e.rate * BACKOFF),
         conc := if e.conc - 1 > e.band.minConc then e.conc - 1 else e.band.minConc,
         phase := Backoff)
    else
      e.(pausedUntil := Some(now + e.band.pause * SECOND), phase := Paused)
  }

  function Climbed(e: Entry): Entry {
    if e.clean >= CLEAN && e.rate < e.band.maxRate then
      e.(clean := 0,
         rate := Min(e.band.maxRate, e.rate * CLIMB),
         conc := if e.conc + 1 < e.band.maxConc then e.conc + 1 else e.band.maxConc)
    else e
  }

  function Cleared(e: Entry, now: int, promote: Promotion): Entry {
    var e := Climbed(e.(lastUsed := now, clean := e.clean + 1));
    var e := if e.phase == Paused then e else e.(phase := Steady);
    if e.rate >= e.band.maxRate then
      e.(atCeiling := e.atCeiling + 1,
         proposed := e.proposed || (promote.after > 0 && e.atCeiling + 1 >= promote.after))
    else e
  }

  function Observed(e: Entry, throttled: bool, now: int, promote: Promotion): Entry {
    if throttled then Throttled(e, now) else Cleared(e, now, promote)
  }

  /** The proposal an answer forms, if it forms one. */
  function Proposed(before: Entry, after: Entry, promote: Promotion): Option<Proposal> {
    var next := Min(promote.ceiling, after.band.maxRate * promote.step);
    if !before.proposed && after.proposed && next > after.band.maxRate then
      Some(Proposal(after.band.maxRate, next, after.atCeiling))
    else None
  }

  method ObserveThrottle(before: Entry, now: int) returns (e: Entry, paused: bool)
    ensures e == Throttled(before, now) && (paused <==> before.rate <= before.band.minRate)
  {
    e := before.(lastUsed := now);
    e := e.(clean := 0);
    e := e.(atCeiling := 0);
    if e.rate > e.band.minRate {
      e := e.(rate := Max(e.band.minRate, e.rate * BACKOFF));
      e := e.(conc := if e.conc - 1 > e.band.minConc then e.conc - 1 else e.band.minConc);
      e := e.(phase := Backoff);
      return e, false;
    }
    e := e.(pausedUntil := Some(now + e.band.pause * SECOND));
    e := e.(phase := Paused);
    paused := true;
  }

  method ObserveClean(before: Entry, now: int, promote: Promotion) returns (e: Entry, propose: bool)
    ensures e == Cleared(before, now, promote) && (propose <==> !before.proposed && e.proposed)
  {
    e := before.(lastUsed := now);
    e := e.(clean := e.clean + 1);
    if e.clean >= CLEAN && e.rate < e.band.maxRate {
      e := e.(clean := 0);
      e := e.(rate := Min(e.band.maxRate, e.rate * CLIMB));
      e := e.(conc := if e.conc + 1 < e.band.maxConc then e.conc + 1 else e.band.maxConc);
    }
    if e.phase != Paused {
      e := e.(phase := Steady);
    }
    propose := false;
    if e.rate >= e.band.maxRate {
      e := e.(atCeiling := e.atCeiling + 1);
      if promote.after > 0 && !e.proposed && e.atCeiling >= promote.after {
        propose := true;
        e := e.(proposed := true);
      }
    }
  }

  method ProposeBand(e: Entry, promote: Promotion) returns (proposal: Option<Proposal>)
    ensures var next := Min(promote.ceiling, e.band.maxRate * promote.step);
            proposal == if next > e.band.maxRate then Some(Proposal(e.band.maxRate, next, e.atCeiling)) else None
  {
    var next := Min(promote.ceiling, e.band.maxRate * promote.step);
    if next <= e.band.maxRate {
      return None;
    }
    proposal := Some(Proposal(e.band.maxRate, next, e.atCeiling));
  }

  /** Observe, as it updates the entry field by field. */
  method Observe(before: Entry, throttled: bool, now: int, promote: Promotion)
    returns (e: Entry, paused: bool, proposal: Option<Proposal>)
    ensures e == Observed(before, throttled, now, promote)
    ensures paused <==> throttled && before.rate <= before.band.minRate
    ensures proposal == Proposed(before, e, promote)
  {
    paused, proposal := false, None;
    if throttled {
      e, paused := ObserveThrottle(before, now);
    } else {
      var propose;
      e, propose := ObserveClean(before, now, promote);
      if propose {
        proposal := ProposeBand(e, promote);
      }
    }
  }

  // ---------------------------------------------------------------- what every answer keeps

  /** Inside the band, and short of a climb while short of the ceiling. */
  ghost predicate InBand(e: Entry) {
    && Normal(e.band)
    && e.band.minRate <= e.rate <= e.band.maxRate
    && e.band.minConc <= e.conc <= e.band.maxConc
    && (e.rate < e.band.maxRate ==> e.clean < CLEAN)
  }

  lemma KeepsBand(e: Entry, throttled: bool, now: int, promote: Promotion)
    requires InBand(e)
    ensures InBand(Observed(e, throttled, now, promote)) && Observed(e, throttled, now, promote).band == e.band
  {
  }

  /** Whatever the loop proposes is above the ceiling it proposes to raise and within the absolute one. */
  lemma ProposalWithinBounds(before: Entry, after: Entry, promote: Promotion)
    requires Proposed(before, after, promote).Some?
    ensures var p := Proposed(before, after, promote).value;
            after.band.maxRate == p.currentMax < p.proposedMax <= promote.ceiling
  {
  }

  // ---------------------------------------------------------------- a run of answers

  datatype Answer = Answer(throttled: bool, now: int)

  function After(e: Entry, answers: seq<Answer>, promote: Promotion): Entry {
    if answers == [] then e
    else
      var n := |answers| - 1;
      Observed(After(e, answers[..n], promote), answers[n].throttled, answers[n].now, promote)
  }

  lemma {:induction false} AfterKeepsBand(e: Entry, answers: seq<Answer>, promote: Promotion)
    requires InBand(e)
    ensures InBand(After(e, answers, promote)) && After(e, answers, promote).band == e.band
  {
    if answers == [] {
    } else {
      var n := |answers| - 1;
      AfterKeepsBand(e, answers[..n], promote);
      KeepsBand(After(e, answers[..n], promote), answers[n].throttled, answers[n].now, promote);
    }
  }

  /** Ten percent more, so many times. */
  function Raised(rate: real, k: nat): real {
    if k == 0 then rate else 1.1 * Raised(rate, k - 1)
  }

  lemma {:induction false} RaisedGrows(rate: real, j: nat, k: nat)
    requires rate >= 0.0 && j <= k
    ensures 0.0 <= Raised(rate, j) <= Raised(rate, k) && rate <= Raised(rate, k)
  {
    if k == 0 {
    } else {
      RaisedGrows(rate, if j < k then j else k - 1, k - 1);
    }
  }

  /** How the rate and the count of clean answers move with one answer. */
  lemma OneAnswer(e: Entry, throttled: bool, now: int, promote: Promotion)
    requires InBand(e)
    ensures var f := Observed(e, throttled, now, promote);
            || (f.rate <= e.rate && f.clean <= e.clean + 1)
            || (f.rate <= e.rate * CLIMB && f.clean == 0 && e.clean + 1 >= CLEAN)
  {
  }

  /** Every climb is paid for by ten answers. */
  lemma {:induction false} Climbs(e: Entry, answers: seq<Answer>, promote: Promotion) returns (k: nat)
    requires InBand(e)
    ensures After(e, answers, promote).rate <= Raised(e.rate, k)
    ensures 10 * k + After(e, answers, promote).clean <= e.clean + |answers|
  {
    k := 0;
    if answers == [] {
    } else {
      var n := |answers| - 1;
      var before := After(e, answers[..n], promote);
      k := Climbs(e, answers[..n], promote);
      AfterKeepsBand(e, answers[..n], promote);
      OneAnswer(before, answers[n].throttled, answers[n].now, promote);
      var f := After(e, answers, promote);
      if !(f.rate <= before.rate && f.clean <= before.clean + 1) {
        k := k + 1;
      }
    }
  }

  /** Over any n answers the rate grows at most by one tenth for every ten of them, begun ones included. */
  lemma SlowClimb(e: Entry, answers: seq<Answer>, promote: Promotion)
    requires InBand(e)
    ensures After(e, answers, promote).rate <= Raised(e.rate, (|answers| + 9) / 10)
  {
    var most := (|answers| + 9) / 10;
    AfterKeepsBand(e, answers, promote);
    if e.rate < e.band.maxRate {
      var k := Climbs(e, answers, promote);
      RaisedGrows(e.rate, k, most);
    } else {
      RaisedGrows(e.rate, 0, most);
    }
  }

  // ---------------------------------------------------------------- throttles in a row

  function Throttles(e: Entry, times: seq<int>): Entry {
    if times == [] then e else Throttled(Throttles(e, times[..|times| - 1]), times[|times| - 1])
  }

  /** Twice as much, so many times. */
  function Doubled(rate: real, k: nat): real {
    if k == 0 then rate else 2.0 * Doubled(rate, k - 1)
  }

  lemma {:induction false} DoubledMeans(a: real, b: real, k: nat)
    ensures a <= b <==> Doubled(a, k) <= Doubled(b, k)
    ensures 2.0 * Doubled(a * 0.5, k) == Doubled(a, k)
    ensures a >= 0.0 ==> Doubled(a, k) >= a
  {
    if k == 0 {
    } else {
      DoubledMeans(a, b, k - 1);
    }
  }

  /** After k throttles in a row the rate is the old one halved k times, but never below the floor. */
  ghost predicate Halved(floor: real, start: real, rate: real, k: nat) {
    && rate >= floor
    && (rate == floor <==> start <= Doubled(floor, k))
    && (rate > floor ==> Doubled(rate, k) == start)
  }

  lemma HalveOnce(floor: real, start: real, rate: real, k: nat)
    requires 0.0 < floor && Halved(floor, start, rate, k)
    ensures Halved(floor, start, if rate > floor then Max(floor, rate * BACKOFF) else rate, k + 1)
  {
    DoubledMeans(rate, floor, k);
    DoubledMeans(rate * BACKOFF, floor, k);
    DoubledMeans(floor, floor, k);
  }

  lemma {:induction false} HalvesToFloor(e: Entry, times: seq<int>)
    requires InBand(e)
    ensures Throttles(e, times).band == e.band
    ensures Halved(e.band.minRate, e.rate, Throttles(e, times).rate, |times|)
    ensures Throttles(e, times).rate > e.band.minRate ==> Throttles(e, times).pausedUntil == e.pausedUntil
  {
    if times == [] {
    } else {
      var k := |times| - 1;
      HalvesToFloor(e, times[..k]);
      var f := Throttles(e, times[..k]);
      HalveOnce(e.band.minRate, e.rate, f.rate, k);
    }
  }

  lemma PausesOnceHalved(f: Entry, start: real, k: nat, until: Option<int>, now: int)
    requires Halved(f.band.minRate, start, f.rate, k) && (f.rate > f.band.minRate ==> f.pausedUntil == until)
    ensures var g := Throttled(f, now);
            if start <= Doubled(f.band.minRate, k) then
              g.phase == Paused && g.pausedUntil == Some(now + f.band.pause * SECOND)
            else
              g.phase == Backoff && g.pausedUntil == until
  {
  }

  /** The throttle after k in a row stands the system down exactly when k halvings reach the floor. */
  lemma PausesAtTheFloor(e: Entry, times: seq<int>, now: int)
    requires InBand(e)
    ensures var f := Throttled(Throttles(e, times), now);
            if e.rate <= Doubled(e.band.minRate, |times|) then
              f.phase == Paused && f.pausedUntil == Some(now + e.band.pause * SECOND)
            else
              f.phase == Backoff && f.pausedUntil == e.pausedUntil
  {
    HalvesToFloor(e, times);
    PausesOnceHalved(Throttles(e, times), e.rate, |times|, e.pausedUntil, now);
  }

  // ---------------------------------------------------------------- the evidence for a proposal

  /** How many answers at the end of the run were clean. */
  function CleanEnd(answers: seq<Answer>): nat {
    if answers == [] || answers[|answers| - 1].throttled then 0 else 1 + CleanEnd(answers[..|answers| - 1])
  }

  /** A fresh entry counts at most the clean answers since the last throttle, so a proposal is only ever
      formed on as many clean answers in a row as were asked for. */
  lemma {:induction false} EvidenceIsInARow(e: Entry, answers: seq<Answer>, promote: Promotion)
    requires InBand(e) && e.atCeiling == 0 && !e.proposed
    ensures After(e, answers, promote).atCeiling <= CleanEnd(answers)
    ensures answers != [] ==>
              var before := After(e, answers[..|answers| - 1], promote);
              Proposed(before, After(e, answers, promote), promote).Some? ==>
                0 < promote.after <= CleanEnd(answers) && After(e, answers, promote).rate == e.band.maxRate
  {
    AfterKeepsBand(e, answers, promote);
    if answers == [] {
    } else {
      EvidenceIsInARow(e, answers[..|answers| - 1], promote);
    }
  }
}
