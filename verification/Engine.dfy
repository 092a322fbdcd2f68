/** The policy engine of the mail-exchanger simulator: its sliding-window rate rules, cooldowns and
    connection counts. */
module Engine {
  import opened Maps

  // ---------------------------------------------------------------- pruning

  ghost predicate Sorted(ts: seq<int>) {
    forall i, j :: 0 <= i < j < |ts| ==> ts[i] <= ts[j]
  }

  /** From the first time after the cut on. */
  function Pruned(ts: seq<int>, cut: int): seq<int> {
    if ts == [] || ts[0] > cut then ts else Pruned(ts[1..], cut)
  }

  /** The times after the cut. */
  function Newer(ts: seq<int>, cut: int): seq<int> {
    if ts == [] then []
    else Newer(ts[..|ts| - 1], cut) + (if ts[|ts| - 1] > cut then [ts[|ts| - 1]] else [])
  }

  method Shift(buf: array<int>, i: nat, len: nat)
    requires 0 < i <= len <= buf.Length
    modifies buf
    ensures buf[..len - i] == old(buf[i..len])
  {
    for k := 0 to len - i
      invariant forall j :: 0 <= j < k ==> buf[j] == old(buf[i + j])
      invariant forall j :: i + k <= j < len ==> buf[j] == old(buf[j])
    {
      buf[k] := buf[i + k];
    }
  }

  /** Shifts the kept times to the front of the buffer. */
  method Prune(buf: array<int>, len: nat, now: int, window: int) returns (n: nat)
    requires len <= buf.Length
    modifies buf
    ensures n <= len && buf[..n] == Pruned(old(buf[..len]), now - window)
  {
    var cut := now - window;
    ghost var ts := buf[..len];
    var i := 0;
    while i < len && buf[i] <= cut
      invariant i <= len && buf[..len] == ts
      invariant Pruned(ts, cut) == Pruned(ts[i..], cut)
    {
      assert ts[i..][1..] == ts[i + 1..];
      i := i + 1;
    }
    assert Pruned(ts, cut) == ts[i..] == buf[i..len];
    if i == 0 {
      return len;
    }
    Shift(buf, i, len);
    n := len - i;
  }

  lemma {:induction false} NewerAll(ts: seq<int>, cut: int)
    requires forall i :: 0 <= i < |ts| ==> ts[i] > cut
    ensures Newer(ts, cut) == ts
  {
    if ts == [] {
    } else {
      NewerAll(ts[..|ts| - 1], cut);
      assert ts == ts[..|ts| - 1] + [ts[|ts| - 1]];
    }
  }

  lemma {:induction false} NewerTail(ts: seq<int>, cut: int)
    requires ts != [] && ts[0] <= cut
    ensures Newer(ts, cut) == Newer(ts[1..], cut)
  {
    var n := |ts| - 1;
    if n > 0 {
      NewerTail(ts[..n], cut);
      assert ts[..n][1..] == ts[1..][..n - 1];
    } else {
      assert ts[..0] == [] && ts[1..] == [];
    }
  }

  /** On a sorted buffer, cutting off the front is dropping everything old, wherever it is. */
  lemma {:induction false} PrunedIsNewer(ts: seq<int>, cut: int)
    requires Sorted(ts)
    ensures Pruned(ts, cut) == Newer(ts, cut)
  {
    if ts == [] || ts[0] > cut {
      NewerAll(ts, cut);
    } else {
      PrunedIsNewer(ts[1..], cut);
      NewerTail(ts, cut);
    }
  }

  lemma {:induction false} NewerMeans(ts: seq<int>, cut: int)
    ensures Sorted(ts) ==> Sorted(Newer(ts, cut))
    ensures forall i :: 0 <= i < |Newer(ts, cut)| ==> Newer(ts, cut)[i] in ts && Newer(ts, cut)[i] > cut
  {
    if ts == [] {
    } else {
      NewerMeans(ts[..|ts| - 1], cut);
    }
  }

  lemma NewerSnoc(ts: seq<int>, t: int, cut: int)
    ensures Newer(ts + [t], cut) == Newer(ts, cut) + (if t > cut then [t] else [])
  {
    assert (ts + [t])[..|ts|] == ts;
  }

  /** Dropping what is old and later dropping what is older still, with times added in between, is
      dropping once. */
  lemma {:induction false} NewerTwice(ts: seq<int>, first: int, cut: int)
    requires first <= cut
    ensures Newer(Newer(ts, first), cut) == Newer(ts, cut)
  {
    if ts == [] {
    } else {
      var front, last := ts[..|ts| - 1], ts[|ts| - 1];
      NewerTwice(front, first, cut);
      if last > first {
        NewerSnoc(Newer(front, first), last, cut);
      } else {
        assert Newer(ts, first) == Newer(front, first);
      }
    }
  }

  // ---------------------------------------------------------------- the engine

  datatype Rate = Rate(count: int, window: int) {
    predicate Enabled() {
      count > 0 && window > 0
    }
  }

  datatype Profile = Profile(maxConns: int, connRate: Rate, rcptPerConn: int, rcptRate: Rate, cooldown: int)

  datatype Ip = Ip(connTimes: seq<int>, rcptTimes: seq<int>, active: nat, cooldownUntil: int)

  /** `cooldownUntil` starts before every time. */
  const LONG_AGO: int := -0x8000_0000_0000_0000
  const UNSEEN := Ip([], [], 0, LONG_AGO)

  datatype Verdict = Cooling | Crowded | TooFast | TooMany | Passed

  function CoolDown(s: Ip, now: int, p: Profile): Ip {
    if p.cooldown > 0 && now + p.cooldown > s.cooldownUntil then s.(cooldownUntil := now + p.cooldown) else s
  }

  function Connected(given: Ip, now: int, p: Profile): (Ip, Verdict) {
    var s := given.(connTimes := given.connTimes + [now]);
    if now < s.cooldownUntil then (s, Cooling)
    else if p.maxConns > 0 && s.active >= p.maxConns then (CoolDown(s, now, p), Crowded)
    else
      var s := if p.connRate.Enabled() then s.(connTimes := Pruned(s.connTimes, now - p.connRate.window)) else s;
      if p.connRate.Enabled() && |s.connTimes| > p.connRate.count then (CoolDown(s, now, p), TooFast)
      else (s.(active := s.active + 1), Passed)
  }

  function Received(s: Ip, now: int, perConn: int, p: Profile): (Ip, Verdict) {
    if now < s.cooldownUntil then (CoolDown(s, now, p), Cooling)
    else if p.rcptPerConn > 0 && perConn > p.rcptPerConn then (s, TooMany)
    else if p.rcptRate.Enabled() then
      var s := s.(rcptTimes := Pruned(s.rcptTimes + [now], now - p.rcptRate.window));
      if |s.rcptTimes| > p.rcptRate.count then (CoolDown(s, now, p), TooFast) else (s, Passed)
    else (s, Passed)
  }

  function Left(s: Ip): Ip {
    if s.active > 0 then s.(active := s.active - 1) else s
  }

  datatype Event =
    | Connect(conn: nat, ip: string, now: int)
    | Disconnect(conn: nat, ip: string, admitted: bool)
    | Rcpt(ip: string, now: int, perConn: int)
    | Reset

  datatype System = System(ips: map<string, Ip>, current: nat)

  function IpOf(s: System, ip: string): Ip {
    if ip in s.ips then s.ips[ip] else UNSEEN
  }

  function Apply(s: System, e: Event, p: Profile): (System, Verdict) {
    match e
    case Connect(_, ip, now) =>
      var (after, v) := Connected(IpOf(s, ip), now, p);
      (System(s.ips[ip := after], if v.Passed? then s.current + 1 else s.current), v)
    case Disconnect(_, ip, admitted) =>
      if !admitted then (s, Passed)
      else (System(s.ips[ip := Left(IpOf(s, ip))], if s.current > 0 then s.current - 1 else 0), Passed)
    case Rcpt(ip, now, perConn) =>
      var (after, v) := Received(IpOf(s, ip), now, perConn, p);
      (s.(ips := s.ips[ip := after]), v)
    case Reset => (s.(ips := map[]), Passed)
  }

  class Policy {
    var ips: map<string, Ip>
    var current: nat
    const prof: Profile

    constructor (p: Profile)
      ensures prof == p && ips == map[] && current == 0
    {
      prof, ips, current := p, map[], 0;
    }

    function Value(): System
      reads this
    {
      System(ips, current)
    }

    method OnConnect(ip: string, now: int, ghost conn: nat) returns (v: Verdict, ok: bool)
      modifies this
      ensures (Value(), v) == Apply(old(Value()), Connect(conn, ip, now), prof) && (ok <==> v.Passed?)
    {
      var s := if ip in ips then ips[ip] else UNSEEN;
      s := s.(connTimes := s.connTimes + [now]);
      if now < s.cooldownUntil {
        ips := ips[ip := s];
        return Cooling, false;
      }
      if prof.maxConns > 0 && s.active >= prof.maxConns {
        ips := ips[ip := CoolDown(s, now, prof)];
        return Crowded, false;
      }
      if prof.connRate.Enabled() {
        s := s.(connTimes := Pruned(s.connTimes, now - prof.connRate.window));
        if |s.connTimes| > prof.connRate.count {
          ips := ips[ip := CoolDown(s, now, prof)];
          return TooFast, false;
        }
      }
      ips := ips[ip := s.(active := s.active + 1)];
      current := current + 1;
      return Passed, true;
    }

    method OnDisconnect(ip: string, admitted: bool, ghost conn: nat)
      modifies this
      ensures Value() == Apply(old(Value()), Disconnect(conn, ip, admitted), prof).0
    {
      if !admitted {
        return;
      }
      var s := if ip in ips then ips[ip] else UNSEEN;
      if s.active > 0 {
        s := s.(active := s.active - 1);
      }
      ips := ips[ip := s];
      if current > 0 {
        current := current - 1;
      }
    }

    method OnRcpt(ip: string, now: int, perConn: int) returns (v: Verdict)
      modifies this
      ensures (Value(), v) == Apply(old(Value()), Rcpt(ip, now, perConn), prof)
    {
      var s := if ip in ips then ips[ip] else UNSEEN;
      if now < s.cooldownUntil {
        ips := ips[ip := CoolDown(s, now, prof)];
        return Cooling;
      }
      if prof.rcptPerConn > 0 && perConn > prof.rcptPerConn {
        ips := ips[ip := s];
        return TooMany;
      }
      if prof.rcptRate.Enabled() {
        s := s.(rcptTimes := s.rcptTimes + [now]);
        s := s.(rcptTimes := Pruned(s.rcptTimes, now - prof.rcptRate.window));
        if |s.rcptTimes| > prof.rcptRate.count {
          ips := ips[ip := CoolDown(s, now, prof)];
          return TooFast;
        }
      }
      ips := ips[ip := s];
      return Passed;
    }

    method ResetAll()
      modifies this
      ensures Value() == Apply(old(Value()), Reset, prof).0
    {
      ips := map[];
    }
  }

  // ---------------------------------------------------------------- every run

  const START := System(map[], 0)

  function Run(events: seq<Event>, p: Profile): System {
    if events == [] then START else Apply(Run(events[..|events| - 1], p), events[|events| - 1], p).0
  }

  /** The recipients from one address that the rate rule ruled on, in order, and how. */
  datatype History = Nothing | Then(before: History, time: int, passed: bool)

  predicate Ruled(s: System, e: Event, ip: string, p: Profile) {
    e.Rcpt? && e.ip == ip && p.rcptRate.Enabled() && (Apply(s, e, p).1 == TooFast || Apply(s, e, p).1 == Passed)
  }

  function Attempts(events: seq<Event>, ip: string, p: Profile): History {
    if events == [] then Nothing
    else
      var before, e := events[..|events| - 1], events[|events| - 1];
      var s, h := Run(before, p), Attempts(before, ip, p);
      if Ruled(s, e, ip, p) then Then(h, e.now, Apply(s, e, p).1 == Passed) else h
  }

  function Times(h: History): seq<int> {
    match h case Nothing => [] case Then(before, time, _) => Times(before) + [time]
  }

  /** How many passed after `lo` and no later than `hi`. */
  function PassedIn(h: History, lo: int, hi: int): nat {
    match h
    case Nothing => 0
    case Then(before, time, passed) => PassedIn(before, lo, hi) + (if passed && lo < time <= hi then 1 else 0)
  }

  /** Each that passed was, with all that went before it, within the count of its own window. */
  ghost predicate Guarded(h: History, r: Rate) {
    match h
    case Nothing => true
    case Then(before, time, passed) =>
      Guarded(before, r) && (passed ==> |Newer(Times(h), time - r.window)| <= r.count)
  }

  lemma {:induction false} PassedAreNewer(h: History, lo: int, hi: int)
    ensures PassedIn(h, lo, hi) <= |Newer(Times(h), lo)|
  {
    if h.Nothing? {
    } else {
      PassedAreNewer(h.before, lo, hi);
      NewerSnoc(Times(h.before), h.time, lo);
    }
  }

  lemma {:induction false} NewerShrinks(ts: seq<int>, lo: int, cut: int)
    requires lo <= cut
    ensures |Newer(ts, cut)| <= |Newer(ts, lo)|
  {
    if ts == [] {
    } else {
      NewerShrinks(ts[..|ts| - 1], lo, cut);
    }
  }

  lemma {:induction false} GuardedWindow(h: History, r: Rate, t: int)
    requires Guarded(h, r) && r.Enabled()
    ensures PassedIn(h, t - r.window, t) <= r.count
  {
    if h.Nothing? {
    } else {
      GuardedWindow(h.before, r, t);
      if h.passed && t - r.window < h.time <= t {
        PassedAreNewer(h, t - r.window, t);
        NewerShrinks(Times(h), h.time - r.window, t - r.window);
      }
    }
  }

  /** No time of a connection or a recipient is later than this. */
  ghost predicate By(events: seq<Event>, now: int) {
    forall i :: 0 <= i < |events| ==> (events[i].Connect? || events[i].Rcpt?) ==> events[i].now <= now
  }

  /** The clock never steps back. */
  ghost predicate Forward(events: seq<Event>) {
    events == [] ||
    var before, e := events[..|events| - 1], events[|events| - 1];
    Forward(before) && ((e.Connect? || e.Rcpt?) ==> By(before, e.now))
  }

  ghost predicate NoReset(events: seq<Event>) {
    forall i :: 0 <= i < |events| ==> !events[i].Reset?
  }

  /** What the engine remembers of an address are the times the rule has ruled on, cut one window before
      the last of them. */
  ghost predicate Remembers(rcptTimes: seq<int>, ts: seq<int>, window: int) {
    Sorted(ts) && rcptTimes == if ts == [] then [] else Newer(ts, ts[|ts| - 1] - window)
  }

  ghost predicate AllBy(ts: seq<int>, now: int) {
    forall i :: 0 <= i < |ts| ==> ts[i] <= now
  }

  lemma SortedSnoc(ts: seq<int>, t: int)
    requires Sorted(ts) && AllBy(ts, t)
    ensures Sorted(ts + [t]) && AllBy(ts + [t], t)
  {
  }

  lemma PrunedOneMore(ts: seq<int>, first: int, cut: int, now: int)
    requires Sorted(ts) && first <= cut && AllBy(ts, now)
    ensures Pruned(Newer(ts, first) + [now], cut) == Newer(ts + [now], cut)
  {
    var kept := Newer(ts, first);
    NewerMeans(ts, first);
    SortedSnoc(kept, now);
    PrunedIsNewer(kept + [now], cut);
    NewerSnoc(kept, now, cut);
    NewerTwice(ts, first, cut);
    NewerSnoc(ts, now, cut);
  }

  lemma RemembersOneMore(rcptTimes: seq<int>, ts: seq<int>, window: int, now: int)
    requires Remembers(rcptTimes, ts, window) && AllBy(ts, now)
    ensures Pruned(rcptTimes + [now], now - window) == Newer(ts + [now], now - window)
  {
    PrunedOneMore(ts, if ts == [] then now - window else ts[|ts| - 1] - window, now - window, now);
  }

  /** The rule's own history, and the engine's memory of it. */
  ghost predicate Kept(h: History, rcptTimes: seq<int>, r: Rate, now: int) {
    true == (Guarded(h, r) && Remembers(rcptTimes, Times(h), r.window) && AllBy(Times(h), now))
  }

  lemma GuardedOneMore(h: History, r: Rate, now: int, passed: bool)
    requires Guarded(h, r) && (passed ==> |Newer(Times(h) + [now], now - r.window)| <= r.count)
    ensures Guarded(Then(h, now, passed), r)
  {
  }

  lemma RemembersUntil(ts: seq<int>, window: int, now: int)
    requires Sorted(ts) && AllBy(ts, now)
    ensures Remembers(Newer(ts + [now], now - window), ts + [now], window) && AllBy(ts + [now], now)
  {
    SortedSnoc(ts, now);
  }

  lemma KeptOneMore(h: History, rcptTimes: seq<int>, r: Rate, now: int, passed: bool, kept: seq<int>)
    requires Kept(h, rcptTimes, r, now)
    requires kept == Newer(Times(h) + [now], now - r.window) && (passed ==> |kept| <= r.count)
    ensures Kept(Then(h, now, passed), kept, r, now)
  {
    GuardedOneMore(h, r, now, passed);
    RemembersUntil(Times(h), r.window, now);
  }

  /** One event, as the rule for an address sees it. */
  lemma RuledOrNot(s: System, e: Event, ip: string, p: Profile)
    requires p.rcptRate.Enabled() && !e.Reset?
    ensures var was, now := IpOf(s, ip).rcptTimes, IpOf(Apply(s, e, p).0, ip).rcptTimes;
            if !Ruled(s, e, ip, p) then now == was
            else
              && now == Pruned(was + [e.now], e.now - p.rcptRate.window)
              && (Apply(s, e, p).1 == Passed ==> |now| <= p.rcptRate.count)
  {
  }

  lemma KeptStep(before: seq<Event>, e: Event, ip: string, p: Profile, now: int)
    requires p.rcptRate.Enabled() && !e.Reset? && ((e.Connect? || e.Rcpt?) ==> e.now <= now)
    requires Kept(Attempts(before, ip, p), IpOf(Run(before, p), ip).rcptTimes, p.rcptRate, if e.Rcpt? then e.now else now)
    ensures Kept(Attempts(before + [e], ip, p), IpOf(Run(before + [e], p), ip).rcptTimes, p.rcptRate, now)
  {
    assert (before + [e])[..|before|] == before;
    var s, h := Run(before, p), Attempts(before, ip, p);
    RuledOrNot(s, e, ip, p);
    if Ruled(s, e, ip, p) {
      RemembersOneMore(IpOf(s, ip).rcptTimes, Times(h), p.rcptRate.window, e.now);
      KeptOneMore(h, IpOf(s, ip).rcptTimes, p.rcptRate, e.now, Apply(s, e, p).1 == Passed, IpOf(Apply(s, e, p).0, ip).rcptTimes);
    }
  }

  lemma {:induction false} KeptAlways(events: seq<Event>, ip: string, p: Profile, now: int)
    requires p.rcptRate.Enabled() && Forward(events) && NoReset(events) && By(events, now)
    ensures Kept(Attempts(events, ip, p), IpOf(Run(events, p), ip).rcptTimes, p.rcptRate, now)
  {
    if events == [] {
    } else {
      var before, e := events[..|events| - 1], events[|events| - 1];
      assert before + [e] == events;
      KeptAlways(before, ip, p, if e.Rcpt? then e.now else now);
      KeptStep(before, e, ip, p, now);
    }
  }

  /** No window of time, wherever it is laid, holds more that passed than the rule counts. */
  ghost predicate Paced(h: History, r: Rate) {
    forall lo, hi :: hi - lo == r.window ==> PassedIn(h, lo, hi) <= r.count
  }

  lemma GuardedIsPaced(h: History, r: Rate)
    requires Guarded(h, r) && r.Enabled()
    ensures Paced(h, r)
  {
    forall lo, hi | hi - lo == r.window ensures PassedIn(h, lo, hi) <= r.count {
      GuardedWindow(h, r, hi);
    }
  }

  /** Over every run on a clock that never steps back: no window of time holds more recipients of one
      address that passed the rate rule than the rule counts. */
  lemma SlidingWindow(events: seq<Event>, ip: string, p: Profile, now: int)
    requires p.rcptRate.Enabled() && Forward(events) && NoReset(events) && By(events, now)
    ensures Paced(Attempts(events, ip, p), p.rcptRate)
  {
    KeptAlways(events, ip, p, now);
    GuardedIsPaced(Attempts(events, ip, p), p.rcptRate);
  }

  // ---------------------------------------------------------------- connections

  /** The connections admitted and not yet disconnected, with the address of each. */
  function Live(events: seq<Event>, p: Profile): map<nat, string> {
    if events == [] then map[]
    else
      var before, e := events[..|events| - 1], events[|events| - 1];
      var live := Live(before, p);
      if e.Connect? && Apply(Run(before, p), e, p).1.Passed? then live[e.conn := e.ip]
      else if e.Disconnect? && e.admitted then live - {e.conn}
      else live
  }

  /** What callers owe the engine: a connection has a number of its own, and is disconnected once, as
      admitted only if it was. */
  ghost predicate Paired(events: seq<Event>, p: Profile) {
    events == [] ||
    var before, e := events[..|events| - 1], events[|events| - 1];
    && Paired(before, p)
    && (e.Connect? ==> e.conn !in Live(before, p))
    && (e.Disconnect? && e.admitted ==> e.conn in Live(before, p) && Live(before, p)[e.conn] == e.ip)
  }

  /** Over every run, resets included, the count of open connections is that of the connections open. */
  lemma {:induction false} CurrentIsLive(events: seq<Event>, p: Profile)
    requires Paired(events, p)
    ensures Run(events, p).current == |Live(events, p)|
  {
    if events == [] {
    } else {
      var before, e := events[..|events| - 1], events[|events| - 1];
      CurrentIsLive(before, p);
      if e.Connect? {
        SizeWith(Live(before, p), e.conn, e.ip);
      } else if e.Disconnect? && e.admitted {
        SizeWithout(Live(before, p), e.conn);
      }
    }
  }

  function Of(live: map<nat, string>, ip: string): set<nat> {
    set conn | conn in live && live[conn] == ip
  }

  lemma OfWith(live: map<nat, string>, conn: nat, from: string, ip: string)
    requires conn !in live
    ensures |Of(live[conn := from], ip)| == |Of(live, ip)| + (if from == ip then 1 else 0)
  {
    assert Of(live[conn := from], ip) == if from == ip then Of(live, ip) + {conn} else Of(live, ip);
  }

  lemma OfWithout(live: map<nat, string>, conn: nat, ip: string)
    requires conn in live
    ensures |Of(live - {conn}, ip)| == |Of(live, ip)| - (if live[conn] == ip then 1 else 0)
  {
    assert Of(live - {conn}, ip) == if live[conn] == ip then Of(live, ip) - {conn} else Of(live, ip);
  }

  /** The engine is only ever reset while the address has no connection open. */
  ghost predicate ResetWhenIdle(events: seq<Event>, p: Profile, ip: string) {
    events == [] ||
    var before, e := events[..|events| - 1], events[|events| - 1];
    ResetWhenIdle(before, p, ip) && (e.Reset? ==> Of(Live(before, p), ip) == {})
  }

  /** The count of an address is that of its connections open, and it holds no more of them than it may. */
  ghost predicate Counts(events: seq<Event>, p: Profile, ip: string) {
    && IpOf(Run(events, p), ip).active == |Of(Live(events, p), ip)|
    && (p.maxConns > 0 ==> |Of(Live(events, p), ip)| <= p.maxConns)
  }

  /** Every event but a reset keeps it so, and a reset with nothing open makes it so, whatever went before. */
  lemma CountsStep(events: seq<Event>, p: Profile, ip: string)
    requires Paired(events, p) && events != []
    requires var before, e := events[..|events| - 1], events[|events| - 1];
             if e.Reset? then Of(Live(before, p), ip) == {} else Counts(before, p, ip)
    ensures Counts(events, p, ip)
  {
    var before, e := events[..|events| - 1], events[|events| - 1];
    if e.Connect? {
      OfWith(Live(before, p), e.conn, e.ip, ip);
    } else if e.Disconnect? && e.admitted {
      OfWithout(Live(before, p), e.conn, ip);
    }
  }

  /** So is the count of each address, and no address holds more connections than it may, as long as the
      engine is never reset under an open one. */
  lemma {:induction false} ActiveIsLive(events: seq<Event>, p: Profile, ip: string)
    requires Paired(events, p) && ResetWhenIdle(events, p, ip)
    ensures IpOf(Run(events, p), ip).active == |Of(Live(events, p), ip)|
    ensures p.maxConns > 0 ==> |Of(Live(events, p), ip)| <= p.maxConns
  {
    if events == [] {
    } else {
      ActiveIsLive(events[..|events| - 1], p, ip);
      CountsStep(events, p, ip);
    }
  }

  // ---------------------------------------------------------------- a reset under an open connection

  /** Far enough apart that the rate rule never counts two connections together. */
  function Gap(p: Profile): nat {
    if p.connRate.Enabled() then p.connRate.window else 0
  }

  /** The events, and then so many connections from the address, a gap apart, numbered from `conn` on. */
  function Burst(events: seq<Event>, p: Profile, conn: nat, ip: string, now: int, n: nat): seq<Event>
    decreases n
  {
    if n == 0 then events else Burst(events + [Connect(conn, ip, now)], p, conn + 1, ip, now + Gap(p), n - 1)
  }

  /** The engine counts `n` connections of the address, of the `held` it has open, and remembers none within
      a gap of `now`; numbers from `conn` on are free. */
  ghost predicate Opened(events: seq<Event>, p: Profile, conn: nat, ip: string, now: int, n: nat, held: nat) {
    true == (
      && Paired(events, p) && (forall c :: c in Live(events, p) ==> c < conn)
      && IpOf(Run(events, p), ip).active == n && IpOf(Run(events, p), ip).cooldownUntil == LONG_AGO
      && (p.connRate.Enabled() ==> AllBy(IpOf(Run(events, p), ip).connTimes, now - Gap(p)))
      && |Of(Live(events, p), ip)| == held)
  }

  lemma {:induction false} PrunedToOne(ts: seq<int>, now: int, cut: int)
    requires AllBy(ts, cut) && cut < now
    ensures Pruned(ts + [now], cut) == [now]
  {
    if ts == [] {
      assert ts + [now] == [now];
    } else {
      PrunedToOne(ts[1..], now, cut);
      assert (ts + [now])[1..] == ts[1..] + [now];
    }
  }

  lemma Admitted(s: Ip, p: Profile, now: int)
    requires s.active < p.maxConns && s.cooldownUntil <= now
    requires p.connRate.Enabled() ==> AllBy(s.connTimes, now - Gap(p))
    ensures Connected(s, now, p).1 == Passed && Connected(s, now, p).0.active == s.active + 1
    ensures Connected(s, now, p).0.cooldownUntil == s.cooldownUntil
    ensures p.connRate.Enabled() ==> Connected(s, now, p).0.connTimes == [now]
  {
    if p.connRate.Enabled() {
      PrunedToOne(s.connTimes, now, now - p.connRate.window);
    }
  }

  lemma OpensOne(events: seq<Event>, p: Profile, conn: nat, ip: string, now: int, n: nat, held: nat)
    requires Opened(events, p, conn, ip, now, n, held) && now >= LONG_AGO && n < p.maxConns
    ensures Opened(events + [Connect(conn, ip, now)], p, conn + 1, ip, now + Gap(p), n + 1, held + 1)
  {
    var e := Connect(conn, ip, now);
    var more := events + [e];
    assert more[..|more| - 1] == events && more[|more| - 1] == e;
    Admitted(IpOf(Run(events, p), ip), p, now);
    OfWith(Live(events, p), conn, ip, ip);
  }

  /** From `events` to `more` the engine is only reset while the address has no connection open. */
  ghost predicate IdleSince(events: seq<Event>, more: seq<Event>, p: Profile, ip: string) {
    events == more ||
    (&& |events| < |more|
     && (more[|more| - 1].Reset? ==> Of(Live(more[..|more| - 1], p), ip) == {})
     && IdleSince(events, more[..|more| - 1], p, ip))
  }

  lemma {:induction false} LongerSince(a: seq<Event>, b: seq<Event>, p: Profile, ip: string)
    requires IdleSince(a, b, p, ip)
    ensures |a| <= |b|
    decreases |b|
  {
    if a == b {
    } else {
      LongerSince(a, b[..|b| - 1], p, ip);
    }
  }

  lemma {:induction false} IdleTransitive(a: seq<Event>, b: seq<Event>, c: seq<Event>, p: Profile, ip: string)
    requires IdleSince(a, b, p, ip) && IdleSince(b, c, p, ip)
    ensures IdleSince(a, c, p, ip)
    decreases |c|
  {
    if b == c {
    } else {
      IdleTransitive(a, b, c[..|c| - 1], p, ip);
      LongerSince(a, b, p, ip);
      LongerSince(b, c[..|c| - 1], p, ip);
    }
  }

  lemma OpenedMeans(events: seq<Event>, p: Profile, conn: nat, ip: string, now: int, n: nat, held: nat)
    requires Opened(events, p, conn, ip, now, n, held)
    ensures Paired(events, p) && |Of(Live(events, p), ip)| == held
  {
  }

  lemma {:induction false} BurstPasses(events: seq<Event>, p: Profile, conn: nat, ip: string, now: int, m: nat, n: nat, held: nat)
    requires Opened(events, p, conn, ip, now, m, held) && now >= LONG_AGO && m + n <= p.maxConns
    ensures Paired(Burst(events, p, conn, ip, now, n), p)
    ensures |Of(Live(Burst(events, p, conn, ip, now, n), p), ip)| == held + n
    decreases n
  {
    if n == 0 {
      OpenedMeans(events, p, conn, ip, now, m, held);
    } else {
      OpensOne(events, p, conn, ip, now, m, held);
      BurstPasses(events + [Connect(conn, ip, now)], p, conn + 1, ip, now + Gap(p), m + 1, n - 1, held + 1);
    }
  }

  /** A burst resets nothing. */
  lemma {:induction false} BurstIsIdle(events: seq<Event>, p: Profile, conn: nat, ip: string, now: int, n: nat)
    ensures IdleSince(events, Burst(events, p, conn, ip, now, n), p, ip)
    decreases n
  {
    if n == 0 {
    } else {
      var one := events + [Connect(conn, ip, now)];
      BurstIsIdle(one, p, conn + 1, ip, now + Gap(p), n - 1);
      assert one[..|one| - 1] == events;
      assert IdleSince(events, events, p, ip) && IdleSince(events, one, p, ip);
      IdleTransitive(events, one, Burst(one, p, conn + 1, ip, now + Gap(p), n - 1), p, ip);
    }
  }

  /** A reset under an open connection lets the address open as many as it may all over again: every such
      run goes on to break the limit, whatever the rate rule. */
  lemma ResetBreaksTheLimit(before: seq<Event>, p: Profile, conn: nat, ip: string, now: int)
    requires Paired(before, p) && Of(Live(before, p), ip) != {} && now >= LONG_AGO && p.maxConns > 0
    requires forall c :: c in Live(before, p) ==> c < conn
    ensures var more := Burst(before + [Reset], p, conn, ip, now, p.maxConns);
            Paired(more, p) && IdleSince(before + [Reset], more, p, ip) && |Of(Live(more, p), ip)| > p.maxConns
  {
    var reset := before + [Reset];
    assert reset[..|reset| - 1] == before;
    assert Live(reset, p) == Live(before, p);
    BurstPasses(reset, p, conn, ip, now, 0, p.maxConns, |Of(Live(before, p), ip)|);
    BurstIsIdle(reset, p, conn, ip, now, p.maxConns);
  }

  /** However a run goes on, if it resets the engine only while the address has no connection open, the
      address never holds more than it may. */
  ghost predicate KeepsLimit(events: seq<Event>, p: Profile, ip: string) {
    forall more :: IdleSince(events, more, p, ip) && Paired(more, p) ==> |Of(Live(more, p), ip)| <= p.maxConns
  }

  lemma {:induction false} CountsSince(events: seq<Event>, more: seq<Event>, p: Profile, ip: string)
    requires Counts(events, p, ip) && IdleSince(events, more, p, ip) && Paired(more, p)
    ensures Counts(more, p, ip)
    decreases |more|
  {
    if events == more {
    } else {
      CountsSince(events, more[..|more| - 1], p, ip);
      CountsStep(more, p, ip);
    }
  }

  lemma {:induction false} FreeNumber(taken: set<nat>) returns (conn: nat)
    ensures forall c :: c in taken ==> c < conn
    decreases |taken|
  {
    conn := 0;
    if taken == {} {
    } else {
      var one :| one in taken;
      var above := FreeNumber(taken - {one});
      conn := if one < above then above else one + 1;
      forall c | c in taken ensures c < conn {
        assert c == one || c in taken - {one};
      }
    }
  }

  /** After a reset, whatever resets came before it, the limit is kept exactly when the address had no
      connection open at it. */
  lemma LimitKeptExactlyWhen(before: seq<Event>, p: Profile, ip: string)
    requires Paired(before, p) && p.maxConns > 0
    ensures KeepsLimit(before + [Reset], p, ip) <==> Of(Live(before, p), ip) == {}
  {
    var reset := before + [Reset];
    assert reset[..|reset| - 1] == before;
    if Of(Live(before, p), ip) == {} {
      CountsStep(reset, p, ip);
      forall more | IdleSince(reset, more, p, ip) && Paired(more, p) ensures |Of(Live(more, p), ip)| <= p.maxConns {
        CountsSince(reset, more, p, ip);
      }
    } else {
      var conn := FreeNumber(Live(before, p).Keys);
      ResetBreaksTheLimit(before, p, conn, ip, 0);
    }
  }
}
