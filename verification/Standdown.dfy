/** Standing a receiving system down when refusals of us pile up in it: the sorted set of refusing hosts
    that all nodes share, and each node's guard over it. Times are milliseconds. */
module Standdown {
  import opened Hosts
  import F = Family

  /** The refusing hosts of one key by the time of their last refusal, and when Redis forgets them all. */
  datatype Refusals = Refusals(at: map<string, int>, expires: int)

  type Store = map<string, Refusals>

  datatype Rule = NoRule | RuleA | RuleB

  datatype Options = Options(hosts: int, window: int, pause: int)

  /** The thresholds a guard works with: what was given, or the defaults. */
  function Defaults(o: Options): (r: Options)
    ensures r.hosts >= 2 && r.window > 0 && r.pause > 0
  {
    Options(if o.hosts < 2 then 3 else o.hosts,
            if o.window <= 0 then 1_800_000 else o.window,
            if o.pause <= 0 then 21_600_000 else o.pause)
  }

  predicate Sound(o: Options) {
    o.hosts >= 2 && o.window > 0 && o.pause > 0
  }

  // ---------------------------------------------------------------- one count

  /** What Redis holds of a key now. */
  function Alive(store: Store, key: string, now: int): map<string, int> {
    if key in store && now < store[key].expires then store[key].at else map[]
  }

  /** Without the hosts that refused before the cutoff. */
  function Trimmed(at: map<string, int>, cutoff: int): map<string, int> {
    map host | host in at && at[host] >= cutoff :: at[host]
  }

  function Counted(store: Store, key: string, host: string, now: int, window: int): Store {
    store[key := Refusals(Trimmed(Alive(store, key, now)[host := now], now - window), now + 2 * window)]
  }

  // ---------------------------------------------------------------- the guard of one node

  /** One refusal of us, as a node sees it: whether its text is benign or names a blocklist, and whether
      the store and the pacer answer. */
  datatype Refusal = Refusal(host: string, benign: bool, blocklist: bool, storeUp: bool, pauserUp: bool)

  predicate Down(stood: map<string, int>, key: string, now: int) {
    key in stood && now < stood[key]
  }

  /** Whether a refusal is counted at all. */
  predicate Counts(stood: map<string, int>, key: string, r: Refusal, now: int) {
    r.host != "" && !r.benign && !Down(stood, key, now) && r.storeUp
  }

  function RuleFor(r: Refusal, refusers: nat, o: Options): Rule {
    if !r.pauserUp then NoRule
    else if r.blocklist then RuleA
    else if refusers >= o.hosts then RuleB
    else NoRule
  }

  /** A node's guard and the sets all nodes share, before or after a refusal, and the rule it met. */
  datatype Outcome = Outcome(stood: map<string, int>, sets: Store, rule: Rule)

  function Judged(stood: map<string, int>, sets: Store, key: string, host: string, r: Refusal, now: int, o: Options): Outcome {
    if !Counts(stood, key, r, now) then Outcome(stood, sets, NoRule)
    else
      var after := Counted(sets, key, host, now, o.window);
      var rule := RuleFor(r, |after[key].at|, o);
      Outcome(if rule.NoRule? then stood else stood[key := now + o.pause], after, rule)
  }

  class SharedStore {
    var sets: Store

    constructor ()
      ensures sets == map[]
    {
      sets := map[];
    }
  }

  class Guard {
    var stood: map<string, int>
    const store: SharedStore
    const families: seq<F.Family>
    const opts: Options

    constructor (store: SharedStore, families: seq<F.Family>, opts: Options)
      ensures this.store == store && this.families == families && this.opts == Defaults(opts) && stood == map[]
    {
      this.store, this.families, this.opts, stood := store, families, Defaults(opts), map[];
    }

    /** Records the refusal and returns how many distinct hosts the set then holds. */
    method Count(key: string, host: string, now: int) returns (n: nat)
      modifies store
      ensures store.sets == Counted(old(store.sets), key, host, now, opts.window)
      ensures n == |store.sets[key].at|
    {
      var cutoff := now - opts.window;
      var refusers := Alive(store.sets, key, now);
      refusers := refusers[host := now];
      refusers := map h | h in refusers && refusers[h] >= cutoff :: refusers[h];
      n := |refusers|;
      store.sets := store.sets[key := Refusals(refusers, now + 2 * opts.window)];
    }

    method Observe(r: Refusal, now: int) returns (rule: Rule)
      modifies this, store
      ensures Outcome(stood, store.sets, rule) ==
              Judged(old(stood), old(store.sets), F.PaceKey(families, r.host), Normal(r.host), r, now, opts)
    {
      if r.host == "" || r.benign {
        return NoRule;
      }
      var key := F.FindPaceKey(families, r.host);
      var host := Normal(r.host);
      rule := Judge(key, host, r, now);
    }

    method Judge(key: string, host: string, r: Refusal, now: int) returns (rule: Rule)
      requires r.host != "" && !r.benign
      modifies this, store
      ensures Outcome(stood, store.sets, rule) == Judged(old(stood), old(store.sets), key, host, r, now, opts)
    {
      if key in stood && now < stood[key] {
        return NoRule;
      }
      if !r.storeUp {
        return NoRule;
      }
      var hosts := Count(key, host, now);
      rule := NoRule;
      if r.blocklist {
        rule := RuleA;
      } else if hosts >= opts.hosts {
        rule := RuleB;
      } else {
        return NoRule;
      }
      if !r.pauserUp {
        return NoRule;
      }
      stood := stood[key := now + opts.pause];
    }

    /** Lifts a stand-down. That the refusers could not be forgotten is not an error. */
    method Resume(host: string, pauserUp: bool, storeUp: bool) returns (ok: bool)
      modifies this, store
      ensures ok == pauserUp
      ensures var key := F.PaceKey(families, host);
              store.sets == (if ok && storeUp then old(store.sets) - {key} else old(store.sets))
              && stood == if ok then old(stood) - {key} else old(stood)
    {
      if !pauserUp {
        return false;
      }
      var key := F.FindPaceKey(families, host);
      if storeUp {
        store.sets := store.sets - {key};
      }
      stood := stood - {key};
      ok := true;
    }
  }

  // ---------------------------------------------------------------- every run of every node

  datatype Event =
    | Refused(node: nat, refusal: Refusal, now: int)
    | Resumed(node: nat, host: string, now: int, pauserUp: bool, storeUp: bool)

  /** Each node's guard, and the sets they share. */
  datatype System = System(stood: map<nat, map<string, int>>, sets: Store)

  const START := System(map[], map[])

  function StoodOf(s: System, node: nat): map<string, int> {
    if node in s.stood then s.stood[node] else map[]
  }

  /** How a node names hosts: the key and the plain form. */
  datatype Naming = Naming(key: string -> string, plain: string -> string)

  function KeyOf(e: Event, names: Naming): string {
    names.key(if e.Refused? then e.refusal.host else e.host)
  }

  function OutcomeOf(s: System, e: Event, names: Naming, o: Options): Outcome
    requires e.Refused?
  {
    Judged(StoodOf(s, e.node), s.sets, KeyOf(e, names), names.plain(e.refusal.host), e.refusal, e.now, o)
  }

  function Apply(s: System, e: Event, names: Naming, o: Options): System {
    match e
    case Refused(node, _, _) =>
      var out := OutcomeOf(s, e, names, o);
      System(s.stood[node := out.stood], out.sets)
    case Resumed(node, _, _, pauserUp, storeUp) =>
      var key := KeyOf(e, names);
      if !pauserUp then s
      else System(s.stood[node := StoodOf(s, node) - {key}], if storeUp then s.sets - {key} else s.sets)
  }

  function Run(events: seq<Event>, names: Naming, o: Options): System {
    if events == [] then START else Apply(Run(events[..|events| - 1], names, o), events[|events| - 1], names, o)
  }

  /** The refusal was counted: not benign, not from a system its node holds stood down, the store up. */
  predicate WasCounted(s: System, e: Event, names: Naming) {
    e.Refused? && Counts(StoodOf(s, e.node), KeyOf(e, names), e.refusal, e.now)
  }

  /** A resume that went through, store and all. */
  predicate Forgets(e: Event) {
    e.Resumed? && e.pauserUp && e.storeUp
  }

  /** The reference: the hosts of a key whose refusals were counted at or after the cutoff, by any node,
      since its refusers were last forgotten. */
  function Refusers(events: seq<Event>, names: Naming, o: Options, key: string, cutoff: int): set<string> {
    if events == [] then {}
    else
      var before, e := events[..|events| - 1], events[|events| - 1];
      if KeyOf(e, names) != key then Refusers(before, names, o, key, cutoff)
      else if Forgets(e) then {}
      else if WasCounted(Run(before, names, o), e, names) && e.now >= cutoff then
        Refusers(before, names, o, key, cutoff) + {names.plain(e.refusal.host)}
      else Refusers(before, names, o, key, cutoff)
  }

  ghost predicate InTime(events: seq<Event>) {
    forall i, j :: 0 <= i < j < |events| ==> events[i].now <= events[j].now
  }

  /** The set of a key against the reference, its last count having been at `at`. */
  ghost predicate Mirrors(events: seq<Event>, names: Naming, o: Options, key: string, refusals: Refusals, at: int) {
    && refusals.expires == at + 2 * o.window
    && (forall host :: host in refusals.at ==> refusals.at[host] <= at)
    && (forall cutoff :: cutoff >= at - o.window ==>
          Trimmed(refusals.at, cutoff).Keys == Refusers(events, names, o, key, cutoff))
  }

  ghost predicate Tracks(events: seq<Event>, names: Naming, o: Options, key: string, last: int) {
    var sets := Run(events, names, o).sets;
    if key !in sets then forall cutoff :: Refusers(events, names, o, key, cutoff) == {}
    else sets[key].expires - 2 * o.window <= last
         && Mirrors(events, names, o, key, sets[key], sets[key].expires - 2 * o.window)
  }

  /** Nothing counted is later than the last count, so nothing passes a later cutoff. */
  lemma NoneAfter(events: seq<Event>, names: Naming, o: Options, key: string, refusals: Refusals, at: int, cutoff: int)
    requires o.window > 0 && Mirrors(events, names, o, key, refusals, at) && cutoff > at
    ensures Refusers(events, names, o, key, cutoff) == {}
  {
    assert Trimmed(refusals.at, cutoff).Keys == {};
  }

  /** What Redis holds of the key at the time, trimmed to the window, are the refusers of the reference. */
  lemma AliveMirrors(events: seq<Event>, names: Naming, o: Options, key: string, last: int, now: int, cutoff: int)
    requires Sound(o) && Tracks(events, names, o, key, last) && last <= now && cutoff >= now - o.window
    ensures Trimmed(Alive(Run(events, names, o).sets, key, now), cutoff).Keys == Refusers(events, names, o, key, cutoff)
  {
    var sets := Run(events, names, o).sets;
    if key in sets && now >= sets[key].expires {
      NoneAfter(events, names, o, key, sets[key], sets[key].expires - 2 * o.window, cutoff);
    }
  }

  lemma TrimmedWith(at: map<string, int>, host: string, now: int, first: int, cutoff: int)
    requires first <= cutoff && forall h :: h in at ==> at[h] <= now
    ensures Trimmed(Trimmed(at[host := now], first), cutoff).Keys ==
            if now >= cutoff then Trimmed(at, cutoff).Keys + {host} else Trimmed(at, cutoff).Keys
  {
  }

  lemma TracksCount(before: seq<Event>, e: Event, names: Naming, o: Options, last: int)
    requires Sound(o) && last <= e.now
    requires WasCounted(Run(before, names, o), e, names)
    requires Tracks(before, names, o, KeyOf(e, names), last)
    ensures Tracks(before + [e], names, o, KeyOf(e, names), e.now)
  {
    var events, key, host := before + [e], KeyOf(e, names), names.plain(e.refusal.host);
    assert events[..|before|] == before;
    var sets := Run(before, names, o).sets;
    var alive := Alive(sets, key, e.now);
    var after := Run(events, names, o).sets;
    assert after == Counted(sets, key, host, e.now, o.window);
    forall at | at in after[key].at ensures after[key].at[at] <= e.now {
      if at != host {
        assert at in sets[key].at;
      }
    }
    forall cutoff | cutoff >= e.now - o.window
      ensures Trimmed(after[key].at, cutoff).Keys == Refusers(events, names, o, key, cutoff)
    {
      AliveMirrors(before, names, o, key, last, e.now, cutoff);
      TrimmedWith(alive, host, e.now, e.now - o.window, cutoff);
    }
  }

  lemma TracksOther(before: seq<Event>, e: Event, names: Naming, o: Options, key: string, last: int)
    requires Sound(o) && last <= e.now && Tracks(before, names, o, key, last)
    requires KeyOf(e, names) != key || (e.Refused? && !WasCounted(Run(before, names, o), e, names))
             || (e.Resumed? && !Forgets(e))
    ensures Tracks(before + [e], names, o, key, e.now)
  {
    var events := before + [e];
    assert events[..|before|] == before;
    var sets, after := Run(before, names, o).sets, Run(events, names, o).sets;
    assert forall cutoff :: Refusers(events, names, o, key, cutoff) == Refusers(before, names, o, key, cutoff);
    assert key in sets <==> key in after;
    assert key in sets ==> after[key] == sets[key];
  }

  lemma TracksResume(before: seq<Event>, e: Event, names: Naming, o: Options, last: int)
    requires Forgets(e)
    ensures Tracks(before + [e], names, o, KeyOf(e, names), e.now)
  {
    var events := before + [e];
    assert events[..|before|] == before;
  }

  lemma TracksStep(before: seq<Event>, e: Event, names: Naming, o: Options, key: string, last: int)
    requires Sound(o) && last <= e.now && Tracks(before, names, o, key, last)
    ensures Tracks(before + [e], names, o, key, e.now)
  {
    if KeyOf(e, names) == key && WasCounted(Run(before, names, o), e, names) {
      TracksCount(before, e, names, o, last);
    } else if KeyOf(e, names) == key && Forgets(e) {
      TracksResume(before, e, names, o, last);
    } else {
      TracksOther(before, e, names, o, key, last);
    }
  }

  /** No earlier than any of the events. */
  ghost predicate Since(events: seq<Event>, now: int) {
    forall i :: 0 <= i < |events| ==> events[i].now <= now
  }

  lemma TracksLater(events: seq<Event>, names: Naming, o: Options, key: string, last: int, now: int)
    requires Tracks(events, names, o, key, last) && last <= now
    ensures Tracks(events, names, o, key, now)
  {
  }

  lemma {:induction false} TracksAlways(events: seq<Event>, names: Naming, o: Options, key: string, now: int)
    requires Sound(o) && InTime(events) && Since(events, now)
    ensures Tracks(events, names, o, key, now)
  {
    if events == [] {
    } else {
      var before, e := events[..|events| - 1], events[|events| - 1];
      assert before + [e] == events;
      TracksAlways(before, names, o, key, e.now);
      TracksStep(before, e, names, o, key, e.now);
      TracksLater(events, names, o, key, e.now, now);
    }
  }

  /** Over every run of every node on one clock: the set a counted refusal leaves, for all its trimming and
      expiry, holds exactly the distinct hosts of the key whose refusals were counted within the window,
      on any node, since its refusers were last forgotten; so its rule is decided by exactly their number. */
  lemma CountsTheWindow(before: seq<Event>, e: Event, names: Naming, o: Options)
    requires Sound(o) && InTime(before + [e]) && WasCounted(Run(before, names, o), e, names)
    ensures var key := KeyOf(e, names);
            var out := OutcomeOf(Run(before, names, o), e, names, o);
            && key in out.sets
            && out.sets[key].at.Keys == Refusers(before + [e], names, o, key, e.now - o.window)
            && out.rule == RuleFor(e.refusal, |Refusers(before + [e], names, o, key, e.now - o.window)|, o)
  {
    var events, key := before + [e], KeyOf(e, names);
    assert forall i :: 0 <= i < |before| ==> before[i] == events[i];
    assert events[|before|] == e;
    TracksAlways(before, names, o, key, e.now);
    TracksCount(before, e, names, o, e.now);
    assert events[..|before|] == before;
    var at := OutcomeOf(Run(before, names, o), e, names, o).sets[key].at;
    assert Run(events, names, o).sets[key].at == at;
    assert Trimmed(at, e.now - o.window) == at;
    assert |at| == |at.Keys|;
  }

  // ---------------------------------------------------------------- several hosts of one system only

  /** Refused under the key, at or after the cutoff. */
  ghost predicate Saw(events: seq<Event>, names: Naming, key: string, cutoff: int, i: nat, host: string) {
    && i < |events| && events[i].Refused? && KeyOf(events[i], names) == key && events[i].now >= cutoff
    && names.plain(events[i].refusal.host) == host
  }

  /** Every refuser is the plain form of a host of the key that refused at or after the cutoff. */
  lemma {:induction false} RefuserRefused(events: seq<Event>, names: Naming, o: Options, key: string, cutoff: int, host: string)
    returns (i: nat)
    requires host in Refusers(events, names, o, key, cutoff)
    ensures Saw(events, names, key, cutoff, i, host)
  {
    var before, e := events[..|events| - 1], events[|events| - 1];
    if host in Refusers(before, names, o, key, cutoff) {
      i := RefuserRefused(before, names, o, key, cutoff, host);
    } else {
      i := |events| - 1;
    }
  }

  lemma TwoOf(s: set<string>) returns (x: string, y: string)
    requires |s| >= 2
    ensures x in s && y in s && x != y
  {
    x :| x in s;
    assert |s - {x}| == |s| - 1;
    y :| y in s - {x};
  }

  lemma MetMeansCounted(s: System, e: Event, names: Naming, o: Options)
    requires e.Refused? && OutcomeOf(s, e, names, o).rule == RuleB
    ensures WasCounted(s, e, names)
  {
  }

  /** Rule B is only ever met by as many distinct hosts as it asks for. */
  lemma RuleBNeedsHosts(before: seq<Event>, e: Event, names: Naming, o: Options)
    requires Sound(o) && InTime(before + [e]) && e.Refused?
    requires OutcomeOf(Run(before, names, o), e, names, o).rule == RuleB
    ensures |Refusers(before + [e], names, o, KeyOf(e, names), e.now - o.window)| >= o.hosts
  {
    MetMeansCounted(Run(before, names, o), e, names, o);
    CountsTheWindow(before, e, names, o);
  }

  /** Two of them at least refused under the one key within the window. */
  lemma RuleBNeedsTwo(before: seq<Event>, e: Event, names: Naming, o: Options) returns (i: nat, j: nat, x: string, y: string)
    requires Sound(o) && InTime(before + [e]) && e.Refused?
    requires OutcomeOf(Run(before, names, o), e, names, o).rule == RuleB
    ensures x != y
    ensures Saw(before + [e], names, KeyOf(e, names), e.now - o.window, i, x)
    ensures Saw(before + [e], names, KeyOf(e, names), e.now - o.window, j, y)
  {
    RuleBNeedsHosts(before, e, names, o);
    var key, cutoff := KeyOf(e, names), e.now - o.window;
    x, y := TwoOf(Refusers(before + [e], names, o, key, cutoff));
    i := RefuserRefused(before + [e], names, o, key, cutoff, x);
    j := RefuserRefused(before + [e], names, o, key, cutoff, y);
  }

  /** No two hosts share a key that is not a family's. */
  ghost predicate LoneHosts(names: Naming, fs: seq<F.Family>) {
    forall a, b :: names.key(a) == names.key(b) && !F.InTable(fs, names.key(a)) ==> a == b
  }

  lemma FamiliesLeaveOthersAlone(names: Naming, fs: seq<F.Family>)
    requires F.Keyed(fs) && forall host :: names.key(host) == F.PaceKey(fs, host)
    ensures LoneHosts(names, fs)
  {
    forall a, b | names.key(a) == names.key(b) && !F.InTable(fs, names.key(a)) ensures a == b {
      F.LoneHostIsAlone(fs, a, b);
    }
  }

  lemma TwoNeedAFamily(before: seq<Event>, e: Event, names: Naming, fs: seq<F.Family>, o: Options)
    requires Sound(o) && InTime(before + [e]) && e.Refused? && LoneHosts(names, fs)
    requires OutcomeOf(Run(before, names, o), e, names, o).rule == RuleB
    ensures F.InTable(fs, names.key(e.refusal.host))
  {
    var i, j, x, y := RuleBNeedsTwo(before, e, names, o);
    var a, b := (before + [e])[i].refusal.host, (before + [e])[j].refusal.host;
    assert names.key(a) == names.key(b) == names.key(e.refusal.host);
  }

  /** And so only under the key of a family of the table: a host of no family can never stand itself down
      by it, whatever it is called, whatever it says and however often. */
  lemma RuleBNeedsAFamily(before: seq<Event>, e: Event, names: Naming, fs: seq<F.Family>, o: Options)
    requires Sound(o) && F.Keyed(fs) && InTime(before + [e]) && e.Refused?
    requires forall host :: names.key(host) == F.PaceKey(fs, host)
    requires OutcomeOf(Run(before, names, o), e, names, o).rule == RuleB
    ensures F.InTable(fs, names.key(e.refusal.host))
  {
    FamiliesLeaveOthersAlone(names, fs);
    TwoNeedAFamily(before, e, names, fs, o);
  }
}
