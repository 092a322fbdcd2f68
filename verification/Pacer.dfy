/** The pacer of one node: the systems it tracks, what it has published of them to the store, and how an
    entry dropped from memory comes back. */
module Pacer {
  import opened Reals
  import opened Wrappers
  import opened Band
  import opened Maps
  import opened Pacing

  /** What the store holds of a key: the rate and the pause, where they can be read as numbers. The pause
      is whole seconds. */
  datatype Saved = Saved(rate: Option<real>, pause: Option<int>)

  const NOTHING := Saved(None, None)

  type Tracked = map<string, Entry>

  type Store = map<string, Saved>

  function SavedOf(store: Store, key: string): Saved {
    if key in store then store[key] else NOTHING
  }

  // ---------------------------------------------------------------- loading and publishing

  /** The rate an entry starts at: the ceiling, or a saved rate below it. */
  function StartRate(band: Band, saved: Saved): real {
    if saved.rate.Some? && saved.rate.value > 0.0 && saved.rate.value < band.maxRate then
      Max(band.minRate, saved.rate.value)
    else band.maxRate
  }

  function StartPause(saved: Saved): Option<int> {
    match saved.pause case None => None case Some(seconds) => Some(seconds * SECOND)
  }

  function Loaded(given: Band, saved: Saved, now: int): Entry {
    var band := Normalise(given);
    var pause := StartPause(saved);
    Entry(band, StartRate(band, saved), band.minConc, 0,
          if pause.Some? && now < pause.value then Paused else Probing,
          pause, now, 0, false)
  }

  /** What publishing an entry leaves in the store. */
  function Published(saved: Saved, e: Entry): Saved {
    Saved(Some(e.rate), match e.pausedUntil case None => saved.pause case Some(t) => Some(t / SECOND))
  }

  lemma LoadedInBand(given: Band, saved: Saved, now: int)
    ensures InBand(Loaded(given, saved, now))
  {
  }

  // ---------------------------------------------------------------- eviction

  /** The order in which a loop happens to visit the tracked keys. */
  ghost predicate Visits(mx: Tracked, order: seq<string>) {
    && (forall i :: 0 <= i < |order| ==> order[i] in mx)
    && (forall i, j :: 0 <= i < j < |order| ==> order[i] != order[j])
    && (forall key :: key in mx ==> key in order)
  }

  /** The least recently used of the keys visited, "" standing for none yet. */
  function Scan(mx: Tracked, order: seq<string>): string
    requires forall i :: 0 <= i < |order| ==> order[i] in mx
  {
    if order == [] then ""
    else
      var n := |order| - 1;
      var oldest, host := Scan(mx, order[..n]), order[n];
      if oldest == "" || (oldest in mx && mx[host].lastUsed < mx[oldest].lastUsed) then host else oldest
  }

  lemma {:induction false} ScanIsOldest(mx: Tracked, order: seq<string>)
    requires forall i :: 0 <= i < |order| ==> order[i] in mx && order[i] != ""
    requires order != []
    ensures Scan(mx, order) in order
    ensures forall i :: 0 <= i < |order| ==> mx[Scan(mx, order)].lastUsed <= mx[order[i]].lastUsed
  {
    var n := |order| - 1;
    if n == 0 {
      assert order[..0] == [];
    } else {
      ScanIsOldest(mx, order[..n]);
      assert forall i :: 0 <= i < n ==> order[..n][i] == order[i];
    }
  }

  /** "" is tracked, and nothing else was used as long ago. */
  ghost predicate NamelessIsOldest(mx: Tracked) {
    "" in mx && forall key :: key in mx && key != "" ==> mx[""].lastUsed < mx[key].lastUsed
  }

  ghost predicate CanGiveUp(mx: Tracked) {
    exists order :: Visits(mx, order) && Scan(mx, order) == ""
  }

  lemma Listing(keys: set<string>) returns (order: seq<string>)
    ensures forall i :: 0 <= i < |order| ==> order[i] in keys
    ensures forall i, j :: 0 <= i < j < |order| ==> order[i] != order[j]
    ensures forall key :: key in keys ==> key in order
  {
    if keys == {} {
      return [];
    }
    var key :| key in keys;
    var rest := Listing(keys - {key});
    order := rest + [key];
  }

  lemma NamelessGivesUp(mx: Tracked)
    requires NamelessIsOldest(mx)
    ensures CanGiveUp(mx)
  {
    var others := Listing(mx.Keys - {""});
    var order := others + [""];
    assert order[..|others|] == others;
    assert Visits(mx, order);
    if others == [] {
      assert Scan(mx, others) == "";
    } else {
      ScanIsOldest(mx, others);
    }
    assert Scan(mx, order) == "";
  }

  lemma GaveUp(mx: Tracked, order: seq<string>)
    requires mx != map[] && Visits(mx, order) && Scan(mx, order) == ""
    ensures NamelessIsOldest(mx)
  {
    var some :| some in mx;
    assert some in order;
    var n := |order| - 1;
    assert order[n] == "";
    var others := order[..n];
    assert forall i :: 0 <= i < n ==> others[i] == order[i] && order[i] != "";
    if n > 0 {
      ScanIsOldest(mx, others);
    }
    forall key | key in mx && key != "" ensures mx[""].lastUsed < mx[key].lastUsed {
      var i :| 0 <= i < |order| && order[i] == key;
      assert others[i] == key;
    }
  }

  /** The scan finds nothing to drop, in some order of visiting, exactly when nothing is tracked or the
      empty name is tracked and strictly the least recently used. */
  lemma ScanGivesUp(mx: Tracked)
    ensures CanGiveUp(mx) <==> mx == map[] || NamelessIsOldest(mx)
  {
    if mx == map[] {
      assert Visits(mx, []) && Scan(mx, []) == "";
    } else if NamelessIsOldest(mx) {
      NamelessGivesUp(mx);
    } else if CanGiveUp(mx) {
      var order :| Visits(mx, order) && Scan(mx, order) == "";
      GaveUp(mx, order);
    }
  }

  function Only(mx: Tracked, keys: set<string>): Tracked {
    map key | key in mx && key in keys :: mx[key]
  }

  /** What eviction may leave: nothing idle; of the rest the most recently used, fewer than the cap, unless
      the scan gave up. */
  ghost predicate Evicts(mx: Tracked, kept: set<string>, cutoff: int, cap: nat) {
    && kept <= mx.Keys
    && (forall key :: key in kept ==> mx[key].lastUsed >= cutoff)
    && (|kept| < cap || NamelessIsOldest(Only(mx, kept)))
    && ("" !in mx ==> forall gone, key :: gone in mx && gone !in kept && key in kept ==>
          mx[gone].lastUsed < cutoff || mx[gone].lastUsed <= mx[key].lastUsed)
  }

  // ---------------------------------------------------------------- the node

  datatype System = System(mx: Tracked, store: Store)

  datatype Op =
    | Ask(key: string, given: Band, now: int, kept: set<string>)   // an entry is needed
    | Observe(key: string, throttled: bool, now: int)              // an answer came in
    | Pause(key: string, until: int)                               // stood down from outside
    | Resume(key: string)                                          // lifted by an operator
    | Drop(key: string)                                            // an operator widened the band
    | Elsewhere(key: string, saved: Saved)                         // another node wrote to the store

  function SavePause(store: Store, key: string, seconds: int): Store {
    store[key := SavedOf(store, key).(pause := Some(seconds))]
  }

  function Apply(s: System, op: Op, promote: Promotion): System {
    match op
    case Ask(key, given, now, kept) =>
      if key in s.mx then s.(mx := s.mx[key := s.mx[key].(lastUsed := now)])
      else s.(mx := Only(s.mx, kept)[key := Loaded(given, SavedOf(s.store, key), now)])
    case Observe(key, throttled, now) =>
      if key !in s.mx then s
      else
        var e := Observed(s.mx[key], throttled, now, promote);
        System(s.mx[key := e], s.store[key := Published(SavedOf(s.store, key), e)])
    case Pause(key, until) =>
      System(if key in s.mx then s.mx[key := s.mx[key].(pausedUntil := Some(until), phase := Paused)] else s.mx,
             SavePause(s.store, key, until / SECOND))
    case Resume(key) =>
      System(if key in s.mx then s.mx[key := s.mx[key].(pausedUntil := None, phase := Steady)] else s.mx,
             SavePause(s.store, key, 0))
    case Drop(key) => s.(mx := s.mx - {key})
    case Elsewhere(key, saved) => s.(store := s.store[key := saved])
  }

  function Run(s: System, ops: seq<Op>, promote: Promotion): System {
    if ops == [] then s else Apply(Run(s, ops[..|ops| - 1], promote), ops[|ops| - 1], promote)
  }

  // ---------------------------------------------------------------- in band, whatever the store holds

  ghost predicate AllInBand(mx: Tracked) {
    forall key :: key in mx ==> InBand(mx[key])
  }

  lemma ApplyKeepsBand(s: System, op: Op, promote: Promotion)
    requires AllInBand(s.mx)
    ensures AllInBand(Apply(s, op, promote).mx)
  {
    match op
    case Ask(key, given, now, _) => LoadedInBand(given, SavedOf(s.store, key), now);
    case Observe(key, throttled, now) =>
      if key in s.mx {
        KeepsBand(s.mx[key], throttled, now, promote);
      }
    case _ =>
  }

  /** Over every run, whatever the store holds at the start and whatever other nodes write to it, every
      tracked rate and concurrency is inside its band. */
  lemma {:induction false} AlwaysInBand(store: Store, ops: seq<Op>, promote: Promotion)
    ensures AllInBand(Run(System(map[], store), ops, promote).mx)
  {
    if ops == [] {
    } else {
      AlwaysInBand(store, ops[..|ops| - 1], promote);
      ApplyKeepsBand(Run(System(map[], store), ops[..|ops| - 1], promote), ops[|ops| - 1], promote);
    }
  }

  // ---------------------------------------------------------------- eviction loses nothing

  /** The store holds what the entry would resume from: its rate, and its pause in whole seconds. */
  ghost predicate Faithful(e: Entry, saved: Saved) {
    && StartRate(e.band, saved) == e.rate
    && match e.pausedUntil
       case None => saved.pause == None || saved.pause == Some(0)
       case Some(t) => saved.pause == Some(t / SECOND)
  }

  ghost predicate AllFaithful(s: System) {
    forall key :: key in s.mx ==> Faithful(s.mx[key], SavedOf(s.store, key))
  }

  lemma LoadedIsFaithful(given: Band, saved: Saved, now: int)
    ensures Faithful(Loaded(given, saved, now), saved)
  {
  }

  lemma PublishedIsFaithful(e: Entry, saved: Saved, throttled: bool, now: int, promote: Promotion)
    requires InBand(e) && Faithful(e, saved)
    ensures var f := Observed(e, throttled, now, promote);
            Faithful(f, Published(saved, f))
  {
    KeepsBand(e, throttled, now, promote);
  }

  lemma ApplyKeepsFaith(s: System, op: Op, promote: Promotion)
    requires AllInBand(s.mx) && AllFaithful(s) && !op.Elsewhere?
    ensures AllFaithful(Apply(s, op, promote))
  {
    match op
    case Ask(key, given, now, _) => LoadedIsFaithful(given, SavedOf(s.store, key), now);
    case Observe(key, throttled, now) =>
      if key in s.mx {
        KeepsBand(s.mx[key], throttled, now, promote);
        PublishedIsFaithful(s.mx[key], SavedOf(s.store, key), throttled, now, promote);
      }
    case _ =>
  }

  lemma {:induction false} FaithfulRun(store: Store, ops: seq<Op>, promote: Promotion)
    requires forall i :: 0 <= i < |ops| ==> !ops[i].Elsewhere?
    ensures AllFaithful(Run(System(map[], store), ops, promote))
  {
    if ops == [] {
    } else {
      var before := ops[..|ops| - 1];
      FaithfulRun(store, before, promote);
      AlwaysInBand(store, before, promote);
      ApplyKeepsFaith(Run(System(map[], store), before, promote), ops[|ops| - 1], promote);
    }
  }

  /** What becomes of a key while only others are worked on: its entry stays as it was or is dropped, and
      what the store holds of it stays. */
  lemma {:induction false} OthersLeaveItAlone(s: System, ops: seq<Op>, promote: Promotion, key: string)
    requires forall i :: 0 <= i < |ops| ==> ops[i].key != key
    ensures var t := Run(s, ops, promote);
            && SavedOf(t.store, key) == SavedOf(s.store, key)
            && (key in t.mx ==> key in s.mx && t.mx[key] == s.mx[key])
  {
    if ops == [] {
    } else {
      OthersLeaveItAlone(s, ops[..|ops| - 1], promote, key);
    }
  }

  /** The same pause, but for what a whole second cuts off; none at all may come back as one long past. */
  ghost predicate SameToTheSecond(a: Option<int>, b: Option<int>) {
    match a
    case None => b == None || b == Some(0)
    case Some(t) => b == Some(t) || b == Some(t / SECOND * SECOND)
  }

  /** The entry has exactly the rate it had, and its pause to the second. */
  ghost predicate Resumed(was: System, again: System, key: string) {
    && key in was.mx && key in again.mx && again.mx[key].rate == was.mx[key].rate
    && SameToTheSecond(was.mx[key].pausedUntil, again.mx[key].pausedUntil)
  }

  lemma AskedAgain(was: System, later: System, promote: Promotion, key: string, given: Band, now: int, kept: set<string>)
    requires key in was.mx && Faithful(was.mx[key], SavedOf(was.store, key))
    requires SavedOf(later.store, key) == SavedOf(was.store, key)
    requires key in later.mx ==> later.mx[key] == was.mx[key]
    requires Normalise(given) == was.mx[key].band
    ensures Resumed(was, Apply(later, Ask(key, given, now, kept), promote), key)
  {
  }

  /** In every run on a working store: however much else is asked about meanwhile, and whether or not the
      entry is evicted for it, an entry asked for again under an unchanged band has exactly the rate it
      had, and its pause to the second. */
  lemma ResumesWhereItWas(
      store: Store, ops: seq<Op>, more: seq<Op>, promote: Promotion, key: string, given: Band, now: int, kept: set<string>)
    requires forall i :: 0 <= i < |ops| ==> !ops[i].Elsewhere?
    requires forall i :: 0 <= i < |more| ==> more[i].key != key
    requires key in Run(System(map[], store), ops, promote).mx
    requires Normalise(given) == Run(System(map[], store), ops, promote).mx[key].band
    ensures var was := Run(System(map[], store), ops, promote);
            Resumed(was, Apply(Run(was, more, promote), Ask(key, given, now, kept), promote), key)
  {
    var was := Run(System(map[], store), ops, promote);
    FaithfulRun(store, ops, promote);
    OthersLeaveItAlone(was, more, promote, key);
    AskedAgain(was, Run(was, more, promote), promote, key, given, now, kept);
  }

  lemma ConcurrencyAskedAgain(
      was: System, later: System, promote: Promotion, key: string, given: Band, now: int, kept: set<string>)
    requires key in was.mx && (key in later.mx ==> later.mx[key] == was.mx[key])
    requires Normalise(given) == was.mx[key].band
    ensures var again := Apply(later, Ask(key, given, now, kept), promote);
            key in again.mx && again.mx[key].conc == if key in later.mx then was.mx[key].conc else was.mx[key].band.minConc
  {
  }

  /** The concurrency is written too and never read back: an entry that was evicted starts again at the
      floor of its band. So it is kept exactly when it was at its floor or the entry was not evicted. */
  lemma ConcurrencyKeptExactlyWhen(
      store: Store, ops: seq<Op>, more: seq<Op>, promote: Promotion, key: string, given: Band, now: int, kept: set<string>)
    requires forall i :: 0 <= i < |more| ==> more[i].key != key
    requires key in Run(System(map[], store), ops, promote).mx
    requires Normalise(given) == Run(System(map[], store), ops, promote).mx[key].band
    ensures var was := Run(System(map[], store), ops, promote);
            var later := Run(was, more, promote);
            var again := Apply(later, Ask(key, given, now, kept), promote);
            && key in again.mx
            && (key !in later.mx ==> again.mx[key].conc == was.mx[key].band.minConc)
            && (again.mx[key].conc == was.mx[key].conc <==>
                was.mx[key].conc == was.mx[key].band.minConc || key in later.mx)
  {
    var was := Run(System(map[], store), ops, promote);
    OthersLeaveItAlone(was, more, promote, key);
    ConcurrencyAskedAgain(was, Run(was, more, promote), promote, key, given, now, kept);
  }

  /** A pause cut to the second is never longer, and shorter by less than a second. */
  lemma CutToTheSecond(t: int, b: Option<int>, now: int)
    requires now >= 0 && SameToTheSecond(Some(t), b)
    ensures b.Some? && (now < b.value ==> now < t) && (now < t ==> now - SECOND < b.value)
  {
  }

  // ---------------------------------------------------------------- the cap

  /** Every entry needed is made room for as eviction does it, at a cutoff of its own. */
  ghost predicate RoomMade(s: System, op: Op, ttl: int, cap: nat) {
    op.Ask? && op.key !in s.mx ==> Evicts(s.mx, op.kept, op.now - ttl, cap)
  }

  ghost predicate AllRoomMade(s: System, ops: seq<Op>, promote: Promotion, ttl: int, cap: nat) {
    ops == [] || (AllRoomMade(s, ops[..|ops| - 1], promote, ttl, cap)
                  && RoomMade(Run(s, ops[..|ops| - 1], promote), ops[|ops| - 1], ttl, cap))
  }

  ghost predicate Named(op: Op) {
    op.Ask? ==> op.key != ""
  }

  lemma OnlySize(mx: Tracked, kept: set<string>)
    requires kept <= mx.Keys
    ensures |Only(mx, kept)| == |kept| && Only(mx, kept).Keys == kept
  {
    assert Only(mx, kept).Keys == kept;
  }

  lemma CapStep(s: System, op: Op, promote: Promotion, ttl: int, cap: nat)
    requires "" !in s.mx && |s.mx| <= cap && Named(op) && RoomMade(s, op, ttl, cap)
    ensures var t := Apply(s, op, promote);
            "" !in t.mx && |t.mx| <= cap
  {
    match op
    case Ask(key, given, now, kept) =>
      if key in s.mx {
        SizeWith(s.mx, key, s.mx[key].(lastUsed := now));
      } else {
        OnlySize(s.mx, kept);
        SizeWith(Only(s.mx, kept), key, Loaded(given, SavedOf(s.store, key), now));
      }
    case Observe(key, throttled, now) =>
      if key in s.mx {
        SizeWith(s.mx, key, Observed(s.mx[key], throttled, now, promote));
      }
    case Pause(key, until) =>
      if key in s.mx {
        SizeWith(s.mx, key, s.mx[key].(pausedUntil := Some(until), phase := Paused));
      }
    case Resume(key) =>
      if key in s.mx {
        SizeWith(s.mx, key, s.mx[key].(pausedUntil := None, phase := Steady));
      }
    case Drop(key) => SizeWithout(s.mx, key);
    case Elsewhere(_, _) =>
  }

  /** As long as no one asks about the empty name, never more than the cap is tracked. */
  lemma {:induction false} CapHolds(store: Store, ops: seq<Op>, promote: Promotion, ttl: int, cap: nat)
    requires AllRoomMade(System(map[], store), ops, promote, ttl, cap)
    requires forall i :: 0 <= i < |ops| ==> Named(ops[i])
    ensures var t := Run(System(map[], store), ops, promote);
            "" !in t.mx && |t.mx| <= cap
  {
    if ops == [] {
    } else {
      var before := ops[..|ops| - 1];
      CapHolds(store, before, promote, ttl, cap);
      CapStep(Run(System(map[], store), before, promote), ops[|ops| - 1], promote, ttl, cap);
    }
  }

  // ---------------------------------------------------------------- when the cap is exceeded

  ghost predicate AsksAmong(ops: seq<Op>, names: set<string>) {
    forall i :: 0 <= i < |ops| && ops[i].Ask? ==> ops[i].key in names
  }

  /** Only what was asked about is tracked. */
  lemma {:induction false} TrackedWereAsked(s: System, ops: seq<Op>, promote: Promotion, names: set<string>)
    requires s.mx.Keys <= names && AsksAmong(ops, names)
    ensures Run(s, ops, promote).mx.Keys <= names
  {
    if ops == [] {
    } else {
      TrackedWereAsked(s, ops[..|ops| - 1], promote, names);
    }
  }

  /** The empty name, asked about at 0, and these, asked about at 1, are all tracked. */
  ghost predicate Crowded(mx: Tracked, others: set<string>) {
    && mx.Keys == others + {""} && mx[""].lastUsed == 0
    && forall key :: key in others ==> mx[key].lastUsed == 1
  }

  lemma CrowdMakesRoom(s: System, others: set<string>, op: Op, ttl: int, cap: nat)
    requires Crowded(s.mx, others) && "" !in others && ttl >= 1
    requires op.Ask? && op.now == 1 && op.kept == s.mx.Keys
    ensures RoomMade(s, op, ttl, cap)
  {
    assert Only(s.mx, s.mx.Keys) == s.mx;
  }

  lemma CrowdOneMore(s: System, others: set<string>, op: Op, promote: Promotion)
    requires Crowded(s.mx, others) && "" !in others
    requires op.Ask? && op.key != "" && op.key !in others && op.now == 1 && op.kept == s.mx.Keys
    ensures Crowded(Apply(s, op, promote).mx, others + {op.key})
  {
    assert Only(s.mx, s.mx.Keys) == s.mx;
  }

  lemma OneMoreOp(s: System, before: seq<Op>, op: Op, promote: Promotion, ttl: int, cap: nat)
    requires AllRoomMade(s, before, promote, ttl, cap) && RoomMade(Run(s, before, promote), op, ttl, cap)
    ensures AllRoomMade(s, before + [op], promote, ttl, cap)
    ensures Run(s, before + [op], promote) == Apply(Run(s, before, promote), op, promote)
  {
    assert (before + [op])[..|before|] == before;
  }

  lemma NamelessFirst(promote: Promotion, ttl: int, cap: nat) returns (ops: seq<Op>)
    requires ttl >= 1 && cap >= 1
    ensures AllRoomMade(System(map[], map[]), ops, promote, ttl, cap) && AsksAmong(ops, {} + {""})
    ensures Crowded(Run(System(map[], map[]), ops, promote).mx, {})
  {
    var op := Ask("", CONSERVATIVE, 0, {});
    OneMoreOp(System(map[], map[]), [], op, promote, ttl, cap);
    assert [] + [op] == [op];
    ops := [op];
  }

  /** Each of the others in turn, everything kept each time. */
  lemma {:induction false} Crowd(others: set<string>, promote: Promotion, ttl: int, cap: nat) returns (ops: seq<Op>)
    requires "" !in others && ttl >= 1 && cap >= 1
    ensures AllRoomMade(System(map[], map[]), ops, promote, ttl, cap) && AsksAmong(ops, others + {""})
    ensures Crowded(Run(System(map[], map[]), ops, promote).mx, others)
    decreases |others|
  {
    if others == {} {
      ops := NamelessFirst(promote, ttl, cap);
    } else {
      var key :| key in others;
      var before := Crowd(others - {key}, promote, ttl, cap);
      var s := Run(System(map[], map[]), before, promote);
      var op := Ask(key, CONSERVATIVE, 1, s.mx.Keys);
      CrowdMakesRoom(s, others - {key}, op, ttl, cap);
      CrowdOneMore(s, others - {key}, op, promote);
      OneMoreOp(System(map[], map[]), before, op, promote, ttl, cap);
      assert others - {key} + {key} == others;
      ops := before + [op];
    }
  }

  lemma {:induction false} SomeOf(from: set<string>, k: nat) returns (some: set<string>)
    requires k <= |from|
    ensures some <= from && |some| == k
    decreases |from|
  {
    some := from;
    if k < |from| {
      var one :| one in from;
      some := SomeOf(from - {one}, k);
    }
  }

  /** Never more than the cap is tracked, whoever of these is asked about, and however. */
  ghost predicate KeepsCap(names: set<string>, promote: Promotion, ttl: int, cap: nat) {
    forall ops :: AllRoomMade(System(map[], map[]), ops, promote, ttl, cap) && AsksAmong(ops, names) ==>
      |Run(System(map[], map[]), ops, promote).mx| <= cap
  }

  /** With the empty name among them, and as many others as the cap, it is exceeded: the empty name, once it
      is the least recently used, stops the eviction. */
  lemma NamelessBreaksTheCap(names: set<string>, promote: Promotion, ttl: int, cap: nat)
    requires "" in names && |names| > cap >= 1 && ttl >= 1
    ensures !KeepsCap(names, promote, ttl, cap)
  {
    var others := SomeOf(names - {""}, cap);
    var ops := Crowd(others, promote, ttl, cap);
    var mx := Run(System(map[], map[]), ops, promote).mx;
    assert |mx| == |mx.Keys| == |others + {""}| == cap + 1;
  }

  lemma SmallerSet(a: set<string>, b: set<string>)
    requires a <= b
    ensures |a| <= |b|
  {
    assert b == a + (b - a);
  }

  lemma FewerNames(mx: Tracked, names: set<string>)
    requires mx.Keys <= names
    ensures |mx| <= |names|
  {
    SmallerSet(mx.Keys, names);
    assert |mx| == |mx.Keys|;
  }

  /** The cap is kept exactly when the empty name is never asked about, or there are no more names than
      it. */
  lemma CapHoldsExactlyWhen(names: set<string>, promote: Promotion, ttl: int, cap: nat)
    requires cap >= 1 && ttl >= 1
    ensures KeepsCap(names, promote, ttl, cap) <==> "" !in names || |names| <= cap
  {
    if "" in names && |names| > cap {
      NamelessBreaksTheCap(names, promote, ttl, cap);
    } else {
      forall ops | AllRoomMade(System(map[], map[]), ops, promote, ttl, cap) && AsksAmong(ops, names)
        ensures |Run(System(map[], map[]), ops, promote).mx| <= cap
      {
        if "" !in names {
          CapHolds(map[], ops, promote, ttl, cap);
        } else {
          TrackedWereAsked(System(map[], map[]), ops, promote, names);
          FewerNames(Run(System(map[], map[]), ops, promote).mx, names);
        }
      }
    }
  }
}
