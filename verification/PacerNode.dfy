/** The pacer as it runs: the tracked entries and the store it publishes to, updated call by call. */
module PacerNode {
  import opened Reals
  import opened Wrappers
  import opened Band
  import opened Pacing
  import opened Pacer

  class Node {
    var mx: Tracked
    var store: Store
    const cap: nat
    const ttl: int
    const promote: Promotion

    constructor (store: Store, maxTracked: int, idleTTL: int, promote: Promotion)
      ensures this.store == store && mx == map[]
      ensures cap == if maxTracked <= 0 then 512 else maxTracked
      ensures ttl == if idleTTL <= 0 then 1800 * SECOND else idleTTL
      ensures this.promote == Promotion(promote.after,
                                        if promote.step <= 1.0 then 1.5 else promote.step,
                                        if promote.ceiling <= 0.0 then 20.0 else promote.ceiling)
    {
      this.store := store;
      mx := map[];
      cap := if maxTracked <= 0 then 512 else maxTracked;
      ttl := if idleTTL <= 0 then 1800 * SECOND else idleTTL;
      this.promote := Promotion(promote.after,
                                if promote.step <= 1.0 then 1.5 else promote.step,
                                if promote.ceiling <= 0.0 then 20.0 else promote.ceiling);
    }

    function Value(): System
      reads this
    {
      System(mx, store)
    }

    /** One pass over the tracked keys, in whatever order they come. */
    method Oldest() returns (oldest: string, ghost order: seq<string>)
      ensures Visits(mx, order) && oldest == Scan(mx, order) && (oldest == "" || oldest in mx)
    {
      oldest, order := "", [];
      var left := mx.Keys;
      while left != {}
        invariant left <= mx.Keys
        invariant forall i :: 0 <= i < |order| ==> order[i] in mx && order[i] !in left
        invariant forall i, j :: 0 <= i < j < |order| ==> order[i] != order[j]
        invariant forall key :: key in mx ==> key in left || key in order
        invariant oldest == Scan(mx, order) && (oldest == "" || oldest in mx)
        decreases left
      {
        var host :| host in left;
        left := left - {host};
        if oldest == "" || mx[host].lastUsed < mx[oldest].lastUsed {
          oldest := host;
        }
        assert (order + [host])[..|order|] == order;
        order := order + [host];
      }
    }

    method DropIdle(cutoff: int)
      modifies this`mx
      ensures mx == Only(old(mx), set key | key in old(mx) && old(mx)[key].lastUsed >= cutoff)
    {
      var left := mx.Keys;
      while left != {}
        invariant left <= old(mx).Keys
        invariant forall key :: key in mx <==> key in old(mx) && (key in left || old(mx)[key].lastUsed >= cutoff)
        invariant forall key :: key in mx ==> mx[key] == old(mx)[key]
        decreases left
      {
        var host :| host in left;
        left := left - {host};
        if mx[host].lastUsed < cutoff {
          mx := mx - {host};
        }
      }
    }

    /** Drops the least recently used entry, unless the pass over them finds none to drop. */
    method DropOldest() returns (gone: string)
      requires mx != map[]
      modifies this`mx
      ensures gone == "" ==> mx == old(mx) && NamelessIsOldest(mx)
      ensures gone != "" ==> gone in old(mx) && mx == old(mx) - {gone} && |mx| < |old(mx)|
      ensures gone != "" && "" !in old(mx) ==> forall key :: key in mx ==> old(mx)[gone].lastUsed <= mx[key].lastUsed
    {
      ghost var order;
      gone, order := Oldest();
      if gone == "" {
        GaveUp(mx, order);
        return;
      }
      assert gone in order;
      if "" !in mx {
        ScanIsOldest(mx, order);
      }
      assert (mx - {gone}).Keys == mx.Keys - {gone};
      mx := mx - {gone};
    }

    /** What is left of the old entries is neither idle nor less recently used than what was dropped. */
    ghost predicate Culled(was: Tracked, cutoff: int)
      reads this`mx
    {
      && (forall key :: key in mx ==> key in was && mx[key] == was[key] && mx[key].lastUsed >= cutoff)
      && ("" !in was ==> forall gone, key :: gone in was && gone !in mx && key in mx ==>
            was[gone].lastUsed < cutoff || was[gone].lastUsed <= was[key].lastUsed)
    }

    method Evict(now: int)
      requires cap >= 1
      modifies this`mx
      ensures Evicts(old(mx), mx.Keys, now - ttl, cap) && mx == Only(old(mx), mx.Keys)
    {
      var cutoff := now - ttl;
      DropIdle(cutoff);
      while |mx| >= cap
        invariant Culled(old(mx), cutoff)
        decreases |mx|
      {
        var gone := DropOldest();
        if gone == "" {
          assert mx == Only(old(mx), mx.Keys);
          return;
        }
      }
    }

    /** The entry of a key, read from the store if it is not tracked. */
    method StateFor(key: string, given: Band, now: int) returns (e: Entry, ghost ask: Op)
      requires cap >= 1
      modifies this`mx
      ensures ask.Ask? && ask == Ask(key, given, now, ask.kept) && RoomMade(old(Value()), ask, ttl, cap)
      ensures Value() == Apply(old(Value()), ask, promote) && key in mx && e == mx[key]
    {
      ask := Ask(key, given, now, {});
      if key in mx {
        mx := mx[key := mx[key].(lastUsed := now)];
        return mx[key], ask;
      }
      var band := Normalise(given);
      var saved := SavedOf(store, key);
      var start := band.maxRate;
      if saved.rate.Some? && saved.rate.value > 0.0 && saved.rate.value < start {
        start := Max(band.minRate, saved.rate.value);
      }
      Evict(now);
      ask := Ask(key, given, now, mx.Keys);
      e := Entry(band, start, band.minConc, 0, Probing, None, now, 0, false);
      if saved.pause.Some? {
        e := e.(pausedUntil := Some(saved.pause.value * SECOND));
        if now < saved.pause.value * SECOND {
          e := e.(phase := Paused);
        }
      }
      mx := mx[key := e];
    }

    method Persist(key: string, e: Entry)
      modifies this`store
      ensures store == old(store)[key := Published(SavedOf(old(store), key), e)]
    {
      var saved := SavedOf(store, key).(rate := Some(e.rate));
      if e.pausedUntil.Some? {
        saved := saved.(pause := Some(e.pausedUntil.value / SECOND));
      }
      store := store[key := saved];
    }

    method Observe(key: string, throttled: bool, now: int) returns (proposal: Option<Proposal>)
      modifies this
      ensures Value() == Apply(old(Value()), Op.Observe(key, throttled, now), promote)
      ensures proposal == if key in mx then Proposed(old(mx)[key], mx[key], promote) else None
    {
      if key !in mx {
        return None;
      }
      var e, paused;
      e, paused, proposal := Pacing.Observe(mx[key], throttled, now, promote);
      mx := mx[key := e];
      Persist(key, e);
    }

    method PauseKey(key: string, until: int)
      modifies this
      ensures Value() == Apply(old(Value()), Pause(key, until), promote)
    {
      if key in mx {
        mx := mx[key := mx[key].(pausedUntil := Some(until), phase := Paused)];
      }
      store := SavePause(store, key, until / SECOND);
    }

    method ResumeKey(key: string)
      modifies this
      ensures Value() == Apply(old(Value()), Resume(key), promote)
    {
      if key in mx {
        mx := mx[key := mx[key].(pausedUntil := None, phase := Steady)];
      }
      store := SavePause(store, key, 0);
    }
  }
}
