/** The relay queue as one caller runs it, call by call, over the same store commands. */
module RelayQueue {
  import opened Wrappers
  import opened Relay

  // ---------------------------------------------------------------- the retry delay

  function Pow2(n: nat): (r: nat)
    ensures r >= 1
  {
    if n == 0 then 1 else 2 * Pow2(n - 1)
  }

  const TWO63 := 0x8000_0000_0000_0000
  const TWO64 := 0x1_0000_0000_0000_0000

  /** A 64-bit signed integer keeps the low 64 bits. */
  function Wrap64(n: int): (r: int)
    ensures -TWO63 <= r < TWO63
    ensures -TWO63 <= n < TWO63 ==> r == n
  {
    var m := n % TWO64;
    if m < TWO63 then m else m - TWO64
  }

  /** The wait before attempt number `attempts` + 1, in nanoseconds: the base shifted left. */
  function Delay(base: int, attempts: nat): int
    requires attempts >= 1
  {
    Wrap64(base * Pow2(attempts - 1))
  }

  /** The delay doubles with each attempt exactly as long as the doubled delay fits in 64 bits. */
  lemma DelayDoubles(base: int, attempts: nat)
    requires attempts >= 1 && 0 < base * Pow2(attempts - 1) < TWO63
    ensures Delay(base, attempts + 1) == 2 * Delay(base, attempts) <==> base * Pow2(attempts) < TWO63
  {
    var n := base * Pow2(attempts - 1);
    assert base * Pow2(attempts) == 2 * n;
  }

  const NANOS := 1_000_000_000

  // ---------------------------------------------------------------- the queue

  /** The ids whose retry has come due, earliest first. */
  ghost predicate DueInOrder(later: map<Id, int>, now: int, ids: seq<Id>) {
    && (forall i :: 0 <= i < |ids| ==> ids[i] in later && later[ids[i]] <= now)
    && (forall i, j :: 0 <= i < j < |ids| ==> ids[i] != ids[j] && later[ids[i]] <= later[ids[j]])
    && (forall id :: id in later && later[id] <= now ==> id in ids)
  }

  function Reverse(s: seq<Id>): seq<Id> {
    if s == [] then [] else Reverse(s[1..]) + [s[0]]
  }

  /** One step of promote: ZREM, and LPUSH when it removed something. */
  function PromoteOne(store: Store, id: Id): Store {
    if id in store.later then store.RemLater(id).PushReady(id) else store
  }

  function PromoteAll(store: Store, ids: seq<Id>): Store
    decreases ids
  {
    if ids == [] then store else PromoteAll(PromoteOne(store, ids[0]), ids[1..])
  }

  /** Promoting distinct due ids moves exactly those from the retry set to the ready list, where the
      earliest due will be the first of them to be popped, after everything that was ready already. */
  lemma {:induction false} PromoteMeans(store: Store, ids: seq<Id>)
    requires forall i :: 0 <= i < |ids| ==> ids[i] in store.later
    requires forall i, j :: 0 <= i < j < |ids| ==> ids[i] != ids[j]
    ensures var s := PromoteAll(store, ids);
            && s.ready == Reverse(ids) + store.ready
            && (forall id :: id in s.later <==> id in store.later && id !in ids)
            && (forall id :: id in s.later ==> s.later[id] == store.later[id])
            && s.bodies == store.bodies && s.dead == store.dead
    decreases ids
  {
    if ids == [] {
    } else {
      var rest := ids[1..];
      assert forall i :: 0 <= i < |rest| ==> rest[i] == ids[i + 1];
      PromoteMeans(PromoteOne(store, ids[0]), rest);
      assert forall id :: id in ids <==> id == ids[0] || id in rest;
      assert Reverse(ids) + store.ready == Reverse(rest) + ([ids[0]] + store.ready);
    }
  }

  function GetBody(store: Store, id: Id): Option<Item> {
    if id != "" && id in store.bodies then Some(store.bodies[id]) else None
  }

  /** What Next leaves, and what it returns: promote, RPOP, GET. */
  function Taken(store: Store, ids: seq<Id>): (Store, Option<Item>) {
    var s := PromoteAll(store, ids);
    if s.ready == [] then (s, None)
    else
      var id := s.ready[|s.ready| - 1];
      (s.PopReady(), GetBody(s, id))
  }

  function Due(now: int, base: int, attempts: nat): int
    requires attempts >= 1
  {
    (now + Delay(base, attempts)) / NANOS
  }

  /** What Retry leaves. */
  function Returned(store: Store, item: Item, now: int, base: int, reason: string, max: nat): Store {
    var again := Retried(item, reason);
    if again.attempts >= max then store.SetBody(again).PushDead(again.id)
    else store.SetBody(again).AddLater(again.id, Due(now, base, again.attempts))
  }

  method Earliest(later: map<Id, int>, left: set<Id>) returns (id: Id)
    requires left != {} && left <= later.Keys
    ensures id in left && forall x :: x in left ==> later[id] <= later[x]
  {
    id :| id in left;
    var rest := left - {id};
    while rest != {}
      invariant id in left && rest <= left && forall x :: x in left - rest ==> later[id] <= later[x]
      decreases rest
    {
      var x :| x in rest;
      rest := rest - {x};
      if later[x] < later[id] {
        id := x;
      }
    }
  }

  /** ZRANGEBYSCORE: everything due, in order of its time. */
  method RangeByScore(later: map<Id, int>, now: int) returns (ids: seq<Id>)
    ensures DueInOrder(later, now, ids)
  {
    ids := [];
    var left := set id | id in later && later[id] <= now;
    while left != {}
      invariant left <= later.Keys && forall id :: id in left ==> later[id] <= now && id !in ids
      invariant forall i :: 0 <= i < |ids| ==> ids[i] in later && later[ids[i]] <= now
      invariant forall i, j :: 0 <= i < j < |ids| ==> ids[i] != ids[j] && later[ids[i]] <= later[ids[j]]
      invariant forall id :: id in later && later[id] <= now ==> id in ids || id in left
      invariant forall i, id :: 0 <= i < |ids| && id in left ==> later[ids[i]] <= later[id]
      decreases left
    {
      var id := Earliest(later, left);
      ids, left := ids + [id], left - {id};
    }
  }

  ghost predicate HasBody(store: Store, id: Id) {
    id != "" && id in store.bodies && store.bodies[id].id == id
  }

  /** Every waiting id has its body, and no id waits twice. */
  ghost predicate WellStored(store: Store) {
    && (forall i :: 0 <= i < |store.ready| ==> HasBody(store, store.ready[i]) && store.ready[i] !in store.later)
    && (forall i, j :: 0 <= i < j < |store.ready| ==> store.ready[i] != store.ready[j])
    && (forall id :: id in store.later ==> HasBody(store, id))
  }

  lemma {:induction false} ReverseEnds(ids: seq<Id>)
    ensures |Reverse(ids)| == |ids|
    ensures forall i :: 0 <= i < |ids| ==> Reverse(ids)[|ids| - 1 - i] == ids[i]
  {
    if ids == [] {
    } else {
      ReverseEnds(ids[1..]);
      forall i | 0 <= i < |ids| ensures Reverse(ids)[|ids| - 1 - i] == ids[i] {
        if i > 0 {
          assert ids[1..][i - 1] == ids[i];
        }
      }
    }
  }

  lemma {:induction false} StillWaiting(store: Store, ids: seq<Id>)
    requires WellStored(store)
    ensures WellStored(PromoteAll(store, ids))
    decreases ids
  {
    if ids == [] {
    } else {
      StillWaiting(PromoteOne(store, ids[0]), ids[1..]);
    }
  }

  /** What one caller's next call does to the store, and what it hands out. */
  datatype Call =
    | Enqueue(item: Item)
    | Next(now: int, ids: seq<Id>)
    | Retry(item: Item, now: int, base: int, reason: string)
    | Done(id: Id)

  function After(store: Store, call: Call, max: nat): Store {
    match call
    case Enqueue(item) => if item.id == "" then store else store.SetBody(item).PushReady(item.id)
    case Next(_, ids) => Taken(store, ids).0
    case Retry(item, now, base, reason) => Returned(store, item, now, base, reason, max)
    case Done(id) => store.DelBody(id)
  }

  /** A call the queue could make: a Next reads what is due then. */
  ghost predicate Sound(store: Store, call: Call) {
    call.Next? ==> DueInOrder(store.later, call.now, call.ids)
  }

  /** The call puts the id in the queue. */
  predicate Offers(call: Call, id: Id) {
    match call
    case Enqueue(item) => item.id == id
    case Retry(item, _, _, _) => item.id == id
    case _ => false
  }

  ghost predicate Calls(store: Store, calls: seq<Call>, max: nat)
    decreases calls
  {
    calls == [] || (Sound(store, calls[0]) && Calls(After(store, calls[0], max), calls[1..], max))
  }

  function Final(store: Store, calls: seq<Call>, max: nat): Store
    decreases calls
  {
    if calls == [] then store else Final(After(store, calls[0], max), calls[1..], max)
  }

  ghost predicate Reaches(calls: seq<Call>, due: int) {
    exists i :: 0 <= i < |calls| && calls[i].Next? && calls[i].now >= due
  }

  lemma StaysLater(store: Store, ids: seq<Id>, id: Id)
    requires forall i :: 0 <= i < |ids| ==> ids[i] in store.later && ids[i] != id
    requires forall i, j :: 0 <= i < j < |ids| ==> ids[i] != ids[j]
    requires id in store.later && id !in store.ready
    ensures var s := PromoteAll(store, ids);
            id in s.later && s.later[id] == store.later[id] && id !in s.ready
  {
    PromoteMeans(store, ids);
    ReverseEnds(ids);
    forall i | 0 <= i < |ids| ensures Reverse(ids)[i] != id {
      assert Reverse(ids)[|ids| - 1 - (|ids| - 1 - i)] == ids[|ids| - 1 - i];
    }
  }

  /** One call leaves a waiting message waiting, with the same due time, unless the call offers it again
      or is a Next at or after its due time. */
  lemma WaitsOn(store: Store, call: Call, max: nat, id: Id)
    requires Sound(store, call) && !Offers(call, id)
    requires id in store.later && id !in store.ready
    requires !(call.Next? && call.now >= store.later[id])
    ensures var s := After(store, call, max);
            id in s.later && s.later[id] == store.later[id] && id !in s.ready
  {
    if call.Next? {
      StaysLater(store, call.ids, id);
    }
  }

  /** Over every run of a single caller: a message scheduled for retry is neither ready nor handed out
      until a Next has been made at or after its due time. */
  lemma {:induction false} NotBeforeDue(store: Store, calls: seq<Call>, max: nat, id: Id)
    requires Calls(store, calls, max) && id in store.later && id !in store.ready
    requires forall i :: 0 <= i < |calls| ==> !Offers(calls[i], id)
    requires !Reaches(calls, store.later[id])
    ensures var s := Final(store, calls, max);
            id in s.later && s.later[id] == store.later[id] && id !in s.ready
    decreases calls
  {
    if calls == [] {
    } else {
      var rest := calls[1..];
      assert forall i :: 0 <= i < |rest| ==> rest[i] == calls[i + 1];
      WaitsOn(store, calls[0], max, id);
      NotBeforeDue(After(store, calls[0], max), rest, max, id);
    }
  }

  /** Next hands out the oldest ready message; when none was ready, the earliest due; and nothing only
      when nothing was ready and nothing was due. */
  lemma TakenMeans(store: Store, now: int, ids: seq<Id>)
    requires WellStored(store) && DueInOrder(store.later, now, ids)
    ensures store.ready != [] ==> Taken(store, ids).1 == Some(store.bodies[store.ready[|store.ready| - 1]])
    ensures store.ready == [] && ids != [] ==> Taken(store, ids).1 == Some(store.bodies[ids[0]])
    ensures store.ready == [] && ids == [] ==> Taken(store, ids) == (store, None)
  {
    PromoteMeans(store, ids);
    ReverseEnds(ids);
  }

  /** A Next at or after the due time of a message does promote it. */
  lemma PromotedWhenDue(store: Store, now: int, ids: seq<Id>, id: Id)
    requires DueInOrder(store.later, now, ids) && id in store.later && store.later[id] <= now
    ensures var s := Taken(store, ids).0;
            id !in s.later && (id in s.ready || Taken(store, ids).1 == GetBody(store, id))
  {
    PromoteMeans(store, ids);
    ReverseEnds(ids);
    var k :| 0 <= k < |ids| && ids[k] == id;
    var all := PromoteAll(store, ids).ready;
    assert all[|ids| - 1 - k] == id;
    if |ids| - 1 - k < |all| - 1 {
      assert all[..|all| - 1][|ids| - 1 - k] == id;
    }
  }

  class Queue {
    var store: Store
    const max: nat

    constructor (maxAttempts: int)
      ensures max == (if maxAttempts <= 0 then 5 else maxAttempts)
      ensures store == Store(map[], [], map[], []) && Valid()
    {
      max := if maxAttempts <= 0 then 5 else maxAttempts;
      store := Store(map[], [], map[], []);
    }

    ghost predicate Valid()
      reads this
    {
      max >= 1 && WellStored(store)
    }

    /** Stores the message, then makes it ready. */
    method Enqueue(item: Item) returns (ok: bool)
      modifies this
      ensures ok <==> item.id != ""
      ensures store == After(old(store), Call.Enqueue(item), max)
      ensures old(Valid()) && item.id !in old(store).ready && item.id !in old(store).later ==> Valid()
    {
      if item.id == "" {
        return false;
      }
      store := store.SetBody(item);
      store := store.PushReady(item.id);
      ok := true;
    }

    method Promote(now: int) returns (ids: seq<Id>)
      modifies this
      ensures DueInOrder(old(store).later, now, ids) && store == PromoteAll(old(store), ids)
    {
      ids := RangeByScore(store.later, now);
      for k := 0 to |ids|
        invariant PromoteAll(store, ids[k..]) == PromoteAll(old(store), ids)
      {
        assert ids[k..][1..] == ids[k + 1..];
        if ids[k] in store.later {
          store := store.RemLater(ids[k]);
          store := store.PushReady(ids[k]);
        }
      }
    }

    method Next(now: int) returns (item: Option<Item>, ghost ids: seq<Id>)
      modifies this
      ensures DueInOrder(old(store).later, now, ids) && (store, item) == Taken(old(store), ids)
      ensures store == After(old(store), Call.Next(now, ids), max)
      ensures old(Valid()) ==> Valid()
    {
      ids := Promote(now);
      if old(Valid()) {
        StillWaiting(old(store), ids);
      }
      if store.ready == [] {
        return None, ids;
      }
      var id := store.ready[|store.ready| - 1];
      store := store.PopReady();
      if id == "" || id !in store.bodies {
        return None, ids;
      }
      item := Some(store.bodies[id]);
    }

    method Retry(item: Item, now: int, base: int, reason: string)
      modifies this
      ensures store == After(old(store), Call.Retry(item, now, base, reason), max)
      ensures old(Valid()) && item.id != "" && item.id !in old(store).ready && item.id !in old(store).later ==> Valid()
    {
      var again := item.(attempts := item.attempts + 1, lastErr := reason);
      if again.attempts >= max {
        Bury(again);
        return;
      }
      store := store.SetBody(again);
      store := store.AddLater(again.id, Due(now, base, again.attempts));
    }

    method Bury(item: Item)
      modifies this
      ensures store == old(store).SetBody(item).PushDead(item.id)
    {
      store := store.SetBody(item);
      store := store.PushDead(item.id);
    }

    method Done(id: Id)
      modifies this
      ensures store == After(old(store), Call.Done(id), max)
      ensures old(Valid()) && id !in old(store).ready && id !in old(store).later ==> Valid()
    {
      store := store.DelBody(id);
    }
  }
}
