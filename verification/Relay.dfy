/** The durable relay queue: a Redis list of ready ids, a sorted set of ids to retry later, a list of
    dead ids and one stored body per message, touched by any number of drainers one Redis command at a
    time, each of which may crash between any two commands. */
module Relay {
  import opened Wrappers

  type Id = string

  datatype Item = Item(id: Id, payload: string, attempts: nat, lastErr: string)

  /** The store, and what one Redis command does to it. New ids enter a list at its front. */
  datatype Store = Store(bodies: map<Id, Item>, ready: seq<Id>, later: map<Id, int>, dead: seq<Id>) {

    function SetBody(item: Item): Store {
      this.(bodies := bodies[item.id := item])
    }

    function DelBody(id: Id): Store {
      this.(bodies := bodies - {id})
    }

    function PushReady(id: Id): Store {
      this.(ready := [id] + ready)
    }

    function PopReady(): Store {
      if ready == [] then this else this.(ready := ready[..|ready| - 1])
    }

    function PushDead(id: Id): Store {
      this.(dead := [id] + dead)
    }

    function AddLater(id: Id, due: int): Store {
      this.(later := later[id := due])
    }

    function RemLater(id: Id): Store {
      this.(later := later - {id})
    }
  }

  // ---------------------------------------------------------------- the drainers

  /** What one caller of the queue is about to do next, and what it holds meanwhile. */
  datatype Pc =
    | Idle
    | Storing(item: Item)                  // Enqueue, before SET
    | Pushing(id: Id)                      // Enqueue, before LPUSH
    | Reading                              // promote, before ZRANGEBYSCORE
    | Promoting(ids: seq<Id>)              // promote, before the next ZREM, or RPOP when none is left
    | Promoted(id: Id, ids: seq<Id>)       // promote, ZREM took it, before LPUSH
    | Popped(id: Id)                       // Next, before GET
    | Holding(item: Item)                  // Next returned it
    | Rescheduling(item: Item, due: int)   // Retry, before SET
    | Scheduling(item: Item, due: int)     // Retry, before ZADD
    | Burying(item: Item)                  // bury, before SET
    | Buried(item: Item)                   // bury, before LPUSH
    | Finishing(id: Id)                    // Done, before DEL

  predicate Holds(pc: Pc) {
    !pc.Idle? && !pc.Reading? && !pc.Promoting?
  }

  function HandOf(pc: Pc): Id
    requires Holds(pc)
  {
    match pc
    case Storing(item) => item.id
    case Pushing(id) => id
    case Promoted(id, _) => id
    case Popped(id) => id
    case Holding(item) => item.id
    case Rescheduling(item, _) => item.id
    case Scheduling(item, _) => item.id
    case Burying(item) => item.id
    case Buried(item) => item.id
    case Finishing(id) => id
  }

  /** Where a message is. */
  datatype Place = Ready | Later | Dead | Hand(drainer: nat) | Delivered | Lost

  /** The store, the drainers, and for every message ever accepted its place and how often Next has
      handed it out. */
  datatype System = System(store: Store, drainers: map<nat, Pc>, place: map<Id, Place>, given: map<Id, nat>)

  const Empty := System(Store(map[], [], map[], []), map[], map[], map[])

  /** What a drainer may decide, or have happen to it. Everything else a drainer does is the next Redis
      command of the call it is in (`Advance`). */
  datatype Action =
    | Accept(item: Item)             // Enqueue is called with a new message
    | Take                           // Next is called
    | Read(ids: seq<Id>)             // ZRANGEBYSCORE answers, with whatever ids
    | Advance
    | Retry(due: int, reason: string)
    | Finish                         // Done is called
    | Crash

  function PcOf(s: System, p: nat): Pc {
    if p in s.drainers then s.drainers[p] else Idle
  }

  function At(s: System, p: nat, pc: Pc): System {
    s.(drainers := s.drainers[p := pc])
  }

  function Move(s: System, id: Id, to: Place): System {
    s.(place := s.place[id := to])
  }

  /** The item a Retry writes back. */
  function Retried(item: Item, reason: string): Item {
    item.(attempts := item.attempts + 1, lastErr := reason)
  }

  /** One Redis command of drainer `p`. */
  function Command(s: System, p: nat): System {
    match PcOf(s, p)
    case Storing(item) => At(s.(store := s.store.SetBody(item)), p, Pushing(item.id))
    case Pushing(id) => Move(At(s.(store := s.store.PushReady(id)), p, Idle), id, Ready)
    case Promoting(ids) =>
      if ids != [] then
        if ids[0] in s.store.later then
          Move(At(s.(store := s.store.RemLater(ids[0])), p, Promoted(ids[0], ids[1..])), ids[0], Hand(p))
        else At(s, p, Promoting(ids[1..]))
      else if s.store.ready == [] then At(s, p, Idle)
      else
        var id := s.store.ready[|s.store.ready| - 1];
        Move(At(s.(store := s.store.PopReady()), p, Popped(id)), id, Hand(p))
    case Promoted(id, ids) => Move(At(s.(store := s.store.PushReady(id)), p, Promoting(ids)), id, Ready)
    case Popped(id) =>
      if id in s.store.bodies then
        At(s.(given := s.given[id := (if id in s.given then s.given[id] else 0) + 1]), p, Holding(s.store.bodies[id]))
      else Move(At(s, p, Idle), id, Lost)
    case Rescheduling(item, due) => At(s.(store := s.store.SetBody(item)), p, Scheduling(item, due))
    case Scheduling(item, due) => Move(At(s.(store := s.store.AddLater(item.id, due)), p, Idle), item.id, Later)
    case Burying(item) => At(s.(store := s.store.SetBody(item)), p, Buried(item))
    case Buried(item) => Move(At(s.(store := s.store.PushDead(item.id)), p, Idle), item.id, Dead)
    case Finishing(id) => Move(At(s.(store := s.store.DelBody(id)), p, Idle), id, Delivered)
    case _ => s
  }

  /** The system after `p` acts, or None when it cannot act so. A message id is new when it is accepted:
      it is a fresh random token. */
  function Step(s: System, p: nat, a: Action, max: nat): Option<System> {
    var pc := PcOf(s, p);
    match a
    case Accept(item) =>
      if pc.Idle? && item.id !in s.place && item.attempts == 0 then
        Some(Move(At(s, p, Storing(item)), item.id, Hand(p)).(given := s.given[item.id := 0]))
      else None
    case Take => if pc.Idle? then Some(At(s, p, Reading)) else None
    case Read(ids) => if pc.Reading? then Some(At(s, p, Promoting(ids))) else None
    case Advance => if pc.Idle? || pc.Reading? || pc.Holding? then None else Some(Command(s, p))
    case Retry(due, reason) =>
      if !pc.Holding? then None
      else
        var item := Retried(pc.item, reason);
        Some(At(s, p, if item.attempts >= max then Burying(item) else Rescheduling(item, due)))
    case Finish => if pc.Holding? then Some(At(s, p, Finishing(pc.item.id))) else None
    case Crash =>
      Some(if Holds(pc) then Move(At(s, p, Idle), HandOf(pc), Lost) else At(s, p, Idle))
  }

  /** The system after a schedule of actions, each by some drainer. */
  function Run(schedule: seq<(nat, Action)>, max: nat): Option<System> {
    if schedule == [] then Some(Empty)
    else
      var s := Run(schedule[..|schedule| - 1], max);
      var (p, a) := schedule[|schedule| - 1];
      if s.None? then None else Step(s.value, p, a, max)
  }

  // ---------------------------------------------------------------- what every schedule keeps

  ghost predicate Lists(list: seq<Id>, place: map<Id, Place>, at: Place) {
    && (forall i :: 0 <= i < |list| ==> list[i] in place && place[list[i]] == at)
    && (forall i, j :: 0 <= i < j < |list| ==> list[i] != list[j])
    && (forall id :: id in place && place[id] == at ==> id in list)
  }

  /** The store's lists and set hold exactly the messages whose place they are, each once. */
  ghost predicate Shelved(s: System) {
    && Lists(s.store.ready, s.place, Ready)
    && Lists(s.store.dead, s.place, Dead)
    && (forall id :: id in s.store.later <==> id in s.place && s.place[id] == Later)
  }

  ghost predicate HeldBy(drainers: map<nat, Pc>, p: nat, id: Id) {
    p in drainers && Holds(drainers[p]) && HandOf(drainers[p]) == id
  }

  /** Each message in a hand is in exactly the hand its place names. */
  ghost predicate Hands(drainers: map<nat, Pc>, place: map<Id, Place>) {
    && (forall p :: p in drainers && Holds(drainers[p]) ==>
          HandOf(drainers[p]) in place && place[HandOf(drainers[p])] == Hand(p))
    && (forall id :: id in place && place[id].Hand? ==> HeldBy(drainers, place[id].drainer, id))
  }

  /** The body stored for `id` agrees with how often it was handed out. */
  ghost predicate Waiting(s: System, id: Id, max: nat) {
    && id in s.store.bodies && id in s.given
    && s.store.bodies[id].id == id && s.store.bodies[id].attempts == s.given[id] < max
  }

  ghost predicate HeldWell(s: System, pc: Pc, id: Id, max: nat)
    requires id in s.given
  {
    match pc
    case Storing(item) => item.id == id && item.attempts == s.given[id] < max
    case Holding(item) => item.id == id && id in s.store.bodies && s.store.bodies[id] == item && s.given[id] == item.attempts + 1
    case Rescheduling(item, _) => item.id == id && id in s.store.bodies && item.attempts == s.given[id] < max
    case Scheduling(item, _) => Waiting(s, id, max)
    case Burying(item) => item.id == id && id in s.store.bodies && item.attempts == s.given[id] == max
    case Buried(item) => id in s.store.bodies && s.store.bodies[id].attempts == s.given[id] == max
    case Finishing(_) => id in s.store.bodies
    case _ => Waiting(s, id, max)
  }

  /** What is known of a message by where it is. */
  ghost predicate Known(s: System, id: Id, max: nat)
    requires id in s.place && Hands(s.drainers, s.place)
  {
    && id in s.given && s.given[id] <= max
    && match s.place[id]
       case Ready => Waiting(s, id, max)
       case Later => Waiting(s, id, max)
       case Dead => id in s.store.bodies && s.store.bodies[id].attempts == s.given[id] == max
       case Delivered => true
       case Lost => true
       case Hand(p) => HeldWell(s, s.drainers[p], id, max)
  }

  ghost predicate Inv(s: System, max: nat) {
    && Shelved(s) && Hands(s.drainers, s.place)
    && (forall id :: id in s.place ==> Known(s, id, max))
  }

  lemma ListsPush(list: seq<Id>, place: map<Id, Place>, id: Id, at: Place)
    requires Lists(list, place, at) && (id in place ==> place[id] != at)
    ensures Lists([id] + list, place[id := at], at)
  {
  }

  lemma ListsPop(list: seq<Id>, place: map<Id, Place>, at: Place, to: Place)
    requires Lists(list, place, at) && list != [] && to != at
    ensures Lists(list[..|list| - 1], place[list[|list| - 1] := to], at)
  {
  }

  lemma ListsElsewhere(list: seq<Id>, place: map<Id, Place>, id: Id, at: Place, to: Place)
    requires Lists(list, place, at) && (id in place ==> place[id] != at) && to != at
    ensures Lists(list, place[id := to], at)
  {
  }

  /** A drainer that holds nothing takes up a message nobody holds. */
  lemma HandsTake(drainers: map<nat, Pc>, place: map<Id, Place>, p: nat, pc: Pc)
    requires Hands(drainers, place) && (p in drainers ==> !Holds(drainers[p])) && Holds(pc)
    requires HandOf(pc) in place ==> !place[HandOf(pc)].Hand?
    ensures Hands(drainers[p := pc], place[HandOf(pc) := Hand(p)])
  {
  }

  /** A drainer goes on with the same message, or with none. */
  lemma HandsKeep(drainers: map<nat, Pc>, place: map<Id, Place>, p: nat, pc: Pc)
    requires Hands(drainers, place)
    requires if p in drainers && Holds(drainers[p]) then Holds(pc) && HandOf(pc) == HandOf(drainers[p]) else !Holds(pc)
    ensures Hands(drainers[p := pc], place)
  {
  }

  /** A drainer puts its message down. */
  lemma HandsDrop(drainers: map<nat, Pc>, place: map<Id, Place>, p: nat, pc: Pc, to: Place)
    requires Hands(drainers, place) && p in drainers && Holds(drainers[p]) && !Holds(pc) && !to.Hand?
    ensures Hands(drainers[p := pc], place[HandOf(drainers[p]) := to])
  {
  }

  /** Only message `id` changed its place, body or count, and only drainer `p`, which held nothing else,
      changed. */
  ghost predicate OnlyTouches(s: System, s': System, p: nat, id: Id) {
    && s'.place.Keys == s.place.Keys + {id}
    && (forall x :: x in s.place && x != id ==> s'.place[x] == s.place[x] && s.place[x] != Hand(p))
    && (forall x :: x != id ==> (x in s.store.bodies <==> x in s'.store.bodies))
    && (forall x :: x != id && x in s.store.bodies ==> s'.store.bodies[x] == s.store.bodies[x])
    && (forall x :: x != id && x in s.given ==> x in s'.given && s'.given[x] == s.given[x])
    && (forall q :: q != p && q in s.drainers ==> q in s'.drainers && s'.drainers[q] == s.drainers[q])
  }

  lemma KnownOthers(s: System, s': System, p: nat, id: Id, max: nat)
    requires Inv(s, max) && OnlyTouches(s, s', p, id) && Hands(s'.drainers, s'.place)
    ensures forall x :: x in s'.place && x != id ==> Known(s', x, max)
  {
    forall x | x in s'.place && x != id ensures Known(s', x, max) {
      assert Known(s, x, max);
    }
  }

  /** A step that touches one message and leaves it well known keeps the invariant. */
  lemma InvAfter(s: System, s': System, p: nat, id: Id, max: nat)
    requires Inv(s, max) && OnlyTouches(s, s', p, id)
    requires Shelved(s') && Hands(s'.drainers, s'.place) && Known(s', id, max)
    ensures Inv(s', max)
  {
    KnownOthers(s, s', p, id, max);
  }

  // ---------------------------------------------------------------- every action keeps it

  /** A drainer that touches no message. */
  lemma InvIdle(s: System, p: nat, pc: Pc, max: nat)
    requires Inv(s, max) && !Holds(PcOf(s, p)) && !Holds(pc)
    ensures Inv(At(s, p, pc), max)
  {
    var s' := At(s, p, pc);
    HandsKeep(s.drainers, s.place, p, pc);
    forall x | x in s'.place ensures Known(s', x, max) {
      assert Known(s, x, max);
    }
  }

  /** A drainer that goes on with the message it holds. */
  lemma InvKeep(s: System, s': System, p: nat, pc: Pc, max: nat)
    requires Inv(s, max) && p in s.drainers && Holds(s.drainers[p]) && Holds(pc) && HandOf(pc) == HandOf(s.drainers[p])
    requires s'.drainers == s.drainers[p := pc] && s'.place == s.place
    requires s'.store.ready == s.store.ready && s'.store.later == s.store.later && s'.store.dead == s.store.dead
    requires OnlyTouches(s, s', p, HandOf(pc))
    requires HandOf(pc) in s'.given && s'.given[HandOf(pc)] <= max && HeldWell(s', pc, HandOf(pc), max)
    ensures Inv(s', max)
  {
    HandsKeep(s.drainers, s.place, p, pc);
    InvAfter(s, s', p, HandOf(pc), max);
  }

  lemma Alone(s: System, p: nat, max: nat)
    requires Inv(s, max)
    ensures forall x :: x in s.place && s.place[x] == Hand(p) ==> Holds(PcOf(s, p)) && HandOf(PcOf(s, p)) == x
    ensures Holds(PcOf(s, p)) ==>
              && HandOf(PcOf(s, p)) in s.place && Known(s, HandOf(PcOf(s, p)), max)
              && s.place[HandOf(PcOf(s, p))] == Hand(p)
  {
  }

  lemma InvAccept(s: System, p: nat, item: Item, max: nat)
    requires Inv(s, max) && max >= 1 && PcOf(s, p).Idle? && item.id !in s.place && item.attempts == 0
    ensures Inv(Step(s, p, Accept(item), max).value, max)
  {
    var s' := Step(s, p, Accept(item), max).value;
    Alone(s, p, max);
    HandsTake(s.drainers, s.place, p, Storing(item));
    ListsElsewhere(s.store.ready, s.place, item.id, Ready, Hand(p));
    ListsElsewhere(s.store.dead, s.place, item.id, Dead, Hand(p));
    InvAfter(s, s', p, item.id, max);
  }

  /** A drainer puts its message down, outside the store. */
  lemma Drop(s: System, s': System, p: nat, pc: Pc, to: Place, max: nat)
    requires Inv(s, max) && p in s.drainers && Holds(s.drainers[p]) && !Holds(pc)
    requires to == Lost || to == Delivered
    requires s'.drainers == s.drainers[p := pc] && s'.place == s.place[HandOf(s.drainers[p]) := to] && s'.given == s.given
    requires s'.store.ready == s.store.ready && s'.store.later == s.store.later && s'.store.dead == s.store.dead
    requires OnlyTouches(s, s', p, HandOf(s.drainers[p]))
    ensures Inv(s', max)
  {
    var id := HandOf(s.drainers[p]);
    Alone(s, p, max);
    HandsDrop(s.drainers, s.place, p, pc, to);
    ListsElsewhere(s.store.ready, s.place, id, Ready, to);
    ListsElsewhere(s.store.dead, s.place, id, Dead, to);
    InvAfter(s, s', p, id, max);
  }

  lemma InvCrash(s: System, p: nat, max: nat)
    requires Inv(s, max)
    ensures Inv(Step(s, p, Crash, max).value, max)
  {
    var pc := PcOf(s, p);
    if Holds(pc) {
      Alone(s, p, max);
      Drop(s, Move(At(s, p, Idle), HandOf(pc), Lost), p, Idle, Lost, max);
    } else {
      InvIdle(s, p, Idle, max);
    }
  }

  /** A drainer makes its message ready. */
  lemma InvPush(s: System, p: nat, pc: Pc, max: nat)
    requires Inv(s, max) && p in s.drainers && (s.drainers[p].Pushing? || s.drainers[p].Promoted?) && !Holds(pc)
    ensures Inv(Move(At(s.(store := s.store.PushReady(s.drainers[p].id)), p, pc), s.drainers[p].id, Ready), max)
  {
    var id := s.drainers[p].id;
    var s' := Move(At(s.(store := s.store.PushReady(id)), p, pc), id, Ready);
    Alone(s, p, max);
    HandsDrop(s.drainers, s.place, p, pc, Ready);
    ListsPush(s.store.ready, s.place, id, Ready);
    ListsElsewhere(s.store.dead, s.place, id, Dead, Ready);
    InvAfter(s, s', p, id, max);
  }

  lemma InvBuried(s: System, p: nat, max: nat)
    requires Inv(s, max) && p in s.drainers && s.drainers[p].Buried?
    ensures Inv(Command(s, p), max)
  {
    var id := s.drainers[p].item.id;
    Alone(s, p, max);
    HandsDrop(s.drainers, s.place, p, Idle, Dead);
    ListsPush(s.store.dead, s.place, id, Dead);
    ListsElsewhere(s.store.ready, s.place, id, Ready, Dead);
    InvAfter(s, Command(s, p), p, id, max);
  }

  lemma InvScheduled(s: System, p: nat, max: nat)
    requires Inv(s, max) && p in s.drainers && s.drainers[p].Scheduling?
    ensures Inv(Command(s, p), max)
  {
    var id := s.drainers[p].item.id;
    Alone(s, p, max);
    HandsDrop(s.drainers, s.place, p, Idle, Later);
    ListsElsewhere(s.store.ready, s.place, id, Ready, Later);
    ListsElsewhere(s.store.dead, s.place, id, Dead, Later);
    InvAfter(s, Command(s, p), p, id, max);
  }

  /** A message moved to the hand of a drainer that held none. */
  lemma InvTaken(s: System, s': System, p: nat, id: Id, pc: Pc, max: nat)
    requires Inv(s, max) && p in s.drainers && !Holds(s.drainers[p]) && id in s.place
    requires s'.drainers == s.drainers[p := pc] && s'.place == s.place[id := Hand(p)]
    requires s'.given == s.given && s'.store.bodies == s.store.bodies
    requires Shelved(s') && Hands(s'.drainers, s'.place) && Known(s', id, max)
    ensures Inv(s', max)
  {
    Alone(s, p, max);
    InvAfter(s, s', p, id, max);
  }

  lemma ClaimShelves(s: System, s': System, p: nat, id: Id)
    requires Shelved(s) && id in s.store.later
    requires s'.store == s.store.RemLater(id) && s'.place == s.place[id := Hand(p)]
    ensures Shelved(s')
  {
    ListsElsewhere(s.store.ready, s.place, id, Ready, Hand(p));
    ListsElsewhere(s.store.dead, s.place, id, Dead, Hand(p));
  }

  /** ZREM: whoever it reports the removal to holds the message, and nobody else. */
  lemma InvClaim(s: System, p: nat, max: nat)
    requires Inv(s, max) && p in s.drainers && s.drainers[p].Promoting? && s.drainers[p].ids != []
    requires s.drainers[p].ids[0] in s.store.later
    ensures Inv(Command(s, p), max)
  {
    var ids := s.drainers[p].ids;
    var id, s' := ids[0], Command(s, p);
    assert Known(s, id, max);
    HandsTake(s.drainers, s.place, p, Promoted(id, ids[1..]));
    ClaimShelves(s, s', p, id);
    InvTaken(s, s', p, id, Promoted(id, ids[1..]), max);
  }

  lemma PopShelves(s: System, s': System, p: nat, id: Id)
    requires Shelved(s) && s.store.ready != [] && id == s.store.ready[|s.store.ready| - 1]
    requires s'.store == s.store.PopReady() && s'.place == s.place[id := Hand(p)]
    ensures Shelved(s')
  {
    ListsPop(s.store.ready, s.place, Ready, Hand(p));
    ListsElsewhere(s.store.dead, s.place, id, Dead, Hand(p));
  }

  lemma InvPop(s: System, p: nat, max: nat)
    requires Inv(s, max) && p in s.drainers && s.drainers[p] == Promoting([]) && s.store.ready != []
    ensures Inv(Command(s, p), max)
  {
    var id := s.store.ready[|s.store.ready| - 1];
    var s' := Command(s, p);
    assert Known(s, id, max);
    HandsTake(s.drainers, s.place, p, Popped(id));
    PopShelves(s, s', p, id);
    InvTaken(s, s', p, id, Popped(id), max);
  }

  lemma InvPromoting(s: System, p: nat, max: nat)
    requires Inv(s, max) && p in s.drainers && s.drainers[p].Promoting?
    ensures Inv(Command(s, p), max)
  {
    var ids := s.drainers[p].ids;
    if ids == [] {
      if s.store.ready == [] { InvIdle(s, p, Idle, max); } else { InvPop(s, p, max); }
    } else if ids[0] in s.store.later {
      InvClaim(s, p, max);
    } else {
      InvIdle(s, p, Promoting(ids[1..]), max);
    }
  }

  /** The drainer's next command only writes the message it holds, or reads it. */
  lemma InvInHand(s: System, p: nat, max: nat)
    requires Inv(s, max) && p in s.drainers
    requires var pc := s.drainers[p];
             pc.Storing? || pc.Popped? || pc.Rescheduling? || pc.Burying? || pc.Finishing?
    ensures Inv(Command(s, p), max)
  {
    Alone(s, p, max);
    match s.drainers[p]
    case Storing(item) => InvKeep(s, Command(s, p), p, Pushing(item.id), max);
    case Popped(id) => InvKeep(s, Command(s, p), p, Holding(s.store.bodies[id]), max);
    case Rescheduling(item, due) => InvKeep(s, Command(s, p), p, Scheduling(item, due), max);
    case Burying(item) => InvKeep(s, Command(s, p), p, Buried(item), max);
    case Finishing(id) => Drop(s, Command(s, p), p, Idle, Delivered, max);
  }

  lemma InvCommand(s: System, p: nat, max: nat)
    requires Inv(s, max) && p in s.drainers && !s.drainers[p].Idle? && !s.drainers[p].Reading? && !s.drainers[p].Holding?
    ensures Inv(Command(s, p), max)
  {
    match s.drainers[p]
    case Pushing(id) => InvPush(s, p, Idle, max);
    case Promoting(_) => InvPromoting(s, p, max);
    case Promoted(id, ids) => InvPush(s, p, Promoting(ids), max);
    case Scheduling(_, _) => InvScheduled(s, p, max);
    case Buried(_) => InvBuried(s, p, max);
    case _ => InvInHand(s, p, max);
  }

  lemma InvStep(s: System, p: nat, a: Action, max: nat)
    requires Inv(s, max) && max >= 1 && Step(s, p, a, max).Some?
    ensures Inv(Step(s, p, a, max).value, max)
  {
    var s' := Step(s, p, a, max).value;
    Alone(s, p, max);
    match a
    case Accept(item) => InvAccept(s, p, item, max);
    case Take => InvIdle(s, p, Reading, max);
    case Read(ids) => InvIdle(s, p, Promoting(ids), max);
    case Advance => InvCommand(s, p, max);
    case Retry(due, reason) =>
      var item := Retried(s.drainers[p].item, reason);
      InvKeep(s, s', p, if item.attempts >= max then Burying(item) else Rescheduling(item, due), max);
    case Finish => InvKeep(s, s', p, Finishing(s.drainers[p].item.id), max);
    case Crash => InvCrash(s, p, max);
  }

  lemma {:induction false} InvRun(schedule: seq<(nat, Action)>, max: nat)
    requires max >= 1 && Run(schedule, max).Some?
    ensures Inv(Run(schedule, max).value, max)
  {
    if schedule == [] {
    } else {
      var before := schedule[..|schedule| - 1];
      InvRun(before, max);
      var (p, a) := schedule[|schedule| - 1];
      InvStep(Run(before, max).value, p, a, max);
    }
  }

  // ---------------------------------------------------------------- what that means

  /** How often Next handed `id` to a drainer, read off the schedule. */
  ghost function HandedOut(schedule: seq<(nat, Action)>, max: nat, id: Id): nat
    requires Run(schedule, max).Some?
  {
    if schedule == [] then 0
    else
      var before := schedule[..|schedule| - 1];
      var s := Run(before, max).value;
      var (p, a) := schedule[|schedule| - 1];
      HandedOut(before, max, id) + (if a.Advance? && PcOf(s, p) == Popped(id) && id in s.store.bodies then 1 else 0)
  }

  ghost function Given(s: System, id: Id): nat {
    if id in s.place && id in s.given then s.given[id] else 0
  }

  lemma GivenCommand(s: System, p: nat, max: nat, id: Id)
    requires Inv(s, max)
    ensures Given(Command(s, p), id) ==
            Given(s, id) + (if PcOf(s, p) == Popped(id) && id in s.store.bodies then 1 else 0)
  {
    Alone(s, p, max);
    if s.store.ready != [] {
      assert Known(s, s.store.ready[|s.store.ready| - 1], max);
    }
  }

  lemma GivenStep(s: System, p: nat, a: Action, max: nat, id: Id)
    requires Inv(s, max) && Step(s, p, a, max).Some?
    ensures Given(Step(s, p, a, max).value, id) ==
            Given(s, id) + (if a.Advance? && PcOf(s, p) == Popped(id) && id in s.store.bodies then 1 else 0)
  {
    Alone(s, p, max);
    if id in s.place {
      assert Known(s, id, max);
    }
    if a.Advance? {
      GivenCommand(s, p, max, id);
    }
  }

  lemma {:induction false} GivenCounts(schedule: seq<(nat, Action)>, max: nat, id: Id)
    requires max >= 1 && Run(schedule, max).Some?
    ensures HandedOut(schedule, max, id) == Given(Run(schedule, max).value, id)
  {
    if schedule == [] {
    } else {
      var before := schedule[..|schedule| - 1];
      GivenCounts(before, max, id);
      InvRun(before, max);
      var (p, a) := schedule[|schedule| - 1];
      GivenStep(Run(before, max).value, p, a, max, id);
    }
  }

  /** Under any number of drainers, any interleaving of single commands and crashes anywhere: every id
      in a list or the retry set has its stored body. */
  lemma BodiesStored(schedule: seq<(nat, Action)>, max: nat, id: Id)
    requires max >= 1 && Run(schedule, max).Some?
    ensures var st := Run(schedule, max).value.store;
            id in st.ready || id in st.later || id in st.dead ==> id in st.bodies
  {
    InvRun(schedule, max);
    var s := Run(schedule, max).value;
    if id in s.store.ready || id in s.store.later || id in s.store.dead {
      assert Known(s, id, max);
    }
  }

  lemma {:induction false} OnceInList(list: seq<Id>, id: Id)
    requires forall i, j :: 0 <= i < j < |list| ==> list[i] != list[j]
    ensures multiset(list)[id] == if id in list then 1 else 0
  {
    if list == [] {
    } else {
      var init := list[..|list| - 1];
      OnceInList(init, id);
      assert list == init + [list[|list| - 1]];
      assert id in list <==> id in init || id == list[|list| - 1];
    }
  }

  /** Each id is in at most one of the ready list, the retry set, the dead list and one drainer's
      hands, and at most once there. */
  lemma OnePlace(schedule: seq<(nat, Action)>, max: nat, id: Id, p: nat, q: nat)
    requires max >= 1 && Run(schedule, max).Some?
    ensures var s := Run(schedule, max).value;
            var held := Holds(PcOf(s, p)) && HandOf(PcOf(s, p)) == id;
            && multiset(s.store.ready)[id] + multiset(s.store.dead)[id]
               + (if id in s.store.later then 1 else 0) + (if held then 1 else 0) <= 1
            && (held && p != q ==> !(Holds(PcOf(s, q)) && HandOf(PcOf(s, q)) == id))
  {
    InvRun(schedule, max);
    var s := Run(schedule, max).value;
    OnceInList(s.store.ready, id);
    OnceInList(s.store.dead, id);
  }

  /** Next hands a message out at most MaxAttempts times, and buries it after exactly that many. */
  lemma AttemptsBounded(schedule: seq<(nat, Action)>, max: nat, id: Id)
    requires max >= 1 && Run(schedule, max).Some?
    ensures HandedOut(schedule, max, id) <= max
    ensures id in Run(schedule, max).value.store.dead ==> HandedOut(schedule, max, id) == max
  {
    InvRun(schedule, max);
    GivenCounts(schedule, max, id);
    var s := Run(schedule, max).value;
    if id in s.place {
      assert Known(s, id, max);
    }
  }
}
