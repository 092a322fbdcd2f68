/** What becomes of a message the relay queue accepted, read off the schedule. */
module RelayLosses {
  import opened Wrappers
  import opened Relay

  predicate NoCrash(schedule: seq<(nat, Action)>) {
    forall i :: 0 <= i < |schedule| ==> !schedule[i].1.Crash?
  }

  /** Some step of the schedule, of a drainer about to do what `pc` says, was of this kind. */
  ghost predicate Happened(schedule: seq<(nat, Action)>, max: nat, kind: (Action, Pc) -> bool) {
    schedule != [] && Run(schedule, max).Some? &&
    var before := schedule[..|schedule| - 1];
    var (p, a) := schedule[|schedule| - 1];
    Happened(before, max, kind) || (Run(before, max).Some? && kind(a, PcOf(Run(before, max).value, p)))
  }

  /** Enqueue was called with the message. */
  ghost predicate Accepted(schedule: seq<(nat, Action)>, max: nat, id: Id) {
    Happened(schedule, max, (a: Action, pc: Pc) => a.Accept? && a.item.id == id)
  }

  /** Done deleted its body. */
  ghost predicate Finished(schedule: seq<(nat, Action)>, max: nat, id: Id) {
    Happened(schedule, max, (a: Action, pc: Pc) => a.Advance? && pc == Finishing(id))
  }

  /** A drainer crashed with it in hand. */
  ghost predicate Dropped(schedule: seq<(nat, Action)>, max: nat, id: Id) {
    Happened(schedule, max, (a: Action, pc: Pc) => a.Crash? && Holds(pc) && HandOf(pc) == id)
  }

  /** The store lists it, to be tried now, to be retried or as dead, or a drainer has it in hand. */
  ghost predicate Present(s: System, id: Id) {
    id in s.store.ready || id in s.store.later || id in s.store.dead || exists p :: HeldBy(s.drainers, p, id)
  }

  lemma PlaceCommand(s: System, p: nat, max: nat, id: Id)
    requires Inv(s, max)
    ensures var s' := Command(s, p);
            && (id in s'.place <==> id in s.place)
            && (id in s'.place && s'.place[id] == Delivered ==>
                  (id in s.place && s.place[id] == Delivered) || PcOf(s, p) == Finishing(id))
            && (id in s'.place && s'.place[id] == Lost ==> id in s.place && s.place[id] == Lost)
  {
    Alone(s, p, max);
    if s.store.ready != [] {
      assert Known(s, s.store.ready[|s.store.ready| - 1], max);
    }
  }

  /** What one step does to the place of a message. */
  lemma PlaceStep(s: System, p: nat, a: Action, max: nat, id: Id)
    requires Inv(s, max) && Step(s, p, a, max).Some?
    ensures var s' := Step(s, p, a, max).value;
            && (id in s'.place <==> id in s.place || (a.Accept? && a.item.id == id))
            && (id in s'.place && s'.place[id] == Delivered ==>
                  (id in s.place && s.place[id] == Delivered) || (a.Advance? && PcOf(s, p) == Finishing(id)))
            && (id in s'.place && s'.place[id] == Lost ==>
                  (id in s.place && s.place[id] == Lost) || (a.Crash? && Holds(PcOf(s, p)) && HandOf(PcOf(s, p)) == id))
  {
    Alone(s, p, max);
    if a.Advance? {
      PlaceCommand(s, p, max, id);
    }
  }

  /** The place kept beside the store is where the schedule put the message. */
  lemma {:induction false} PlaceTells(schedule: seq<(nat, Action)>, max: nat, id: Id)
    requires max >= 1 && Run(schedule, max).Some?
    ensures var place := Run(schedule, max).value.place;
            && (id in place <==> Accepted(schedule, max, id))
            && (id in place && place[id] == Delivered ==> Finished(schedule, max, id))
            && (id in place && place[id] == Lost ==> Dropped(schedule, max, id))
  {
    if schedule == [] {
    } else {
      var before := schedule[..|schedule| - 1];
      PlaceTells(before, max, id);
      InvRun(before, max);
      var (p, a) := schedule[|schedule| - 1];
      PlaceStep(Run(before, max).value, p, a, max, id);
    }
  }

  lemma PlaceIsPresent(s: System, max: nat, id: Id)
    requires Inv(s, max) && id in s.place && s.place[id] != Delivered && s.place[id] != Lost
    ensures Present(s, id)
  {
    if s.place[id].Hand? {
      assert HeldBy(s.drainers, s.place[id].drainer, id);
    }
  }

  /** Every message accepted is ready, waiting, dead or in a drainer's hands, unless Done deleted it or a
      drainer crashed with it in hand. */
  lemma Accounted(schedule: seq<(nat, Action)>, max: nat, id: Id)
    requires max >= 1 && Run(schedule, max).Some? && Accepted(schedule, max, id)
    ensures Present(Run(schedule, max).value, id) || Finished(schedule, max, id) || Dropped(schedule, max, id)
  {
    InvRun(schedule, max);
    PlaceTells(schedule, max, id);
    var s := Run(schedule, max).value;
    if s.place[id] != Delivered && s.place[id] != Lost {
      PlaceIsPresent(s, max, id);
    }
  }

  lemma {:induction false} NothingDropped(schedule: seq<(nat, Action)>, max: nat, id: Id)
    requires NoCrash(schedule)
    ensures !Dropped(schedule, max, id)
  {
    if schedule == [] {
    } else {
      NothingDropped(schedule[..|schedule| - 1], max, id);
    }
  }

  /** Only a crash loses a message: without one every message accepted is ready, waiting, dead or in a
      drainer's hands until Done deletes it. */
  lemma OnlyCrashesLose(schedule: seq<(nat, Action)>, max: nat, id: Id)
    requires max >= 1 && Run(schedule, max).Some? && NoCrash(schedule) && Accepted(schedule, max, id)
    ensures Present(Run(schedule, max).value, id) || Finished(schedule, max, id)
  {
    Accounted(schedule, max, id);
    NothingDropped(schedule, max, id);
  }
}
