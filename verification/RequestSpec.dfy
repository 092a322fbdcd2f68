/** What a whole request owes its caller, and the bookkeeping lemmas behind it. */
module RequestSpec {
  import opened Wrappers
  import opened Replies
  import opened Dialogue
  import opened CatchAll
  import opened SessionSpec
  import opened SessionSteps

  predicate NoDup(s: seq<string>) {
    forall i, j :: 0 <= i < j < |s| ==> s[i] != s[j]
  }

  function Elems(s: seq<string>): set<string> {
    set a | a in s
  }

  lemma ElemsConcat(a: seq<string>, b: seq<string>)
    ensures Elems(a + b) == Elems(a) + Elems(b)
  {
  }

  lemma NoDupSplit(a: seq<string>, b: seq<string>)
    requires NoDup(a + b)
    ensures NoDup(a) && NoDup(b) && Elems(a) !! Elems(b)
  {
    var s := a + b;
    assert forall i :: 0 <= i < |a| ==> s[i] == a[i];
    assert forall i :: 0 <= i < |b| ==> s[|a| + i] == b[i];
    forall i, j | 0 <= i < |a| && 0 <= j < |b| ensures a[i] != b[j] {
      assert s[i] != s[|a| + j];
    }
  }

  lemma NoDupJoin(a: seq<string>, b: seq<string>)
    requires NoDup(a) && NoDup(b) && Elems(a) !! Elems(b)
    ensures NoDup(a + b)
  {
    var s := a + b;
    forall i, j | 0 <= i < j < |s| ensures s[i] != s[j] {
      if i < |a| <= j {
        assert s[i] in Elems(a) && s[j] in Elems(b);
      }
    }
  }

  lemma {:induction false} FlattenConcat(a: seq<Group>, b: seq<Group>)
    ensures Flatten(a + b) == Flatten(a) + Flatten(b)
    decreases |b|
  {
    if b == [] {
      assert a + b == a;
    } else {
      var i := b[..|b| - 1];
      FlattenConcat(a, i);
      assert (a + b)[..|a + b| - 1] == a + i;
    }
  }

  // ---------------------------------------------------------------- a verdict and the reply behind it

  predicate Supports(w: Wording, reply: Reply, r: Result) {
    && r.connected == Some(true) && r.code == reply.code
    && r.kind == Classify(w, reply)
    && (r.kind == Invalid ==> 500 <= r.code <= 599)
  }

  /** No refusal of us is ever a verdict: a result that says anything about the mailbox is what the
      address's own RCPT was answered, inside a transaction whose MAIL FROM was answered 250. */
  ghost predicate Backed(w: Wording, log: Log, a: string, r: Result) {
    && Consistent(r)
    && (IsVerdict(r.kind) || r.accepted.Some? ==>
          exists p, q, reply :: AnsweredAt(log, p, q, a, reply) && Supports(w, reply, r))
  }

  ghost predicate AllBacked(w: Wording, log: Log, out: map<string, Result>) {
    forall a :: a in out ==> Backed(w, log, a, out[a])
  }

  lemma BackedLater(w: Wording, log: Log, log': Log, out: map<string, Result>)
    requires AllBacked(w, log, out) && Prefix(log, log')
    ensures AllBacked(w, log', out)
  {
    forall a | a in out ensures Backed(w, log', a, out[a]) {
      if IsVerdict(out[a].kind) || out[a].accepted.Some? {
        var p, q, reply :| AnsweredAt(log, p, q, a, reply) && Supports(w, reply, out[a]);
        PrefixTransitive(p, log, log');
        assert AnsweredAt(log', p, q, a, reply);
      }
    }
  }

  /** Stamping the encryption, or blaming it, changes no answer and makes none. */
  lemma FinishKeeps(o: Options, end: Ending, r: Result)
    requires Consistent(r)
    ensures r.connected == Some(true) ==>
              var f := Finish(o, end, r);
              f.connected == r.connected && f.accepted == r.accepted && f.kind == r.kind && f.code == r.code
    ensures NonAnswer(r) ==> NonAnswer(Finish(o, end, r))
  {
  }

  /** A result read from an answered attempt of the log. */
  lemma AttemptBacked(o: Options, log: Log, k: nat, end: Ending, foreign: bool)
    requires At(log).Some? && k < |Attempts(log)| && Attempts(log)[k].answer.Some?
    ensures Backed(o.words, log, Attempts(log)[k].addr, Finish(o, end, Answered(o, Attempts(log)[k].answer.value, foreign)))
  {
    var reply := Attempts(log)[k].answer.value;
    var r := Answered(o, reply, foreign);
    FinishKeeps(o, end, r);
    var p, q := AnsweredAttempt(log, k);
    if IsVerdict(r.kind) {
      assert Supports(o.words, reply, Finish(o, end, r));
    }
  }

  /** What the account says of one position. */
  lemma AccountAt(o: Options, stop: int, groups: seq<Group>, grouped: bool, rc: seq<Attempt>,
                  end: Ending, rs: seq<Result>, rest: seq<string>, last: Option<Event>, j: nat)
    requires Account(o, stop, groups, grouped, rc, end, rs, rest, last) && j < |rs| <= |Flatten(groups)|
    ensures j < end.answered ==>
              && j < |rc| && rc[j].addr == Flatten(groups)[j] && rc[j].answer.Some?
              && rs[j] == Finish(o, end, Answered(o, rc[j].answer.value, Foreign(groups, grouped, j)))
    ensures j >= end.answered ==> OwnClass(end.why) && rs[j] == Finish(o, end, Unattempted(o, end.why))
  {
  }

  /** A result for want of an attempt claims nothing. */
  lemma UnattemptedBacked(o: Options, log: Log, a: string, end: Ending)
    requires OwnClass(end.why)
    ensures Backed(o.words, log, a, Finish(o, end, Unattempted(o, end.why)))
  {
    FinishKeeps(o, end, Unattempted(o, end.why));
  }

  lemma AttemptBackedLater(o: Options, log: Log, log': Log, rc: seq<Attempt>, j: nat, end: Ending, foreign: bool)
    requires At(log').Some? && Attempts(log') == Attempts(log) + rc && j < |rc| && rc[j].answer.Some?
    ensures Backed(o.words, log', rc[j].addr, Finish(o, end, Answered(o, rc[j].answer.value, foreign)))
  {
    assert Attempts(log')[|Attempts(log)| + j] == rc[j];
    AttemptBacked(o, log', |Attempts(log)| + j, end, foreign);
  }

  /** The result of a position that was answered is its reply's; the result of one that was not is
      no verdict. */
  lemma PositionBacked(o: Options, stop: int, groups: seq<Group>, grouped: bool, log: Log, log': Log, rc: seq<Attempt>,
                       end: Ending, rs: seq<Result>, rest: seq<string>, j: nat)
    requires At(log').Some? && Attempts(log') == Attempts(log) + rc
    requires Account(o, stop, groups, grouped, rc, end, rs, rest, LastWord(log'))
    requires j < |rs| <= |Flatten(groups)|
    ensures Backed(o.words, log', Flatten(groups)[j], rs[j])
  {
    AccountAt(o, stop, groups, grouped, rc, end, rs, rest, LastWord(log'), j);
    if j < end.answered {
      AttemptBackedLater(o, log, log', rc, j, end, Foreign(groups, grouped, j));
    } else {
      UnattemptedBacked(o, log', Flatten(groups)[j], end);
    }
  }

  /** Every verdict of a session is backed by its log. */
  lemma SessionBacked(o: Options, stop: int, groups: seq<Group>, grouped: bool, log: Log, log': Log, rc: seq<Attempt>,
                      end: Ending, rs: seq<Result>, rest: seq<string>, verdicts: map<string, Verdict>)
    requires Conducted(o, groups, log, log', rc, end, verdicts)
    requires Account(o, stop, groups, grouped, rc, end, rs, rest, LastWord(log'))
    requires |rs| <= |Flatten(groups)|
    ensures AllBacked(o.words, log', Tabulate(Flatten(groups), rs))
  {
    var out := Tabulate(Flatten(groups), rs);
    forall a | a in out ensures Backed(o.words, log', a, out[a]) {
      var j := TabulateSource(Flatten(groups), rs, a);
      PositionBacked(o, stop, groups, grouped, log, log', rc, end, rs, rest, j);
    }
  }

  // ---------------------------------------------------------------- exact accounting of a session

  lemma SplitAt(addrs: seq<string>, rs: seq<Result>, rest: seq<string>)
    requires |rs| <= |addrs| && rest == addrs[|rs|..]
    ensures addrs == addrs[..|rs|] + rest && Tabulate(addrs, rs).Keys == Elems(addrs[..|rs|])
    ensures Elems(addrs) == Tabulate(addrs, rs).Keys + Elems(rest)
    ensures NoDup(addrs) ==> NoDup(rest) && Tabulate(addrs, rs).Keys !! Elems(rest)
  {
    TabulateKeys(addrs, rs);
    assert (set j | 0 <= j < |rs| :: addrs[j]) == Elems(addrs[..|rs|]);
    ElemsConcat(addrs[..|rs|], rest);
    if NoDup(addrs) {
      NoDupSplit(addrs[..|rs|], rest);
    }
  }

  lemma AccountSplits(o: Options, stop: int, groups: seq<Group>, grouped: bool, rc: seq<Attempt>,
                      end: Ending, rs: seq<Result>, rest: seq<string>, last: Option<Event>)
    requires Account(o, stop, groups, grouped, rc, end, rs, rest, last) && |rs| <= |Flatten(groups)|
    ensures rest == Flatten(groups)[|rs|..]
    ensures rest != [] ==> grouped && groups != [] && |rs| >= |groups[0].addrs|
    ensures |rc| <= |rs| + 1 && (rest == [] ==> |rc| <= |rs|)
  {
  }

  /** A session splits its addresses into those with a result and a handed-back suffix. The suffix
      is empty unless the session was grouped, and never reaches into the first group. */
  lemma SessionSplits(o: Options, stop: int, groups: seq<Group>, grouped: bool, rc: seq<Attempt>,
                      end: Ending, rs: seq<Result>, rest: seq<string>, last: Option<Event>)
    requires Account(o, stop, groups, grouped, rc, end, rs, rest, last)
    requires |rs| <= |Flatten(groups)|
    ensures Flatten(groups) == Flatten(groups)[..|rs|] + rest
    ensures Tabulate(Flatten(groups), rs).Keys == Elems(Flatten(groups)[..|rs|])
    ensures Elems(Flatten(groups)) == Tabulate(Flatten(groups), rs).Keys + Elems(rest)
    ensures NoDup(Flatten(groups)) ==> NoDup(rest) && Tabulate(Flatten(groups), rs).Keys !! Elems(rest)
    ensures rest != [] ==> grouped && groups != [] && |rs| >= |groups[0].addrs|
    ensures |rc| <= |rs| + 1 && (rest == [] ==> |rc| <= |rs|)
  {
    AccountSplits(o, stop, groups, grouped, rc, end, rs, rest, last);
    SplitAt(Flatten(groups), rs, rest);
  }

  // ---------------------------------------------------------------- catch-all verdicts of a request

  /** Every verdict heard is one of the four the bogus probes can settle. */
  lemma {:induction false} PastIsSettled(w: Wording, log: Log, d: string, v: Verdict)
    requires Past(w, log, d, v)
    ensures v in {Unsettled, Honest, TakesAll, CoinFlip}
    decreases log
  {
    if Past(w, log.before, d, v) {
      PastIsSettled(w, log.before, d, v);
    }
  }

  lemma HeardIsSettled(w: Wording, log: Log, d: string, v: Verdict)
    requires Heard(w, log, d, v)
    ensures v in {Unsettled, Honest, TakesAll, CoinFlip}
  {
    if Past(w, log, d, v) {
      PastIsSettled(w, log, d, v);
    }
  }

  predicate Settled(v: Verdict) {
    v.catchAll.Some? || v.randomiser.Some?
  }

  function WithVerdict(r: Result, v: Verdict): Result {
    r.(catchAll := v.catchAll, randomiser := v.randomiser)
  }

  lemma WithVerdictBacked(w: Wording, log: Log, a: string, r: Result, v: Verdict)
    requires Backed(w, log, a, r)
    ensures Backed(w, log, a, WithVerdict(r, v))
  {
    var r' := WithVerdict(r, v);
    if IsVerdict(r.kind) || r.accepted.Some? {
      var p, q, reply :| AnsweredAt(log, p, q, a, reply) && Supports(w, reply, r);
      assert Supports(w, reply, r');
    }
  }

  /** No catch-all verdict has been written on the results yet. */
  ghost predicate Unmarked(out: map<string, Result>) {
    forall a :: a in out ==> out[a].catchAll.None? && out[a].randomiser.None?
  }

  lemma FinishedUnmarked(o: Options, end: Ending, r: Result)
    requires r.catchAll.None? && r.randomiser.None?
    ensures Finish(o, end, r).catchAll.None? && Finish(o, end, r).randomiser.None?
  {
  }

  lemma PositionUnmarked(o: Options, stop: int, groups: seq<Group>, grouped: bool, rc: seq<Attempt>,
                         end: Ending, rs: seq<Result>, rest: seq<string>, last: Option<Event>, j: nat)
    requires Account(o, stop, groups, grouped, rc, end, rs, rest, last) && j < |rs| <= |Flatten(groups)|
    ensures rs[j].catchAll.None? && rs[j].randomiser.None?
  {
    AccountAt(o, stop, groups, grouped, rc, end, rs, rest, last, j);
    if j < end.answered {
      FinishedUnmarked(o, end, Answered(o, rc[j].answer.value, Foreign(groups, grouped, j)));
    } else {
      FinishedUnmarked(o, end, Unattempted(o, end.why));
    }
  }

  /** A session tells no address that it was suppressed. */
  ghost predicate AllContacted(out: map<string, Result>) {
    forall a :: a in out ==> out[a].kind != Suppressed
  }

  lemma FinishedContacts(o: Options, end: Ending, r: Result)
    requires r.kind != Suppressed
    ensures Finish(o, end, r).kind != Suppressed
  {
  }

  lemma SessionContacts(o: Options, stop: int, groups: seq<Group>, grouped: bool, rc: seq<Attempt>,
                        end: Ending, rs: seq<Result>, rest: seq<string>, last: Option<Event>)
    requires Account(o, stop, groups, grouped, rc, end, rs, rest, last) && |rs| <= |Flatten(groups)|
    ensures AllContacted(Tabulate(Flatten(groups), rs))
  {
    forall a | a in Tabulate(Flatten(groups), rs) ensures Tabulate(Flatten(groups), rs)[a].kind != Suppressed {
      var j := TabulateSource(Flatten(groups), rs, a);
      AccountAt(o, stop, groups, grouped, rc, end, rs, rest, last, j);
      if j < end.answered {
        FinishedContacts(o, end, Answered(o, rc[j].answer.value, Foreign(groups, grouped, j)));
      } else {
        FinishedContacts(o, end, Unattempted(o, end.why));
      }
    }
  }

  lemma SessionUnmarked(o: Options, stop: int, groups: seq<Group>, grouped: bool, rc: seq<Attempt>,
                        end: Ending, rs: seq<Result>, rest: seq<string>, last: Option<Event>)
    requires Account(o, stop, groups, grouped, rc, end, rs, rest, last) && |rs| <= |Flatten(groups)|
    ensures Unmarked(Tabulate(Flatten(groups), rs))
  {
    forall a | a in Tabulate(Flatten(groups), rs)
      ensures Tabulate(Flatten(groups), rs)[a].catchAll.None? && Tabulate(Flatten(groups), rs)[a].randomiser.None?
    {
      var j := TabulateSource(Flatten(groups), rs, a);
      PositionUnmarked(o, stop, groups, grouped, rc, end, rs, rest, last, j);
    }
  }

  lemma BackedUnion(w: Wording, log: Log, a: map<string, Result>, b: map<string, Result>)
    requires AllBacked(w, log, a) && AllBacked(w, log, b) && Unmarked(a) && Unmarked(b)
    ensures AllBacked(w, log, a + b) && Unmarked(a + b)
  {
  }
}
