/** How the account of a session grows: one answer, one group and one verdict at a time, to its end. */
module SessionSteps {
  import opened Wrappers
  import opened Replies
  import opened Dialogue
  import opened CatchAll
  import opened SessionSpec

  // ---------------------------------------------------------------- one more answer

  /** A session under way: every RCPT so far was answered, recorded, and no reason to stop. */
  ghost predicate Along(o: Options, stop: int, groups: seq<Group>, grouped: bool, base: seq<Attempt>, log: Log,
                        out: map<string, Result>, run: nat, rc: seq<Attempt>, rs: seq<Result>)
  {
    true == (
      && At(log).Some? && At(log).value.leased
      && Attempts(log) == base + rc
      && InOrder(Flatten(groups), rc, |rc|)
      && |rs| == |rc| && Told(o, groups, grouped, rc, |rc|, rs)
      && NothingMissed(o, stop, groups, grouped, rc, |rc|)
      && out == Tabulate(Flatten(groups), rs)
      && run == PolicyRun(o.words, rc))
  }

  /** Where a session stopped asking, before the unasked are told. */
  ghost predicate Stopped(o: Options, stop: int, groups: seq<Group>, grouped: bool, base: seq<Attempt>, log: Log,
                          out: map<string, Result>, n: nat, why: Why, rc: seq<Attempt>, rs: seq<Result>)
  {
    true == (
      && Attempts(log) == base + rc
      && InOrder(Flatten(groups), rc, n)
      && Justified(o, stop, groups, grouped, rc, n, why, LastWord(log))
      && NothingMissed(o, stop, groups, grouped, rc, WentOn(n, why))
      && |rs| == n && Told(o, groups, grouped, rc, n, rs)
      && out == Tabulate(Flatten(groups), rs))
  }

  /** The endings of a session that had a connection. */
  predicate MidTalk(why: Why) {
    why.Complete? || why.NoBudgetLeft? || why.Lost? || why.TurnedAway? || why.PolicyStopped? || why.Regroup?
  }

  /** A session that has stopped asking and still has its connection. */
  ghost predicate Stopping(o: Options, stop: int, groups: seq<Group>, grouped: bool, base: seq<Attempt>, log: Log,
                           out: map<string, Result>, n: nat, why: Why, rc: seq<Attempt>, rs: seq<Result>)
  {
    true == (
      && At(log).Some? && At(log).value.leased && !At(log).value.link.NoLink? && MidTalk(why)
      && Stopped(o, stop, groups, grouped, base, log, out, n, why, rc, rs))
  }

  lemma OneMoreAnswer(o: Options, groups: seq<Group>, grouped: bool, rc: seq<Attempt>, rs: seq<Result>, r: Reply)
    requires InOrder(Flatten(groups), rc, |rc|) && |rc| < |Flatten(groups)|
    requires |rs| == |rc| && Told(o, groups, grouped, rc, |rc|, rs)
    ensures var a := Flatten(groups)[|rc|];
            var x := Answered(o, r, Foreign(groups, grouped, |rc|));
            && InOrder(Flatten(groups), rc + [Attempt(a, Some(r))], |rc| + 1)
            && Told(o, groups, grouped, rc + [Attempt(a, Some(r))], |rc| + 1, rs + [x])
            && Tabulate(Flatten(groups), rs + [x]) == Tabulate(Flatten(groups), rs)[a := x]
  {
    TabulateSnoc(Flatten(groups), rs, Answered(o, r, Foreign(groups, grouped, |rc|)));
  }

  lemma OneMorePolicyRun(w: Wording, rc: seq<Attempt>, a: string, r: Reply)
    ensures PolicyRun(w, rc + [Attempt(a, Some(r))]) == if Classify(w, r) == Policy then PolicyRun(w, rc) + 1 else 0
  {
    assert (rc + [Attempt(a, Some(r))])[..|rc|] == rc;
  }

  lemma StillNothingMissed(o: Options, stop: int, groups: seq<Group>, grouped: bool, rc: seq<Attempt>, x: Attempt)
    requires forall j :: 0 <= j < |rc| ==> rc[j].answer.Some?
    requires NothingMissed(o, stop, groups, grouped, rc, |rc|)
    ensures NothingMissed(o, stop, groups, grouped, rc + [x], |rc|)
    ensures x.answer.Some?
            && (Foreign(groups, grouped, |rc|) ==>
                  !RelayRefusal(o.words, x.answer.value) && !DomainLimitRefusal(o.words, x.answer.value))
            && (stop <= 0 || PolicyRun(o.words, rc + [x]) < stop)
            ==> NothingMissed(o, stop, groups, grouped, rc + [x], |rc| + 1)
  {
    var rc' := rc + [x];
    assert rc'[..|rc| + 1] == rc';
    assert forall j :: 1 <= j <= |rc| ==> rc'[..j] == rc[..j];
  }

  /** A run of answers followed by an ending that added no answer. */
  lemma StopsUnanswered(o: Options, stop: int, groups: seq<Group>, grouped: bool, base: seq<Attempt>, log: Log,
                        out: map<string, Result>, run: nat, rc: seq<Attempt>, rs: seq<Result>, log': Log, why: Why)
    requires Along(o, stop, groups, grouped, base, log, out, run, rc, rs)
    requires At(log').Some? && At(log').value.leased && !At(log').value.link.NoLink?
    requires Attempts(log') == Attempts(log)
    requires MidTalk(why) && !why.PolicyStopped? && why != Regroup(Relay)
    requires Justified(o, stop, groups, grouped, rc, |rc|, why, LastWord(log'))
    ensures Stopping(o, stop, groups, grouped, base, log', out, |rc|, why, rc, rs)
  {
  }

  /** A run of answers followed by a RCPT that was not answered about its address. */
  lemma StopsAsking(o: Options, stop: int, groups: seq<Group>, grouped: bool, base: seq<Attempt>, log: Log,
                    out: map<string, Result>, run: nat, rc: seq<Attempt>, rs: seq<Result>, log': Log, x: Attempt, why: Why)
    requires Along(o, stop, groups, grouped, base, log, out, run, rc, rs)
    requires At(log').Some? && At(log').value.leased && !At(log').value.link.NoLink?
    requires Attempts(log') == Attempts(log) + [x] && |rc| < |Flatten(groups)| && x.addr == Flatten(groups)[|rc|]
    requires !why.PolicyStopped? && why != Regroup(Relay)
    requires InOrder(Flatten(groups), rc + [x], |rc|)
    requires Justified(o, stop, groups, grouped, rc + [x], |rc|, why, LastWord(log'))
    ensures Stopping(o, stop, groups, grouped, base, log', out, |rc|, why, rc + [x], rs)
  {
    assert Attempts(log') == base + (rc + [x]);
    StillNothingMissed(o, stop, groups, grouped, rc, x);
  }

  /** A run of answers whose last answer is the one that ends the session. */
  lemma StopsAnswered(o: Options, stop: int, groups: seq<Group>, grouped: bool, base: seq<Attempt>, log: Log,
                      out: map<string, Result>, run: nat, rc: seq<Attempt>, rs: seq<Result>,
                      log': Log, r: Reply, why: Why)
    requires Along(o, stop, groups, grouped, base, log, out, run, rc, rs)
    requires At(log').Some? && At(log').value.leased && !At(log').value.link.NoLink?
    requires |rc| < |Flatten(groups)|
    requires Attempts(log') == Attempts(log) + [Attempt(Flatten(groups)[|rc|], Some(r))]
    requires match why
             case PolicyStopped => 0 < stop <= (if Classify(o.words, r) == Policy then run + 1 else 0)
             case Regroup(reason) =>
               && reason.Relay? && LastWord(log') == Some(FellBack(reason)) && Foreign(groups, grouped, |rc|)
               && RelayRefusal(o.words, r)
             case _ => false
    ensures var a := Flatten(groups)[|rc|];
            var x := Answered(o, r, Foreign(groups, grouped, |rc|));
            Stopping(o, stop, groups, grouped, base, log', out[a := x], |rc| + 1, why, rc + [Attempt(a, Some(r))], rs + [x])
  {
    var x := Attempt(Flatten(groups)[|rc|], Some(r));
    assert Attempts(log') == base + (rc + [x]);
    OneMoreAnswer(o, groups, grouped, rc, rs, r);
    OneMorePolicyRun(o.words, rc, x.addr, r);
    StillNothingMissed(o, stop, groups, grouped, rc, x);
    assert (rc + [x])[..|rc| + 1] == rc + [x];
  }

  /** A run of answers that goes on. */
  lemma GoesOn(o: Options, stop: int, groups: seq<Group>, grouped: bool, base: seq<Attempt>, log: Log,
               out: map<string, Result>, run: nat, rc: seq<Attempt>, rs: seq<Result>, log': Log, r: Reply)
    requires Along(o, stop, groups, grouped, base, log, out, run, rc, rs)
    requires At(log').Some? && At(log').value.leased
    requires |rc| < |Flatten(groups)|
    requires Attempts(log') == Attempts(log) + [Attempt(Flatten(groups)[|rc|], Some(r))]
    requires Foreign(groups, grouped, |rc|) ==> !RelayRefusal(o.words, r) && !DomainLimitRefusal(o.words, r)
    requires stop <= 0 || (if Classify(o.words, r) == Policy then run + 1 else 0) < stop
    ensures var a := Flatten(groups)[|rc|];
            var x := Answered(o, r, Foreign(groups, grouped, |rc|));
            Along(o, stop, groups, grouped, base, log', out[a := x], if Classify(o.words, r) == Policy then run + 1 else 0,
                  rc + [Attempt(a, Some(r))], rs + [x])
  {
    var x := Attempt(Flatten(groups)[|rc|], Some(r));
    assert Attempts(log') == base + (rc + [x]);
    OneMoreAnswer(o, groups, grouped, rc, rs, r);
    OneMorePolicyRun(o.words, rc, x.addr, r);
    StillNothingMissed(o, stop, groups, grouped, rc, x);
  }

  // ---------------------------------------------------------------- groups and their verdicts

  lemma FlattenFirst(groups: seq<Group>, gi: nat)
    requires 0 < gi <= |groups|
    ensures |groups[0].addrs| <= |Flatten(groups[..gi])|
  {
    FlattenPrefix(groups[..gi], 1);
    assert groups[..gi][..1] == [groups[0]];
    assert Flatten([groups[0]]) == Flatten([]) + groups[0].addrs;
  }

  lemma FurtherMeans(groups: seq<Group>, gi: nat, k: nat)
    requires gi < |groups| && k < |groups[gi].addrs|
    ensures gi > 0 <==> |Flatten(groups[..gi])| + k >= |groups[0].addrs|
  {
    if gi > 0 {
      FlattenFirst(groups, gi);
    }
  }

  ghost predicate AllHeard(w: Wording, log: Log, groups: seq<Group>, verdicts: map<string, Verdict>) {
    forall d :: d in verdicts ==> Heard(w, log, d, verdicts[d]) && Inquires(groups, d)
  }

  ghost predicate AllPast(w: Wording, log: Log, verdicts: map<string, Verdict>) {
    forall d :: d in verdicts ==> Past(w, log, d, verdicts[d])
  }

  lemma AllHeardOn(w: Wording, log: Log, log': Log, groups: seq<Group>, verdicts: map<string, Verdict>)
    requires AllHeard(w, log, groups, verdicts) && NoBogus(log, log') && At(log').Some?
    ensures AllHeard(w, log', groups, verdicts)
  {
    forall d | d in verdicts ensures Heard(w, log', d, verdicts[d]) {
      HeardOn(w, log, log', d, verdicts[d]);
    }
  }

  lemma AllPastLater(w: Wording, log: Log, log': Log, verdicts: map<string, Verdict>)
    requires AllPast(w, log, verdicts) && Prefix(log, log')
    ensures AllPast(w, log', verdicts)
  {
    forall d | d in verdicts ensures Past(w, log', d, verdicts[d]) {
      PastLater(w, log, log', d, verdicts[d]);
    }
  }

  /** The log goes on by the RSET and the MAIL FROM of the next transaction. */
  ghost predicate Reopened(log: Log, log': Log, domain: string) {
    && log'.Then? && log'.event.Ask? && log'.event.cmd == MailFrom(domain) && Says(log'.event.answer, 250)
    && log'.before.Then? && log'.before.event.Ask? && log'.before.event.cmd.Rset? && Says(log'.before.event.answer, 250)
    && log'.before.before == log
  }

  /** The next transaction begun, whatever was heard is past. */
  lemma AllPastNow(w: Wording, log: Log, log': Log, groups: seq<Group>, verdicts: map<string, Verdict>, domain: string)
    requires AllHeard(w, log, groups, verdicts) && Reopened(log, log', domain) && At(log').Some?
    ensures AllPast(w, log', verdicts)
  {
    forall d | d in verdicts ensures Past(w, log', d, verdicts[d]) {
      assert Heard(w, log, d, verdicts[d]);
      assert Past(w, log'.before, d, verdicts[d]);
    }
  }

  lemma NamedHere(groups: seq<Group>, gi: nat, k: nat)
    requires gi < |groups| && k < |groups[gi].addrs|
    ensures Named(groups, groups[gi].addrs[k], groups[gi].domain)
  {
    assert groups[gi] in groups;
  }

  /** The connection is ready for the turn of group `gi`, the first still with its prepaid token. */
  ghost predicate TurnReady(groups: seq<Group>, gi: nat, log: Log, n: nat) {
    true == (
      && At(log).Some? && At(log).value.leased && At(log).value.link.Open?
      && (gi == 0 && groups != [] ==> At(log).value.link.domain == groups[0].domain && BogusReplies(log) == [])
      && (n == 0 ==> At(log).value.credit > 0))
  }

  /** What holds from the session's first MAIL FROM on, whichever transaction it is in. */
  ghost predicate Carried(o: Options, groups: seq<Group>, start: Log, log: Log, verdicts: map<string, Verdict>) {
    true == (
      && At(log).Some? && Prefix(start, log) && Encrypted(log) == Encrypted(start)
      && Unbidden(o, log) == Unbidden(o, start)
      && AddsOnly(start, log, groups)
      && AllHeard(o.words, log, groups, verdicts))
  }

  lemma CarriedFromStart(o: Options, groups: seq<Group>, log: Log)
    requires At(log).Some?
    ensures Carried(o, groups, log, log, map[])
  {
  }

  lemma CarriedOn(o: Options, groups: seq<Group>, start: Log, was: Log, log: Log, verdicts: map<string, Verdict>)
    requires Carried(o, groups, start, was, verdicts) && Continued(groups, was, log) && At(log).Some?
    ensures Carried(o, groups, start, log, verdicts)
  {
    SteadyMeans(was, log);
    SteadyBids(o, was, log);
    PrefixTransitive(start, was, log);
    AllHeardOn(o.words, was, log, groups, verdicts);
  }

  lemma CarriedQuietly(o: Options, groups: seq<Group>, start: Log, was: Log, log: Log, verdicts: map<string, Verdict>)
    requires Carried(o, groups, start, was, verdicts) && Quiet(was, log) && At(log).Some?
    ensures Carried(o, groups, start, log, verdicts)
  {
    QuietMeans(was, log);
    QuietBids(o, was, log);
    PrefixTransitive(start, was, log);
    AllHeardOn(o.words, was, log, groups, verdicts);
  }

  /** A group's catch-all question asked: its verdict is what all its bogus RCPTs say. */
  lemma CarriedMusing(o: Options, groups: seq<Group>, gi: nat, start: Log, was: Log, log: Log,
                      verdicts: map<string, Verdict>, v: Verdict)
    requires Carried(o, groups, start, was, verdicts) && AllPast(o.words, was, verdicts)
    requires gi < |groups| && groups[gi].askCatchAll && Musing(was, log, groups[gi].domain)
    requires Holds(log, Open(groups[gi].domain)) && v == Settle(Bits(o.words, BogusReplies(log)))
    ensures Carried(o, groups, start, log, verdicts[groups[gi].domain := v])
  {
    MusingMeans(was, log, groups[gi].domain);
    MusingBids(o, was, log, groups[gi].domain);
    PrefixTransitive(start, was, log);
    AllPastLater(o.words, was, log, verdicts);
    assert groups[gi] in groups && Inquires(groups, groups[gi].domain);
  }

  /** Every group has an address. */
  ghost predicate Filled(groups: seq<Group>) {
    groups != [] && forall g :: g in groups ==> g.addrs != []
  }

  /** Before the turn of group `k`: as many MAIL FROMs as turns, and the turn before was answered. */
  ghost predicate Spared(groups: seq<Group>, start: Log, log: Log, k: nat) {
    true == (
      Filled(groups) ==>
        && Sparing(start, log, |groups|) && Mails(log) <= (if k == 0 then 1 else k)
        && (k > 0 ==> Answers(log) >= 1))
  }

  /** Somewhere in the session. */
  ghost predicate SparedSoFar(groups: seq<Group>, start: Log, log: Log) {
    true == (Filled(groups) ==> Sparing(start, log, |groups|) && Mails(log) <= |groups|)
  }

  lemma AlongQuietly(o: Options, stop: int, groups: seq<Group>, grouped: bool, base: seq<Attempt>, was: Log, log: Log,
                     out: map<string, Result>, run: nat, rc: seq<Attempt>, rs: seq<Result>)
    requires Along(o, stop, groups, grouped, base, was, out, run, rc, rs) && Quiet(was, log)
    requires At(log).Some? && At(log).value.leased
    ensures Along(o, stop, groups, grouped, base, log, out, run, rc, rs)
  {
    QuietMeans(was, log);
  }

  /** The first `k` groups have their verdict wherever one was due. */
  ghost predicate VerdictsIn(groups: seq<Group>, k: nat, verdicts: map<string, Verdict>)
    requires k <= |groups|
  {
    true == forall j :: 0 <= j < k && groups[j].askCatchAll ==> groups[j].domain in verdicts
  }

  lemma OneMoreVerdict(groups: seq<Group>, k: nat, verdicts: map<string, Verdict>, verdicts': map<string, Verdict>)
    requires k < |groups| && VerdictsIn(groups, k, verdicts)
    requires forall d :: d in verdicts ==> d in verdicts'
    requires groups[k].askCatchAll ==> groups[k].domain in verdicts'
    ensures VerdictsIn(groups, k + 1, verdicts')
  {
  }

  // ---------------------------------------------------------------- telling the unasked

  /** A session that ended before it could ask anything. */
  lemma StoppedBefore(o: Options, stop: int, groups: seq<Group>, grouped: bool, log: Log, why: Why)
    requires !why.Complete? && InOrder(Flatten(groups), [], 0)
    requires Justified(o, stop, groups, grouped, [], 0, why, LastWord(log))
    ensures Stopped(o, stop, groups, grouped, Attempts(log), log, map[], 0, why, [], [])
  {
    assert Attempts(log) == Attempts(log) + [];
  }

  lemma StoppedQuietly(o: Options, stop: int, groups: seq<Group>, grouped: bool, base: seq<Attempt>, was: Log, log: Log,
                       out: map<string, Result>, n: nat, why: Why, rc: seq<Attempt>, rs: seq<Result>)
    requires Stopped(o, stop, groups, grouped, base, was, out, n, why, rc, rs)
    requires Attempts(log) == Attempts(was) && LastWord(log) == LastWord(was)
    ensures Stopped(o, stop, groups, grouped, base, log, out, n, why, rc, rs)
  {
  }

  /** The account of a session that stopped, once every unasked address it keeps has been told. */
  lemma Accounted(o: Options, stop: int, groups: seq<Group>, grouped: bool, base: seq<Attempt>, log: Log,
                  out: map<string, Result>, rc: seq<Attempt>, rs: seq<Result>, end: Ending, full: seq<Result>)
    requires Stopped(o, stop, groups, grouped, base, log, out, end.answered, end.why, rc, rs)
    requires rs <= full && |full| == (if end.why.Regroup? then end.answered else |Flatten(groups)|)
    requires forall j :: |rs| <= j < |full| ==> full[j] == Unattempted(o, end.why)
    ensures |full| <= |Flatten(groups)|
    ensures Account(o, stop, groups, grouped, rc, end, Finished(o, end, full), Flatten(groups)[|full|..], LastWord(log))
  {
    assert forall j :: 0 <= j < |rs| ==> full[j] == rs[j];
  }

  /** Blaming the upgrade for a plaintext rerun turns the rerun's account into the session's. */
  lemma AccountOfRerun(o: Options, stop: int, groups: seq<Group>, grouped: bool, rc: seq<Attempt>, end: Ending,
                       rs: seq<Result>, rest: seq<string>, last: Option<Event>, blame: Ending)
    requires Account(o, stop, groups, grouped, rc, end, rs, rest, last) && !end.rerun
    requires blame.tls.NoSession? && blame.rerun
    ensures Account(o, stop, groups, grouped, rc, end.(rerun := true), Finished(o, blame, rs), rest, last)
  {
  }

  /** What a session did to the log, apart from its account. */
  ghost predicate Conducted(o: Options, groups: seq<Group>, log: Log, log': Log, rc: seq<Attempt>, end: Ending,
                            verdicts: map<string, Verdict>)
  {
    true == (
      && AtRest(log') && Prefix(log, log')
      && Attempts(log') == Attempts(log) + rc
      && AddsOnly(log, log', groups)
      && AllHeard(o.words, log', groups, verdicts)
      && (Filled(groups) ==> Sparing(log, log', |groups|))
      && Unbidden(o, log') == Unbidden(o, log)
      && (!end.rerun && (end.why.Burned? || end.why.Unresolved? || end.why.NoLease?) ==> log' == log)
      && !end.tls.FailedTLS?
      && (end.tls in {Verified, Unverified} ==> Encrypted(log'))
      && (end.tls in {Plain, Fallback, Skipped} ==> !Encrypted(log')))
  }

  lemma ConductOfRerun(o: Options, groups: seq<Group>, log: Log, log': Log, rc: seq<Attempt>, end: Ending,
                       verdicts: map<string, Verdict>)
    requires Conducted(o, groups, log, log', rc, end, verdicts)
    ensures Conducted(o, groups, log, log', rc, end.(rerun := true), verdicts)
  {
  }

  /** A session that began a little earlier, with nothing asked in between. */
  lemma ConductedFrom(o: Options, groups: seq<Group>, log: Log, mid: Log, log': Log, rc: seq<Attempt>, end: Ending,
                      verdicts: map<string, Verdict>)
    requires Prelude(o, log, mid)
    requires Conducted(o, groups, mid, log', rc, end, verdicts)
    requires end.rerun || !(end.why.Burned? || end.why.Unresolved? || end.why.NoLease?)
    ensures Conducted(o, groups, log, log', rc, end, verdicts)
  {
    PrefixTransitive(log, mid, log');
    if Filled(groups) {
      SparingTransitive(log, mid, log', 1, |groups|);
    }
  }

  lemma WoundDown(o: Options, stop: int, groups: seq<Group>, grouped: bool, start: Log, was: Log, log': Log,
                  out: map<string, Result>, rc: seq<Attempt>, rs: seq<Result>, end: Ending, verdicts: map<string, Verdict>)
    requires Carried(o, groups, start, was, verdicts) && SparedSoFar(groups, start, was)
    requires Quiet(was, log') && AtRest(log') && LastWord(log') == LastWord(was) && Sparing(was, log', Mails(was))
    requires Stopped(o, stop, groups, grouped, Attempts(start), was, out, end.answered, end.why, rc, rs)
    requires !end.rerun && !end.why.Burned? && !end.why.Unresolved? && !end.why.NoLease?
    requires !end.tls.FailedTLS? && (end.tls in {Verified, Unverified} <==> Encrypted(start))
    ensures Stopped(o, stop, groups, grouped, Attempts(start), log', out, end.answered, end.why, rc, rs)
    ensures Conducted(o, groups, start, log', rc, end, verdicts)
  {
    QuietMeans(was, log');
    QuietBids(o, was, log');
    PrefixTransitive(start, was, log');
    AllHeardOn(o.words, was, log', groups, verdicts);
    if Filled(groups) {
      SparingTransitive(start, was, log', |groups|, Mails(was));
    }
    StoppedQuietly(o, stop, groups, grouped, Attempts(start), was, log', out, end.answered, end.why, rc, rs);
  }

  /** A session that never got a connection. */
  lemma NeverConnected(o: Options, groups: seq<Group>, log: Log, log': Log, end: Ending)
    requires AtRest(log') && Prelude(o, log, log')
    requires end.why.Burned? || end.why.Unresolved? || end.why.NoLease? ==> log' == log
    requires end.tls.NoSession?
    ensures Conducted(o, groups, log, log', [], end, map[])
  {
    assert Attempts(log) + [] == Attempts(log);
    if Filled(groups) {
      SparingMore(log, log', 1, |groups|);
    }
  }
}
