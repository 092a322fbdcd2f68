/** One SMTP session of the prober: connect, greet, perhaps upgrade, then one transaction per
    domain. The remote server, the resolver, the pacer and the TLS stack answer as they please: each
    answer is an unconstrained choice, so every contract here holds for all of them. */

// A predicate written `true == (A && B && ...)`, here and in other modules, means A && B && ... and no
// more. The form has the verifier prove it as one fact where it is required, rather than conjunct by
// conjunct at every call.
module SessionSpec {
  import opened Wrappers
  import opened Replies
  import opened Dialogue
  import opened CatchAll

  datatype Options = Options(
    words: Wording,
    deferralRetry: int,
    policyStop: int,
    policyStopMax: int,
    catchAllProbes: int,
    maxRcptPerSession: int,
    startTLS: bool,
    multiDomain: Option<string -> (string, bool)>)

  function DeferralRetry(o: Options): int {
    if o.deferralRetry > 0 then o.deferralRetry else 900
  }

  function Probes(o: Options): (n: nat)
    ensures n >= 1
  {
    if o.catchAllProbes > 0 then o.catchAllProbes else 2
  }

  function MaxRcpt(o: Options): (n: nat)
    ensures n >= 1
  {
    if o.maxRcptPerSession > 0 then o.maxRcptPerSession else 50
  }

  /** The family of an MX host, and whether it may be asked about several domains in one session now:
      cleared for it, and not one of the families that have `fallen` back. */
  function Grouping(o: Options, fallen: set<string>, host: string): (r: (string, bool))
    ensures r.1 ==> r.0 !in fallen && o.multiDomain.Some? && r == o.multiDomain.value(host)
    ensures o.multiDomain.Some? ==> r.0 == o.multiDomain.value(host).0
  {
    match o.multiDomain
    case None => ("", false)
    case Some(f) => (f(host).0, f(host).1 && f(host).0 !in fallen)
  }

  /** The most policy replies in a row a request may ask to have: its own bound, or the default. */
  function PolicyCeiling(o: Options): int {
    if o.policyStopMax <= 0 then o.policyStop else o.policyStopMax
  }

  /** How many policy replies in a row end the session, for a request that asked for `want`: never more than
      the ceiling in force, no fewer than asked for below it, and never one on the request's word alone. */
  function PolicyStopFor(o: Options, want: int): (stop: int)
    ensures want <= 0 ==> stop == o.policyStop
    ensures want > 0 ==> stop <= PolicyCeiling(o) && (stop < PolicyCeiling(o) ==> stop >= want)
    ensures want > 0 ==> stop == PolicyCeiling(o) || stop == want || (want == 1 && stop == 2)
    ensures want > 0 && stop == 1 ==> PolicyCeiling(o) == 1
  {
    if want <= 0 then o.policyStop
    else
      var want' := if want == 1 then 2 else want;
      if want' > PolicyCeiling(o) then PolicyCeiling(o) else want'
  }

  /** One domain's addresses inside one session. */
  datatype Group = Group(domain: string, addrs: seq<string>, askCatchAll: bool)

  function Flatten(groups: seq<Group>): seq<string> {
    if groups == [] then [] else Flatten(groups[..|groups| - 1]) + groups[|groups| - 1].addrs
  }

  lemma {:induction false} FlattenPrefix(groups: seq<Group>, k: nat)
    requires k <= |groups|
    ensures Flatten(groups[..k]) <= Flatten(groups)
    decreases |groups|
  {
    if k == |groups| {
      assert groups[..k] == groups;
    } else {
      assert groups[..|groups| - 1][..k] == groups[..k];
      FlattenPrefix(groups[..|groups| - 1], k);
    }
  }

  lemma PrefixIndex(pre: seq<string>, more: seq<string>, all: seq<string>)
    requires pre + more <= all
    ensures forall j :: 0 <= j < |more| ==> |pre| + j < |all| && all[|pre| + j] == more[j]
  {
    assert all[..|pre + more|] == pre + more;
    forall j | 0 <= j < |more| ensures |pre| + j < |all| && all[|pre| + j] == more[j] {
      assert (pre + more)[|pre| + j] == more[j];
    }
  }

  lemma FlattenStep(groups: seq<Group>, k: nat)
    requires k < |groups|
    ensures Flatten(groups[..k + 1]) == Flatten(groups[..k]) + groups[k].addrs
    ensures Flatten(groups[..k]) + groups[k].addrs <= Flatten(groups)
    ensures forall j :: 0 <= j < |groups[k].addrs| ==>
              |Flatten(groups[..k])| + j < |Flatten(groups)|
              && Flatten(groups)[|Flatten(groups[..k])| + j] == groups[k].addrs[j]
  {
    assert groups[..k + 1][..k] == groups[..k];
    FlattenPrefix(groups, k + 1);
    PrefixIndex(Flatten(groups[..k]), groups[k].addrs, Flatten(groups));
  }

  // ---------------------------------------------------------------- how a session can end

  datatype Why =
    | Complete
    | Burned                             // this node's own IP is stood down
    | Unresolved(kind: Class)
    | NoLease(kind: Class, wait: int)
    | NoBudgetLeft(kind: Class, wait: int)
    | NoDial(kind: Class)
    | Lost(kind: Class)                  // a step failed
    | TurnedAway(reply: Reply)           // refused at the banner, EHLO, MAIL FROM or RSET
    | PolicyStopped
    | Regroup(reason: Reason)            // the rest goes again, one domain per session

  /** Where a session ended: how many addresses were answered, why it went no further, how it was
      encrypted, and whether it is the plaintext rerun after a failed upgrade. */
  datatype Ending = Ending(answered: nat, why: Why, tls: TLSOutcome, rerun: bool)

  function NetClass(timeout: bool): Class {
    if timeout then Timeout else ConnError
  }

  /** What the pacer refused with: a pause with its remaining seconds, or no answer at all. */
  datatype PacerError = PausedFor(seconds: int) | NoAnswer

  function BudgetClass(e: PacerError): Class {
    if e.PausedFor? then Paused else NoBudget
  }

  function RetryAfterFor(o: Options, e: PacerError): int {
    match e
    case PausedFor(s) => ClampHint(s)
    case NoAnswer => RetryHint(o.words, NoBudget, "", DeferralRetry(o))
  }

  predicate OwnClass(why: Why) {
    match why
    case Unresolved(k) => k in {Guarded, Timeout, ConnError}
    case NoLease(k, _) => k in {Paused, NoBudget}
    case NoBudgetLeft(k, _) => k in {Paused, NoBudget}
    case NoDial(k) => k in {Timeout, ConnError}
    case Lost(k) => k in {Timeout, ConnError}
    case _ => true
  }

  function Blank(kind: Class, wait: int): Result {
    Result(Some(false), None, None, None, 0, kind, "", wait, NoSession)
  }

  /** What an address left unasked is told. */
  function Unattempted(o: Options, why: Why): (r: Result)
    requires OwnClass(why)
    ensures NonAnswer(r)
  {
    match why
    case Burned => Blank(IPBurned, 0)
    case Unresolved(k) => Blank(k, 0)
    case NoLease(k, wait) => Blank(k, wait)
    case NoBudgetLeft(k, wait) => Blank(k, wait)
    case NoDial(k) => Blank(k, 0)
    case Lost(k) => Blank(k, 0)
    case TurnedAway(r) =>
      var k := BeforeRcpt(o.words, r);
      Result(Some(false), None, None, None, r.code, k, r.text, RetryHint(o.words, k, r.text, DeferralRetry(o)), NoSession)
    case PolicyStopped => Blank(Policy, 0)
    case _ => Blank(Unknown, 0)
  }

  /** What one answered RCPT tells about its address. `foreign`: its domain was not the session's
      first. */
  function Answered(o: Options, r: Reply, foreign: bool): (res: Result)
    ensures Consistent(res) && res.connected == Some(true)
    ensures IsVerdict(res.kind) ==> res.kind == Classify(o.words, r) && res.code == r.code
  {
    if foreign && RelayRefusal(o.words, r) then RelayResult(o.words, r, DeferralRetry(o))
    else RcptResult(o.words, r, DeferralRetry(o))
  }

  function Stamp(tls: TLSOutcome, r: Result): Result {
    if tls.NoSession? then r else r.(tls := tls)
  }

  /** After a failed upgrade, a plaintext rerun that could not reach the server either is the
      upgrade's failure. */
  function BlameTLS(o: Options, r: Result): Result {
    if r.connected != Some(true) && r.kind in {ConnError, Timeout} then
      r.(kind := TLSFailed, tls := FailedTLS, retryAfter := RetryHint(o.words, TLSFailed, "", DeferralRetry(o)))
    else r
  }

  function Finish(o: Options, end: Ending, r: Result): Result {
    var s := Stamp(end.tls, r);
    if end.rerun then BlameTLS(o, s) else s
  }

  predicate Foreign(groups: seq<Group>, grouped: bool, j: int) {
    grouped && |groups| > 0 && j >= |groups[0].addrs|
  }

  /** How many of the last replies, in a row, were policy. */
  function PolicyRun(w: Wording, rc: seq<Attempt>): nat {
    if rc == [] || rc[|rc| - 1].answer.None? || Classify(w, rc[|rc| - 1].answer.value) != Policy then 0
    else PolicyRun(w, rc[..|rc| - 1]) + 1
  }

  // ---------------------------------------------------------------- tables of results

  /** The map the session fills, address by address: a repeated address keeps its last result. */
  ghost function Tabulate(addrs: seq<string>, rs: seq<Result>): map<string, Result>
    requires |rs| <= |addrs|
  {
    if rs == [] then map[]
    else Tabulate(addrs, rs[..|rs| - 1])[addrs[|rs| - 1] := rs[|rs| - 1]]
  }

  lemma TabulateSnoc(addrs: seq<string>, rs: seq<Result>, r: Result)
    requires |rs| < |addrs|
    ensures Tabulate(addrs, rs + [r]) == Tabulate(addrs, rs)[addrs[|rs|] := r]
  {
    assert (rs + [r])[..|rs|] == rs;
  }

  lemma {:induction false} TabulateKeys(addrs: seq<string>, rs: seq<Result>)
    requires |rs| <= |addrs|
    ensures Tabulate(addrs, rs).Keys == set j | 0 <= j < |rs| :: addrs[j]
  {
    if rs == [] {
    } else {
      TabulateKeys(addrs, rs[..|rs| - 1]);
    }
  }

  /** Every entry is the result of some position that holds its address. */
  lemma {:induction false} TabulateSource(addrs: seq<string>, rs: seq<Result>, a: string) returns (j: nat)
    requires |rs| <= |addrs| && a in Tabulate(addrs, rs)
    ensures j < |rs| && addrs[j] == a && Tabulate(addrs, rs)[a] == rs[j]
  {
    if addrs[|rs| - 1] == a {
      j := |rs| - 1;
    } else {
      j := TabulateSource(addrs, rs[..|rs| - 1], a);
    }
  }

  ghost function Finished(o: Options, end: Ending, rs: seq<Result>): (fs: seq<Result>)
    ensures |fs| == |rs|
    ensures forall j :: 0 <= j < |rs| ==> fs[j] == Finish(o, end, rs[j])
  {
    if rs == [] then [] else Finished(o, end, rs[..|rs| - 1]) + [Finish(o, end, rs[|rs| - 1])]
  }

  function FinishAll(o: Options, end: Ending, m: map<string, Result>): map<string, Result> {
    map a | a in m :: Finish(o, end, m[a])
  }

  lemma FinishUpdate(o: Options, end: Ending, m: map<string, Result>, a: string, r: Result)
    ensures FinishAll(o, end, m[a := r]) == FinishAll(o, end, m)[a := Finish(o, end, r)]
  {
  }

  lemma {:induction false} TabulateFinished(o: Options, end: Ending, addrs: seq<string>, rs: seq<Result>)
    requires |rs| <= |addrs|
    ensures Tabulate(addrs, Finished(o, end, rs)) == FinishAll(o, end, Tabulate(addrs, rs))
  {
    if rs == [] {
      assert FinishAll(o, end, map[]) == map[];
    } else {
      var init, last := rs[..|rs| - 1], rs[|rs| - 1];
      TabulateFinished(o, end, addrs, init);
      TabulateSnoc(addrs, Finished(o, end, init), Finish(o, end, last));
      FinishUpdate(o, end, Tabulate(addrs, init), addrs[|init|], last);
    }
  }

  // ---------------------------------------------------------------- what a session's results mean

  /** The session stands between connections, owing nothing. */
  ghost predicate AtRest(log: Log) {
    At(log).Some? && !At(log).value.leased && At(log).value.link.NoLink?
  }

  /** The session holds its lease and its connection stands at `link`. */
  ghost predicate Holds(log: Log, link: Link) {
    At(log).Some? && At(log).value.leased && At(log).value.link == link
  }

  /** The attempts `rc` went through the addresses in order, one each: the first `n` were answered,
      and at most one more was asked. */
  ghost predicate InOrder(addrs: seq<string>, rc: seq<Attempt>, n: nat) {
    && n <= |rc| <= n + 1
    && |rc| <= |addrs|
    && (forall j :: 0 <= j < |rc| ==> rc[j].addr == addrs[j])
    && (forall j :: 0 <= j < n ==> rc[j].answer.Some?)
  }

  /** The first `n` results are what the replies say. */
  ghost predicate Told(o: Options, groups: seq<Group>, grouped: bool, rc: seq<Attempt>, n: nat, rs: seq<Result>)
    requires n <= |rc| && (forall j :: 0 <= j < n ==> rc[j].answer.Some?)
  {
    && n <= |rs|
    && forall j :: 0 <= j < n ==> rs[j] == Answered(o, rc[j].answer.value, Foreign(groups, grouped, j))
  }

  /** None of the first `n` replies was one that ends the session: not a refusal of a further domain,
      and not the last of a run of policy replies as long as the ceiling. */
  ghost predicate NothingMissed(o: Options, stop: int, groups: seq<Group>, grouped: bool, rc: seq<Attempt>, n: nat)
    requires n <= |rc| && (forall j :: 0 <= j < n ==> rc[j].answer.Some?)
  {
    && (forall j :: 0 <= j < n && Foreign(groups, grouped, j) ==>
          !RelayRefusal(o.words, rc[j].answer.value) && !DomainLimitRefusal(o.words, rc[j].answer.value))
    && (forall j :: 1 <= j <= n ==> stop <= 0 || PolicyRun(o.words, rc[..j]) < stop)
  }

  /** No address to dial, or none that answered. */
  ghost predicate Undialled(last: Option<Event>) {
    last == Some(Token) || (last.Some? && last.value.Dialled? && !last.value.up)
  }

  /** The reason a session gives for ending is the reason the log shows. */
  ghost predicate Justified(o: Options, stop: int, groups: seq<Group>, grouped: bool, rc: seq<Attempt>, n: nat, why: Why,
                            last: Option<Event>)
    requires InOrder(Flatten(groups), rc, n)
  {
    true == (
      && OwnClass(why)
      && (|rc| == n + 1 ==> why.Lost? || why == Regroup(DomainLimit))
      && match why
         case Complete => n == |Flatten(groups)|
         case NoBudgetLeft(_, _) => last == Some(NoToken)
         case NoDial(_) => Undialled(last)
         case Lost(_) => last.Some? && last.value.Ask? && last.value.answer.None?
         case TurnedAway(r) =>
           && last.Some? && last.value.Ask? && last.value.answer == Some(r) && !Costs(last.value.cmd)
           && (last.value.cmd.Banner? ==> r.code != 220)
           && (!last.value.cmd.Banner? ==> r.code != 250)
           && (n > 0 || last.value.cmd.Rset? ==> r.code == 421 || IsThrottle(BeforeRcpt(o.words, r)))
         case PolicyStopped => n > 0 && 0 < stop <= PolicyRun(o.words, rc[..n])
         case Regroup(reason) =>
           && last == Some(FellBack(reason))
           && grouped && |groups| > 0 && n >= |groups[0].addrs|
           && (reason.Relay? ==> n > 0 && Foreign(groups, grouped, n - 1) && RelayRefusal(o.words, rc[n - 1].answer.value))
           && (reason.DomainLimit? ==>
                 && |rc| == n + 1 && rc[n].answer.Some?
                 && !RelayRefusal(o.words, rc[n].answer.value) && DomainLimitRefusal(o.words, rc[n].answer.value))
         case _ => n == 0)
  }

  /** The answers after which the session went on. */
  ghost function WentOn(n: nat, why: Why): nat {
    if n > 0 && (why.PolicyStopped? || why == Regroup(Relay)) then n - 1 else n
  }

  /** The whole account of a session: the attempts it made, the result at every position, and what
      it handed back. */
  ghost predicate Account(o: Options, stop: int, groups: seq<Group>, grouped: bool, rc: seq<Attempt>, end: Ending,
                          rs: seq<Result>, rest: seq<string>, last: Option<Event>)
  {
    true == (
      var addrs := Flatten(groups);
      && InOrder(addrs, rc, end.answered)
      && Justified(o, stop, groups, grouped, rc, end.answered, end.why, last)
      && NothingMissed(o, stop, groups, grouped, rc, WentOn(end.answered, end.why))
      && |rs| == (if end.why.Regroup? then end.answered else |addrs|)
      && rest == addrs[|rs|..]
      && forall j :: 0 <= j < |rs| ==>
           rs[j] == Finish(o, end, if j < end.answered then Answered(o, rc[j].answer.value, Foreign(groups, grouped, j))
                                   else Unattempted(o, end.why)))
  }

  /** The open transaction is for `d`, and its bogus RCPTs so far say `v`. */
  ghost predicate Reads(w: Wording, log: Log, d: string, v: Verdict) {
    At(log).Some? && At(log).value.link == Open(d) && v == Settle(Bits(w, BogusReplies(log)))
  }

  /** The bogus RCPTs of some transaction of `d` that is over, all of them, said `v`. */
  ghost predicate Past(w: Wording, log: Log, d: string, v: Verdict) {
    log.Then? &&
    (|| Past(w, log.before, d, v)
     || (Reads(w, log.before, d, v) && !(At(log).Some? && At(log).value.link.Open?)))
  }

  /** The verdict `v` about `d` was read from all the bogus RCPTs of some transaction of `d`, the open one
      or one that is over. */
  ghost predicate Heard(w: Wording, log: Log, d: string, v: Verdict) {
    Past(w, log, d, v) || Reads(w, log, d, v)
  }

  lemma {:induction false} PastLater(w: Wording, log: Log, log': Log, d: string, v: Verdict)
    requires Past(w, log, d, v) && Prefix(log, log')
    ensures Past(w, log', d, v)
    decreases log'
  {
    if log == log' {
    } else {
      PastLater(w, log, log'.before, d, v);
    }
  }

  /** Between sessions nothing heard is forgotten. */
  lemma HeardLater(w: Wording, log: Log, log': Log, d: string, v: Verdict)
    requires Heard(w, log, d, v) && AtRest(log) && Prefix(log, log')
    ensures Heard(w, log', d, v)
  {
    PastLater(w, log, log', d, v);
  }

  /** From `log` to `log'` no bogus address was asked about. */
  ghost predicate NoBogus(log: Log, log': Log) {
    log == log' || (log'.Then? && !(log'.event.Ask? && log'.event.cmd.Bogus?) && NoBogus(log, log'.before))
  }

  /** Nor within a transaction, while no further bogus address is asked about. */
  lemma {:induction false} HeardOn(w: Wording, log: Log, log': Log, d: string, v: Verdict)
    requires Heard(w, log, d, v) && NoBogus(log, log') && At(log').Some?
    ensures Heard(w, log', d, v)
    decreases log'
  {
    if log == log' {
    } else {
      HeardOn(w, log, log'.before, d, v);
    }
  }

  /** The address and domain of every RCPT for a real address. */
  ghost function Pairs(log: Log): set<(string, string)> {
    if log.Start? then {}
    else if log.event.Ask? && log.event.cmd.Rcpt? then
      Pairs(log.before) + {(log.event.cmd.addr, log.event.cmd.domain)}
    else Pairs(log.before)
  }

  ghost predicate Named(groups: seq<Group>, a: string, d: string) {
    exists g :: g in groups && g.domain == d && a in g.addrs
  }

  /** The domains bogus addresses were asked about. */
  ghost function Questions(log: Log): set<string> {
    if log.Start? then {}
    else if log.event.Ask? && log.event.cmd.Bogus? then Questions(log.before) + {log.event.cmd.domain}
    else Questions(log.before)
  }

  /** Some group of the domain has its catch-all question to ask. */
  ghost predicate Inquires(groups: seq<Group>, d: string) {
    exists g :: g in groups && g.domain == d && g.askCatchAll
  }

  /** Every RCPT since `log` is for an address of the group whose domain it is asked under, or a bogus one
      for a domain whose catch-all question is to be asked. */
  ghost predicate AddsOnly(log: Log, log': Log, groups: seq<Group>) {
    && (forall p :: p in Pairs(log') && p !in Pairs(log) ==> Named(groups, p.0, p.1))
    && (forall d :: d in Questions(log') && d !in Questions(log) ==> Inquires(groups, d))
  }

  /** The last thing read was the answer to an EHLO, and it calls for the upgrade: STARTTLS is switched on
      and offered. */
  ghost predicate Bidden(o: Options, log: Log) {
    && log.Then? && log.event.Ask? && log.event.cmd.Ehlo? && Says(log.event.answer, 250)
    && o.startTLS && o.words.offersTLS(log.event.answer.value.text)
  }

  /** How often STARTTLS was sent uncalled for. */
  ghost function Unbidden(o: Options, log: Log): nat {
    if log.Start? then 0
    else
      Unbidden(o, log.before)
      + (if log.event.Ask? && log.event.cmd.StartTLS? && !Bidden(o, log.before) then 1 else 0)
  }

  /** The connection in use at the end of the log was upgraded. */
  ghost predicate Encrypted(log: Log) {
    if log.Start? || log.event.Dialled? then false
    else if log.event.Handshake? then log.event.up
    else Encrypted(log.before)
  }

  // ---------------------------------------------------------------- stretches of a log

  /** Neither a connection nor a transaction begins or ends here, and no bogus address is asked about. */
  predicate Mild(e: Event) {
    && !e.Dialled? && !e.Closed? && !e.Handshake?
    && !(e.Ask? && (e.cmd.MailFrom? || e.cmd.Rset? || e.cmd.Bogus? || e.cmd.StartTLS?))
  }

  /** From `log` to `log'` real addresses of one transaction were asked about, and nothing else. */
  ghost predicate Steady(log: Log, log': Log) {
    log == log' || (log'.Then? && Mild(log'.event) && Steady(log, log'.before))
  }

  lemma SteadyOn(log: Log, log': Log, e: Event)
    requires Steady(log, log') && Mild(e)
    ensures Steady(log, Then(log', e))
  {
  }

  /** From `log` to `log'` no connection saw more than `n` MAIL FROMs, and no transaction was reset in which
      no real address had been answered about. */
  ghost predicate Sparing(log: Log, log': Log, n: nat) {
    log == log' ||
    (&& log'.Then? && Mails(log') <= n
     && (log'.event.Ask? && log'.event.cmd.Rset? ==> Answers(log'.before) >= 1)
     && Sparing(log, log'.before, n))
  }

  lemma {:induction false} SteadyMeans(log: Log, log': Log)
    requires Steady(log, log')
    ensures Prefix(log, log') && NoBogus(log, log') && Encrypted(log') == Encrypted(log)
    ensures Mails(log') == Mails(log) && BogusReplies(log') == BogusReplies(log) && Questions(log') == Questions(log)
    ensures forall n :: n >= Mails(log) ==> Sparing(log, log', n)
    decreases log'
  {
    if log == log' {
    } else {
      SteadyMeans(log, log'.before);
    }
  }

  lemma {:induction false} SteadyTransitive(a: Log, b: Log, c: Log)
    requires Steady(a, b) && Steady(b, c)
    ensures Steady(a, c)
    decreases c
  {
    if b == c {
    } else {
      SteadyTransitive(a, b, c.before);
    }
  }

  /** From `log` to `log'` no address was asked about and no connection was made or upgraded. */
  ghost predicate Quiet(log: Log, log': Log) {
    || log == log'
    || (log'.Then? && !log'.event.Dialled? && !log'.event.Handshake?
        && !(log'.event.Ask? && (Costs(log'.event.cmd) || log'.event.cmd.StartTLS?)) && Quiet(log, log'.before))
  }

  lemma {:induction false} QuietMeans(log: Log, log': Log)
    requires Quiet(log, log')
    ensures Prefix(log, log') && NoBogus(log, log') && Encrypted(log') == Encrypted(log)
    ensures Attempts(log') == Attempts(log) && Pairs(log') == Pairs(log) && Questions(log') == Questions(log)
    decreases log'
  {
    if log == log' {
    } else {
      QuietMeans(log, log'.before);
    }
  }

  lemma {:induction false} QuietTransitive(a: Log, b: Log, c: Log)
    requires Quiet(a, b) && Quiet(b, c)
    ensures Quiet(a, c)
    decreases c
  {
    if b == c {
    } else {
      QuietTransitive(a, b, c.before);
    }
  }

  lemma {:induction false} SteadyBids(o: Options, log: Log, log': Log)
    requires Steady(log, log')
    ensures Unbidden(o, log') == Unbidden(o, log)
    decreases log'
  {
    if log == log' {
    } else {
      SteadyBids(o, log, log'.before);
    }
  }

  lemma {:induction false} QuietBids(o: Options, log: Log, log': Log)
    requires Quiet(log, log')
    ensures Unbidden(o, log') == Unbidden(o, log)
    decreases log'
  {
    if log == log' {
    } else {
      QuietBids(o, log, log'.before);
    }
  }

  /** From `log` to `log'` bogus addresses of `d` were asked about, and nothing else. */
  ghost predicate Musing(log: Log, log': Log, d: string) {
    log == log' ||
    (&& log'.Then? && Musing(log, log'.before, d)
     && (log'.event.Token? || log'.event.NoToken?
         || (log'.event.Ask? && log'.event.cmd.Bogus? && log'.event.cmd.domain == d)))
  }

  lemma {:induction false} MusingBids(o: Options, log: Log, log': Log, d: string)
    requires Musing(log, log', d)
    ensures Unbidden(o, log') == Unbidden(o, log)
    decreases log'
  {
    if log == log' {
    } else {
      MusingBids(o, log, log'.before, d);
    }
  }

  /** From `log` to `log'` the connection was opened and nothing asked. */
  ghost predicate Formal(log: Log, log': Log) {
    log == log' ||
    (&& log'.Then? && Formal(log, log'.before)
     && (log'.event.Handshake?
         || (log'.event.Ask? && (log'.event.cmd.Banner? || log'.event.cmd.Ehlo? || log'.event.cmd.StartTLS?))))
  }

  lemma {:induction false} FormalMeans(log: Log, log': Log)
    requires Formal(log, log')
    ensures Prefix(log, log') && Attempts(log') == Attempts(log) && Pairs(log') == Pairs(log)
    ensures Questions(log') == Questions(log) && Mails(log') == Mails(log)
    ensures forall n :: n >= Mails(log) ==> Sparing(log, log', n)
    decreases log'
  {
    if log == log' {
    } else {
      FormalMeans(log, log'.before);
    }
  }

  lemma {:induction false} MusingMeans(log: Log, log': Log, d: string)
    requires Musing(log, log', d)
    ensures Prefix(log, log') && Encrypted(log') == Encrypted(log)
    ensures Attempts(log') == Attempts(log) && Pairs(log') == Pairs(log) && Questions(log') <= Questions(log) + {d}
    ensures Mails(log') == Mails(log) && Answers(log') == Answers(log)
    ensures forall n :: n >= Mails(log) ==> Sparing(log, log', n)
    decreases log'
  {
    if log == log' {
    } else {
      MusingMeans(log, log'.before, d);
    }
  }

  lemma {:induction false} MusingTransitive(a: Log, b: Log, c: Log, d: string)
    requires Musing(a, b, d) && Musing(b, c, d)
    ensures Musing(a, c, d)
    decreases c
  {
    if b == c {
    } else {
      MusingTransitive(a, b, c.before, d);
    }
  }

  lemma {:induction false} SparingMore(log: Log, log': Log, m: nat, n: nat)
    requires Sparing(log, log', m) && m <= n
    ensures Sparing(log, log', n)
    decreases log'
  {
    if log == log' {
    } else {
      SparingMore(log, log'.before, m, n);
    }
  }

  lemma {:induction false} SparingTransitive(a: Log, b: Log, c: Log, m: nat, n: nat)
    requires Sparing(a, b, m) && Sparing(b, c, n)
    ensures Sparing(a, c, if m > n then m else n)
    decreases c
  {
    if b == c {
      SparingMore(a, b, m, if m > n then m else n);
    } else {
      SparingTransitive(a, b, c.before, m, n);
    }
  }

  /** From `log` to `log'` no address was asked about, no connection saw more than one MAIL FROM, and no
      STARTTLS was sent uncalled for. */
  ghost predicate Prelude(o: Options, log: Log, log': Log) {
    true == (
      && Prefix(log, log') && Attempts(log') == Attempts(log) && Pairs(log') == Pairs(log)
      && Questions(log') == Questions(log) && Sparing(log, log', 1) && Unbidden(o, log') == Unbidden(o, log))
  }

  lemma PreludeTransitive(o: Options, a: Log, b: Log, c: Log)
    requires Prelude(o, a, b) && Prelude(o, b, c)
    ensures Prelude(o, a, c)
  {
    PrefixTransitive(a, b, c);
    SparingTransitive(a, b, c, 1, 1);
  }

  lemma QuietPrelude(o: Options, log: Log, log': Log)
    requires Quiet(log, log') && Sparing(log, log', 1)
    ensures Prelude(o, log, log')
  {
    QuietMeans(log, log');
    QuietBids(o, log, log');
  }

  lemma FormalPrelude(o: Options, log: Log, log': Log)
    requires Formal(log, log') && Mails(log) <= 1 && Unbidden(o, log') == Unbidden(o, log)
    ensures Prelude(o, log, log') && Mails(log') == Mails(log)
  {
    FormalMeans(log, log');
  }

  /** Without a connection there is none to have sent a MAIL FROM on, or a RCPT. */
  lemma {:induction false} NoMails(log: Log)
    requires At(log).Some? && At(log).value.link.NoLink?
    ensures Mails(log) == 0 && Tried(log) == 0
  {
    if log.Then? && !log.event.Dialled? && !log.event.Closed? {
      NoMails(log.before);
    }
  }

  /** Between two moments, the first without a connection, no connection saw more RCPTs for real addresses
      than there were. */
  lemma {:induction false} TriedWithin(log: Log, log': Log)
    requires AtRest(log) && Prefix(log, log')
    ensures |Attempts(log)| + Tried(log') <= |Attempts(log')|
    ensures MostTried(log') <= MostTried(log) || |Attempts(log)| + MostTried(log') <= |Attempts(log')|
    decreases log'
  {
    if log == log' {
      NoMails(log);
    } else {
      TriedWithin(log, log'.before);
    }
  }

  /** No bogus address is of the empty domain. */
  lemma {:induction false} QuestionsNamed(log: Log)
    requires At(log).Some?
    ensures "" !in Questions(log)
  {
    if log.Start? {
    } else {
      QuestionsNamed(log.before);
    }
  }

  /** The stretch of one transaction, asking only about addresses of `groups`. */
  ghost predicate Continued(groups: seq<Group>, log: Log, log': Log) {
    true == (Steady(log, log') && AddsOnly(log, log', groups))
  }

  lemma ContinuedMore(groups: seq<Group>, log: Log, mid: Log, log': Log, a: string, d: string)
    requires Continued(groups, log, mid) && Steady(mid, log')
    requires Pairs(log') <= Pairs(mid) + {(a, d)} && Named(groups, a, d)
    ensures Continued(groups, log, log')
  {
    SteadyTransitive(log, mid, log');
    SteadyMeans(mid, log');
  }
}
