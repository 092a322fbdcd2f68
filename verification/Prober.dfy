/** The prober's session as it runs: nested loops over groups and addresses, with many ways out. */
module Prober {
  import opened Wrappers
  import opened Replies
  import opened Hosts
  import opened Dialogue
  import opened CatchAll
  import opened SessionSpec
  import opened SessionSteps

  /** Writes one command and reads one reply; both can fail, and the reply is whatever was next. */
  method Step(log: Log, cmd: Command) returns (answer: Option<Reply>, kind: Class, log': Log)
    requires At(log).Some? && At(log).value.leased && Talk(At(log).value.link, cmd, None).Some?
    requires Costs(cmd) ==> At(log).value.credit > 0
    ensures log' == Then(log, Ask(cmd, answer)) && At(log').Some?
    ensures kind in {Timeout, ConnError}
  {
    answer := *;
    var timeout: bool := *;
    kind := NetClass(timeout);
    log' := Then(log, Ask(cmd, answer));
  }

  /** Asks the pacer for one token. */
  method Acquire(log: Log) returns (refusal: Option<PacerError>, log': Log)
    requires At(log).Some? && At(log).value.leased
    ensures log' == Then(log, if refusal.None? then Token else NoToken) && At(log').Some?
    ensures Quiet(log, log')
  {
    refusal := *;
    log' := Then(log, if refusal.None? then Token else NoToken);
  }

  /** The log once the addresses tried were dialled in turn, none but perhaps the last answering. */
  ghost function Dials(log: Log, tried: seq<string>, up: bool): Log {
    if tried == [] then log
    else Then(Dials(log, tried[..|tried| - 1], false), Dialled(tried[|tried| - 1], up))
  }

  lemma {:induction false} DialsMean(o: Options, log: Log, tried: seq<string>, up: bool)
    requires At(log).Some? && At(log).value.leased && At(log).value.link.NoLink? && At(log).value.credit > 0
    requires LastWord(log) == Some(Token) && Mails(log) == 0 && (up ==> tried != [])
    ensures var log' := Dials(log, tried, up);
            && (up ==> At(log') == Some(At(log).value.(link := Opened)) && !Encrypted(log'))
            && (!up ==> At(log') == At(log) && Undialled(LastWord(log')))
            && Mails(log') == 0 && Prelude(o, log, log')
  {
    if tried == [] {
    } else {
      DialsMean(o, log, tried[..|tried| - 1], false);
    }
  }

  /** Tries the vetted addresses in order until one answers. */
  method DialAny(addrs: seq<string>, log: Log) returns (up: bool, kind: Class, log': Log, ghost tried: nat)
    ensures tried <= |addrs| && log' == Dials(log, addrs[..tried], up)
    ensures if up then tried > 0 else tried == |addrs|
    ensures kind in {Timeout, ConnError}
  {
    up, kind, log', tried := false, ConnError, log, 0;
    for k := 0 to |addrs|
      invariant !up && tried == k && log' == Dials(log, addrs[..k], false)
      invariant kind in {Timeout, ConnError}
    {
      up := *;
      var timeout: bool := *;
      kind := NetClass(timeout);
      assert addrs[..k + 1][..k] == addrs[..k];
      log', tried := Then(log', Dialled(addrs[k], up)), k + 1;
      if up {
        return;
      }
    }
  }

  /** Everything before the first byte: health, resolver, lease, token, dial. A refusal of our own
      leaves no trace at all; one after the lease gives the lease back. */
  method Connect(o: Options, log: Log) returns (why: Why, log': Log)
    requires AtRest(log)
    ensures why.Complete? ==> Holds(log', Opened) && At(log').value.credit > 0 && !Encrypted(log') && Mails(log') == 0
    ensures !why.Complete? ==> AtRest(log')
    ensures why.Complete? || why.Burned? || why.Unresolved? || why.NoLease? || why.NoBudgetLeft? || why.NoDial?
    ensures OwnClass(why)
    ensures why.Burned? || why.Unresolved? || why.NoLease? ==> log' == log
    ensures why.NoBudgetLeft? ==> LastWord(log') == Some(NoToken)
    ensures why.NoDial? ==> Undialled(LastWord(log'))
    ensures Prelude(o, log, log')
  {
    log' := log;
    NoMails(log);
    var burned: bool := *;
    if burned {
      return Burned, log;
    }
    var unresolved: bool, guarded: bool, timeout: bool := *, *, *;
    if unresolved {
      return Unresolved(if guarded then Guarded else NetClass(timeout)), log;
    }
    var addrs: seq<string> := *;
    var refusal: Option<PacerError> := *;
    if refusal.Some? {
      return NoLease(BudgetClass(refusal.value), RetryAfterFor(o, refusal.value)), log;
    }
    log' := Then(log, Leased);
    refusal, log' := Acquire(log');
    assert Quiet(log, log') && Sparing(log, log', 1);
    if refusal.Some? {
      why := NoBudgetLeft(BudgetClass(refusal.value), RetryAfterFor(o, refusal.value));
      log' := Then(log', Released);
      QuietPrelude(o, log, log');
      return;
    }
    ghost var mid := log';
    QuietPrelude(o, log, mid);
    var up, kind;
    ghost var tried;
    up, kind, log', tried := DialAny(addrs, log');
    DialsMean(o, mid, addrs[..tried], up);
    PreludeTransitive(o, log, mid, log');
    if !up {
      why := NoDial(kind);
      mid := log';
      log' := Then(log', Released);
      QuietPrelude(o, mid, log');
      PreludeTransitive(o, log, mid, log');
      return;
    }
    why := Complete;
  }

  /** The link after a command that turned us away or failed. */
  ghost predicate Over(o: Options, log: Log, why: Why) {
    && At(log).Some? && At(log).value.leased && !At(log).value.link.NoLink?
    && OwnClass(why)
    && match why
       case Lost(_) => LastWord(log).Some? && LastWord(log).value.Ask? && LastWord(log).value.answer.None?
       case TurnedAway(r) =>
         var last := LastWord(log);
         && last.Some? && last.value.Ask? && last.value.answer == Some(r) && !Costs(last.value.cmd)
         && (last.value.cmd.Banner? ==> r.code != 220)
         && (!last.value.cmd.Banner? ==> r.code != 250)
         && !last.value.cmd.Rset?
       case _ => false
  }

  /** One command of the opening, with the code that lets the session go on. */
  method Expect(o: Options, log: Log, cmd: Command, code: int) returns (why: Why, text: string, log': Log)
    requires At(log).Some? && At(log).value.leased && Talk(At(log).value.link, cmd, None).Some?
    requires !Costs(cmd) && !cmd.Rset? && !cmd.StartTLS?
    requires code == if cmd.Banner? then 220 else 250
    ensures why.Complete? ==> log' == Then(log, Ask(cmd, Some(Reply(code, text))))
    ensures !why.Complete? ==> Over(o, log', why)
    ensures At(log').Some? && At(log').value.credit == At(log).value.credit && At(log').value.leased
    ensures log'.Then? && log'.before == log && log'.event.Ask? && log'.event.cmd == cmd
  {
    var answer, kind;
    text := "";
    answer, kind, log' := Step(log, cmd);
    if answer.None? {
      return Lost(kind), text, log';
    }
    if answer.value.code != code {
      return TurnedAway(answer.value), text, log';
    }
    why, text := Complete, answer.value.text;
  }

  /** Since `log` the STARTTLS went unanswered, or the handshake after it failed. */
  ghost predicate UpgradeFailed(log: Log, log': Log) {
    || log' == Then(log, Ask(StartTLS, None))
    || (&& log'.Then? && log'.event == Handshake(false) && log'.before.Then? && log'.before.before == log
        && log'.before.event.Ask? && log'.before.event.cmd.StartTLS? && Says(log'.before.event.answer, 220))
  }

  /** STARTTLS and the handshake: refused, failed, or done. */
  method Upgrade(ghost o: Options, log: Log) returns (tls: TLSOutcome, again: bool, log': Log)
    requires Holds(log, Introduced(true)) && !Encrypted(log) && Bidden(o, log)
    ensures again <==> UpgradeFailed(log, log')
    ensures tls in {Verified, Unverified, Fallback} && log' != log && Formal(log, log') && Unbidden(o, log') == Unbidden(o, log)
    ensures if again then Holds(log', Dead) else if tls == Fallback then Holds(log', Introduced(false)) else Holds(log', Shaken)
    ensures At(log').value.credit == At(log).value.credit
    ensures !again ==> (Encrypted(log') <==> tls != Fallback)
  {
    var answer, kind;
    answer, kind, log' := Step(log, StartTLS);
    tls, again := Fallback, false;
    if answer.Some? && answer.value.code != 220 {
      return;
    }
    if answer.None? {
      again := true;
      return;
    }
    var up: bool := *;
    log' := Then(log', Handshake(up));
    if !up {
      again := true;
      return;
    }
    var verified: bool := *;
    tls := if verified then Verified else Unverified;
  }

  /** STARTTLS when offered: carried on in plaintext when refused, given up for a plaintext rerun exactly
      when the upgrade failed. */
  method Secure(o: Options, skipTLS: bool, offered: bool, log: Log)
    returns (why: Why, tls: TLSOutcome, again: bool, log': Log)
    requires Holds(log, Introduced(true)) && !Encrypted(log) && (o.startTLS && offered ==> Bidden(o, log))
    ensures again <==> UpgradeFailed(log, log')
    ensures skipTLS || !o.startTLS || !offered ==> log' == log && why.Complete?
    ensures !skipTLS && o.startTLS && offered && tls != Skipped ==> log' != log
    ensures Unbidden(o, log') == Unbidden(o, log)
    ensures again ==> !skipTLS && Holds(log', Dead)
    ensures !again && why.Complete? ==> At(log').Some? && At(log').value.leased && At(log').value.link.Introduced?
    ensures !again && !why.Complete? ==> Over(o, log', why)
    ensures At(log').Some? && At(log').value.credit == At(log).value.credit && Formal(log, log')
    ensures !tls.NoSession? && !tls.FailedTLS?
    ensures !again ==> (tls in {Verified, Unverified} <==> Encrypted(log'))
    ensures skipTLS ==> tls == Fallback
  {
    why, again, log' := Complete, false, log;
    if skipTLS {
      tls := Fallback;
      return;
    }
    if !o.startTLS || !offered {
      tls := Plain;
      return;
    }
    var broken: bool := *;
    if broken {
      tls := Skipped;
      return;
    }
    tls, again, log' := Upgrade(o, log);
    if again || tls == Fallback {
      return;
    }
    var text;
    why, text, log' := Expect(o, log', Ehlo, 250);
  }

  /** The receiver refused a further transaction. */
  method GiveUpGrouping(log: Log) returns (log': Log)
    requires At(log).Some? && At(log).value.leased && At(log).value.link.Balked?
    ensures At(log').Some? && At(log').value == At(log).value.(link := Parted)
    ensures LastWord(log') == Some(FellBack(SecondMail)) && Quiet(log, log')
    ensures Mails(log') == Mails(log) && Sparing(log, log', Mails(log))
  {
    log' := Then(log, FellBack(SecondMail));
    assert At(log').Some? && Quiet(log, log');
    log' := Then(log', Goodbye);
  }

  ghost predicate Reopening(o: Options, log: Log, why: Why) {
    var last := LastWord(log);
    && OwnClass(why)
    && match why
       case Complete => true
       case Lost(_) => last.Some? && last.value.Ask? && last.value.answer.None?
       case TurnedAway(r) =>
         && last.Some? && last.value.Ask? && last.value.answer == Some(r)
         && (last.value.cmd.Rset? || last.value.cmd.MailFrom?)
         && r.code != 250
         && (r.code == 421 || IsThrottle(BeforeRcpt(o.words, r)))
       case Regroup(reason) => reason == SecondMail && last == Some(FellBack(SecondMail))
       case _ => false
  }

  /** One command of a further transaction's opening. A receiver that refuses it has refused
      grouping, unless it is throttling us. */
  method Reopen(o: Options, cmd: Command, log: Log) returns (why: Why, log': Log)
    requires At(log).Some? && At(log).value.leased && Talk(At(log).value.link, cmd, None).Some?
    requires (cmd.Rset? && At(log).value.link.Open?) || (cmd.MailFrom? && At(log).value.link.Cleared?)
    ensures At(log').Some? && At(log').value.credit == At(log).value.credit && At(log').value.leased
    ensures !At(log').value.link.NoLink?
    ensures why.Complete? ==> log'.Then? && log'.before == log && log'.event.Ask? && log'.event.cmd == cmd && Says(log'.event.answer, 250)
    ensures Reopening(o, log', why)
    ensures Quiet(log, log')
    ensures Mails(log') == Mails(log) + (if cmd.MailFrom? then 1 else 0)
    ensures (cmd.Rset? ==> Answers(log) >= 1) ==> Sparing(log, log', Mails(log'))
  {
    var answer, kind;
    answer, kind, log' := Step(log, cmd);
    assert Quiet(log, log') && ((cmd.Rset? ==> Answers(log) >= 1) ==> Sparing(log, log', Mails(log')));
    if answer.None? {
      return Lost(kind), log';
    }
    if answer.value.code == 250 {
      return Complete, log';
    }
    if answer.value.code == 421 || IsThrottle(BeforeRcpt(o.words, answer.value)) {
      return TurnedAway(answer.value), log';
    }
    ghost var mid := log';
    log' := GiveUpGrouping(log');
    QuietTransitive(log, mid, log');
    if cmd.Rset? ==> Answers(log) >= 1 {
      SparingTransitive(log, mid, log', Mails(mid), Mails(mid));
    }
    why := Regroup(SecondMail);
  }

  /** Opens the next domain's transaction in the same connection: RSET, then MAIL FROM. */
  method NextTransaction(o: Options, domain: string, log: Log) returns (why: Why, log': Log)
    requires At(log).Some? && At(log).value.leased && At(log).value.link.Open?
    ensures At(log').Some? && At(log').value.credit == At(log).value.credit && At(log').value.leased
    ensures !At(log').value.link.NoLink?
    ensures why.Complete? ==> At(log').value.link == Open(domain) && BogusReplies(log') == [] && Reopened(log, log', domain)
    ensures Reopening(o, log', why)
    ensures Quiet(log, log')
    ensures Mails(log) <= Mails(log') <= Mails(log) + 1
    ensures Answers(log) >= 1 ==> Sparing(log, log', Mails(log'))
  {
    why, log' := Reopen(o, Rset, log);
    if !why.Complete? {
      return;
    }
    ghost var mid := log';
    why, log' := Reopen(o, MailFrom(domain), log');
    QuietTransitive(log, mid, log');
    if Answers(log) >= 1 {
      SparingTransitive(log, mid, log', Mails(mid), Mails(log'));
    }
  }

  // ---------------------------------------------------------------- the catch-all question

  /** A random local part before the domain, or nothing when there is no domain or no randomness. */
  method BogusAddress(domain: string) returns (addr: Option<string>)
    ensures addr.Some? ==> domain != "" && BogusFor(addr.value, domain)
  {
    addr := None;
    var entropy: bool := *;
    var local: string := *;
    if domain != "" && entropy && |local| == LOCAL_LENGTH && IsHex(local) {
      var a := local + AtDomain(domain);
      assert a[..LOCAL_LENGTH] == local && a[LOCAL_LENGTH..] == AtDomain(domain);
      addr := Some(a);
    }
  }

  ghost predicate SomeValid(addrs: seq<string>, out: map<string, Result>) {
    exists a :: a in addrs && a in out && out[a].kind == Valid
  }

  method AnyValid(addrs: seq<string>, out: map<string, Result>) returns (any: bool)
    ensures any <==> SomeValid(addrs, out)
  {
    any := false;
    for k := 0 to |addrs|
      invariant !any
      invariant forall j :: 0 <= j < k ==> !(addrs[j] in out && out[addrs[j]].kind == Valid)
    {
      if addrs[k] in out && out[addrs[k]].kind == Valid {
        return true;
      }
    }
  }

  /** The token and the bogus RCPT. */
  method SendBogus(addr: string, domain: string, log: Log) returns (answer: Option<Reply>, log': Log)
    requires Holds(log, Open(domain)) && BogusFor(addr, domain)
    ensures At(log') == At(log) && Musing(log, log', domain)
    ensures BogusReplies(log') == BogusReplies(log) + [answer] || (answer.None? && BogusReplies(log') == BogusReplies(log))
  {
    var refusal, kind;
    answer := None;
    refusal, log' := Acquire(log);
    if refusal.None? {
      answer, kind, log' := Step(log', Bogus(addr, domain));
    }
  }

  /** One bogus question. None when it was not asked or not answered. */
  method AskBogus(o: Options, domain: string, log: Log) returns (good: Option<bool>, log': Log)
    requires Holds(log, Open(domain))
    ensures At(log') == At(log) && Musing(log, log', domain)
    ensures Bits(o.words, BogusReplies(log')) ==
            Bits(o.words, BogusReplies(log)) + (if good.Some? then [good.value] else [])
  {
    good, log' := None, log;
    var bogus := BogusAddress(domain);
    if bogus.Some? {
      var answer;
      answer, log' := SendBogus(bogus.value, domain, log);
      ghost var replies := BogusReplies(log);
      assert (replies + [answer])[..|replies|] == replies;
      if answer.Some? {
        good := Some(Classify(o.words, answer.value) == Valid);
      }
    }
  }

  lemma CountOne(bits: seq<bool>, bit: bool)
    ensures Accepted(bits + [bit]) == Accepted(bits) + (if bit then 1 else 0)
  {
    assert (bits + [bit])[..|bits|] == bits;
  }

  /** The bogus questions so far: counted as answered, and while still asking none of them a reason to
      stop. */
  ghost predicate Counting(o: Options, domain: string, audit: bool, limit: nat, log: Log, log': Log, bits: seq<bool>,
                           accepted: nat, answered: nat, asking: bool, interrupted: bool)
  {
    true == (
      && bits == Bits(o.words, BogusReplies(log'))
      && answered == |bits| <= limit && accepted == Accepted(bits)
      && At(log') == At(log) && Musing(log, log', domain)
      && (asking ==> !interrupted)
      && (!audit ==> forall j :: 0 <= j < |bits| - 1 ==> bits[j])
      && (!audit && asking && bits != [] ==> bits[|bits| - 1])
      && (!asking && !interrupted ==> !audit && bits != [] && !bits[|bits| - 1]))
  }

  lemma CountingMore(o: Options, domain: string, audit: bool, limit: nat, log: Log, mid: Log, log': Log, bits: seq<bool>,
                     accepted: nat, answered: nat, bit: bool)
    requires Counting(o, domain, audit, limit, log, mid, bits, accepted, answered, true, false) && answered < limit
    requires At(log') == At(log) && Musing(log, log', domain)
    requires Bits(o.words, BogusReplies(log')) == bits + [bit]
    ensures Counting(o, domain, audit, limit, log, log', bits + [bit], if bit then accepted + 1 else accepted, answered + 1,
                     bit || audit, false)
  {
    CountOne(bits, bit);
  }

  /** Asks up to `limit` bogus addresses, stopping at the first rejection unless auditing. */
  method AskRun(o: Options, domain: string, audit: bool, limit: nat, log: Log)
    returns (v: Verdict, log': Log, interrupted: bool)
    requires Holds(log, Open(domain)) && BogusReplies(log) == []
    ensures At(log') == At(log) && Musing(log, log', domain)
    ensures v == Settle(Bits(o.words, BogusReplies(log')))
    ensures |Bits(o.words, BogusReplies(log'))| <= limit
    ensures !interrupted ==> var bits := Bits(o.words, BogusReplies(log'));
                             if audit then |bits| == limit else EarlyRun(bits, limit)
  {
    log', interrupted := log, false;
    var accepted, answered := 0, 0;
    ghost var bits: seq<bool> := [];
    var asking := true;
    while asking && answered < limit
      invariant Counting(o, domain, audit, limit, log, log', bits, accepted, answered, asking, interrupted)
      decreases limit - answered, asking
    {
      ghost var mid := log';
      var good;
      good, log' := AskBogus(o, domain, log');
      MusingTransitive(log, mid, log', domain);
      if good.None? {
        assert bits + [] == bits;
        asking, interrupted := false, true;
      } else {
        CountingMore(o, domain, audit, limit, log, mid, log', bits, accepted, answered, good.value);
        bits := bits + [good.value];
        answered := answered + 1;
        if good.value {
          accepted := accepted + 1;
        } else if !audit {
          asking := false;
        }
      }
    }
    v := Decide(accepted, answered);
  }

  /** The catch-all question of one domain, inside its own transaction. Nothing is asked unless a
      real address of the domain was accepted. The verdict is read from exactly the replies the log
      holds; a run nothing interrupted is an early-stop run or, when the audit was drawn, the whole
      sequence. */
  method AskCatchAll(o: Options, g: Group, out: map<string, Result>, log: Log)
    returns (v: Verdict, log': Log, audit: bool, interrupted: bool)
    requires Holds(log, Open(g.domain)) && BogusReplies(log) == []
    ensures At(log') == At(log) && Musing(log, log', g.domain)
    ensures v == Settle(Bits(o.words, BogusReplies(log')))
    ensures !SomeValid(g.addrs, out) ==> log' == log
    ensures SomeValid(g.addrs, out) && !interrupted ==>
              var bits := Bits(o.words, BogusReplies(log'));
              if audit then |bits| >= AUDIT_PROBES else EarlyRun(bits, Probes(o))
    ensures !audit ==> |Bits(o.words, BogusReplies(log'))| <= Probes(o)
  {
    v, log', audit, interrupted := Unsettled, log, false, false;
    var any := AnyValid(g.addrs, out);
    if !any {
      return;
    }
    audit := *;
    var limit := Probes(o);
    if audit && limit < AUDIT_PROBES {
      limit := AUDIT_PROBES;
    }
    v, log', interrupted := AskRun(o, g.domain, audit, limit, log);
  }

  // ---------------------------------------------------------------- one transaction per domain

  /** The token, when one is due, and the RCPT. */
  method SendRcpt(due: bool, addr: string, domain: string, log: Log) returns (why: Why, answer: Option<Reply>, log': Log)
    requires Holds(log, Open(domain)) && (!due ==> At(log).value.credit > 0)
    ensures At(log').Some? && At(log').value.leased && !At(log').value.link.NoLink?
    ensures OwnClass(why)
    ensures match why
            case Complete =>
              && answer.Some? && Holds(log', Open(domain)) && Attempts(log') == Attempts(log) + [Attempt(addr, answer)]
              && Answers(log') == Answers(log) + 1
            case NoBudgetLeft(_, _) => LastWord(log') == Some(NoToken) && Attempts(log') == Attempts(log)
            case Lost(_) =>
              && LastWord(log').Some? && LastWord(log').value.Ask? && LastWord(log').value.answer.None?
              && Attempts(log') == Attempts(log) + [Attempt(addr, None)]
            case _ => false
    ensures Pairs(log') <= Pairs(log) + {(addr, domain)} && BogusReplies(log') == BogusReplies(log)
    ensures Steady(log, log')
  {
    log', answer := log, None;
    if due {
      var refusal;
      refusal, log' := Acquire(log');
      if refusal.Some? {
        why := NoBudgetLeft(BudgetClass(refusal.value), 0);
        return;
      }
    }
    QuietMeans(log, log');
    var kind;
    answer, kind, log' := Step(log', Rcpt(addr, domain));
    why := if answer.None? then Lost(kind) else Complete;
  }

  /** Gives grouping up: falls back for the family and takes leave. */
  method HandBack(reason: Reason, ghost was: Log, log: Log) returns (log': Log)
    requires At(log).Some? && At(log).value.leased && At(log).value.link.Open? && !reason.SecondMail?
    requires Steady(was, log)
    ensures At(log').Some? && At(log').value.leased && !At(log').value.link.NoLink?
    ensures LastWord(log') == Some(FellBack(reason)) && Attempts(log') == Attempts(log) && Pairs(log') == Pairs(log)
    ensures Steady(was, log')
  {
    SteadyOn(was, log, FellBack(reason));
    log' := Then(log, FellBack(reason));
    SteadyOn(was, log', Goodbye);
    assert At(log').Some?;
    log' := Then(log', Goodbye);
  }

  /** Takes leave after the answers are in hand. */
  method TakeLeave(ghost was: Log, log: Log) returns (log': Log)
    requires At(log).Some? && At(log).value.leased && At(log).value.link.Open? && Steady(was, log)
    ensures At(log').Some? && At(log').value.leased && !At(log').value.link.NoLink?
    ensures LastWord(log') == LastWord(log) && Attempts(log') == Attempts(log) && Pairs(log') == Pairs(log)
    ensures Steady(was, log')
  {
    log' := Then(log, Goodbye);
  }

  /** The RCPT of address `i` has just been answered. */
  ghost predicate Replied(o: Options, stop: int, groups: seq<Group>, grouped: bool, i: nat, reply: Reply, was: Log, log: Log,
                          out: map<string, Result>, run: nat, base: seq<Attempt>, rc: seq<Attempt>, rs: seq<Result>)
  {
    true == (
      && Along(o, stop, groups, grouped, base, was, out, run, rc, rs)
      && At(log).Some? && At(log).value.leased && At(log).value.link.Open?
      && i == |rc| < |Flatten(groups)| && Steady(was, log)
      && Attempts(log) == Attempts(was) + [Attempt(Flatten(groups)[i], Some(reply))])
  }

  /** One domain too many for the receiver: the address goes again with what follows it. */
  method GiveAddressBack(o: Options, ghost stop: int, groups: seq<Group>, grouped: bool, i: nat, reply: Reply,
                         ghost was: Log, log: Log, ghost out: map<string, Result>, ghost run: nat,
                         ghost base: seq<Attempt>, ghost rc: seq<Attempt>, ghost rs: seq<Result>)
    returns (log': Log)
    requires Replied(o, stop, groups, grouped, i, reply, was, log, out, run, base, rc, rs)
    requires Foreign(groups, grouped, i) && !RelayRefusal(o.words, reply) && DomainLimitRefusal(o.words, reply)
    ensures Stopping(o, stop, groups, grouped, base, log', out, i, Regroup(DomainLimit),
                     rc + [Attempt(Flatten(groups)[i], Some(reply))], rs)
    ensures Pairs(log') == Pairs(log) && Steady(was, log')
  {
    log' := HandBack(DomainLimit, was, log);
    StopsAsking(o, stop, groups, grouped, base, was, out, run, rc, rs, log', Attempt(Flatten(groups)[i], Some(reply)),
                Regroup(DomainLimit));
  }

  /** The address is answered, and nothing after it will be: what follows goes again, or is left. */
  method StopAfter(o: Options, ghost stop: int, groups: seq<Group>, grouped: bool, i: nat, reply: Reply, relay: bool,
                   ghost was: Log, log: Log, ghost out: map<string, Result>, ghost run: nat,
                   ghost base: seq<Attempt>, ghost rc: seq<Attempt>, ghost rs: seq<Result>)
    returns (why: Why, log': Log)
    requires Replied(o, stop, groups, grouped, i, reply, was, log, out, run, base, rc, rs)
    requires relay ==> Foreign(groups, grouped, i) && RelayRefusal(o.words, reply)
    requires !relay ==> 0 < stop <= (if Classify(o.words, reply) == Policy then run + 1 else 0)
    ensures !why.Complete?
    ensures var a, x := Flatten(groups)[i], Answered(o, reply, Foreign(groups, grouped, i));
            Stopping(o, stop, groups, grouped, base, log', out[a := x], i + 1, why, rc + [Attempt(a, Some(reply))], rs + [x])
    ensures Pairs(log') == Pairs(log) && Steady(was, log')
  {
    if relay {
      log' := HandBack(Relay, was, log);
      why := Regroup(Relay);
    } else {
      log' := TakeLeave(was, log);
      why := PolicyStopped;
    }
    StopsAnswered(o, stop, groups, grouped, base, was, out, run, rc, rs, log', reply, why);
  }

  /** What a RCPT's reply means for its address and for the session. */
  method Weigh(o: Options, want: int, groups: seq<Group>, grouped: bool, further: bool, i: nat, reply: Reply,
               ghost was: Log, log: Log, out: map<string, Result>, run: nat,
               ghost base: seq<Attempt>, ghost rc: seq<Attempt>, ghost rs: seq<Result>)
    returns (why: Why, n: nat, log': Log, out': map<string, Result>, run': nat,
             ghost rc': seq<Attempt>, ghost rs': seq<Result>)
    requires Replied(o, PolicyStopFor(o, want), groups, grouped, i, reply, was, log, out, run, base, rc, rs)
    requires further <==> |groups| > 0 && i >= |groups[0].addrs|
    ensures why.Complete? ==>
              && Along(o, PolicyStopFor(o, want), groups, grouped, base, log', out', run', rc', rs')
              && log' == log && n == |rc'| == i + 1
    ensures !why.Complete? ==> Stopping(o, PolicyStopFor(o, want), groups, grouped, base, log', out', n, why, rc', rs')
    ensures Pairs(log') == Pairs(log) && Steady(was, log')
  {
    var addr := Flatten(groups)[i];
    var stop := PolicyStopFor(o, want);
    n, log', out', run', rs' := i, log, out, run, rs;
    rc' := rc + [Attempt(addr, Some(reply))];
    if grouped && further && !RelayRefusal(o.words, reply) && DomainLimitRefusal(o.words, reply) {
      log' := GiveAddressBack(o, stop, groups, grouped, i, reply, was, log, out, run, base, rc, rs);
      why := Regroup(DomainLimit);
      return;
    }
    var relay := grouped && further && RelayRefusal(o.words, reply);
    var r := if relay then RelayResult(o.words, reply, DeferralRetry(o)) else RcptResult(o.words, reply, DeferralRetry(o));
    out', n, rs' := out[addr := r], i + 1, rs + [r];
    if !relay {
      run' := if r.kind == Policy then run + 1 else 0;
    }
    if relay || (stop > 0 && run' >= stop) {
      why, log' := StopAfter(o, stop, groups, grouped, i, reply, relay, was, log, out, run, base, rc, rs);
      return;
    }
    GoesOn(o, stop, groups, grouped, base, was, out, run, rc, rs, log', reply);
    why := Complete;
  }

  /** A RCPT that was not sent for want of a token, or not answered, ends the session there. */
  lemma RcptFailed(o: Options, stop: int, groups: seq<Group>, grouped: bool, domain: string,
                   log: Log, out: map<string, Result>, run: nat,
                   base: seq<Attempt>, rc: seq<Attempt>, rs: seq<Result>, log': Log, why: Why)
    returns (rc': seq<Attempt>)
    requires Along(o, stop, groups, grouped, base, log, out, run, rc, rs)
    requires Holds(log, Open(domain)) && |rc| < |Flatten(groups)|
    requires At(log').Some? && At(log').value.leased && !At(log').value.link.NoLink? && OwnClass(why)
    requires why.NoBudgetLeft? || why.Lost?
    requires why.NoBudgetLeft? ==> LastWord(log') == Some(NoToken) && Attempts(log') == Attempts(log)
    requires why.Lost? ==>
               && LastWord(log').Some? && LastWord(log').value.Ask? && LastWord(log').value.answer.None?
               && Attempts(log') == Attempts(log) + [Attempt(Flatten(groups)[|rc|], None)]
    ensures Stopping(o, stop, groups, grouped, base, log', out, |rc|, why, rc', rs)
  {
    if why.Lost? {
      var a := Attempt(Flatten(groups)[|rc|], None);
      rc' := rc + [a];
      StopsAsking(o, stop, groups, grouped, base, log, out, run, rc, rs, log', a, why);
    } else {
      rc' := rc;
      StopsUnanswered(o, stop, groups, grouped, base, log, out, run, rc, rs, log', why);
    }
  }

  /** One real address: a token unless the one taken before the socket is still unspent, the RCPT,
      and what its reply means. */
  method AskOne(o: Options, want: int, groups: seq<Group>, grouped: bool, further: bool, domain: string, i: nat,
                log: Log, out: map<string, Result>, run: nat,
                ghost base: seq<Attempt>, ghost rc: seq<Attempt>, ghost rs: seq<Result>)
    returns (why: Why, n: nat, log': Log, out': map<string, Result>, run': nat,
             ghost rc': seq<Attempt>, ghost rs': seq<Result>)
    requires Along(o, PolicyStopFor(o, want), groups, grouped, base, log, out, run, rc, rs)
    requires Holds(log, Open(domain)) && i == |rc| < |Flatten(groups)|
    requires i == 0 ==> At(log).value.credit > 0
    requires further <==> |groups| > 0 && i >= |groups[0].addrs|
    ensures why.Complete? ==>
              && Along(o, PolicyStopFor(o, want), groups, grouped, base, log', out', run', rc', rs')
              && Holds(log', Open(domain)) && n == |rc'| == i + 1 && BogusReplies(log') == BogusReplies(log)
              && Answers(log') == Answers(log) + 1
    ensures !why.Complete? ==> Stopping(o, PolicyStopFor(o, want), groups, grouped, base, log', out', n, why, rc', rs')
    ensures Pairs(log') <= Pairs(log) + {(Flatten(groups)[i], domain)}
    ensures Steady(log, log')
  {
    var addr := Flatten(groups)[i];
    ghost var stop := PolicyStopFor(o, want);
    n, log', out', run', rc', rs' := i, log, out, run, rc, rs;
    var answer: Option<Reply>;
    why, answer, log' := SendRcpt(i > 0, addr, domain, log);
    if !why.Complete? {
      rc' := RcptFailed(o, stop, groups, grouped, domain, log, out, run, base, rc, rs, log', why);
    } else {
      why, n, log', out', run', rc', rs' :=
        Weigh(o, want, groups, grouped, further, i, answer.value, log, log', out, run, base, rc, rs);
    }
  }

  /** Among the real addresses of one domain, its transaction open since `start`. */
  ghost predicate Midway(o: Options, stop: int, groups: seq<Group>, grouped: bool, domain: string, start: Log,
                         base: seq<Attempt>, log: Log, out: map<string, Result>, run: nat,
                         rc: seq<Attempt>, rs: seq<Result>)
  {
    true == (
      && Along(o, stop, groups, grouped, base, log, out, run, rc, rs)
      && Holds(log, Open(domain)) && BogusReplies(log) == []
      && (|rc| == 0 ==> At(log).value.credit > 0)
      && Continued(groups, start, log))
  }

  /** Address number `i` is one of the domain's. */
  ghost predicate Placed(groups: seq<Group>, further: bool, domain: string, i: nat) {
    && i < |Flatten(groups)| && Named(groups, Flatten(groups)[i], domain)
    && (further <==> |groups| > 0 && i >= |groups[0].addrs|)
  }

  lemma PlacedHere(groups: seq<Group>, gi: nat, k: nat)
    requires gi < |groups| && k < |groups[gi].addrs|
    ensures Placed(groups, gi > 0, groups[gi].domain, |Flatten(groups[..gi])| + k)
  {
    FlattenStep(groups, gi);
    FurtherMeans(groups, gi, k);
    NamedHere(groups, gi, k);
  }

  /** The next address of the domain. */
  method AskNext(o: Options, want: int, groups: seq<Group>, grouped: bool, further: bool, domain: string, i: nat,
                 log: Log, out: map<string, Result>, run: nat,
                 ghost start: Log, ghost base: seq<Attempt>, ghost rc: seq<Attempt>, ghost rs: seq<Result>)
    returns (why: Why, n: nat, log': Log, out': map<string, Result>, run': nat,
             ghost rc': seq<Attempt>, ghost rs': seq<Result>)
    requires Placed(groups, further, domain, i) && |rc| == i
    requires Midway(o, PolicyStopFor(o, want), groups, grouped, domain, start, base, log, out, run, rc, rs)
    ensures why.Complete? ==>
              && Midway(o, PolicyStopFor(o, want), groups, grouped, domain, start, base, log', out', run', rc', rs')
              && n == |rc'| == i + 1 && Answers(log') == Answers(log) + 1
    ensures !why.Complete? ==> Stopping(o, PolicyStopFor(o, want), groups, grouped, base, log', out', n, why, rc', rs')
    ensures Continued(groups, start, log')
  {
    why, n, log', out', run', rc', rs' :=
      AskOne(o, want, groups, grouped, further, domain, i, log, out, run, base, rc, rs);
    ContinuedMore(groups, start, log, log', Flatten(groups)[i], domain);
  }

  /** The real addresses of one domain, in order. */
  method AskGroup(o: Options, want: int, groups: seq<Group>, grouped: bool, gi: nat,
                  log: Log, out: map<string, Result>, run: nat,
                  ghost base: seq<Attempt>, ghost rc: seq<Attempt>, ghost rs: seq<Result>)
    returns (why: Why, n: nat, log': Log, out': map<string, Result>, run': nat,
             ghost rc': seq<Attempt>, ghost rs': seq<Result>)
    requires gi < |groups| && |rc| == |Flatten(groups[..gi])|
    requires Midway(o, PolicyStopFor(o, want), groups, grouped, groups[gi].domain, log, base, log, out, run, rc, rs)
    ensures why.Complete? ==>
              && Midway(o, PolicyStopFor(o, want), groups, grouped, groups[gi].domain, log, base, log', out', run', rc', rs')
              && n == |rc'| == |Flatten(groups[..gi + 1])| && Answers(log') >= |groups[gi].addrs|
    ensures !why.Complete? ==> Stopping(o, PolicyStopFor(o, want), groups, grouped, base, log', out', n, why, rc', rs')
    ensures Continued(groups, log, log')
  {
    FlattenStep(groups, gi);
    var i := |Flatten(groups[..gi])|;
    why, n, log', out', run', rc', rs' := Complete, i, log, out, run, rc, rs;
    for k := 0 to |groups[gi].addrs|
      invariant why.Complete? && n == |rc'| == i + k && Answers(log') >= k
      invariant Midway(o, PolicyStopFor(o, want), groups, grouped, groups[gi].domain, log, base, log', out', run', rc', rs')
    {
      PlacedHere(groups, gi, k);
      why, n, log', out', run', rc', rs' :=
        AskNext(o, want, groups, grouped, gi > 0, groups[gi].domain, i + k, log', out', run', log, base, rc', rs');
      if !why.Complete? {
        return;
      }
    }
  }

  /** The catch-all question of group `gi`, when it is due. */
  method AskDue(o: Options, want: int, groups: seq<Group>, grouped: bool, gi: nat, log: Log, out: map<string, Result>, run: nat,
                verdicts: map<string, Verdict>, ghost start: Log,
                ghost base: seq<Attempt>, ghost rc: seq<Attempt>, ghost rs: seq<Result>)
    returns (verdicts': map<string, Verdict>, log': Log)
    requires gi < |groups| && Carried(o, groups, start, log, verdicts) && AllPast(o.words, log, verdicts)
    requires Along(o, PolicyStopFor(o, want), groups, grouped, base, log, out, run, rc, rs)
    requires Holds(log, Open(groups[gi].domain)) && BogusReplies(log) == []
    ensures Carried(o, groups, start, log', verdicts') && Musing(log, log', groups[gi].domain)
    ensures Along(o, PolicyStopFor(o, want), groups, grouped, base, log', out, run, rc, rs)
    ensures Holds(log', Open(groups[gi].domain)) && At(log') == At(log)
    ensures (forall d :: d in verdicts ==> d in verdicts') && (groups[gi].askCatchAll ==> groups[gi].domain in verdicts')
  {
    verdicts', log' := verdicts, log;
    if groups[gi].askCatchAll {
      var v, audit, interrupted;
      v, log', audit, interrupted := AskCatchAll(o, groups[gi], out, log);
      CarriedMusing(o, groups, gi, start, log, log', verdicts, v);
      MusingMeans(log, log', groups[gi].domain);
      verdicts' := verdicts[groups[gi].domain := v];
    }
  }

  lemma SparedNext(groups: seq<Group>, start: Log, log: Log, log': Log, gi: nat)
    requires 0 < gi < |groups| && Spared(groups, start, log, gi)
    requires Mails(log') <= Mails(log) + 1 && (Answers(log) >= 1 ==> Sparing(log, log', Mails(log')))
    ensures SparedSoFar(groups, start, log') && (Filled(groups) ==> Mails(log') <= gi + 1)
  {
    if Filled(groups) {
      SparingTransitive(start, log, log', |groups|, Mails(log'));
    }
  }

  /** The transaction of group `gi`: the first is open already. */
  method Begin(o: Options, want: int, groups: seq<Group>, grouped: bool, gi: nat, log: Log, ghost out: map<string, Result>,
               ghost run: nat, ghost verdicts: map<string, Verdict>, ghost start: Log,
               ghost base: seq<Attempt>, ghost rc: seq<Attempt>, ghost rs: seq<Result>)
    returns (why: Why, log': Log)
    requires (grouped <==> |groups| > 1) && (gi == 0 ==> verdicts == map[])
    requires gi < |groups| && Carried(o, groups, start, log, verdicts) && |rc| == |Flatten(groups[..gi])|
    requires Along(o, PolicyStopFor(o, want), groups, grouped, base, log, out, run, rc, rs)
    requires TurnReady(groups, gi, log, |rc|) && Spared(groups, start, log, gi)
    ensures Carried(o, groups, start, log', verdicts) && SparedSoFar(groups, start, log')
    ensures why.Complete? ==>
              && AllPast(o.words, log', verdicts) && (Filled(groups) ==> Mails(log') <= gi + 1)
              && Midway(o, PolicyStopFor(o, want), groups, grouped, groups[gi].domain, log', base, log', out, run, rc, rs)
    ensures !why.Complete? ==> Stopping(o, PolicyStopFor(o, want), groups, grouped, base, log', out, |rc|, why, rc, rs)
  {
    why, log' := Complete, log;
    if gi > 0 {
      why, log' := NextTransaction(o, groups[gi].domain, log);
      CarriedQuietly(o, groups, start, log, log', verdicts);
      AlongQuietly(o, PolicyStopFor(o, want), groups, grouped, base, log, log', out, run, rc, rs);
      SparedNext(groups, start, log, log', gi);
      if !why.Complete? {
        FlattenFirst(groups, gi);
        StopsUnanswered(o, PolicyStopFor(o, want), groups, grouped, base, log', out, run, rc, rs, log', why);
        return;
      }
      AllPastNow(o.words, log, log', groups, verdicts, groups[gi].domain);
    }
  }

  lemma SparedSteady(groups: seq<Group>, start: Log, log: Log, log': Log)
    requires SparedSoFar(groups, start, log) && Mails(log') == Mails(log)
    requires forall n :: n >= Mails(log) ==> Sparing(log, log', n)
    ensures SparedSoFar(groups, start, log')
  {
    if Filled(groups) {
      SparingTransitive(start, log, log', |groups|, |groups|);
    }
  }

  /** One domain's turn: its transaction, its real addresses, then its catch-all question. */
  method Turn(o: Options, want: int, groups: seq<Group>, grouped: bool, gi: nat, log: Log, out: map<string, Result>, run: nat,
              verdicts: map<string, Verdict>, ghost start: Log,
              ghost base: seq<Attempt>, ghost rc: seq<Attempt>, ghost rs: seq<Result>)
    returns (why: Why, n: nat, log': Log, out': map<string, Result>, run': nat, verdicts': map<string, Verdict>,
             ghost rc': seq<Attempt>, ghost rs': seq<Result>)
    requires (grouped <==> |groups| > 1) && (gi == 0 ==> verdicts == map[])
    requires gi < |groups| && Carried(o, groups, start, log, verdicts) && |rc| == |Flatten(groups[..gi])|
    requires Along(o, PolicyStopFor(o, want), groups, grouped, base, log, out, run, rc, rs)
    requires TurnReady(groups, gi, log, |rc|) && Spared(groups, start, log, gi)
    ensures Carried(o, groups, start, log', verdicts') && SparedSoFar(groups, start, log')
    ensures (forall d :: d in verdicts ==> d in verdicts')
    ensures why.Complete? ==>
              && Along(o, PolicyStopFor(o, want), groups, grouped, base, log', out', run', rc', rs')
              && TurnReady(groups, gi + 1, log', |rc'|) && n == |rc'| == |Flatten(groups[..gi + 1])|
              && (groups[gi].askCatchAll ==> groups[gi].domain in verdicts') && Spared(groups, start, log', gi + 1)
    ensures !why.Complete? ==> Stopping(o, PolicyStopFor(o, want), groups, grouped, base, log', out', n, why, rc', rs')
  {
    n, out', run', verdicts', rc', rs' := |Flatten(groups[..gi])|, out, run, verdicts, rc, rs;
    why, log' := Begin(o, want, groups, grouped, gi, log, out, run, verdicts, start, base, rc, rs);
    if !why.Complete? {
      return;
    }
    ghost var was := log';
    why, n, log', out', run', rc', rs' := AskGroup(o, want, groups, grouped, gi, log', out, run, base, rc, rs);
    SteadyMeans(was, log');
    CarriedOn(o, groups, start, was, log', verdicts);
    SparedSteady(groups, start, was, log');
    if why.Complete? {
      AllPastLater(o.words, was, log', verdicts);
      was := log';
      verdicts', log' := AskDue(o, want, groups, grouped, gi, log', out', run', verdicts, start, base, rc', rs');
      MusingMeans(was, log', groups[gi].domain);
      SparedSteady(groups, start, was, log');
      assert groups[gi] in groups;
    }
  }

  /** QUIT, after the last turn. */
  method Farewell(o: Options, ghost stop: int, ghost groups: seq<Group>, ghost grouped: bool, log: Log,
                  ghost out: map<string, Result>, ghost run: nat, ghost verdicts: map<string, Verdict>, ghost start: Log,
                  ghost base: seq<Attempt>, ghost rc: seq<Attempt>, ghost rs: seq<Result>)
    returns (log': Log)
    requires Carried(o, groups, start, log, verdicts) && SparedSoFar(groups, start, log) && |rc| == |Flatten(groups)|
    requires Along(o, stop, groups, grouped, base, log, out, run, rc, rs) && TurnReady(groups, |groups|, log, |rc|)
    ensures Stopping(o, stop, groups, grouped, base, log', out, |rc|, Complete, rc, rs)
    ensures Carried(o, groups, start, log', verdicts) && SparedSoFar(groups, start, log')
  {
    log' := TakeLeave(log, log);
    SteadyMeans(log, log');
    CarriedOn(o, groups, start, log, log', verdicts);
    SparedSteady(groups, start, log, log');
    StopsUnanswered(o, stop, groups, grouped, base, log, out, run, rc, rs, log', Complete);
  }

  /** The first `gi` domains have had their turn. */
  ghost predicate Turned(o: Options, want: int, groups: seq<Group>, grouped: bool, gi: nat, start: Log, log: Log,
                         out: map<string, Result>, run: nat, verdicts: map<string, Verdict>, rc: seq<Attempt>, rs: seq<Result>)
  {
    true == (
      && gi <= |groups| && |rc| == |Flatten(groups[..gi])| && (gi == 0 ==> verdicts == map[])
      && Along(o, PolicyStopFor(o, want), groups, grouped, Attempts(start), log, out, run, rc, rs)
      && Carried(o, groups, start, log, verdicts) && SparedSoFar(groups, start, log)
      && TurnReady(groups, gi, log, |rc|) && Spared(groups, start, log, gi)
      && VerdictsIn(groups, gi, verdicts))
  }

  method NextTurn(o: Options, want: int, groups: seq<Group>, grouped: bool, gi: nat, log: Log, out: map<string, Result>, run: nat,
                  verdicts: map<string, Verdict>, ghost start: Log, ghost rc: seq<Attempt>, ghost rs: seq<Result>)
    returns (why: Why, n: nat, log': Log, out': map<string, Result>, run': nat, verdicts': map<string, Verdict>,
             ghost rc': seq<Attempt>, ghost rs': seq<Result>)
    requires (grouped <==> |groups| > 1) && gi < |groups|
    requires Turned(o, want, groups, grouped, gi, start, log, out, run, verdicts, rc, rs)
    ensures why.Complete? ==>
              Turned(o, want, groups, grouped, gi + 1, start, log', out', run', verdicts', rc', rs') && n == |rc'|
    ensures !why.Complete? ==>
              && Stopping(o, PolicyStopFor(o, want), groups, grouped, Attempts(start), log', out', n, why, rc', rs')
              && Carried(o, groups, start, log', verdicts') && SparedSoFar(groups, start, log')
  {
    why, n, log', out', run', verdicts', rc', rs' :=
      Turn(o, want, groups, grouped, gi, log, out, run, verdicts, start, Attempts(start), rc, rs);
    if why.Complete? {
      OneMoreVerdict(groups, gi, verdicts, verdicts');
    }
  }

  lemma NoneTurned(o: Options, want: int, groups: seq<Group>, grouped: bool, log: Log)
    requires grouped <==> |groups| > 1
    requires Holds(log, Open(if groups == [] then "" else groups[0].domain)) && BogusReplies(log) == []
    requires At(log).value.credit > 0 && Mails(log) <= 1
    ensures Turned(o, want, groups, grouped, 0, log, log, map[], 0, map[], [], [])
  {
  }

  lemma AllTurned(o: Options, want: int, groups: seq<Group>, grouped: bool, start: Log, log: Log,
                  out: map<string, Result>, run: nat, verdicts: map<string, Verdict>, rc: seq<Attempt>, rs: seq<Result>)
    requires Turned(o, want, groups, grouped, |groups|, start, log, out, run, verdicts, rc, rs)
    ensures |rc| == |Flatten(groups)| && TurnReady(groups, |groups|, log, |rc|) && VerdictsIn(groups, |groups|, verdicts)
    ensures Along(o, PolicyStopFor(o, want), groups, grouped, Attempts(start), log, out, run, rc, rs)
    ensures Carried(o, groups, start, log, verdicts) && SparedSoFar(groups, start, log)
  {
    assert groups[..|groups|] == groups;
  }

  /** The whole conversation after the first MAIL FROM, one domain's turn after another. */
  method Transact(o: Options, want: int, groups: seq<Group>, grouped: bool, log: Log)
    returns (why: Why, n: nat, out: map<string, Result>, verdicts: map<string, Verdict>, log': Log,
             ghost rc: seq<Attempt>, ghost rs: seq<Result>)
    requires grouped <==> |groups| > 1
    requires Holds(log, Open(if groups == [] then "" else groups[0].domain)) && BogusReplies(log) == []
    requires At(log).value.credit > 0 && Mails(log) <= 1
    ensures Stopping(o, PolicyStopFor(o, want), groups, grouped, Attempts(log), log', out, n, why, rc, rs)
    ensures Carried(o, groups, log, log', verdicts) && SparedSoFar(groups, log, log')
    ensures why.Complete? ==> VerdictsIn(groups, |groups|, verdicts)
  {
    var run := 0;
    why, n, out, verdicts, log', rc, rs := Complete, 0, map[], map[], log, [], [];
    NoneTurned(o, want, groups, grouped, log);
    for gi := 0 to |groups|
      invariant why.Complete? && n == |rc|
      invariant Turned(o, want, groups, grouped, gi, log, log', out, run, verdicts, rc, rs)
    {
      why, n, log', out, run, verdicts, rc, rs :=
        NextTurn(o, want, groups, grouped, gi, log', out, run, verdicts, log, rc, rs);
      if !why.Complete? {
        return;
      }
    }
    AllTurned(o, want, groups, grouped, log, log', out, run, verdicts, rc, rs);
    log' := Farewell(o, PolicyStopFor(o, want), groups, grouped, log', out, run, verdicts, log, Attempts(log), rc, rs);
  }

  // ---------------------------------------------------------------- the session

  /** Banner, EHLO, the upgrade and the first MAIL FROM. */
  method Introduce(o: Options, skipTLS: bool, domain: string, log: Log)
    returns (why: Why, tls: TLSOutcome, again: bool, log': Log)
    requires Holds(log, Opened) && !Encrypted(log) && Mails(log) == 0
    ensures again ==> !skipTLS && Holds(log', Dead)
    ensures !again && why.Complete? ==> Holds(log', Open(domain)) && BogusReplies(log') == []
    ensures !again && !why.Complete? ==> Over(o, log', why)
    ensures At(log').Some? && At(log').value.credit == At(log).value.credit
    ensures !tls.FailedTLS? && (!again ==> (tls in {Verified, Unverified} <==> Encrypted(log')))
    ensures Prelude(o, log, log') && Mails(log') <= 1
  {
    tls, again := NoSession, false;
    var text;
    why, text, log' := Expect(o, log, Banner, 220);
    FormalPrelude(o, log, log');
    if !why.Complete? {
      return;
    }
    why, text, log' := Expect(o, log', Ehlo, 250);
    FormalPrelude(o, log, log');
    if !why.Complete? {
      return;
    }
    ghost var mid := log';
    why, tls, again, log' := Secure(o, skipTLS, o.words.offersTLS(text), log');
    FormalPrelude(o, mid, log');
    PreludeTransitive(o, log, mid, log');
    if again || !why.Complete? {
      return;
    }
    mid := log';
    why, text, log' := Expect(o, log', MailFrom(domain), 250);
    QuietPrelude(o, mid, log');
    PreludeTransitive(o, log, mid, log');
  }

  /** Closes the connection and gives the lease back. */
  method WindDown(log: Log) returns (log': Log)
    requires At(log).Some? && At(log).value.leased && !At(log).value.link.NoLink?
    ensures AtRest(log') && Quiet(log, log') && LastWord(log') == LastWord(log) && Sparing(log, log', Mails(log))
  {
    var closed := Then(log, Closed);
    assert At(closed) == Some(At(log).value.(link := NoLink));
    assert Quiet(log, closed);
    log' := Then(closed, Released);
    assert LastWord(log') == LastWord(closed) == LastWord(log);
  }

  /** Tells every address the session keeps and has not answered the same non-answer, then stamps
      the session's encryption on all of them. */
  method Conclude(o: Options, ghost stop: int, groups: seq<Group>, ghost grouped: bool, ghost base: seq<Attempt>,
                  ghost log: Log, out: map<string, Result>, end: Ending, ghost rc: seq<Attempt>, ghost rs: seq<Result>)
    returns (out': map<string, Result>, rest: seq<string>, ghost rs': seq<Result>)
    requires Stopped(o, stop, groups, grouped, base, log, out, end.answered, end.why, rc, rs)
    ensures |rs'| <= |Flatten(groups)| && out' == Tabulate(Flatten(groups), rs')
    ensures Account(o, stop, groups, grouped, rc, end, rs', rest, LastWord(log))
  {
    var addrs := Flatten(groups);
    var m := if end.why.Regroup? then end.answered else |addrs|;
    var filled := out;
    ghost var full := rs;
    for j := end.answered to m
      invariant |full| == j && rs <= full && filled == Tabulate(addrs, full)
      invariant forall k :: end.answered <= k < j ==> full[k] == Unattempted(o, end.why)
    {
      TabulateSnoc(addrs, full, Unattempted(o, end.why));
      filled := filled[addrs[j] := Unattempted(o, end.why)];
      full := full + [Unattempted(o, end.why)];
    }
    Accounted(o, stop, groups, grouped, base, log, out, rc, rs, end, full);
    TabulateFinished(o, end, addrs, full);
    out' := FinishAll(o, end, filled);
    rest := addrs[m..];
    rs' := Finished(o, end, full);
  }

  /** A connected session: introduced, conversed, wound down. `again` asks for the plaintext rerun,
      with the lease already given back. */
  method Connected(o: Options, want: int, groups: seq<Group>, grouped: bool, skipTLS: bool, log: Log)
    returns (out: map<string, Result>, verdicts: map<string, Verdict>, rest: seq<string>, again: bool, log': Log,
             fell: bool, ghost rc: seq<Attempt>, ghost end: Ending, ghost rs: seq<Result>)
    requires grouped <==> |groups| > 1
    requires Holds(log, Opened) && !Encrypted(log) && At(log).value.credit > 0 && Mails(log) == 0
    ensures again ==> !skipTLS && AtRest(log') && Prelude(o, log, log')
    ensures fell <==> end.why.Regroup?
    ensures !again ==>
              && Conducted(o, groups, log, log', rc, end, verdicts) && !end.rerun
              && !end.why.Burned? && !end.why.Unresolved? && !end.why.NoLease?
              && Account(o, PolicyStopFor(o, want), groups, grouped, rc, end, rs, rest, LastWord(log'))
              && |rs| <= |Flatten(groups)| && out == Tabulate(Flatten(groups), rs)
              && (end.why.Complete? ==> VerdictsIn(groups, |groups|, verdicts))
  {
    ghost var stop := PolicyStopFor(o, want);
    var why, tls, n;
    n, out, verdicts, rest, fell, rc, rs := 0, map[], map[], [], false, [], [];
    why, tls, again, log' := Introduce(o, skipTLS, if groups == [] then "" else groups[0].domain, log);
    ghost var mid := log';
    CarriedFromStart(o, groups, mid);
    if again {
      log' := WindDown(log');
      SparingMore(mid, log', Mails(mid), 1);
      QuietPrelude(o, mid, log');
      PreludeTransitive(o, log, mid, log');
      end := Ending(0, Complete, NoSession, false);
      return;
    }
    if why.Complete? {
      why, n, out, verdicts, log', rc, rs := Transact(o, want, groups, grouped, log');
    } else {
      StoppedBefore(o, stop, groups, grouped, log', why);
    }
    ghost var was := log';
    log' := WindDown(log');
    end, fell := Ending(n, why, tls, false), why.Regroup?;
    WoundDown(o, stop, groups, grouped, mid, was, log', out, rc, rs, end, verdicts);
    ConductedFrom(o, groups, log, mid, log', rc, end, verdicts);
    out, rest, rs := Conclude(o, stop, groups, grouped, Attempts(log), log', out, Ending(n, why, tls, false), rc, rs);
  }

  method BlameAll(o: Options, out: map<string, Result>, ghost blame: Ending) returns (out': map<string, Result>)
    requires blame == Ending(0, Complete, NoSession, true)
    ensures out' == FinishAll(o, blame, out)
  {
    out' := map a | a in out :: BlameTLS(o, out[a]);
  }

  /** The results of a plaintext rerun, as the session that gave up its upgrade reports them. */
  method BlameUpgrade(o: Options, ghost stop: int, groups: seq<Group>, ghost grouped: bool,
                      out: map<string, Result>, ghost rest: seq<string>, ghost last: Option<Event>,
                      ghost rc: seq<Attempt>, ghost end: Ending, ghost rs: seq<Result>)
    returns (out': map<string, Result>, ghost rs': seq<Result>)
    requires Account(o, stop, groups, grouped, rc, end, rs, rest, last) && !end.rerun
    requires |rs| <= |Flatten(groups)| && out == Tabulate(Flatten(groups), rs)
    ensures Account(o, stop, groups, grouped, rc, end.(rerun := true), rs', rest, last)
    ensures |rs'| <= |Flatten(groups)| && out' == Tabulate(Flatten(groups), rs')
  {
    ghost var blame := Ending(0, Complete, NoSession, true);
    AccountOfRerun(o, stop, groups, grouped, rc, end, rs, rest, last, blame);
    TabulateFinished(o, blame, Flatten(groups), rs);
    out' := BlameAll(o, out, blame);
    rs' := Finished(o, blame, rs);
  }

  /** The addresses handed back are the last of the session's, none of them of its first domain, and none
      at all unless it was grouped. */
  ghost predicate HandedBack(groups: seq<Group>, grouped: bool, rest: seq<string>) {
    var addrs := Flatten(groups);
    && |rest| <= |addrs| && addrs[|addrs| - |rest|..] == rest
    && (rest != [] ==> grouped && groups != [] && |groups[0].addrs| + |rest| <= |addrs|)
  }

  /** What the account of a session means for what it returns. */
  lemma SessionShows(o: Options, stop: int, groups: seq<Group>, grouped: bool, log: Log, log': Log, rc: seq<Attempt>,
                     end: Ending, rs: seq<Result>, rest: seq<string>, verdicts: map<string, Verdict>)
    requires Conducted(o, groups, log, log', rc, end, verdicts)
    requires Account(o, stop, groups, grouped, rc, end, rs, rest, LastWord(log')) && |rs| <= |Flatten(groups)|
    ensures AtRest(log') && Prefix(log, log') && AddsOnly(log, log', groups) && AllHeard(o.words, log', groups, verdicts)
    ensures Filled(groups) ==> Sparing(log, log', |groups|)
    ensures Unbidden(o, log') == Unbidden(o, log)
    ensures HandedBack(groups, grouped, rest)
  {
  }

  /** One SMTP session about one domain's addresses, or several domains' in turn.

      Whatever the server, resolver, pacer and TLS stack answer: the log stays orderly and ends at
      rest, with its lease given back once; the addresses are asked in order, each at most once;
      every result is the one its own reply supports or the non-answer its ending explains; and what
      is not told is handed back, which only a grouped session does. No connection sees more MAIL FROMs
      than there are groups, no transaction is reset before an address of it was answered about, and
      STARTTLS is only sent where it is switched on and was offered. */
  method Session(o: Options, want: int, groups: seq<Group>, grouped: bool, skipTLS: bool, log: Log)
    returns (out: map<string, Result>, verdicts: map<string, Verdict>, rest: seq<string>, log': Log,
             fell: bool, ghost rc: seq<Attempt>, ghost end: Ending, ghost rs: seq<Result>)
    requires AtRest(log) && (grouped <==> |groups| > 1)
    ensures Conducted(o, groups, log, log', rc, end, verdicts)
    ensures Account(o, PolicyStopFor(o, want), groups, grouped, rc, end, rs, rest, LastWord(log'))
    ensures |rs| <= |Flatten(groups)| && out == Tabulate(Flatten(groups), rs)
    ensures end.why.Complete? ==> VerdictsIn(groups, |groups|, verdicts)
    ensures skipTLS ==> !end.rerun
    ensures AtRest(log') && Prefix(log, log') && AddsOnly(log, log', groups) && AllHeard(o.words, log', groups, verdicts)
    ensures Filled(groups) ==> Sparing(log, log', |groups|)
    ensures Unbidden(o, log') == Unbidden(o, log)
    ensures (fell <==> end.why.Regroup?) && (rest != [] ==> fell)
    ensures HandedBack(groups, grouped, rest)
    decreases !skipTLS
  {
    ghost var stop := PolicyStopFor(o, want);
    rc, verdicts, fell := [], map[], false;
    var why;
    why, log' := Connect(o, log);
    if !why.Complete? {
      end := Ending(0, why, NoSession, false);
      StoppedBefore(o, stop, groups, grouped, log', why);
      NeverConnected(o, groups, log, log', end);
      out, rest, rs := Conclude(o, stop, groups, grouped, Attempts(log'), log', map[], Ending(0, why, NoSession, false), [], []);
      SessionShows(o, stop, groups, grouped, log, log', rc, end, rs, rest, verdicts);
      return;
    }
    ghost var mid := log';
    var again;
    out, verdicts, rest, again, log', fell, rc, end, rs := Connected(o, want, groups, grouped, skipTLS, log');
    if again {
      PreludeTransitive(o, log, mid, log');
      mid := log';
      out, verdicts, rest, log', fell, rc, end, rs := Session(o, want, groups, grouped, true, log');
      out, rs := BlameUpgrade(o, stop, groups, grouped, out, rest, LastWord(log'), rc, end, rs);
      ConductOfRerun(o, groups, mid, log', rc, end, verdicts);
      end := end.(rerun := true);
    }
    ConductedFrom(o, groups, log, mid, log', rc, end, verdicts);
    SessionShows(o, stop, groups, grouped, log, log', rc, end, rs, rest, verdicts);
  }
}
