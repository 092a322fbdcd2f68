/** The prober's side of the wire, as a log of what it did and a machine that says what it may do
    next: hold one session lease, spend one token per RCPT, and keep the order of commands
    sections 3.3 and 4.1.4 of RFC 5321 and section 4.2 of RFC 3207 ask for. */
module Dialogue {
  import opened Wrappers
  import opened Replies
  import opened Hosts

  /** A command, or the wait for the banner. `domain` is the recipient domain whose transaction the
      command belongs to: it labels the log and is not sent. */
  datatype Command =
    | Banner
    | Ehlo
    | StartTLS
    | MailFrom(domain: string)
    | Rcpt(addr: string, domain: string)
    | Bogus(addr: string, domain: string)
    | Rset

  datatype Reason = Relay | DomainLimit | SecondMail

  datatype Event =
    | Leased
    | Released
    | Token
    | NoToken
    | Dialled(addr: string, up: bool)
    | Closed
    | Ask(cmd: Command, answer: Option<Reply>)  // None: the write or the read failed
    | Handshake(up: bool)
    | FellBack(reason: Reason)
    | Goodbye                                   // RSET and QUIT, written without reading

  /** Everything done so far, the latest event outermost. */
  datatype Log = Start | Then(before: Log, event: Event)

  /** Where the connection stands. */
  datatype Link =
    | NoLink
    | Opened                    // dialled, banner not read
    | Greeted                   // banner was 220
    | Introduced(plain: bool)   // EHLO was 250; plain: STARTTLS not asked yet
    | Agreed                    // STARTTLS was 220
    | Shaken                    // handshake done, EHLO owed
    | Open(domain: string)      // MAIL FROM was 250
    | Cleared                   // RSET was 250
    | Refused                   // turned away before the first transaction
    | Balked                    // RSET or a further MAIL FROM refused
    | Quitting                  // grouping given up
    | Parted                    // RSET and QUIT written
    | Dead                      // a read or a write failed

  /** `credit` is tokens granted under the lease held and not yet spent on a RCPT; giving the lease back
      forfeits them. */
  datatype State = State(leased: bool, credit: nat, link: Link)

  const Idle := State(false, 0, NoLink)

  predicate Says(answer: Option<Reply>, code: int) {
    answer.Some? && answer.value.code == code
  }

  predicate IsHex(s: string) {
    forall i :: 0 <= i < |s| ==> '0' <= s[i] <= '9' || 'a' <= s[i] <= 'f'
  }

  const LOCAL_LENGTH := 24

  /** "@" and the domain, without its closing dot. */
  function AtDomain(domain: string): string {
    "@" + TrimDot(domain)
  }

  /** A known-bad address built for a domain: 12 random bytes in hexadecimal, then the domain. */
  predicate BogusFor(addr: string, domain: string) {
    domain != "" && |addr| >= LOCAL_LENGTH && IsHex(addr[..LOCAL_LENGTH]) && addr[LOCAL_LENGTH..] == AtDomain(domain)
  }

  /** The link after an answered or failed command, or None when the command was out of order. */
  ghost function Talk(link: Link, cmd: Command, answer: Option<Reply>): Option<Link> {
    match (link, cmd)
    case (Opened, Banner) =>
      Some(if Says(answer, 220) then Greeted else if answer.Some? then Refused else Dead)
    case (Greeted, Ehlo) =>
      Some(if Says(answer, 250) then Introduced(true) else if answer.Some? then Refused else Dead)
    case (Shaken, Ehlo) =>
      Some(if Says(answer, 250) then Introduced(false) else if answer.Some? then Refused else Dead)
    case (Introduced(plain), StartTLS) =>
      if !plain then None
      else Some(if Says(answer, 220) then Agreed else if answer.Some? then Introduced(false) else Dead)
    case (Introduced(_), MailFrom(d)) =>
      Some(if Says(answer, 250) then Open(d) else if answer.Some? then Refused else Dead)
    case (Cleared, MailFrom(d)) =>
      Some(if Says(answer, 250) then Open(d) else if answer.Some? then Balked else Dead)
    case (Open(d), Rcpt(_, d')) =>
      if d != d' then None else Some(if answer.Some? then link else Dead)
    case (Open(d), Bogus(a, d')) =>
      // A failed read here does not end the session: the next domain is still tried.
      if d != d' || !BogusFor(a, d) then None else Some(link)
    case (Open(_), Rset) =>
      Some(if Says(answer, 250) then Cleared else if answer.Some? then Balked else Dead)
    case _ => None
  }

  predicate Costs(cmd: Command) {
    cmd.Rcpt? || cmd.Bogus?
  }

  ghost function Next(s: State, e: Event): Option<State> {
    match e
    case Leased => if !s.leased && s.link.NoLink? then Some(s.(leased := true)) else None
    case Released => if s.leased && s.link.NoLink? then Some(Idle) else None
    case Token => if s.leased then Some(s.(credit := s.credit + 1)) else None
    case NoToken => if s.leased then Some(s) else None
    case Dialled(_, up) =>
      if s.leased && s.link.NoLink? && s.credit > 0 then Some(if up then s.(link := Opened) else s) else None
    case Closed => if !s.link.NoLink? then Some(s.(link := NoLink)) else None
    case Ask(cmd, answer) =>
      var l := Talk(s.link, cmd, answer);
      if l.None? || !s.leased || (Costs(cmd) && s.credit == 0) then None
      else Some(s.(link := l.value, credit := if Costs(cmd) then s.credit - 1 else s.credit))
    case Handshake(up) =>
      if s.leased && s.link.Agreed? then Some(s.(link := if up then Shaken else Dead)) else None
    case FellBack(reason) =>
      if s.link.Balked? || (s.link.Open? && !reason.SecondMail?) then Some(s.(link := Quitting)) else None
    case Goodbye =>
      if s.link.Open? || s.link.Quitting? then Some(s.(link := Parted)) else None
  }

  /** The state after a log, or None when some event in it was out of order. */
  ghost function At(log: Log): Option<State> {
    match log
    case Start => Some(Idle)
    case Then(before, e) =>
      var s := At(before);
      if s.None? then None else Next(s.value, e)
  }

  // ---------------------------------------------------------------- reading a log

  /** One RCPT for a real address and the reply that step read. */
  datatype Attempt = Attempt(addr: string, answer: Option<Reply>)

  /** The RCPTs for real addresses, in the order they were sent. */
  ghost function Attempts(log: Log): seq<Attempt> {
    if log.Start? then []
    else if log.event.Ask? && log.event.cmd.Rcpt? then
      Attempts(log.before) + [Attempt(log.event.cmd.addr, log.event.answer)]
    else Attempts(log.before)
  }

  /** The replies to the bogus RCPTs of the transaction open at the end of the log. */
  ghost function BogusReplies(log: Log): seq<Option<Reply>> {
    if log.Start? then []
    else if log.event.Ask? && log.event.cmd.Bogus? then BogusReplies(log.before) + [log.event.answer]
    else if log.event.Ask? && log.event.cmd.MailFrom? then []
    else BogusReplies(log.before)
  }

  /** The last thing that happened before the session wound down. */
  ghost function LastWord(log: Log): Option<Event> {
    if log.Start? then None
    else if log.event.Closed? || log.event.Released? || log.event.Goodbye? then LastWord(log.before)
    else Some(log.event)
  }

  ghost function Tokens(log: Log): nat {
    if log.Start? then 0 else Tokens(log.before) + (if log.event.Token? then 1 else 0)
  }

  /** RCPTs sent, real and bogus. */
  ghost function Rcpts(log: Log): nat {
    if log.Start? then 0 else Rcpts(log.before) + (if log.event.Ask? && Costs(log.event.cmd) then 1 else 0)
  }

  /** Tokens forfeited with the lease they were granted under. */
  ghost function Forfeited(log: Log): nat {
    if log.Start? then 0
    else
      Forfeited(log.before)
      + (if log.event.Released? && At(log.before).Some? then At(log.before).value.credit else 0)
  }

  /** Tokens granted since a lease was last taken. */
  ghost function LeaseTokens(log: Log): nat {
    if log.Start? || log.event.Leased? then 0 else LeaseTokens(log.before) + (if log.event.Token? then 1 else 0)
  }

  /** RCPTs sent, real and bogus, since a lease was last taken. */
  ghost function LeaseRcpts(log: Log): nat {
    if log.Start? || log.event.Leased? then 0
    else LeaseRcpts(log.before) + (if log.event.Ask? && Costs(log.event.cmd) then 1 else 0)
  }

  ghost function Leases(log: Log): nat {
    if log.Start? then 0 else Leases(log.before) + (if log.event.Leased? then 1 else 0)
  }

  ghost function Releases(log: Log): nat {
    if log.Start? then 0 else Releases(log.before) + (if log.event.Released? then 1 else 0)
  }

  /** MAIL FROMs sent on the connection in use. */
  ghost function Mails(log: Log): nat {
    if log.Start? || log.event.Dialled? || log.event.Closed? then 0
    else Mails(log.before) + (if log.event.Ask? && log.event.cmd.MailFrom? then 1 else 0)
  }

  /** RCPTs for real addresses answered since the last MAIL FROM. */
  ghost function Answers(log: Log): nat {
    if log.Start? || log.event.Dialled? || (log.event.Ask? && log.event.cmd.MailFrom?) then 0
    else Answers(log.before) + (if log.event.Ask? && log.event.cmd.Rcpt? && log.event.answer.Some? then 1 else 0)
  }

  /** RCPTs for real addresses sent on the connection in use. */
  ghost function Tried(log: Log): nat {
    if log.Start? || log.event.Dialled? || log.event.Closed? then 0
    else Tried(log.before) + (if log.event.Ask? && log.event.cmd.Rcpt? then 1 else 0)
  }

  /** The most RCPTs for real addresses any one connection has seen. */
  ghost function MostTried(log: Log): nat {
    if log.Start? then 0
    else if Tried(log) > MostTried(log.before) then Tried(log) else MostTried(log.before)
  }

  ghost predicate Prefix(a: Log, b: Log) {
    a == b || (b.Then? && Prefix(a, b.before))
  }

  lemma {:induction false} PrefixTransitive(a: Log, b: Log, c: Log)
    requires Prefix(a, b) && Prefix(b, c)
    ensures Prefix(a, c)
    decreases c
  {
    if b == c {
    } else {
      PrefixTransitive(a, b, c.before);
    }
  }

  // ---------------------------------------------------------------- what every log keeps

  /** Any earlier moment of an orderly log was orderly too. */
  lemma {:induction false} EveryMomentReached(log: Log, p: Log)
    requires At(log).Some? && Prefix(p, log)
    ensures At(p).Some?
    decreases log
  {
    if p == log {
    } else {
      EveryMomentReached(log.before, p);
    }
  }

  /** Conservation: every token granted was spent on a RCPT, real or bogus, was forfeited with its lease,
      or is still in hand. */
  lemma {:induction false} TokenLedger(log: Log)
    requires At(log).Some?
    ensures Tokens(log) == Rcpts(log) + Forfeited(log) + At(log).value.credit
  {
    if log.Start? {
    } else {
      TokenLedger(log.before);
    }
  }

  /** Under each lease by itself: no RCPT is ever sent on a token granted under another. */
  lemma {:induction false} LeaseBudget(log: Log)
    requires At(log).Some?
    ensures LeaseRcpts(log) <= LeaseTokens(log)
    ensures if At(log).value.leased then LeaseTokens(log) == LeaseRcpts(log) + At(log).value.credit
            else At(log).value.credit == 0
  {
    if log.Start? {
    } else {
      LeaseBudget(log.before);
    }
  }

  /** The leases taken are the leases given back plus the one held, if one is. */
  lemma {:induction false} LeaseLedger(log: Log)
    requires At(log).Some?
    ensures Leases(log) == Releases(log) + (if At(log).value.leased then 1 else 0)
  {
    if log.Start? {
    } else {
      LeaseLedger(log.before);
    }
  }

  /** At no moment of an orderly log have more RCPTs been sent than tokens granted, neither over the whole
      log nor under the lease last taken, nor is more than one session lease out. */
  lemma BudgetAndLease(log: Log, p: Log)
    requires At(log).Some? && Prefix(p, log)
    ensures Rcpts(p) <= Tokens(p) && LeaseRcpts(p) <= LeaseTokens(p)
    ensures Releases(p) <= Leases(p) <= Releases(p) + 1
  {
    EveryMomentReached(log, p);
    TokenLedger(p);
    LeaseBudget(p);
    LeaseLedger(p);
  }

  /** Tokens, dials and every command happen only while the one lease is held. */
  lemma SpentUnderLease(log: Log, p: Log)
    requires At(log).Some? && Prefix(p, log) && p.Then?
    requires p.event.Token? || p.event.Dialled? || p.event.Ask? || p.event.Handshake?
    ensures Leases(p.before) == Releases(p.before) + 1
  {
    EveryMomentReached(log, p);
    LeaseLedger(p.before);
  }

  /** `q` is the moment a MAIL FROM for `d` was answered 250, and nothing since has ended that
      transaction. */
  ghost predicate InTransaction(q: Log, p: Log, d: string)
    decreases p
  {
    && p.Then?
    && (if p.event.Ask? && p.event.cmd.MailFrom? then
          q == p && p.event.cmd.domain == d && Says(p.event.answer, 250)
        else
          && !p.event.Closed?
          && !(p.event.Ask? && p.event.cmd.Rset?)
          && InTransaction(q, p.before, d))
  }

  /** The domain an open transaction is for is that of the MAIL FROM it was opened by. */
  lemma {:induction false} TransactionOf(q: Log, log: Log, d: string)
    requires At(log).Some? && At(log).value.link.Open? && InTransaction(q, log, d)
    ensures q.Then? && q.event.Ask? && q.event.cmd == MailFrom(d) && At(log).value.link.domain == d
  {
    if !(log.event.Ask? && log.event.cmd.MailFrom?) {
      TransactionOf(q, log.before, d);
    }
  }

  /** An open transaction was opened by a MAIL FROM the server answered 250. */
  lemma {:induction false} OpenMeansAnswered(log: Log) returns (q: Log)
    requires At(log).Some? && At(log).value.link.Open?
    ensures Prefix(q, log) && InTransaction(q, log, At(log).value.link.domain)
  {
    if log.event.Ask? && log.event.cmd.MailFrom? {
      q := log;
    } else {
      q := OpenMeansAnswered(log.before);
    }
  }

  /** Every attempt in a log is an event of it. */
  lemma {:induction false} AttemptIsEvent(log: Log, k: nat) returns (p: Log)
    requires k < |Attempts(log)|
    ensures Prefix(p, log) && p.Then? && p.event.Ask? && p.event.cmd.Rcpt?
    ensures p.event.cmd.addr == Attempts(log)[k].addr && p.event.answer == Attempts(log)[k].answer
  {
    if log.event.Ask? && log.event.cmd.Rcpt? && k == |Attempts(log.before)| {
      p := log;
    } else {
      p := AttemptIsEvent(log.before, k);
    }
  }

  /** The event `p` asked about `a` inside a transaction the server had accepted, and read `reply`. */
  ghost predicate AnsweredAt(log: Log, p: Log, q: Log, a: string, reply: Reply) {
    && Prefix(p, log)
    && p.Then? && p.event.Ask? && p.event.cmd.Rcpt?
    && p.event.cmd.addr == a
    && p.event.answer == Some(reply)
    && InTransaction(q, p.before, p.event.cmd.domain)
  }

  lemma AnsweredAttempt(log: Log, k: nat) returns (p: Log, q: Log)
    requires At(log).Some? && k < |Attempts(log)| && Attempts(log)[k].answer.Some?
    ensures AnsweredAt(log, p, q, Attempts(log)[k].addr, Attempts(log)[k].answer.value)
  {
    p := AttemptIsEvent(log, k);
    EveryMomentReached(log, p);
    q := OpenMeansAnswered(p.before);
  }
}
