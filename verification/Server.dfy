/** The receiving side the prober talks to: a small SMTP server, command by command, and the two
    machines run against each other. */
module Server {
  import opened Wrappers
  import opened Replies
  import opened Hosts
  import opened Dialogue
  import opened Grammar
  import opened SessionSpec

  // ---------------------------------------------------------------- addresses as the server reads them

  /** The text before the first ">". */
  function UpToAngle(s: string): string {
    if s == [] || s[0] == '>' then [] else [s[0]] + UpToAngle(s[1..])
  }

  /** The address inside "<" and ">", as a RCPT argument carries it. */
  function ParseAddr(text: string): string {
    TrimSpace(UpToAngle(text))
  }

  /** The text after the last "@"; all of it when there is none. */
  function AfterAt(s: string): string {
    if s == [] || s[|s| - 1] == '@' then [] else AfterAt(s[..|s| - 1]) + [s[|s| - 1]]
  }

  /** The recipient domain of an address: lower case, without a closing dot. */
  function DomainOf(addr: string): string {
    TrimDot(AfterAt(Lower(addr)))
  }

  /** The domain the server files a RCPT for `text` under. */
  function ServerDomain(text: string): string {
    DomainOf(ParseAddr(text))
  }

  /** How a server reads a recipient: the address it finds, and the domain it files it under. */
  datatype Reading = Reading(addr: string -> string, domain: string -> string)

  const AsWritten := Reading(ParseAddr, ServerDomain)

  // ---------------------------------------------------------------- the server

  datatype TLSMode = Off | Offered | Required | Broken

  /** Limits of zero or less are off. `txReply` answers one MAIL FROM too many, `caps` an EHLO. */
  datatype Profile = Profile(startTLS: TLSMode, caps: string, txLimit: int, txReply: Reply, domainLimit: int, domainReply: Reply)

  /** What the policy engine decides about one RCPT. */
  datatype Action = Answer | AnswerAndClose | Drop | Hang

  datatype Ruling = Ruling(action: Action, reply: Reply)

  /** What the client wrote, the keyword recognised. RCPT and MAIL carry their argument's address. */
  datatype Line =
    | HeloLine(arg: string)
    | MailLine(addr: string)
    | RcptLine(addr: string)
    | RsetLine
    | NoopLine
    | VrfyLine
    | StartTLSLine
    | DataLine
    | QuitLine
    | OtherLine

  /** The session's fields, with the engine's counters of commands out of order and of RCPTs refused
      for one domain too many. */
  datatype ServerState = ServerState(helo: bool, mail: bool, rcpts: nat, txDomains: seq<string>, txns: nat, tls: bool,
                           badSequence: nat, domainLimited: nat)

  predicate OffersTLS(m: TLSMode) {
    !m.Off?
  }

  /** What an EHLO is answered: STARTTLS is listed until it is done. */
  function Capabilities(p: Profile, tls: bool): string {
    if OffersTLS(p.startTLS) && !tls then p.caps + "\n250 STARTTLS" else p.caps
  }

  const BAD_SEQUENCE := Reply(503, "5.5.1 Error")

  /** A RCPT for `addr`, filed under domain `d`. */
  function ReactRcpt(p: Profile, s: ServerState, addr: string, d: string, ruling: Ruling): (ServerState, Option<Reply>, bool) {
    if !s.mail then (s.(badSequence := s.badSequence + 1), Some(BAD_SEQUENCE), true)
    else if addr == "" then (s, Some(Reply(501, "5.1.3 Bad recipient address syntax")), true)
    else if p.domainLimit > 0 && d !in s.txDomains && |s.txDomains| >= p.domainLimit then
      (s.(domainLimited := s.domainLimited + 1), Some(p.domainReply), true)
    else
      var s' := s.(rcpts := s.rcpts + 1,
                   txDomains := if p.domainLimit > 0 && d !in s.txDomains then s.txDomains + [d] else s.txDomains);
      match ruling.action
      case Answer => (s', Some(ruling.reply), true)
      case AnswerAndClose => (s', Some(ruling.reply), false)
      case Drop => (s', None, false)
      case Hang => (s', None, false)
  }

  /** One line's effect: the new state, the reply when one is written, and whether the connection
      stays open. `handshake`: whether a TLS handshake, if one is due, completes. */
  function React(p: Profile, rd: Reading, s: ServerState, line: Line, ruling: Ruling, handshake: bool): (ServerState, Option<Reply>, bool) {
    match line
    case HeloLine(arg) =>
      if arg == "" then (s, Some(Reply(501, "5.5.4 Syntax")), true)
      else (s.(helo := true, mail := false, rcpts := 0, txDomains := []), Some(Reply(250, Capabilities(p, s.tls))), true)
    case MailLine(_) =>
      if !s.helo then (s.(badSequence := s.badSequence + 1), Some(BAD_SEQUENCE), true)
      else if p.startTLS.Required? && !s.tls then (s, Some(Reply(530, "5.7.0 Must issue a STARTTLS command first")), true)
      else if p.txLimit > 0 && s.txns >= p.txLimit then (s, Some(p.txReply), true)
      else (s.(txns := s.txns + 1, mail := true, rcpts := 0, txDomains := []), Some(Reply(250, "2.1.0 Ok")), true)
    case RcptLine(text) => ReactRcpt(p, s, rd.addr(text), rd.domain(text), ruling)
    case RsetLine => (s.(mail := false, rcpts := 0, txDomains := []), Some(Reply(250, "2.0.0 Ok")), true)
    case NoopLine => (s, Some(Reply(250, "2.0.0 Ok")), true)
    case VrfyLine => (s, Some(Reply(252, "2.5.2 Cannot VRFY user")), true)
    case StartTLSLine =>
      if !OffersTLS(p.startTLS) || s.tls then (s, Some(Reply(454, "4.7.0 TLS not available")), true)
      else if p.startTLS.Broken? || !handshake then (s, Some(Reply(220, "2.0.0 Ready to start TLS")), false)
      else (s.(tls := true, helo := false, mail := false, rcpts := 0, txDomains := []),
            Some(Reply(220, "2.0.0 Ready to start TLS")), true)
    case DataLine =>
      if !s.mail || s.rcpts == 0 then (s.(badSequence := s.badSequence + 1), Some(BAD_SEQUENCE), true)
      else (s.(mail := false, rcpts := 0, txDomains := []), Some(Reply(250, "2.0.0 Ok: queued")), true)
    case QuitLine => (s, Some(Reply(221, "2.0.0 Bye")), false)
    case OtherLine => (s, Some(Reply(500, "5.5.2 Error")), true)
  }

  /** The server's end of one connection. */
  class Session {
    var helo: bool
    var mail: bool
    var rcpts: nat
    var tls: bool
    var txDomains: seq<string>
    var txns: nat
    var badSequence: nat
    var domainLimited: nat

    constructor (badSequence: nat, domainLimited: nat)
      ensures Value() == ServerState(false, false, 0, [], 0, false, badSequence, domainLimited)
    {
      helo, mail, rcpts, tls, txDomains, txns := false, false, 0, false, [], 0;
      this.badSequence, this.domainLimited := badSequence, domainLimited;
    }

    ghost function Value(): ServerState
      reads this
    {
      ServerState(helo, mail, rcpts, txDomains, txns, tls, badSequence, domainLimited)
    }

    /** Handles one line, field by field. */
    method Dispatch(p: Profile, line: Line, ruling: Ruling, handshake: bool) returns (reply: Option<Reply>, open: bool)
      modifies this
      ensures (Value(), reply, open) == React(p, AsWritten, old(Value()), line, ruling, handshake)
    {
      open := true;
      match line {
        case HeloLine(arg) =>
          if arg == "" {
            reply := Some(Reply(501, "5.5.4 Syntax"));
          } else {
            helo, mail, rcpts, txDomains := true, false, 0, [];
            reply := Some(Reply(250, Capabilities(p, tls)));
          }
        case MailLine(_) =>
          if !helo {
            badSequence := badSequence + 1;
            reply := Some(BAD_SEQUENCE);
          } else if p.startTLS.Required? && !tls {
            reply := Some(Reply(530, "5.7.0 Must issue a STARTTLS command first"));
          } else if p.txLimit > 0 && txns >= p.txLimit {
            reply := Some(p.txReply);
          } else {
            txns := txns + 1;
            mail, rcpts, txDomains := true, 0, [];
            reply := Some(Reply(250, "2.1.0 Ok"));
          }
        case RcptLine(text) =>
          reply, open := Recipient(p, ParseAddr(text), ServerDomain(text), ruling);
        case RsetLine =>
          mail, rcpts, txDomains := false, 0, [];
          reply := Some(Reply(250, "2.0.0 Ok"));
        case NoopLine =>
          reply := Some(Reply(250, "2.0.0 Ok"));
        case VrfyLine =>
          reply := Some(Reply(252, "2.5.2 Cannot VRFY user"));
        case StartTLSLine =>
          if !OffersTLS(p.startTLS) || tls {
            reply := Some(Reply(454, "4.7.0 TLS not available"));
          } else {
            reply := Some(Reply(220, "2.0.0 Ready to start TLS"));
            if p.startTLS.Broken? || !handshake {
              open := false;
            } else {
              tls, helo, mail, rcpts, txDomains := true, false, false, 0, [];
            }
          }
        case DataLine =>
          if !mail || rcpts == 0 {
            badSequence := badSequence + 1;
            reply := Some(BAD_SEQUENCE);
          } else {
            mail, rcpts, txDomains := false, 0, [];
            reply := Some(Reply(250, "2.0.0 Ok: queued"));
          }
        case QuitLine =>
          reply, open := Some(Reply(221, "2.0.0 Bye")), false;
        case OtherLine =>
          reply := Some(Reply(500, "5.5.2 Error"));
      }
    }

    method Recipient(p: Profile, addr: string, d: string, ruling: Ruling) returns (reply: Option<Reply>, open: bool)
      modifies this
      ensures (Value(), reply, open) == ReactRcpt(p, old(Value()), addr, d, ruling)
    {
      open := true;
      if !mail {
        badSequence := badSequence + 1;
        return Some(BAD_SEQUENCE), true;
      }
      if addr == "" {
        return Some(Reply(501, "5.1.3 Bad recipient address syntax")), true;
      }
      if p.domainLimit > 0 && d !in txDomains {
        if |txDomains| >= p.domainLimit {
          domainLimited := domainLimited + 1;
          return Some(p.domainReply), true;
        }
        txDomains := txDomains + [d];
      }
      rcpts := rcpts + 1;
      match ruling.action {
        case Answer => reply := Some(ruling.reply);
        case AnswerAndClose => reply, open := Some(ruling.reply), false;
        case Drop => reply, open := None, false;
        case Hang => reply, open := None, false;
      }
    }
  }

  // ---------------------------------------------------------------- the two machines together

  /** The line a command puts on the wire; `helo` is the EHLO argument, as the server trims it. */
  function LineOf(cmd: Command, helo: string): Line
    requires !cmd.Banner?
  {
    match cmd
    case Ehlo => HeloLine(helo)
    case StartTLS => StartTLSLine
    case MailFrom(_) => MailLine("")
    case Rcpt(a, _) => RcptLine(a)
    case Bogus(a, _) => RcptLine(a)
    case Rset => RsetLine
  }

  /** The server's end of the prober's connection. */
  datatype Far = Far(open: bool, state: ServerState)

  function Fresh(s: ServerState): ServerState {
    ServerState(false, false, 0, [], 0, false, s.badSequence, s.domainLimited)
  }

  const Nobody := Far(false, ServerState(false, false, 0, [], 0, false, 0, 0))

  /** One command reaching an open connection: dispatched and its reply read, or the connection lost,
      with the command dispatched or not. */
  ghost predicate Responds(p: Profile, rd: Reading, f: Far, line: Line, ruling: Ruling, handshake: bool,
                          answer: Option<Reply>, f': Far)
  {
    var r := React(p, rd, f.state, line, ruling, handshake);
    || (answer == r.1 && answer.Some? && f' == Far(r.2, r.0))
    || (answer.None? && !f'.open && (f'.state == r.0 || f'.state == f.state))
  }

  /** One event of the prober as its peer lives through it. Once the connection is lost nothing is read
      from it again. */
  ghost predicate Lives(p: Profile, rd: Reading, helo: string, f: Far, e: Event, f': Far) {
    match e
    case Dialled(_, up) => f' == if up then Far(true, Fresh(f.state)) else f
    case Ask(cmd, answer) =>
      if cmd.Banner? then f'.state == f.state && (f'.open ==> f.open && answer.Some?)
      else if !f.open then answer.None? && f' == f
      else exists ruling, handshake :: Responds(p, rd, f, LineOf(cmd, helo), ruling, handshake, answer, f')
    case Handshake(up) => f'.state == f.state && f'.open == (f.open && up)
    case Goodbye => !f'.open && (f'.state == f.state || f'.state == f.state.(mail := false, rcpts := 0, txDomains := []))
    case Closed => f' == f.(open := false)
    case _ => f' == f
  }

  /** The server can be in state `f` after living through the whole log. */
  ghost predicate LivedThrough(p: Profile, rd: Reading, helo: string, log: Log, f: Far) {
    if log.Start? then f == Nobody
    else exists f0 :: LivedThrough(p, rd, helo, log.before, f0) && Lives(p, rd, helo, f0, log.event, f)
  }

  // ---------------------------------------------------------------- the domain of an address

  lemma {:induction false} UpToAngleConcat(a: string, b: string)
    requires '>' !in a
    ensures UpToAngle(a + b) == a + UpToAngle(b)
  {
    if a == [] {
      assert a + b == b;
    } else {
      assert (a + b)[1..] == a[1..] + b;
      UpToAngleConcat(a[1..], b);
    }
  }

  lemma {:induction false} TrimRightConcat(a: string, b: string)
    requires b != [] && !IsSpace(b[0])
    ensures TrimRight(a + b) == a + TrimRight(b)
    decreases |b|
  {
    if IsSpace(b[|b| - 1]) {
      assert (a + b)[..|a + b| - 1] == a + b[..|b| - 1];
      TrimRightConcat(a, b[..|b| - 1]);
    }
  }

  lemma {:induction false} TrimRightKeeps(s: string)
    requires s != [] && !IsSpace(s[0])
    ensures TrimRight(s) != [] && TrimRight(s)[0] == s[0]
  {
    if IsSpace(s[|s| - 1]) {
      TrimRightKeeps(s[..|s| - 1]);
    }
  }

  lemma LowerConcat(a: string, b: string)
    ensures Lower(a + b) == Lower(a) + Lower(b)
  {
  }

  lemma {:induction false} AfterAtConcat(a: string, b: string)
    requires '@' in b
    ensures AfterAt(a + b) == AfterAt(b)
    decreases |b|
  {
    assert (a + b)[..|a + b| - 1] == a + b[..|b| - 1];
    if b[|b| - 1] != '@' {
      AfterAtConcat(a, b[..|b| - 1]);
    }
  }

  lemma ParseConcat(local: string, m: string)
    requires '>' !in local && (local != [] ==> !IsSpace(local[0])) && m != [] && m[0] == '@'
    ensures ParseAddr(m) != [] && ParseAddr(m)[0] == '@' && ParseAddr(local + m) == local + ParseAddr(m)
  {
    UpToAngleConcat(local, m);
    var u := UpToAngle(m);
    assert u[0] == '@';
    TrimRightConcat(local, u);
    TrimRightKeeps(u);
    assert TrimLeft(u) == u && TrimLeft(local + u) == local + u;
  }

  lemma DomainConcat(local: string, t: string)
    requires t != [] && t[0] == '@'
    ensures DomainOf(local + t) == DomainOf(t)
  {
    LowerConcat(local, t);
    assert Lower(t)[0] == '@';
    AfterAtConcat(Lower(local), Lower(t));
  }

  /** What precedes the "@" does not matter to the domain an address is filed under. */
  lemma LocalIgnored(local: string, m: string)
    requires '>' !in local && (local != [] ==> !IsSpace(local[0])) && m != [] && m[0] == '@'
    ensures ServerDomain(local + m) == ServerDomain(m)
  {
    ParseConcat(local, m);
    DomainConcat(local, ParseAddr(m));
  }

  /** A bogus address is filed under the same domain as the bare domain it was built from. */
  lemma BogusDomain(addr: string, d: string)
    requires BogusFor(addr, d)
    ensures ServerDomain(addr) == ServerDomain(AtDomain(d))
  {
    var local, m := addr[..LOCAL_LENGTH], AtDomain(d);
    assert addr == local + m;
    assert '>' !in local && !IsSpace(local[0]);
    LocalIgnored(local, m);
  }

  /** A reading files bogus addresses with the domain they were built for. */
  ghost predicate FilesBogus(rd: Reading) {
    forall a, d :: BogusFor(a, d) ==> rd.domain(a) == rd.domain(AtDomain(d))
  }

  lemma ServerFilesBogus()
    ensures FilesBogus(AsWritten)
  {
    forall a, d | BogusFor(a, d) ensures AsWritten.domain(a) == AsWritten.domain(AtDomain(d)) {
      BogusDomain(a, d);
    }
  }

  lemma {:induction false} LowerTwice(s: string)
    ensures Lower(Lower(s)) == Lower(s)
  {
    assert forall i :: 0 <= i < |s| ==> Lower(Lower(s))[i] == Lower(s)[i];
  }

  lemma {:induction false} LowerUpToAngle(s: string)
    ensures UpToAngle(Lower(s)) == Lower(UpToAngle(s))
  {
    if s != [] && s[0] != '>' {
      assert Lower(s)[1..] == Lower(s[1..]);
      LowerUpToAngle(s[1..]);
    }
  }

  lemma SpaceInAnyCase(c: char)
    ensures IsSpace(LowerChar(c)) <==> IsSpace(c)
  {
  }

  lemma {:induction false} LowerTrimLeft(s: string)
    ensures TrimLeft(Lower(s)) == Lower(TrimLeft(s))
  {
    if s == [] {
    } else {
      SpaceInAnyCase(s[0]);
      if IsSpace(s[0]) {
        var low := Lower(s);
        assert low[1..] == Lower(s[1..]);
        assert TrimLeft(low) == TrimLeft(low[1..]);
        LowerTrimLeft(s[1..]);
      }
    }
  }

  lemma {:induction false} LowerTrimRight(s: string)
    ensures TrimRight(Lower(s)) == Lower(TrimRight(s))
  {
    if s != [] && IsSpace(s[|s| - 1]) {
      LowerConcat(s[..|s| - 1], s[|s| - 1..]);
      assert s == s[..|s| - 1] + s[|s| - 1..];
      assert Lower(s)[..|s| - 1] == Lower(s[..|s| - 1]);
      LowerTrimRight(s[..|s| - 1]);
    }
  }

  /** Case does not matter to the domain an address is filed under. */
  lemma FiledInAnyCase(text: string)
    ensures ServerDomain(Lower(text)) == ServerDomain(text)
  {
    LowerUpToAngle(text);
    LowerTrimLeft(UpToAngle(text));
    LowerTrimRight(TrimLeft(UpToAngle(text)));
    LowerTwice(ParseAddr(text));
  }

  /** Two spellings of a domain that compare equal and have no white space around them are filed as one. */
  lemma SpelledAlike(d: string, e: string)
    requires TrimSpace(d) == d && TrimSpace(e) == e && Normal(d) == Normal(e)
    ensures ServerDomain(AtDomain(d)) == ServerDomain(AtDomain(e))
  {
    LowerConcat("@", TrimDot(d));
    LowerConcat("@", TrimDot(e));
    FiledInAnyCase(AtDomain(d));
    FiledInAnyCase(AtDomain(e));
  }

  lemma {:induction false} UpToAnglePlain(s: string)
    requires '>' !in s
    ensures UpToAngle(s) == s
  {
    if s == [] {
    } else {
      UpToAnglePlain(s[1..]);
    }
  }

  lemma {:induction false} AfterAtAll(d: string)
    requires '@' !in d
    ensures AfterAt("@" + d) == d
  {
    if d == [] {
    } else {
      AfterAtAll(d[..|d| - 1]);
      assert ("@" + d)[..|d|] == "@" + d[..|d| - 1];
    }
  }

  // ---------------------------------------------------------------- the order of commands

  /** A MAIL FROM the server refuses is never answered 250, on a connection that sees `n` of them. */
  predicate LimitShows(p: Profile, n: nat) {
    p.txLimit <= 0 || p.txReply.code != 250 || p.txLimit >= n
  }

  /** What the server knows of the dialogue when the prober believes it stands at `link`, having sent
      `mails` MAIL FROMs. */
  ghost predicate InStep(link: Link, mails: nat, f: Far) {
    && f.state.badSequence == 0
    && (link.NoLink? ==> !f.open)
    && (f.open ==>
          && f.state.txns <= mails
          && (link.Introduced? || link.Cleared? || link.Open? ==> f.state.helo)
          && (link.Open? ==> f.state.mail))
  }

  lemma InStepAfterAsk(p: Profile, rd: Reading, helo: string, n: nat, link: Link, mails: nat, cmd: Command, answer: Option<Reply>,
                       f: Far, f': Far)
    requires LimitShows(p, n) && InStep(link, mails, f) && Talk(link, cmd, answer).Some?
    requires Lives(p, rd, helo, f, Ask(cmd, answer), f')
    requires cmd.MailFrom? ==> mails + 1 <= n
    ensures InStep(Talk(link, cmd, answer).value, if cmd.MailFrom? then mails + 1 else mails, f')
  {
    if f.open && !cmd.Banner? {
      var ruling, handshake :| Responds(p, rd, f, LineOf(cmd, helo), ruling, handshake, answer, f');
    }
  }

  /** One command out and its reply back keep the two machines in step. */
  lemma {:induction false} InStepThroughout(p: Profile, rd: Reading, helo: string, n: nat, log: Log, f: Far)
    requires LimitShows(p, n) && At(log).Some? && Sparing(Start, log, n) && LivedThrough(p, rd, helo, log, f)
    ensures InStep(At(log).value.link, Mails(log), f)
  {
    if log.Start? {
    } else {
      var f0 :| LivedThrough(p, rd, helo, log.before, f0) && Lives(p, rd, helo, f0, log.event, f);
      InStepThroughout(p, rd, helo, n, log.before, f0);
      if log.event.Ask? {
        InStepAfterAsk(p, rd, helo, n, At(log.before).value.link, Mails(log.before), log.event.cmd, log.event.answer, f0, f);
      }
    }
  }

  /** However the server reads and rules and wherever the connection is lost: a prober that sends at most
      `n` MAIL FROMs per connection never draws a 503 from a server whose refusals of a MAIL FROM it can
      see, whatever addresses it asks about. */
  lemma NeverOutOfOrder(p: Profile, rd: Reading, helo: string, n: nat, log: Log, f: Far)
    requires LimitShows(p, n) && At(log).Some? && Sparing(Start, log, n) && LivedThrough(p, rd, helo, log, f)
    ensures f.state.badSequence == 0
  {
    InStepThroughout(p, rd, helo, n, log, f);
  }

  /** The prober upgrades a connection to this server: STARTTLS is switched on, and read in what is offered. */
  predicate WillUpgrade(o: Options, p: Profile) {
    o.startTLS && o.words.offersTLS(Capabilities(p, false))
  }

  /** Nothing has been asked of the server but its banner and, answered 250 or not, EHLO. */
  predicate Early(link: Link) {
    link.NoLink? || link.Opened? || link.Greeted? || link.Introduced? || link.Refused? || link.Dead?
  }

  /** What the server knows of a prober that never gets past EHLO. */
  ghost predicate Barred(o: Options, log: Log, link: Link, f: Far) {
    && Early(link) && !Bidden(o, log) && f.state.badSequence == 0
    && (f.open ==> !f.state.tls && (link.Introduced? ==> f.state.helo))
  }

  /** Insisting on an upgrade the prober will not make, or given no name to greet, the server lets no
      transaction be opened. */
  predicate Bars(o: Options, p: Profile, helo: string) {
    helo == "" || (p.startTLS.Required? && !WillUpgrade(o, p))
  }

  lemma BarredAfterAsk(o: Options, p: Profile, rd: Reading, helo: string, log: Log, link: Link, cmd: Command,
                       answer: Option<Reply>, f: Far, f': Far)
    requires Bars(o, p, helo) && Barred(o, log, link, f) && (helo == "" ==> !link.Introduced?)
    requires Talk(link, cmd, answer).Some? && Lives(p, rd, helo, f, Ask(cmd, answer), f') && !cmd.StartTLS?
    ensures Barred(o, Then(log, Ask(cmd, answer)), Talk(link, cmd, answer).value, f')
    ensures helo == "" ==> !Talk(link, cmd, answer).value.Introduced?
  {
    if f.open && !cmd.Banner? {
      var ruling, handshake :| Responds(p, rd, f, LineOf(cmd, helo), ruling, handshake, answer, f');
    }
  }

  /** A server that bars the prober draws nothing from it out of order, whatever its limit. */
  lemma {:induction false} BarredThroughout(o: Options, p: Profile, rd: Reading, helo: string, log: Log, f: Far)
    requires Bars(o, p, helo) && At(log).Some? && Unbidden(o, log) == 0 && LivedThrough(p, rd, helo, log, f)
    ensures Barred(o, log, At(log).value.link, f) && f.state.badSequence == 0
    ensures helo == "" ==> !At(log).value.link.Introduced?
  {
    if log.Start? {
    } else {
      var f0 :| LivedThrough(p, rd, helo, log.before, f0) && Lives(p, rd, helo, f0, log.event, f);
      BarredThroughout(o, p, rd, helo, log.before, f0);
      if log.event.Ask? {
        BarredAfterAsk(o, p, rd, helo, log.before, At(log.before).value.link, log.event.cmd, log.event.answer, f0, f);
      }
    }
  }

  /** This server answers every RSET it answers with 250, so against it the verbs of every connection, at
      every moment, keep to the strict grammar. */
  lemma {:induction false} ResetsAccepted(p: Profile, rd: Reading, helo: string, log: Log, f: Far)
    requires LivedThrough(p, rd, helo, log, f)
    ensures !RefusedReset(log) && !LeftAtReset(log)
  {
    if log.Start? {
    } else {
      var f0 :| LivedThrough(p, rd, helo, log.before, f0) && Lives(p, rd, helo, f0, log.event, f);
      ResetsAccepted(p, rd, helo, log.before, f0);
    }
  }

  lemma StrictAgainstServer(p: Profile, rd: Reading, helo: string, log: Log, f: Far)
    requires At(log).Some? && LivedThrough(p, rd, helo, log, f)
    ensures Strict(Verbs(log))
  {
    ResetsAccepted(p, rd, helo, log, f);
    StrictExactlyWhen(log);
  }

  // ---------------------------------------------------------------- one recipient domain per transaction

  /** `p` is a RCPT of the log, real or bogus, in the transaction the MAIL FROM at `t` opened. */
  ghost predicate Inside(log: Log, t: Log, p: Log) {
    && Prefix(p, log) && p.Then? && p.event.Ask? && Costs(p.event.cmd)
    && InTransaction(t, p.before, p.event.cmd.domain)
  }

  /** Any two RCPTs of one transaction, real or bogus, are of one recipient domain. */
  ghost predicate OneDomainEach(rd: Reading, log: Log) {
    forall t, p, p' :: Inside(log, t, p) && Inside(log, t, p') ==>
      rd.domain(p.event.cmd.addr) == rd.domain(p'.event.cmd.addr)
  }

  /** A reading files every RCPT of the log under the domain `at` gives for the domain it was asked under. */
  ghost predicate Filed(rd: Reading, at: string -> string, log: Log) {
    && (forall p :: p in Pairs(log) ==> rd.domain(p.0) == at(p.1))
    && (forall d, a :: d in Questions(log) && BogusFor(a, d) ==> rd.domain(a) == at(d))
  }

  lemma {:induction false} NamedInLog(log: Log, p: Log)
    requires Prefix(p, log) && p.Then? && p.event.Ask?
    ensures p.event.cmd.Rcpt? ==> (p.event.cmd.addr, p.event.cmd.domain) in Pairs(log)
    ensures p.event.cmd.Bogus? ==> p.event.cmd.domain in Questions(log)
    decreases log
  {
    if p == log {
    } else {
      NamedInLog(log.before, p);
    }
  }

  /** A RCPT inside a transaction is asked under the transaction's domain, and is in the log as such. */
  lemma InsideNamed(log: Log, t: Log, p: Log)
    requires At(log).Some? && Inside(log, t, p)
    ensures t.Then? && t.event.Ask? && t.event.cmd == MailFrom(p.event.cmd.domain)
    ensures p.event.cmd.Rcpt? ==> (p.event.cmd.addr, p.event.cmd.domain) in Pairs(log)
    ensures p.event.cmd.Bogus? ==> p.event.cmd.domain in Questions(log) && BogusFor(p.event.cmd.addr, p.event.cmd.domain)
  {
    EveryMomentReached(log, p);
    TransactionOf(t, p.before, p.event.cmd.domain);
    NamedInLog(log, p);
  }

  /** A RCPT inside a transaction is filed with the transaction's domain. */
  lemma InsideFiled(rd: Reading, at: string -> string, log: Log, t: Log, p: Log)
    requires At(log).Some? && Filed(rd, at, log) && Inside(log, t, p)
    ensures t.Then? && t.event.Ask? && t.event.cmd.MailFrom? && rd.domain(p.event.cmd.addr) == at(t.event.cmd.domain)
  {
    InsideNamed(log, t, p);
  }

  /** At every moment of an orderly log whose addresses are filed with the domain they are asked under,
      every transaction keeps to one recipient domain. */
  lemma OneDomainPerTransaction(rd: Reading, at: string -> string, log: Log)
    requires At(log).Some? && Filed(rd, at, log)
    ensures OneDomainEach(rd, log)
  {
    forall t, p, p' | Inside(log, t, p) && Inside(log, t, p')
      ensures rd.domain(p.event.cmd.addr) == rd.domain(p'.event.cmd.addr)
    {
      InsideFiled(rd, at, log, t, p);
      InsideFiled(rd, at, log, t, p');
    }
  }

  /** Of two moments of one log, one came first. */
  lemma {:induction false} Comparable(log: Log, p: Log, p': Log)
    requires Prefix(p, log) && Prefix(p', log)
    ensures Prefix(p, p') || Prefix(p', p)
    decreases log
  {
    if p == log || p' == log {
    } else {
      Comparable(log.before, p, p');
    }
  }

  ghost function Length(log: Log): nat {
    if log.Start? then 0 else Length(log.before) + 1
  }

  lemma {:induction false} ShorterBefore(p: Log, log: Log)
    requires Prefix(p, log)
    ensures Length(p) <= Length(log)
    decreases log
  {
    if p == log {
    } else {
      ShorterBefore(p, log.before);
    }
  }

  lemma {:induction false} OpenedBefore(t: Log, p: Log, d: string)
    requires InTransaction(t, p, d)
    ensures Prefix(t, p)
    decreases p
  {
    if p.event.Ask? && p.event.cmd.MailFrom? {
    } else {
      OpenedBefore(t, p.before, d);
    }
  }

  /** Within a transaction the RCPTs of its connection are only added to. */
  lemma {:induction false} TriedKept(t: Log, p: Log, m: Log, d: string)
    requires At(m).Some? && At(m).value.link.Open? && InTransaction(t, m, d) && Prefix(t, p) && Prefix(p, m)
    ensures Tried(p) <= Tried(m)
    decreases m
  {
    if p == m {
    } else if m.event.Ask? && m.event.cmd.MailFrom? {
      ShorterBefore(t, p);
      ShorterBefore(p, m.before);
    } else {
      TriedKept(t, p, m.before, d);
    }
  }

  lemma {:induction false} MostTriedAt(log: Log, p: Log)
    requires Prefix(p, log)
    ensures Tried(p) <= MostTried(log) && MostTried(p) <= MostTried(log)
    decreases log
  {
    if p == log {
      assert log.Start? ==> Tried(log) == 0;
    } else {
      MostTriedAt(log.before, p);
    }
  }

  lemma LaterTried(log: Log, t: Log, p: Log, p': Log)
    requires At(log).Some? && Inside(log, t, p) && Inside(log, t, p') && p.event.cmd.Rcpt? && p'.event.cmd.Rcpt?
    requires Prefix(p, p') && p != p'
    ensures MostTried(log) >= 2
  {
    EveryMomentReached(log, p');
    OpenedBefore(t, p.before, p.event.cmd.domain);
    assert Prefix(t, p);
    TriedKept(t, p, p'.before, p'.event.cmd.domain);
    MostTriedAt(log, p');
  }

  /** Two RCPTs for real addresses in one transaction are two on its connection. */
  lemma TwoTried(log: Log, t: Log, p: Log, p': Log)
    requires At(log).Some? && Inside(log, t, p) && Inside(log, t, p') && p.event.cmd.Rcpt? && p'.event.cmd.Rcpt?
    ensures p == p' || MostTried(log) >= 2
  {
    Comparable(log, p, p');
    if p != p' {
      if Prefix(p, p') {
        LaterTried(log, t, p, p');
      } else {
        LaterTried(log, t, p', p);
      }
    }
  }

  /** The recipient domains named since the last MAIL FROM. */
  ghost function TxDomains(rd: Reading, log: Log): set<string> {
    if log.Start? || (log.event.Ask? && log.event.cmd.MailFrom?) then {}
    else TxDomains(rd, log.before) + (if log.event.Ask? && Costs(log.event.cmd) then {rd.domain(log.event.cmd.addr)} else {})
  }

  lemma {:induction false} NamedInside(rd: Reading, log: Log, t: Log, d: string, x: string) returns (p: Log)
    requires At(log).Some? && At(log).value.link.Open? && InTransaction(t, log, d) && x in TxDomains(rd, log)
    ensures Inside(log, t, p) && rd.domain(p.event.cmd.addr) == x
    decreases log
  {
    if log.event.Ask? && Costs(log.event.cmd) && x == rd.domain(log.event.cmd.addr) {
      TransactionOf(t, log.before, d);
      p := log;
    } else {
      p := NamedInside(rd, log.before, t, d, x);
    }
  }

  /** Every RCPT is of the domain named before it in its transaction, where each keeps to one. */
  lemma SameAsBefore(rd: Reading, log: Log, x: string)
    requires At(log).Some? && OneDomainEach(rd, log) && log.Then? && log.event.Ask? && Costs(log.event.cmd)
    requires x in TxDomains(rd, log.before)
    ensures x == rd.domain(log.event.cmd.addr)
  {
    var d := log.event.cmd.domain;
    var t := OpenMeansAnswered(log.before);
    var p := NamedInside(rd, log.before, t, d, x);
    assert Inside(log, t, p) && Inside(log, t, log);
  }

  lemma OneDomainBefore(rd: Reading, log: Log)
    requires OneDomainEach(rd, log) && log.Then?
    ensures OneDomainEach(rd, log.before)
  {
    forall t, p, p' | Inside(log.before, t, p) && Inside(log.before, t, p')
      ensures rd.domain(p.event.cmd.addr) == rd.domain(p'.event.cmd.addr)
    {
      assert Inside(log, t, p) && Inside(log, t, p');
    }
  }

  /** What the server's own count of recipient domains says when the prober stands at `link` and has named
      these. */
  ghost predicate Counted(named: set<string>, link: Link, f: Far) {
    && f.state.domainLimited == 0 && |f.state.txDomains| <= 1
    && (f.open ==>
          match link
          case Open(_) => forall x :: x in f.state.txDomains ==> x in named
          case Balked => true
          case Quitting => true
          case Parted => true
          case Dead => true
          case _ => f.state.txDomains == [])
  }

  lemma CountedAfterRcpt(p: Profile, named: set<string>, s: ServerState, addr: string, d: string, ruling: Ruling, open: bool, link: Link)
    requires Counted(named, Open(""), Far(true, s)) && (forall x :: x in named ==> x == d) && (link.Open? || link.Dead?)
    ensures Counted(named + {d}, link, Far(open, ReactRcpt(p, s, addr, d, ruling).0))
  {
    if s.txDomains == [] {
    } else {
      assert s.txDomains[0] in s.txDomains;
      assert s.txDomains == [d];
    }
  }

  lemma CountedAfterAsk(p: Profile, rd: Reading, helo: string, named: set<string>, link: Link, cmd: Command,
                        answer: Option<Reply>, f: Far, f': Far)
    requires Counted(named, link, f) && Talk(link, cmd, answer).Some? && Lives(p, rd, helo, f, Ask(cmd, answer), f')
    requires Costs(cmd) ==> forall x :: x in named ==> x == rd.domain(cmd.addr)
    ensures Counted(if cmd.MailFrom? then {} else if Costs(cmd) then named + {rd.domain(cmd.addr)} else named,
                    Talk(link, cmd, answer).value, f')
  {
    if f.open && !cmd.Banner? {
      var ruling, handshake :| Responds(p, rd, f, LineOf(cmd, helo), ruling, handshake, answer, f');
      if Costs(cmd) {
        assert Counted(named, Open(""), Far(true, f.state));
        CountedAfterRcpt(p, named, f.state, rd.addr(cmd.addr), rd.domain(cmd.addr), ruling, f'.open, Talk(link, cmd, answer).value);
      }
    }
  }

  /** The server sees it too: where each transaction keeps to one recipient domain it never counts a second,
      and never refuses a RCPT for one domain too many, whatever its limit. */
  lemma {:induction false} CountedThroughout(p: Profile, rd: Reading, helo: string, log: Log, f: Far)
    requires At(log).Some? && LivedThrough(p, rd, helo, log, f) && OneDomainEach(rd, log)
    ensures f.state.domainLimited == 0 && |f.state.txDomains| <= 1
    ensures Counted(TxDomains(rd, log), At(log).value.link, f)
  {
    if log.Start? {
    } else {
      var f0 :| LivedThrough(p, rd, helo, log.before, f0) && Lives(p, rd, helo, f0, log.event, f);
      OneDomainBefore(rd, log);
      CountedThroughout(p, rd, helo, log.before, f0);
      if log.event.Ask? {
        if Costs(log.event.cmd) {
          forall x | x in TxDomains(rd, log.before) ensures x == rd.domain(log.event.cmd.addr) {
            SameAsBefore(rd, log, x);
          }
        }
        CountedAfterAsk(p, rd, helo, TxDomains(rd, log.before), At(log.before).value.link, log.event.cmd, log.event.answer, f0, f);
      }
    }
  }

  // ---------------------------------------------------------------- a limit that does not show

  /** As many domains as one likes, and an address of each. */
  datatype Guests = Guests(name: nat -> string, someone: nat -> string)

  /** The first `k` of them, each address with its domain. */
  function FirstNamed(g: Guests, k: nat): set<(string, string)> {
    if k == 0 then {} else FirstNamed(g, k - 1) + {(g.someone(k - 1), g.name(k - 1))}
  }

  /** A prober and a server, how they meet, and who is asked about. */
  datatype Site = Site(o: Options, p: Profile, rd: Reading, helo: string, g: Guests)

  /** How far a run has come: the prober's state, the MAIL FROMs sent, the addresses asked about. */
  datatype Stage = Stage(link: Link, credit: nat, mails: nat, asked: nat)

  ghost predicate Came(site: Site, n: nat, log: Log, s: Stage) {
    && At(log) == Some(State(true, s.credit, s.link))
    && Pairs(log) == FirstNamed(site.g, s.asked) && Questions(log) == {}
    && Mails(log) == s.mails && Sparing(Start, log, n)
    && Unbidden(site.o, log) == 0 && Tried(log) == MostTried(log) == s.asked
  }

  /** A moment of a joint run of a prober that sends at most `n` MAIL FROMs per connection. */
  ghost predicate Moment(site: Site, n: nat, log: Log, f: Far, s: Stage) {
    true == (
      && Came(site, n, log, s)
      && LivedThrough(site.p, site.rd, site.helo, log, f) && f.open && f.state.badSequence == 0)
  }

  /** One event that asks about no address. */
  lemma Extend(site: Site, n: nat, log: Log, f: Far, s: Stage, e: Event, f': Far, s': Stage)
    requires Moment(site, n, log, f, s) && Lives(site.p, site.rd, site.helo, f, e, f')
    requires f'.open && f'.state.badSequence == 0 && !(e.Ask? && Costs(e.cmd)) && !e.Dialled? && !e.Closed?
    requires Next(State(true, s.credit, s.link), e) == Some(State(true, s'.credit, s'.link)) && s'.asked == s.asked
    requires s'.mails == s.mails + (if e.Ask? && e.cmd.MailFrom? then 1 else 0) && s'.mails <= n
    requires e.Ask? && e.cmd.Rset? ==> Dialogue.Answers(log) >= 1
    requires e.Ask? && e.cmd.StartTLS? ==> Bidden(site.o, log)
    ensures Moment(site, n, Then(log, e), f', s')
  {
  }

  /** One command the server answers as `React` says. */
  lemma Told(site: Site, n: nat, log: Log, f: Far, s: Stage, cmd: Command) returns (log': Log, f': Far)
    requires Moment(site, n, log, f, s) && !cmd.Banner? && !Costs(cmd)
    requires s.mails + (if cmd.MailFrom? then 1 else 0) <= n && (cmd.Rset? ==> Dialogue.Answers(log) >= 1)
    requires cmd.StartTLS? ==> Bidden(site.o, log)
    requires var r := React(site.p, site.rd, f.state, LineOf(cmd, site.helo), Ruling(Drop, BAD_SEQUENCE), true);
             r.2 && r.1.Some? && r.0.badSequence == 0 && Talk(s.link, cmd, r.1).Some?
    ensures var r := React(site.p, site.rd, f.state, LineOf(cmd, site.helo), Ruling(Drop, BAD_SEQUENCE), true);
            f' == Far(true, r.0) && log' == Then(log, Ask(cmd, r.1))
            && Moment(site, n, log', f', s.(link := Talk(s.link, cmd, r.1).value,
                                            mails := s.mails + (if cmd.MailFrom? then 1 else 0)))
  {
    var r := React(site.p, site.rd, f.state, LineOf(cmd, site.helo), Ruling(Drop, BAD_SEQUENCE), true);
    f' := Far(true, r.0);
    assert Responds(site.p, site.rd, f, LineOf(cmd, site.helo), Ruling(Drop, BAD_SEQUENCE), true, r.1, f');
    log' := Then(log, Ask(cmd, r.1));
    Extend(site, n, log, f, s, Ask(cmd, r.1), f', s.(link := Talk(s.link, cmd, r.1).value,
                                                     mails := s.mails + (if cmd.MailFrom? then 1 else 0)));
  }

  lemma NothingTried(o: Options, log: Log, e: Event)
    requires Unbidden(o, log) == 0 && MostTried(log) == 0 && Tried(log) == 0 && !e.Ask?
    ensures Unbidden(o, Then(log, e)) == 0 && MostTried(Then(log, e)) == 0 && Tried(Then(log, e)) == 0
  {
  }

  /** Dialled under a lease, with a token. */
  lemma Call(site: Site, n: nat) returns (log: Log, f: Far)
    requires n >= 1
    ensures Moment(site, n, log, f, Stage(Opened, 1, 0, 0)) && f.state == Nobody.state
  {
    var l1 := Then(Start, Leased);
    assert At(l1) == Some(State(true, 0, NoLink)) && LivedThrough(site.p, site.rd, site.helo, l1, Nobody) by {
      assert Lives(site.p, site.rd, site.helo, Nobody, Leased, Nobody);
    }
    var l2 := Then(l1, Token);
    assert At(l2) == Some(State(true, 1, NoLink)) && LivedThrough(site.p, site.rd, site.helo, l2, Nobody) by {
      assert Lives(site.p, site.rd, site.helo, Nobody, Token, Nobody);
    }
    log, f := Then(l2, Dialled("", true)), Far(true, Nobody.state);
    assert LivedThrough(site.p, site.rd, site.helo, log, f) by {
      assert Lives(site.p, site.rd, site.helo, Nobody, Dialled("", true), f);
    }
    assert Sparing(Start, l1, n) && Sparing(Start, l2, n);
    NothingTried(site.o, Start, Leased);
    NothingTried(site.o, l1, Token);
    NothingTried(site.o, l2, Dialled("", true));
  }

  /** The upgrade, and the EHLO that is owed after it. */
  lemma IntroduceAgain(site: Site, n: nat, log0: Log, f0: Far) returns (log: Log, f: Far)
    requires site.helo != "" && site.p.startTLS.Required? && Bidden(site.o, log0)
    requires Moment(site, n, log0, f0, Stage(Introduced(true), 1, 0, 0)) && f0.state.txns == 0 && !f0.state.tls
    ensures Moment(site, n, log, f, Stage(Introduced(false), 1, 0, 0))
    ensures f.state.helo && f.state.txns == 0 && f.state.tls
  {
    log, f := Told(site, n, log0, f0, Stage(Introduced(true), 1, 0, 0), StartTLS);
    Extend(site, n, log, f, Stage(Agreed, 1, 0, 0), Handshake(true), f, Stage(Shaken, 1, 0, 0));
    log := Then(log, Handshake(true));
    log, f := Told(site, n, log, f, Stage(Shaken, 1, 0, 0), Ehlo);
  }

  /** Introduced, over TLS where the server insists on it. */
  lemma Introduce(site: Site, n: nat) returns (log: Log, f: Far, plain: bool)
    requires !Bars(site.o, site.p, site.helo) && n >= 1
    ensures Moment(site, n, log, f, Stage(Introduced(plain), 1, 0, 0))
    ensures f.state.helo && f.state.txns == 0 && (site.p.startTLS.Required? ==> f.state.tls)
  {
    log, f := Call(site, n);
    var e := Ask(Banner, Some(Reply(220, "")));
    Extend(site, n, log, f, Stage(Opened, 1, 0, 0), e, f, Stage(Greeted, 1, 0, 0));
    log := Then(log, e);
    log, f := Told(site, n, log, f, Stage(Greeted, 1, 0, 0), Ehlo);
    plain := true;
    if site.p.startTLS.Required? {
      log, f := IntroduceAgain(site, n, log, f);
      plain := false;
    }
  }

  /** A token for the next RCPT. */
  lemma Paid(site: Site, n: nat, log: Log, f: Far, s: Stage)
    requires Moment(site, n, log, f, s) && s.mails <= n
    ensures Moment(site, n, Then(log, Token), f, s.(credit := s.credit + 1))
  {
    Extend(site, n, log, f, s, Token, f, s.(credit := s.credit + 1));
  }

  lemma CameNext(site: Site, n: nat, log: Log, s: Stage, r: Reply)
    requires Came(site, n, log, s) && s.mails <= n && s.credit == 1 && s.link == Open(site.g.name(s.asked))
    ensures var log' := Then(log, Ask(Rcpt(site.g.someone(s.asked), site.g.name(s.asked)), Some(r)));
            Came(site, n, log', s.(credit := 0, asked := s.asked + 1)) && Dialogue.Answers(log') >= 1
  {
  }

  /** One RCPT for the next address, answered. */
  lemma AskNext(site: Site, n: nat, log: Log, f: Far, s: Stage, r: Reply, f': Far)
    requires Moment(site, n, log, f, s) && s.mails <= n && s.credit == 1 && s.link == Open(site.g.name(s.asked))
    requires Lives(site.p, site.rd, site.helo, f, Ask(Rcpt(site.g.someone(s.asked), site.g.name(s.asked)), Some(r)), f')
    ensures var log' := Then(log, Ask(Rcpt(site.g.someone(s.asked), site.g.name(s.asked)), Some(r)));
            && Came(site, n, log', s.(credit := 0, asked := s.asked + 1)) && Dialogue.Answers(log') >= 1
            && LivedThrough(site.p, site.rd, site.helo, log', f')
  {
    CameNext(site, n, log, s, r);
  }

  /** A transaction the server did open, and one address asked about in it and accepted. */
  lemma AskOne(site: Site, n: nat, log: Log, f: Far, s: Stage) returns (log': Log, f': Far)
    requires Moment(site, n, log, f, s) && s.mails <= n && s.credit == 1 && s.link == Open(site.g.name(s.asked)) && f.state.mail
    requires f.state.txDomains == []
    ensures Moment(site, n, log', f', s.(credit := 0, asked := s.asked + 1)) && Dialogue.Answers(log') >= 1
    ensures f'.state.helo == f.state.helo && f'.state.txns == f.state.txns && f'.state.tls == f.state.tls
  {
    var a := site.g.someone(s.asked);
    var cmd := Rcpt(a, site.g.name(s.asked));
    var ruling := Ruling(Answer, Reply(250, "2.1.5 Ok"));
    var r := ReactRcpt(site.p, f.state, site.rd.addr(a), site.rd.domain(a), ruling);
    f' := Far(true, r.0);
    assert Responds(site.p, site.rd, f, LineOf(cmd, site.helo), ruling, true, r.1, f');
    log' := Then(log, Ask(cmd, r.1));
    AskNext(site, n, log, f, s, r.1.value, f');
  }

  /** A MAIL FROM below the limit opens a transaction. */
  lemma OpenOne(site: Site, n: nat, log: Log, f: Far, s: Stage) returns (log': Log, f': Far)
    requires Moment(site, n, log, f, s) && (s.link.Introduced? || s.link.Cleared?) && s.mails < n
    requires f.state.helo && f.state.txns < site.p.txLimit && (site.p.startTLS.Required? ==> f.state.tls)
    ensures Moment(site, n, log', f', s.(link := Open(site.g.name(s.asked)), mails := s.mails + 1))
    ensures f'.state.helo && f'.state.mail && f'.state.txDomains == []
    ensures f'.state.txns == f.state.txns + 1 && f'.state.tls == f.state.tls
  {
    log', f' := Told(site, n, log, f, s, MailFrom(site.g.name(s.asked)));
  }

  /** RSET closes it. */
  lemma CloseOne(site: Site, n: nat, log: Log, f: Far, s: Stage) returns (log': Log, f': Far)
    requires Moment(site, n, log, f, s) && s.link.Open? && s.mails <= n && Dialogue.Answers(log) >= 1
    ensures Moment(site, n, log', f', s.(link := Cleared))
    ensures f'.state == f.state.(mail := false, rcpts := 0, txDomains := [])
  {
    log', f' := Told(site, n, log, f, s, Rset);
  }

  lemma Onward(site: Site, n: nat, k: nat, log0: Log, f0: Far) returns (log: Log, f: Far)
    requires 1 <= k < site.p.txLimit && k < n
    requires Moment(site, n, log0, f0, Stage(Open(site.g.name(k - 1)), 0, k, k)) && Dialogue.Answers(log0) >= 1
    requires f0.state.helo && f0.state.txns == k && (site.p.startTLS.Required? ==> f0.state.tls)
    ensures Moment(site, n, log, f, Stage(Open(site.g.name(k)), 0, k + 1, k))
    ensures f.state.helo && f.state.mail && f.state.txDomains == []
    ensures f.state.txns == k + 1 && (site.p.startTLS.Required? ==> f.state.tls)
  {
    log, f := CloseOne(site, n, log0, f0, Stage(Open(site.g.name(k - 1)), 0, k, k));
    log, f := OpenOne(site, n, log, f, Stage(Cleared, 0, k, k));
  }

  /** The next domain's transaction. */
  lemma OneMore(site: Site, n: nat, k: nat, log0: Log, f0: Far) returns (log: Log, f: Far)
    requires 1 <= k < site.p.txLimit && k < n
    requires Moment(site, n, log0, f0, Stage(Open(site.g.name(k - 1)), 0, k, k)) && Dialogue.Answers(log0) >= 1
    requires f0.state.helo && f0.state.txns == k && (site.p.startTLS.Required? ==> f0.state.tls)
    ensures Moment(site, n, log, f, Stage(Open(site.g.name(k)), 0, k + 1, k + 1)) && Dialogue.Answers(log) >= 1
    ensures f.state.helo && f.state.txns == k + 1 && (site.p.startTLS.Required? ==> f.state.tls)
  {
    log, f := Onward(site, n, k, log0, f0);
    Paid(site, n, log, f, Stage(Open(site.g.name(k)), 0, k + 1, k));
    log, f := AskOne(site, n, Then(log, Token), f, Stage(Open(site.g.name(k)), 1, k + 1, k));
  }

  /** `k` transactions, one address asked about in each and accepted, the last still open. */
  lemma {:induction false} OpenMany(site: Site, n: nat, k: nat) returns (log: Log, f: Far)
    requires !Bars(site.o, site.p, site.helo) && 1 <= k <= site.p.txLimit && k <= n
    ensures Moment(site, n, log, f, Stage(Open(site.g.name(k - 1)), 0, k, k)) && Dialogue.Answers(log) >= 1
    ensures f.state.helo && f.state.txns == k && (site.p.startTLS.Required? ==> f.state.tls)
  {
    if k == 1 {
      var plain;
      log, f, plain := Introduce(site, n);
      log, f := OpenOne(site, n, log, f, Stage(Introduced(plain), 1, 0, 0));
      log, f := AskOne(site, n, log, f, Stage(Open(site.g.name(0)), 1, 1, 0));
    } else {
      log, f := OpenMany(site, n, k - 1);
      log, f := OneMore(site, n, k - 1, log, f);
    }
  }

  /** One MAIL FROM too many, answered 250 all the same: the prober believes in a transaction the server
      never opened. */
  lemma OpenNone(site: Site, n: nat, log: Log, f: Far, s: Stage) returns (log': Log, f': Far)
    requires Moment(site, n, log, f, s) && s.link.Open? && s.mails < n && Dialogue.Answers(log) >= 1
    requires f.state.helo && (site.p.startTLS.Required? ==> f.state.tls)
    requires site.p.txLimit > 0 && site.p.txReply.code == 250 && f.state.txns >= site.p.txLimit
    ensures Moment(site, n, log', f', s.(link := Open(site.g.name(s.asked)), mails := s.mails + 1)) && !f'.state.mail
  {
    log', f' := CloseOne(site, n, log, f, s);
    log', f' := Told(site, n, log', f', s.(link := Cleared), MailFrom(site.g.name(s.asked)));
  }

  /** A RCPT where the server knows of no transaction. */
  lemma AskInVain(site: Site, n: nat, log: Log, f: Far, s: Stage) returns (log': Log, f': Far)
    requires Moment(site, n, log, f, s) && s.mails <= n && s.credit == 1 && s.link == Open(site.g.name(s.asked)) && !f.state.mail
    ensures At(log').Some? && Sparing(Start, log', n) && Pairs(log') == FirstNamed(site.g, s.asked + 1) && Questions(log') == {}
    ensures Unbidden(site.o, log') == 0 && MostTried(log') == s.asked + 1
    ensures LivedThrough(site.p, site.rd, site.helo, log', f') && f'.state.badSequence == 1
  {
    var cmd := Rcpt(site.g.someone(s.asked), site.g.name(s.asked));
    f' := Far(true, f.state.(badSequence := 1));
    assert Responds(site.p, site.rd, f, LineOf(cmd, site.helo), Ruling(Drop, BAD_SEQUENCE), true, Some(BAD_SEQUENCE), f');
    AskNext(site, n, log, f, s, BAD_SEQUENCE, f');
    log' := Then(log, Ask(cmd, Some(BAD_SEQUENCE)));
  }

  /** A server that does not bar the prober and answers 250 to a MAIL FROM it refuses draws a RCPT out of
      order from a prober that sends
      it one MAIL FROM more than it allows: each transaction for a domain of its own, with one address
      asked about and answered. */
  lemma HiddenLimitBreaksOrder(o: Options, p: Profile, rd: Reading, helo: string, g: Guests, n: nat) returns (log: Log, f: Far)
    requires !Bars(o, p, helo) && !LimitShows(p, n)
    ensures Unbidden(o, log) == 0 && MostTried(log) <= n
    ensures At(log).Some? && Sparing(Start, log, n) && LivedThrough(p, rd, helo, log, f) && f.state.badSequence == 1
    ensures Pairs(log) == FirstNamed(g, p.txLimit + 1) && Questions(log) == {}
  {
    var site, k := Site(o, p, rd, helo, g), p.txLimit;
    log, f := OpenMany(site, n, k);
    log, f := OpenNone(site, n, log, f, Stage(Open(site.g.name(k - 1)), 0, k, k));
    Paid(site, n, log, f, Stage(Open(site.g.name(k)), 0, k + 1, k));
    log, f := AskInVain(site, n, Then(log, Token), f, Stage(Open(site.g.name(k)), 1, k + 1, k));
  }
}
