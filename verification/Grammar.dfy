/** The verbs that go out on one connection of the prober, as sentences of a grammar: the one that always
    holds, and the stricter one of section 4.1.4 of RFC 5321 and when it does. */
module Grammar {
  import opened Wrappers
  import opened Replies
  import opened Dialogue

  /** The verbs that went out on the current connection, in order. A failed write counts as sent. */
  datatype Verb = EHLO | STARTTLS | MAIL | RCPT | RSET | QUIT

  function VerbsOf(cmd: Command): seq<Verb> {
    match cmd
    case Banner => []
    case Ehlo => [EHLO]
    case StartTLS => [STARTTLS]
    case MailFrom(_) => [MAIL]
    case Rcpt(_, _) => [RCPT]
    case Bogus(_, _) => [RCPT]
    case Rset => [RSET]
  }

  ghost function Verbs(log: Log): seq<Verb> {
    match log
    case Start => []
    case Then(before, Dialled(_, _)) => []
    case Then(before, Ask(cmd, _)) =>
      Verbs(before) + VerbsOf(cmd)
    case Then(before, Goodbye) => Verbs(before) + [RSET, QUIT]
    case Then(before, _) => Verbs(before)
  }

  /** EHLO [STARTTLS [EHLO]]. */
  ghost predicate Opening(v: seq<Verb>) {
    v == [EHLO] || v == [EHLO, STARTTLS] || v == [EHLO, STARTTLS, EHLO]
  }

  /** MAIL RCPT* (RSET MAIL RCPT*)*. */
  ghost predicate Transactions(v: seq<Verb>) {
    v != [] &&
    match v[|v| - 1]
    case MAIL => |v| == 1 || (v[|v| - 2] == RSET && Transactions(v[..|v| - 2]))
    case RCPT => Transactions(v[..|v| - 1])
    case _ => false
  }

  /** An opening, then transactions, then `r`. */
  ghost predicate Spoken(v: seq<Verb>, r: seq<Verb>) {
    exists o, t :: Opening(o) && Transactions(t) && v == o + t + r
  }

  /** The verbs of a connection: an opening, then transactions, then possibly a further RSET, then
      possibly the parting RSET QUIT. A refused RSET is followed by another RSET. */
  ghost predicate Grammatical(v: seq<Verb>) {
    || v == []
    || Opening(v)
    || Spoken(v, [])
    || Spoken(v, [RSET])
    || Spoken(v, [RSET, QUIT])
    || Spoken(v, [RSET, RSET, QUIT])
  }

  /** What the link says about the verbs that went out on it. */
  ghost predicate Fits(link: Link, v: seq<Verb>) {
    match link
    case Opened => v == []
    case Greeted => v == []
    case Introduced(plain) => Opening(v) && (plain ==> v == [EHLO])
    case Agreed => v == [EHLO, STARTTLS]
    case Shaken => v == [EHLO, STARTTLS]
    case Open(_) => Spoken(v, [])
    case Cleared => Spoken(v, [RSET])
    case Balked => Spoken(v, []) || Spoken(v, [RSET])
    case Quitting => Spoken(v, []) || Spoken(v, [RSET])
    case _ => Grammatical(v)
  }

  lemma SpokenMore(v: seq<Verb>, r: seq<Verb>, e: seq<Verb>)
    requires Spoken(v, r)
    ensures Spoken(v + e, r + e)
  {
    var o, t :| Opening(o) && Transactions(t) && v == o + t + r;
    assert v + e == o + t + (r + e);
  }

  lemma SpokenMail(v: seq<Verb>)
    requires Opening(v)
    ensures Spoken(v + [MAIL], [])
  {
    assert Transactions([MAIL]);
    assert v + [MAIL] == v + [MAIL] + [];
  }

  lemma SpokenRcpt(v: seq<Verb>)
    requires Spoken(v, [])
    ensures Spoken(v + [RCPT], [])
  {
    var o, t :| Opening(o) && Transactions(t) && v == o + t + [];
    var t' := t + [RCPT];
    assert t'[..|t'| - 1] == t;
    assert Transactions(t');
    assert v + [RCPT] == o + t' + [];
  }

  lemma SpokenSecondMail(v: seq<Verb>)
    requires Spoken(v, [RSET])
    ensures Spoken(v + [MAIL], [])
  {
    var o, t :| Opening(o) && Transactions(t) && v == o + t + [RSET];
    var t' := t + [RSET, MAIL];
    assert t'[..|t'| - 2] == t;
    assert Transactions(t');
    assert v + [MAIL] == o + t' + [];
  }

  lemma FitsTalk(link: Link, v: seq<Verb>, cmd: Command, answer: Option<Reply>)
    requires Fits(link, v) && Talk(link, cmd, answer).Some?
    ensures Fits(Talk(link, cmd, answer).value, v + VerbsOf(cmd))
  {
    match cmd
    case Banner =>
    case Ehlo =>
    case StartTLS =>
    case MailFrom(_) =>
      if link.Cleared? { SpokenSecondMail(v); } else { SpokenMail(v); }
    case Rcpt(_, _) => SpokenRcpt(v);
    case Bogus(_, _) => SpokenRcpt(v);
    case Rset => SpokenMore(v, [], [RSET]); assert [] + [RSET] == [RSET];
  }

  lemma FitsGoodbye(link: Link, v: seq<Verb>)
    requires Fits(link, v) && (link.Open? || link.Quitting?)
    ensures Grammatical(v + [RSET, QUIT])
  {
    if Spoken(v, []) {
      SpokenMore(v, [], [RSET, QUIT]);
      assert [] + [RSET, QUIT] == [RSET, QUIT];
    } else {
      SpokenMore(v, [RSET], [RSET, QUIT]);
      assert [RSET] + [RSET, QUIT] == [RSET, RSET, QUIT];
    }
  }

  lemma FitsGrammar(link: Link, v: seq<Verb>)
    requires Fits(link, v)
    ensures Grammatical(v)
  {
  }

  /** On every connection of an orderly log, at every moment, the verbs sent form a sentence of the
      grammar. */
  lemma {:induction false} VerbsFit(log: Log)
    requires At(log).Some?
    ensures Fits(At(log).value.link, Verbs(log))
    ensures Grammatical(Verbs(log))
  {
    match log
    case Start =>
    case Then(before, e) =>
      VerbsFit(before);
      var link := At(before).value.link;
      var v := Verbs(before);
      match e {
        case Ask(cmd, answer) => FitsTalk(link, v, cmd, answer);
        case Goodbye => FitsGoodbye(link, v);
        case Dialled(_, _) =>
        case _ => assert Verbs(log) == v;
      }
      FitsGrammar(At(log).value.link, Verbs(log));
  }

  // ---------------------------------------------------------------- the strict grammar

  /** EHLO [STARTTLS [EHLO]] MAIL RCPT* (RSET MAIL RCPT*)* [RSET QUIT], or a prefix of it. */
  ghost predicate Strict(v: seq<Verb>) {
    || v == []
    || Opening(v)
    || Spoken(v, [])
    || Spoken(v, [RSET])
    || Spoken(v, [RSET, QUIT])
  }

  /** The last command on the connection in use was a RSET answered with something other than 250. */
  ghost predicate RefusedReset(log: Log) {
    && log.Then? && !log.event.Dialled?
    && (if log.event.Ask? then
          log.event.cmd.Rset? && log.event.answer.Some? && log.event.answer.value.code != 250
        else RefusedReset(log.before))
  }

  /** On the connection in use leave was taken after a RSET answered with something other than 250. */
  ghost predicate LeftAtReset(log: Log) {
    && log.Then? && !log.event.Dialled?
    && (if log.event.Goodbye? then RefusedReset(log.before) else LeftAtReset(log.before))
  }

  /** What the link, and whether a RSET was refused, say about the verbs that went out. */
  ghost predicate FitsStrictly(log: Log, link: Link, v: seq<Verb>) {
    match link
    case Opened => v == [] && !LeftAtReset(log)
    case Greeted => v == [] && !LeftAtReset(log)
    case Introduced(plain) => Opening(v) && (plain ==> v == [EHLO]) && !LeftAtReset(log)
    case Agreed => v == [EHLO, STARTTLS] && !LeftAtReset(log)
    case Shaken => v == [EHLO, STARTTLS] && !LeftAtReset(log)
    case Open(_) => Spoken(v, []) && !LeftAtReset(log) && !RefusedReset(log)
    case Cleared => Spoken(v, [RSET]) && !LeftAtReset(log)
    case Balked => Spoken(v, if RefusedReset(log) then [RSET] else []) && !LeftAtReset(log)
    case Quitting => Spoken(v, if RefusedReset(log) then [RSET] else []) && !LeftAtReset(log)
    case _ => if LeftAtReset(log) then Spoken(v, [RSET, RSET, QUIT]) else Strict(v)
  }

  lemma StrictTalk(log: Log, link: Link, v: seq<Verb>, cmd: Command, answer: Option<Reply>)
    requires FitsStrictly(log, link, v) && Talk(link, cmd, answer).Some?
    ensures FitsStrictly(Then(log, Ask(cmd, answer)), Talk(link, cmd, answer).value, v + VerbsOf(cmd))
  {
    assert LeftAtReset(Then(log, Ask(cmd, answer))) == LeftAtReset(log);
    match cmd
    case Banner => assert v + [] == v;
    case Ehlo =>
    case StartTLS =>
    case MailFrom(_) =>
      if link.Cleared? { SpokenSecondMail(v); } else { SpokenMail(v); }
    case Rcpt(_, _) => SpokenRcpt(v);
    case Bogus(_, _) => SpokenRcpt(v);
    case Rset => SpokenMore(v, [], [RSET]); assert [] + [RSET] == [RSET];
  }

  lemma StrictGoodbye(log: Log, link: Link, v: seq<Verb>)
    requires FitsStrictly(log, link, v) && (link.Open? || link.Quitting?)
    ensures FitsStrictly(Then(log, Goodbye), Parted, v + [RSET, QUIT])
  {
    if RefusedReset(log) {
      SpokenMore(v, [RSET], [RSET, QUIT]);
      assert [RSET] + [RSET, QUIT] == [RSET, RSET, QUIT];
    } else {
      SpokenMore(v, [], [RSET, QUIT]);
      assert [] + [RSET, QUIT] == [RSET, QUIT];
    }
  }

  lemma StrictElse(log: Log, link: Link, v: seq<Verb>, e: Event, s: State)
    requires FitsStrictly(log, link, v) && s.link == link && Next(s, e).Some?
    requires !e.Ask? && !e.Goodbye? && !e.Dialled?
    ensures FitsStrictly(Then(log, e), Next(s, e).value.link, v)
  {
    assert LeftAtReset(Then(log, e)) == LeftAtReset(log);
    assert RefusedReset(Then(log, e)) == RefusedReset(log);
  }

  lemma {:induction false} VerbsFitStrictly(log: Log)
    requires At(log).Some?
    ensures FitsStrictly(log, At(log).value.link, Verbs(log))
  {
    if log.Start? {
    } else {
      VerbsFitStrictly(log.before);
      var s, v, e := At(log.before).value, Verbs(log.before), log.event;
      if e.Ask? {
        StrictTalk(log.before, s.link, v, e.cmd, e.answer);
      } else if e.Goodbye? {
        StrictGoodbye(log.before, s.link, v);
      } else if !e.Dialled? {
        StrictElse(log.before, s.link, v, e, s);
      }
    }
  }

  /** A sentence of the strict grammar that ends in QUIT has no two RSETs before it. */
  lemma StrictQuits(v: seq<Verb>)
    requires Strict(v) && v != [] && v[|v| - 1] == QUIT
    ensures |v| >= 3 && v[|v| - 3] != RSET
  {
    var r :| r in {[], [RSET], [RSET, QUIT]} && Spoken(v, r);
    var o, t :| Opening(o) && Transactions(t) && v == o + t + r;
    assert t != [] && t[|t| - 1] != RSET && t[|t| - 1] != QUIT;
    assert r == [RSET, QUIT];
    assert v[|v| - 3] == t[|t| - 1];
  }

  lemma TwoResets(v: seq<Verb>)
    requires Spoken(v, [RSET, RSET, QUIT])
    ensures |v| >= 3 && v[|v| - 1] == QUIT && v[|v| - 3] == RSET
  {
    var o, t :| Opening(o) && Transactions(t) && v == o + t + [RSET, RSET, QUIT];
  }

  /** The verbs of a connection keep to the strict grammar exactly as long as leave was not taken after a
      RSET answered with something other than 250. */
  lemma StrictExactlyWhen(log: Log)
    requires At(log).Some?
    ensures Strict(Verbs(log)) <==> !LeftAtReset(log)
  {
    VerbsFitStrictly(log);
    var v := Verbs(log);
    if LeftAtReset(log) {
      TwoResets(v);
      if Strict(v) {
        StrictQuits(v);
      }
    }
  }

  /** The log at a state, with what was said on the connection. */
  ghost predicate Stands(log: Log, s: State, v: seq<Verb>) {
    At(log) == Some(s) && Verbs(log) == v
  }

  lemma Asks(log: Log, s: State, v: seq<Verb>, cmd: Command, r: Reply)
    requires Stands(log, s, v) && Next(s, Ask(cmd, Some(r))).Some?
    ensures Stands(Then(log, Ask(cmd, Some(r))), Next(s, Ask(cmd, Some(r))).value, v + VerbsOf(cmd))
  {
  }

  lemma Reaches() returns (log: Log)
    ensures Stands(log, State(true, 1, Opened), [])
  {
    var leased := Then(Start, Leased);
    assert At(leased) == Some(State(true, 0, NoLink));
    log := Then(Then(leased, Token), Dialled("", true));
  }

  lemma TakesLeave(log: Log, v: seq<Verb>) returns (log': Log)
    requires Stands(log, State(true, 0, Balked), v) && RefusedReset(log)
    ensures At(log').Some? && Verbs(log') == v + [RSET, QUIT] && LeftAtReset(log')
  {
    log' := Then(Then(log, FellBack(SecondMail)), Goodbye);
  }

  /** A log of the kind: a RSET refused with a 500, so that grouping is given up and leave taken. */
  lemma ResetRefused() returns (log: Log)
    ensures At(log).Some? && Verbs(log) == [EHLO, MAIL, RCPT, RSET, RSET, QUIT] && !Strict(Verbs(log))
  {
    var ok := Reply(250, "");
    log := Reaches();
    Asks(log, State(true, 1, Opened), [], Banner, Reply(220, ""));
    log := Then(log, Ask(Banner, Some(Reply(220, ""))));
    Asks(log, State(true, 1, Greeted), [], Ehlo, ok);
    log := Then(log, Ask(Ehlo, Some(ok)));
    Asks(log, State(true, 1, Introduced(true)), [EHLO], MailFrom("a"), ok);
    log := Then(log, Ask(MailFrom("a"), Some(ok)));
    Asks(log, State(true, 1, Open("a")), [EHLO, MAIL], Rcpt("x@a", "a"), ok);
    log := Then(log, Ask(Rcpt("x@a", "a"), Some(ok)));
    Asks(log, State(true, 0, Open("a")), [EHLO, MAIL, RCPT], Rset, Reply(500, ""));
    log := Then(log, Ask(Rset, Some(Reply(500, ""))));
    log := TakesLeave(log, [EHLO, MAIL, RCPT, RSET]);
    StrictExactlyWhen(log);
  }
}
